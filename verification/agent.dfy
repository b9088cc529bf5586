/**
 * The agent pipeline of the two clients: a state record threaded through
 * three nodes, schema introspection, SQL generation and SQL execution, run
 * once each in that fixed order.
 *
 * The HTTP endpoints and the language model are parameters: the schema
 * endpoint's answer is a value, and the model and the query endpoint are
 * functions from what they are sent to what they answer. A call that raises
 * is a `Failure` or `Fail` carrying its message; every call that can raise
 * comes before the node changes anything, so a failing node leaves the state
 * as it was.
 */
module Agent {
  import opened Wrappers
  import opened SqlGeneration

  /** A role-tagged conversation message. */
  datatype Message = SystemMessage(content: string) | HumanMessage(content: string) | AiMessage(content: string)

  /** The nodes `build_graph` adds, and END. */
  datatype Node = IntrospectSchemaNode | LlmGenerateSqlNode | QuerySqlNode | End

  /** The entry point `build_graph` sets. */
  const Entry: Node := IntrospectSchemaNode

  /** The edges `build_graph` adds: one outgoing edge per node, so no branching. */
  function Successor(n: Node): (r: Node)
    requires n != End
    ensures DistanceToEnd(r) == DistanceToEnd(n) - 1
  {
    match n
    case IntrospectSchemaNode => LlmGenerateSqlNode
    case LlmGenerateSqlNode => QuerySqlNode
    case QuerySqlNode => End
  }

  /** How many edges separate a node from END. */
  function DistanceToEnd(n: Node): nat
  {
    match n
    case IntrospectSchemaNode => 3
    case LlmGenerateSqlNode => 2
    case QuerySqlNode => 1
    case End => 0
  }

  /** The nodes a run starting at `n` executes before it reaches END. */
  function PathFrom(n: Node): (r: seq<Node>)
    ensures |r| == DistanceToEnd(n) && End !in r
    decreases DistanceToEnd(n)
  {
    if n == End then [] else [n] + PathFrom(Successor(n))
  }

  /**
   * A run executes introspection, then generation, then execution, each
   * exactly once; the runs that stop after the first or the second node have
   * completed exactly the nodes before it.
   */
  lemma GraphOrder()
    ensures PathFrom(Entry) == [IntrospectSchemaNode, LlmGenerateSqlNode, QuerySqlNode]
    ensures PathFrom(Entry)[..1] == [IntrospectSchemaNode]
    ensures PathFrom(Entry)[..2] == [IntrospectSchemaNode, LlmGenerateSqlNode]
    ensures forall n :: n != End ==> multiset(PathFrom(Entry))[n] == 1
  {
  }

  /** What precedes the error message when the schema endpoint cannot be read. */
  const SchemaFetchFailedPrefix := "Schema fetch failed: "

  /** The schema text the LangGraph client embeds: the endpoint's, or the reason it is missing. */
  function SchemaTextOrFallback(schemaResponse: Result<string>): string
  {
    match schemaResponse
    case Success(schema) => schema
    case Failure(e) => SchemaFetchFailedPrefix + e
  }

  /** The two messages introspection leaves: the instruction with the schema, then the question. */
  function OpeningMessages(schema: string, query: string): seq<Message>
  {
    [SystemMessage(SystemPrompt(schema)), HumanMessage(query)]
  }

  /** The message `str()` of the `KeyError` raised when no SQL has been generated. */
  const MissingSqlError := "'generated_sql'"

  /** The state record: the question, the conversation, and the fields the nodes fill in. */
  class PipelineState {
    var query: string
    var messages: seq<Message>
    var generatedSql: Option<string>
    var result: Option<string>
    /** The nodes run so far, in order. */
    ghost var trace: seq<Node>

    /** The initial state `{"query": query, "messages": []}`. */
    constructor (query: string)
      ensures this.query == query && messages == [] && generatedSql == None && result == None
      ensures trace == []
    {
      this.query := query;
      messages := [];
      generatedSql := None;
      result := None;
      trace := [];
    }

    /**
     * `call_introspect_schema` of the LangGraph client: a failed fetch
     * becomes a fallback schema text. The messages are replaced, not
     * appended to, by the instruction and the question.
     */
    method IntrospectSchemaWithFallback(schemaResponse: Result<string>)
      modifies this`messages, this`trace
      ensures messages == OpeningMessages(SchemaTextOrFallback(schemaResponse), query)
      ensures trace == old(trace) + [IntrospectSchemaNode]
    {
      var schema := match schemaResponse
        case Success(s) => s
        case Failure(e) => SchemaFetchFailedPrefix + e;
      var systemPrompt := FormatSystemPrompt(schema);
      messages := [SystemMessage(systemPrompt), HumanMessage(query)];
      trace := trace + [IntrospectSchemaNode];
    }

    /**
     * `call_introspect_schema` of the API client: a failed fetch raises,
     * leaving the state as it was.
     */
    method IntrospectSchema(schemaResponse: Result<string>) returns (outcome: Outcome)
      modifies this`messages, this`trace
      ensures schemaResponse.Failure? ==>
        outcome == Fail(schemaResponse.error) && messages == old(messages) && trace == old(trace)
      ensures schemaResponse.Success? ==>
        outcome == Pass && messages == OpeningMessages(schemaResponse.value, query) &&
        trace == old(trace) + [IntrospectSchemaNode]
    {
      if schemaResponse.Failure? {
        return Fail(schemaResponse.error);
      }
      var systemPrompt := FormatSystemPrompt(schemaResponse.value);
      messages := [SystemMessage(systemPrompt), HumanMessage(query)];
      trace := trace + [IntrospectSchemaNode];
      return Pass;
    }

    /**
     * `call_llm_generate_sql`: the model is sent the messages so far; its
     * reply is appended as one message, and the cleaned reply becomes the
     * generated SQL.
     */
    method LlmGenerateSql(llm: seq<Message> -> Result<string>) returns (outcome: Outcome)
      modifies this`messages, this`generatedSql, this`trace
      ensures llm(old(messages)).Failure? ==>
        outcome == Fail(llm(old(messages)).error) &&
        messages == old(messages) && generatedSql == old(generatedSql) && trace == old(trace)
      ensures llm(old(messages)).Success? ==>
        var reply := llm(old(messages)).value;
        outcome == Pass && messages == old(messages) + [AiMessage(reply)] &&
        generatedSql == Some(CleanSql(reply)) && trace == old(trace) + [LlmGenerateSqlNode]
    {
      var response := llm(messages);
      if response.Failure? {
        return Fail(response.error);
      }
      var sql := CleanSql(response.value);
      messages := messages + [AiMessage(response.value)];
      generatedSql := Some(sql);
      trace := trace + [LlmGenerateSqlNode];
      return Pass;
    }

    /**
     * `call_query_sql`: exactly the generated SQL is posted, and the
     * endpoint's `result` becomes the result.
     */
    method QuerySql(server: string -> Result<string>) returns (outcome: Outcome)
      modifies this`result, this`trace
      ensures generatedSql.None? ==>
        outcome == Fail(MissingSqlError) && result == old(result) && trace == old(trace)
      ensures generatedSql.Some? && server(generatedSql.value).Failure? ==>
        outcome == Fail(server(generatedSql.value).error) && result == old(result) && trace == old(trace)
      ensures generatedSql.Some? && server(generatedSql.value).Success? ==>
        outcome == Pass && result == Some(server(generatedSql.value).value) &&
        trace == old(trace) + [QuerySqlNode]
    {
      if generatedSql.None? {
        return Fail(MissingSqlError);
      }
      var response := server(generatedSql.value);
      if response.Failure? {
        return Fail(response.error);
      }
      result := Some(response.value);
      trace := trace + [QuerySqlNode];
      return Pass;
    }
  }

  /** What a run reports: the question, the SQL that was sent and the endpoint's result. */
  datatype Answer = Answer(query: string, generatedSql: string, result: string)

  /**
   * The two nodes after introspection, along the graph's edges to END: the
   * model is sent the messages introspection left, and the cleaned reply is
   * sent to the query endpoint. A failing step ends the run with its error.
   */
  method GenerateThenQuery(state: PipelineState, llm: seq<Message> -> Result<string>, server: string -> Result<string>)
    returns (answer: Result<Answer>)
    modifies state`messages, state`generatedSql, state`result, state`trace
    ensures match llm(old(state.messages))
      case Failure(e) => answer == Failure(e) && state.trace == old(state.trace)
      case Success(reply) =>
        match server(CleanSql(reply))
        case Failure(e) => answer == Failure(e) && state.trace == old(state.trace) + [LlmGenerateSqlNode]
        case Success(res) =>
          answer == Success(Answer(state.query, CleanSql(reply), res)) &&
          state.trace == old(state.trace) + [LlmGenerateSqlNode, QuerySqlNode]
  {
    var generated := state.LlmGenerateSql(llm);
    if generated.Fail? {
      return Failure(generated.error);
    }
    var executed := state.QuerySql(server);
    if executed.Fail? {
      return Failure(executed.error);
    }
    return Success(Answer(state.query, state.generatedSql.value, state.result.value));
  }

  /**
   * The run of the LangGraph client: from `{"query": query, "messages": []}`
   * along the graph's edges to END. Introspection never fails; a failing
   * model or query endpoint ends the run with its error. `visited` is the
   * nodes that completed.
   */
  method RunLangGraphAgent(query: string, schemaResponse: Result<string>,
                           llm: seq<Message> -> Result<string>, server: string -> Result<string>)
    returns (answer: Result<Answer>, ghost visited: seq<Node>)
    ensures var opening := OpeningMessages(SchemaTextOrFallback(schemaResponse), query);
      match llm(opening)
      case Failure(e) => answer == Failure(e)
      case Success(reply) =>
        match server(CleanSql(reply))
        case Failure(e) => answer == Failure(e)
        case Success(res) => answer == Success(Answer(query, CleanSql(reply), res))
    ensures var opening := OpeningMessages(SchemaTextOrFallback(schemaResponse), query);
      visited == if llm(opening).Failure? then PathFrom(Entry)[..1]
                 else if answer.Failure? then PathFrom(Entry)[..2]
                 else PathFrom(Entry)
  {
    GraphOrder();
    var state := new PipelineState(query);
    state.IntrospectSchemaWithFallback(schemaResponse);
    answer := GenerateThenQuery(state, llm, server);
    visited := state.trace;
  }

  /**
   * `ask_sql` of the API client: the same run, except that a failed schema
   * fetch ends it too, and the response echoes the question with the
   * generated SQL and the result.
   */
  method AskSql(query: string, schemaResponse: Result<string>,
                llm: seq<Message> -> Result<string>, server: string -> Result<string>)
    returns (answer: Result<Answer>, ghost visited: seq<Node>)
    ensures schemaResponse.Failure? ==> answer == Failure(schemaResponse.error)
    ensures schemaResponse.Success? ==>
      var opening := OpeningMessages(schemaResponse.value, query);
      match llm(opening)
      case Failure(e) => answer == Failure(e)
      case Success(reply) =>
        match server(CleanSql(reply))
        case Failure(e) => answer == Failure(e)
        case Success(res) => answer == Success(Answer(query, CleanSql(reply), res))
    ensures visited ==
      if schemaResponse.Failure? then []
      else if llm(OpeningMessages(schemaResponse.value, query)).Failure? then PathFrom(Entry)[..1]
      else if answer.Failure? then PathFrom(Entry)[..2]
      else PathFrom(Entry)
  {
    GraphOrder();
    var state := new PipelineState(query);
    var introspected := state.IntrospectSchema(schemaResponse);
    if introspected.Fail? {
      return Failure(introspected.error), state.trace;
    }
    answer := GenerateThenQuery(state, llm, server);
    visited := state.trace;
  }
}
