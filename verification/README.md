# Text-to-SQL agent, modelled in Dafny

This project models the text-to-SQL agent of the `mcp_sql` package. It has four parts:

- **Schema introspection** (`introspect_schema`). The server renders the database catalog as text for the language model. There is one section per user table, in catalog order, and the sections are separated by a blank line. Each section is a header line, then one line per column, then one line per foreign key. An empty catalog gives a fixed sentence. Any failure gives an error sentence instead of an exception.
- **Query execution** (`query_sql`). The server turns each fetched row into a mapping from column name to value, built with Python's `dict(zip(columns, row))`. A failing statement gives a single `{"error": message}` row.
- **SQL generation**. This step covers the system instruction that embeds the schema text, and the clean-up chain `reply.strip().strip("```sql").strip("```")` applied to the model's reply.
- **The agent pipeline**. Two clients each thread one state record through three nodes: introspection, generation and execution. The nodes run once each, in that fixed order. Both clients compile the same LangGraph graph: one runs it as a script, and the API client wraps it in the `ask_sql` HTTP endpoint.

## Modules

| file | module | contents |
|---|---|---|
| `wrappers.dfy` | `Wrappers` | `Option`, `Result` and `Outcome`. A call that raises is modelled as a `Failure`/`Fail` carrying its message. |
| `text.dfy` | `Text` | Python's whitespace set, `str.strip(chars)` as `StripChars`, `str.strip()` as `Strip`, and `str.join` as `Join`, with their laws. |
| `schema.dfy` | `SchemaIntrospection` | The catalog, the line formats and `RenderSchema`. Also the pure specification `IntrospectSchema` and the loop method `IntrospectSchemaLoop`, which is proved equal to it. |
| `query.dfy` | `QueryExecution` | Cursor outcomes, Python dictionaries as ordered entry lists, and `QuerySql`. |
| `generation.dfy` | `SqlGeneration` | The system instruction and `CleanSql`, with its properties and concrete effects. |
| `agent.dfy` | `Agent` | The graph, the `PipelineState` class with one method per node, and the two drivers. |

The database engine, the HTTP endpoints and the language model are inputs:

- A `Catalog` holds the engine's answer to each catalog query. The `sqlite_master` listing is a value. `PRAGMA table_info`, `PRAGMA foreign_key_list` and the `sqlite_%` filter are functions of the table name.
- The schema endpoint's answer is a `Result<string>`.
- The model and the query endpoint are functions from what they are sent to what they answer. A node's contract can therefore say exactly what is sent.

Python dictionaries are ordered entry lists. A duplicate key keeps its first position and takes its last value, as `dict` does.

Where the source and its intended behaviour part ways, the model follows the source:

- **Fence stripping removes character sets, not literal fences.** `.strip("```sql")` removes any run of the characters `` ` ``, `s`, `q` and `l` from both ends. So `SELECT name FROM employees` loses its final `s`, and `select 1` loses its first `s`. Both effects are proved (`CleanSqlTrailingS`, `CleanSqlLeadingS`).
- **A fenced reply keeps the line breaks that sat inside the fence** (`CleanSqlFenced`, `CleanSqlFencedUntagged`). For this reason the whole clean-up chain is not idempotent (`CleanSqlNotIdempotent`). Only its fence-character part is idempotent (`CleanSqlFenceIdempotent`).

## Model

| member | source | states |
|---|---|---|
| Text.StripCharsSpec | mcp_sql/mcp_sql_client_langgraph.py:70 | `str.strip(chars)` cuts the longest run of set characters from each end: the result is the slice between the cuts, every removed character is in the set, and neither end of a non-empty result is in the set |
| Text.StripCharsUnique | mcp_sql/mcp_sql_client_langgraph.py:70 | any slice whose cut-off ends are all set characters and whose own ends are not is exactly what `str.strip(chars)` returns |
| Text.StripCharsIdempotent | mcp_sql/mcp_sql_client_langgraph.py:70 | stripping a character set twice gives the same result as once |
| Text.StripCharsOccurs | mcp_sql/mcp_sql_client_langgraph.py:70 | the stripped string occurs contiguously in the original, right after the removed leading run |
| Text.JoinConcat | mcp_sql/mcp_sql.py:88 | joining two lists of parts equals joining each and putting the separator between them only when both are non-empty |
| Text.JoinAt | mcp_sql/mcp_sql.py:91 | the i-th part of a join sits between the join of the parts before it and the join of the parts after it, separated by the separator |
| Text.NonEmpty | mcp_sql/mcp_sql.py:79 | `filter(None, parts)` keeps exactly the non-empty strings of the list and never grows it |
| Text.NonEmptyConcat | mcp_sql/mcp_sql.py:79 | filtering keeps order: the kept parts of a concatenation are those of each side, in turn |
| Text.NonEmptyPair | mcp_sql/mcp_sql.py:79 | `filter(None, [is_pk, is_not_null])` keeps whichever of the two is non-empty, primary key first |
| SchemaIntrospection.WithoutSystemTables | mcp_sql/mcp_sql.py:60-63 | a table name is listed iff the catalog lists it and the engine does not classify it as a system table |
| SchemaIntrospection.WithoutSystemTablesConcat | mcp_sql/mcp_sql.py:60-63 | the filter keeps catalog order: the names kept from a concatenation are those kept from each side, in turn |
| SchemaIntrospection.Constraints | mcp_sql/mcp_sql.py:77-79 | the constraint text is empty iff the column is neither a primary key nor NOT NULL; otherwise it ends in a non-space character and equals the markers ` PRIMARY KEY` (iff pk is non-zero) then ` NOT NULL` (iff notnull is non-zero), without their leading space |
| SchemaIntrospection.StripColumnLine | mcp_sql/mcp_sql.py:80 | stripping `head + " " + constraints` drops the space exactly when there are no constraints, so an unmarked column line has no trailing space |
| SchemaIntrospection.FormatColumnLine | mcp_sql/mcp_sql.py:74-80 | the line built as the server builds it is `- name (type)` followed by ` PRIMARY KEY` iff pk is non-zero and ` NOT NULL` iff notnull is non-zero, in that order |
| SchemaIntrospection.ForeignKeyLine | mcp_sql/mcp_sql.py:86 | the line is exactly the `- FOREIGN KEY: ` bullet, the local column, the arrow, the referenced table and then `.`, the referenced column and a closing backquote, in that order and nothing else, so it points from the local column to the referenced table and column |
| SchemaIntrospection.SectionLayout | mcp_sql/mcp_sql.py:88 | a section is the ``Table `name`:`` header line, then the column lines, then the foreign-key lines, separated by line breaks, with columns always before foreign keys |
| SchemaIntrospection.RenderSchema | mcp_sql/mcp_sql.py:65-66 | the rendered schema is never empty, and it is the no-tables sentence iff there are no user tables |
| SchemaIntrospection.RenderSchemaSection | mcp_sql/mcp_sql.py:91 | each table's section appears in the output between the sections of the tables before it and those after it, separated by a blank line |
| SchemaIntrospection.ReadTables | mcp_sql/mcp_sql.py:69-83 | reading all tables succeeds iff every table reads, keeps catalog order, and otherwise fails with the message of the first table that does not read |
| SchemaIntrospection.ReadTablesStopsAt | mcp_sql/mcp_sql.py:93-94 | the first table that fails to read decides the error; later tables do not matter |
| SchemaIntrospection.IntrospectSchema | mcp_sql/mcp_sql.py:54-94 | the introspection text is never empty, and it is the no-tables sentence iff the table listing succeeds with no user table |
| SchemaIntrospection.IntrospectSchemaCases | mcp_sql/mcp_sql.py:59-94 | the text is `Schema introspection failed: ` + message when listing the tables raises; with user tables listed, it is that prefix + the message of the first table whose read raises, and when every read succeeds it is the sections of the tables as read, one per listed name in catalog order, joined by blank lines |
| SchemaIntrospection.CollectColumnLines | mcp_sql/mcp_sql.py:73-80 | the accumulating loop over columns produces exactly the column lines |
| SchemaIntrospection.CollectForeignKeyLines | mcp_sql/mcp_sql.py:84-86 | the accumulating loop over foreign keys produces exactly the foreign-key lines |
| SchemaIntrospection.RenderTableSection | mcp_sql/mcp_sql.py:70-88 | one iteration of the table loop yields that table's section, or the error of the pragma that raised |
| SchemaIntrospection.IntrospectSchemaLoop | mcp_sql/mcp_sql.py:54-94 | the nested accumulating loops, with the early return and the catch-all, compute exactly the specified introspection text |
| QueryExecution.Lookup | mcp_sql/mcp_sql.py:106 | a key is absent from a mapping iff it is not among the mapping's keys |
| QueryExecution.LookupFirst | mcp_sql/mcp_sql.py:106 | a present key's value is the value of its first entry |
| QueryExecution.Insert | mcp_sql/mcp_sql.py:106 | assigning a key keeps an existing key's position, or appends the key when it is new |
| QueryExecution.InsertLookup | mcp_sql/mcp_sql.py:106 | after assigning a key, that key maps to the new value and every other key to what it mapped to before |
| QueryExecution.DictOf | mcp_sql/mcp_sql.py:106 | the keys of `dict(pairs)` are the keys of the pairs, each once, in the order they first occur |
| QueryExecution.DictOfSpec | mcp_sql/mcp_sql.py:106 | in `dict(pairs)` each key maps to the value of its last pair |
| QueryExecution.FirstOccurrencesDistinct | mcp_sql/mcp_sql.py:106 | a mapping's keys are distinct and are exactly the keys of its pairs |
| QueryExecution.FirstOccurrencesOfDistinct | mcp_sql/mcp_sql.py:106 | distinct keys all survive, in their own order |
| QueryExecution.QuerySql | mcp_sql/mcp_sql.py:99-108 | a failing statement gives exactly one row, `{"error": message}`; otherwise there is one mapping per fetched row, in order, whose keys are the distinct column names that `zip` pairs with a value and whose values are those of the last column of that name |
| QueryExecution.QuerySqlDistinctColumns | mcp_sql/mcp_sql.py:104-106 | with distinct column names and a full row, a mapping's keys are the column names in order and each maps to its own row value |
| QueryExecution.LastValueOfDistinct | mcp_sql/mcp_sql.py:106 | with distinct keys, each key's last value is the value paired with it |
| QueryExecution.QuerySqlNoDescription | mcp_sql/mcp_sql.py:104 | without a cursor description, every row becomes an empty mapping |
| SqlGeneration.SystemPromptLayout | mcp_sql/mcp_sql_client_langgraph.py:45-57 | the schema text sits verbatim in the instruction, right after the `--- DATABASE SCHEMA ---` line and right before the line of dashes |
| SqlGeneration.FormatSystemPrompt | mcp_sql/mcp_sql_client_langgraph.py:45-57 | stripping the template removes only its opening and closing line breaks, so the schema text sits verbatim between the `--- DATABASE SCHEMA ---` line and the line of dashes |
| SqlGeneration.PromptFramed | mcp_sql/mcp_sql_client.py:46-58 | the same template, stripped in the API client, is the same instruction |
| SqlGeneration.CleanSql | mcp_sql/mcp_sql_client_langgraph.py:70 | the cleaned SQL neither starts nor ends with a backtick, `s`, `q` or `l` |
| SqlGeneration.CleanSqlFinalStripNoOp | mcp_sql/mcp_sql_client_langgraph.py:70 | the final `.strip("```")` never removes anything |
| SqlGeneration.CleanSqlOccurs | mcp_sql/mcp_sql_client_langgraph.py:70 | the cleaned SQL is a contiguous piece of the reply |
| SqlGeneration.FenceCharsEnds | mcp_sql/mcp_sql_client.py:68 | after `.strip("```sql")` neither end is a backtick, `s`, `q` or `l` |
| SqlGeneration.CleanSqlFenceIdempotent | mcp_sql/mcp_sql_client_langgraph.py:70 | repeating the two fence strips on the cleaned SQL changes nothing |
| SqlGeneration.CleanSqlKeepsBareStatement | mcp_sql/mcp_sql_client.py:68 | a reply whose ends are neither whitespace nor fence characters passes through unchanged |
| SqlGeneration.CleanSqlFenced | mcp_sql/mcp_sql_client_langgraph.py:70 | a reply fenced with ```` ```sql ```` and ```` ``` ```` becomes its body unchanged, line breaks at the body's ends included, when the body neither starts nor ends with a backtick, `s`, `q` or `l` |
| SqlGeneration.CleanSqlFencedUntagged | mcp_sql/mcp_sql_client.py:68 | the same for a fence without a language tag |
| SqlGeneration.CleanSqlFencedReply | mcp_sql/mcp_sql_client_langgraph.py:70 | an instance: ```` ```sql\nSELECT 1\n``` ```` becomes `\nSELECT 1\n` |
| SqlGeneration.CleanSqlSecondPass | mcp_sql/mcp_sql_client_langgraph.py:70 | cleaning `\nSELECT 1\n` gives `SELECT 1` |
| SqlGeneration.CleanSqlNotIdempotent | mcp_sql/mcp_sql_client_langgraph.py:70 | the whole clean-up chain is not idempotent: a second pass over a fenced reply changes it |
| SqlGeneration.CleanSqlTrailingS | mcp_sql/mcp_sql_client.py:68 | `SELECT name FROM employees` loses its final `s` |
| SqlGeneration.CleanSqlLeadingS | mcp_sql/mcp_sql_client_langgraph.py:70 | `select 1` loses its leading `s` |
| Agent.Successor | mcp_sql/mcp_sql_client_langgraph.py:92-95 | every edge leads one step closer to END, so the graph has no cycle |
| Agent.PathFrom | mcp_sql/mcp_sql_client_langgraph.py:92-95 | following the edges from a node reaches END after as many steps as the node is distant from it, with END never run as a node |
| Agent.GraphOrder | mcp_sql/mcp_sql_client.py:84-87 | from the entry point the graph runs introspection, generation and execution, each exactly once, in that order, with no branching; a run stopped after one or two nodes has completed exactly the nodes before that point |
| Agent.PipelineState.constructor | mcp_sql/mcp_sql_client.py:102 | the initial state holds the question and no messages, SQL or result |
| Agent.PipelineState.IntrospectSchemaWithFallback | mcp_sql/mcp_sql_client_langgraph.py:33-63 | the messages are replaced, not appended to, by exactly the instruction and the question; a failed fetch embeds `Schema fetch failed: ` + message as the schema and still succeeds; nothing else changes |
| Agent.PipelineState.IntrospectSchema | mcp_sql/mcp_sql_client.py:42-64 | a failed fetch propagates and leaves the state unchanged; otherwise the messages become exactly the instruction with the fetched schema and the question |
| Agent.PipelineState.LlmGenerateSql | mcp_sql/mcp_sql_client_langgraph.py:67-74 | the model is sent the current messages; the messages grow by exactly its reply with the earlier ones kept, the generated SQL becomes the cleaned reply, and the question is untouched; a failing model changes nothing |
| Agent.PipelineState.QuerySql | mcp_sql/mcp_sql_client_langgraph.py:77-83 | exactly the generated SQL is sent, and only the result changes, to the endpoint's result; with no generated SQL it raises `KeyError` and changes nothing |
| Agent.GenerateThenQuery | mcp_sql/mcp_sql_client_langgraph.py:67-83 | the model is sent the messages introspection left, its cleaned reply is sent to the query endpoint, and the answer holds the question, that SQL and the endpoint's result; a failing model or endpoint ends the run with its error, and the trace grows by exactly the nodes that completed |
| Agent.RunLangGraphAgent | mcp_sql/mcp_sql_client_langgraph.py:99-107 | a run from `{query, messages: []}` sends the model the instruction (with the fetched or fallback schema) and the question, sends the cleaned reply to the query endpoint, and reports its result; the nodes complete in graph order, and a failing step ends the run with its error |
| Agent.AskSql | mcp_sql/mcp_sql_client.py:100-108 | the response echoes the question unchanged, with the SQL that was sent and the endpoint's result; a failed schema fetch, model call or query ends the request with that error |

## Left out

- The SQLite engine, the fixture tables and their rows (mcp_sql/mcp_sql.py:8-47). The catalog answers and cursor outcomes are inputs.
- The `sqlite_%` LIKE filter. Its wildcard and case rules belong to the engine, so it is the catalog's `isSystemTable` function.
- The FastAPI and FastMCP transport: the `/query` and `/schema` endpoints, `Client.call_tool`, and the `result[0].text` serialisation that turns `query_sql`'s rows into the string a client receives. The clients' schema and result are therefore opaque strings.
- `requests`, JSON decoding and `raise_for_status`. Their combined outcome is the schema response value or the query endpoint's answer. The API client does not call `raise_for_status`, so it fails on different responses and with different messages than the LangGraph client: an error status fails there only when decoding the body or reading its `schema` key fails. Each driver takes its own schema outcome as a parameter, and that parameter carries this difference.
- `ChatOpenAI`: the model is a function of the messages it is sent, and its reply is the text content only.
- LangGraph's `Annotated[List, add]` reducer, which merges what a node returns into the graph's state. The framework is not part of this model, so the nodes are direct updates of one state object and `messages` holds what the nodes assign.
- `print`, `load_dotenv`, the model name and the URLs.
- Floating-point results are `real`. Values are never computed on, only passed through.
- mcp_add_server.py, client_api.py and mcp_add_tool.py: thin HTTP/MCP wrappers around an addition.
