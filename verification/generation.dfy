/**
 * The SQL generation step shared by both agent clients: the system
 * instruction that embeds the schema text, and the clean-up applied to the
 * language model's reply.
 */
module SqlGeneration {
  import opened Text

  /**
   * The sentences of the system instruction, in order. The first is written
   * as two literals so that the verifier can read its first character; it
   * does not look inside one long literal.
   */
  const Role := "You are a strict SQL assistant" + " for a SQLite database."
  const GroundingRule := "ONLY use the following schema to answer the user's question."
  const NoInventionRule := "Do NOT invent columns. Do NOT rename anything. If the info is missing, say it can't be answered."
  const SchemaOpening := "--- DATABASE SCHEMA ---"
  const SchemaClosing := "------------------------"
  const OutputRule := "Return a single valid SQL query using only this schema."
  const FormatRule := "No explanations. No markdown."

  /** The instruction's paragraphs before the schema block. */
  const Preamble := Role + "\n\n" + GroundingRule + "\n" + NoInventionRule + "\n\n"

  /** The instruction's paragraph after the schema block. */
  const Epilogue := "\n\n" + OutputRule + "\n" + FormatRule

  /** The line that opens the schema block, and the one that closes it, each with its line break. */
  const OpeningLine := SchemaOpening + "\n"
  const ClosingLine := "\n" + SchemaClosing

  /** The system instruction that embeds the schema text. */
  function SystemPrompt(schema: string): string
  {
    Preamble + OpeningLine + schema + ClosingLine + Epilogue
  }

  /**
   * The schema text sits verbatim in the instruction, right after the line
   * `--- DATABASE SCHEMA ---` and right before the line of dashes.
   */
  lemma SystemPromptLayout(schema: string)
    ensures OccursAt(SystemPrompt(schema), OpeningLine, |Preamble|)
    ensures OccursAt(SystemPrompt(schema), schema, |Preamble| + |OpeningLine|)
    ensures OccursAt(SystemPrompt(schema), ClosingLine, |Preamble| + |OpeningLine| + |schema|)
  {
    OccursInFive(Preamble, OpeningLine, schema, ClosingLine, Epilogue);
  }

  /**
   * The instruction as the clients build it: the triple-quoted template,
   * which opens and closes with a line break, stripped of surrounding
   * whitespace. The strip removes exactly those two line breaks, whatever
   * the schema text is.
   */
  function FormatSystemPrompt(schema: string): (r: string)
    ensures r == SystemPrompt(schema)
  {
    PromptFramed(schema);
    Strip("\n" + Preamble + OpeningLine + schema + ClosingLine + Epilogue + "\n")
  }

  /** The instruction starts with `Y` and ends with `.`, neither of them whitespace. */
  lemma PromptEnds()
    ensures |Preamble| > 0 && Preamble[0] == 'Y'
    ensures |Epilogue| > 0 && Epilogue[|Epilogue| - 1] == '.'
  {
    assert Role[0] == 'Y';
    assert FormatRule[|FormatRule| - 1] == '.';
  }

  /** Stripping the template removes exactly the line break at each end. */
  lemma PromptFramed(schema: string)
    ensures Strip("\n" + Preamble + OpeningLine + schema + ClosingLine + Epilogue + "\n") == SystemPrompt(schema)
  {
    var inner := SystemPrompt(schema);
    PromptEnds();
    assert inner[0] == Preamble[0];
    assert inner[|inner| - 1] == Epilogue[|Epilogue| - 1];
    FramedFive('\n', Preamble, OpeningLine, schema, ClosingLine, Epilogue, '\n');
    StripFramed('\n', inner, '\n');
  }

  /** The characters `.strip("```sql")` removes: a set, not a literal prefix. */
  const SqlFenceChars: iset<char> := iset{'`', 's', 'q', 'l'}

  /** The characters `.strip("```")` removes. */
  const BacktickChars: iset<char> := iset{'`'}

  /**
   * `reply.strip().strip("```sql").strip("```")`. The cleaned SQL neither
   * starts nor ends with a backtick, `s`, `q` or `l`.
   */
  function CleanSql(reply: string): (r: string)
    ensures r == [] || (r[0] !in SqlFenceChars && r[|r| - 1] !in SqlFenceChars)
  {
    FenceCharsEnds(Strip(reply));
    StripCharsKeeps(StripChars(Strip(reply), SqlFenceChars), BacktickChars);
    StripChars(StripChars(Strip(reply), SqlFenceChars), BacktickChars)
  }

  /** The last `.strip("```")` never removes anything. */
  lemma CleanSqlFinalStripNoOp(reply: string)
    ensures CleanSql(reply) == StripChars(Strip(reply), SqlFenceChars)
  {
    var fenceless := StripChars(Strip(reply), SqlFenceChars);
    FenceCharsEnds(Strip(reply));
    StripCharsKeeps(fenceless, BacktickChars);
  }

  /** The cleaned SQL is a contiguous piece of the reply. */
  lemma CleanSqlOccurs(reply: string)
    ensures exists i :: OccursAt(reply, CleanSql(reply), i)
  {
    var stripped := Strip(reply);
    CleanSqlFinalStripNoOp(reply);
    StripCharsOccurs(reply, Whitespace);
    StripCharsOccurs(stripped, SqlFenceChars);
    OccursWithin(reply, stripped, CleanSql(reply), LeadLength(reply, Whitespace), LeadLength(stripped, SqlFenceChars));
  }

  /** After `.strip("```sql")` no end is a backtick, `s`, `q` or `l`. */
  lemma FenceCharsEnds(s: string)
    ensures var r := StripChars(s, SqlFenceChars);
      r == [] || (r[0] !in SqlFenceChars && r[|r| - 1] !in SqlFenceChars)
  {
    var r := StripChars(s, SqlFenceChars);
    StripCharsSpec(s, SqlFenceChars);
  }

  /** Cleaning the fence characters off again changes nothing. */
  lemma CleanSqlFenceIdempotent(reply: string)
    ensures StripChars(StripChars(CleanSql(reply), SqlFenceChars), BacktickChars) == CleanSql(reply)
  {
    CleanSqlFinalStripNoOp(reply);
    StripCharsIdempotent(Strip(reply), SqlFenceChars);
    StripCharsKeeps(CleanSql(reply), BacktickChars);
  }

  /** A reply with no whitespace and no fence character at either end passes through unchanged. */
  lemma CleanSqlKeepsBareStatement(reply: string)
    requires reply == [] || (reply[0] !in Whitespace + SqlFenceChars && reply[|reply| - 1] !in Whitespace + SqlFenceChars)
    ensures CleanSql(reply) == reply
  {
    StripCharsKeeps(reply, Whitespace);
    StripCharsKeeps(reply, SqlFenceChars);
    StripCharsKeeps(reply, BacktickChars);
  }

  /**
   * A reply fenced as ```` ```sql ... ``` ```` loses the fence and the tag
   * and keeps the body as it is, line breaks at its ends included, provided
   * the body neither starts nor ends with a backtick, `s`, `q` or `l`.
   */
  lemma CleanSqlFenced(body: string)
    requires body != [] && body[0] !in SqlFenceChars && body[|body| - 1] !in SqlFenceChars
    ensures CleanSql("```sql" + body + "```") == body
  {
    var reply := "```sql" + body + "```";
    StripCharsKeeps(reply, Whitespace);
    assert reply[6..6 + |body|] == body;
    StripCharsUnique(reply, SqlFenceChars, 6, 6 + |body|);
    StripCharsKeeps(body, BacktickChars);
  }

  /** The same for a fence without a language tag. */
  lemma CleanSqlFencedUntagged(body: string)
    requires body != [] && body[0] !in SqlFenceChars && body[|body| - 1] !in SqlFenceChars
    ensures CleanSql("```" + body + "```") == body
  {
    var reply := "```" + body + "```";
    StripCharsKeeps(reply, Whitespace);
    assert reply[3..3 + |body|] == body;
    StripCharsUnique(reply, SqlFenceChars, 3, 3 + |body|);
    StripCharsKeeps(body, BacktickChars);
  }

  /** An instance: ```` ```sql\nSELECT 1\n``` ```` becomes `\nSELECT 1\n`. */
  lemma CleanSqlFencedReply(reply: string)
    requires reply == "```sql\nSELECT 1\n```"
    ensures CleanSql(reply) == "\nSELECT 1\n"
  {
    var body := "\nSELECT 1\n";
    assert reply == "```sql" + body + "```";
    CleanSqlFenced(body);
  }

  /** A second pass over that result removes the line breaks. */
  lemma CleanSqlSecondPass(once: string)
    requires once == "\nSELECT 1\n"
    ensures CleanSql(once) == "SELECT 1"
  {
    assert once[1..9] == "SELECT 1";
    StripCharsUnique(once, Whitespace, 1, 9);
    CleanSqlKeepsBareStatement(once[1..9]);
  }

  /**
   * Cleaning is not idempotent as a whole: the line breaks a fenced reply
   * keeps are removed by a second pass.
   */
  lemma CleanSqlNotIdempotent(reply: string)
    requires reply == "```sql\nSELECT 1\n```"
    ensures CleanSql(CleanSql(reply)) != CleanSql(reply)
  {
    CleanSqlFencedReply(reply);
    CleanSqlSecondPass(CleanSql(reply));
  }

  /** A trailing `s` of the statement itself is removed. */
  lemma CleanSqlTrailingS(reply: string)
    requires reply == "SELECT name FROM employees"
    ensures CleanSql(reply) == "SELECT name FROM employee"
  {
    StripCharsKeeps(reply, Whitespace);
    assert reply[0..25] == "SELECT name FROM employee";
    StripCharsUnique(reply, SqlFenceChars, 0, 25);
    StripCharsKeeps(reply[0..25], BacktickChars);
  }

  /** A leading lower-case `s` of the statement itself is removed. */
  lemma CleanSqlLeadingS(reply: string)
    requires reply == "select 1"
    ensures CleanSql(reply) == "elect 1"
  {
    StripCharsKeeps(reply, Whitespace);
    assert reply[1..8] == "elect 1";
    StripCharsUnique(reply, SqlFenceChars, 1, 8);
    StripCharsKeeps(reply[1..8], BacktickChars);
  }
}
