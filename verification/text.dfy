/**
 * The string operations of Python that the modelled code relies on:
 * `str.strip()`, `str.strip(chars)`, `str.join` and `filter(None, ...)`.
 */
module Text {

  /**
   * The characters Python's `str.isspace` accepts, which `str.strip()`
   * removes: the ASCII controls tab to carriage return and the separators
   * U+001C to U+001F, the space, and the Unicode spaces and line separators.
   */
  predicate IsWhitespace(c: char)
  {
    ('\t' <= c <= '\r') || ('\U{1c}' <= c <= ' ') || c == '\U{85}' || c == '\U{a0}' || c == '\U{1680}' ||
    ('\U{2000}' <= c <= '\U{200a}') || c == '\U{2028}' || c == '\U{2029}' || c == '\U{202f}' ||
    c == '\U{205f}' || c == '\U{3000}'
  }

  const Whitespace: iset<char> := iset c | IsWhitespace(c)

  /** Removes every leading character that is in `cs`. */
  function TrimLeft(s: string, cs: iset<char>): (r: string)
    ensures |r| <= |s|
    decreases |s|
  {
    if s != [] && s[0] in cs then TrimLeft(s[1..], cs) else s
  }

  /** Removes every trailing character that is in `cs`. */
  function TrimRight(s: string, cs: iset<char>): (r: string)
    ensures |r| <= |s|
    decreases |s|
  {
    if s != [] && s[|s| - 1] in cs then TrimRight(s[..|s| - 1], cs) else s
  }

  /** `TrimLeft` leaves a suffix, after removing characters of `cs` only, that does not start with one. */
  lemma {:induction false} TrimLeftSpec(s: string, cs: iset<char>)
    ensures var r := TrimLeft(s, cs);
      r == s[|s| - |r|..] &&
      (forall k :: 0 <= k < |s| - |r| ==> s[k] in cs) &&
      (r == [] || r[0] !in cs)
    decreases |s|
  {
    if s != [] && s[0] in cs {
      TrimLeftSpec(s[1..], cs);
    }
  }

  /** `TrimRight` leaves a prefix, after removing characters of `cs` only, that does not end with one. */
  lemma {:induction false} TrimRightSpec(s: string, cs: iset<char>)
    ensures var r := TrimRight(s, cs);
      r == s[..|r|] &&
      (forall k :: |r| <= k < |s| ==> s[k] in cs) &&
      (r == [] || r[|r| - 1] !in cs)
    decreases |s|
  {
    if s != [] && s[|s| - 1] in cs {
      TrimRightSpec(s[..|s| - 1], cs);
    }
  }

  /**
   * `s[i..j]` is what remains of `s` once the characters of `cs` are taken
   * off both ends: everything before `i` and from `j` on is in `cs`, and the
   * remainder, unless empty, neither starts nor ends with a character of `cs`.
   */
  ghost predicate StrippedAt(s: string, cs: iset<char>, i: int, j: int)
  {
    0 <= i <= j <= |s| &&
    (forall k :: 0 <= k < i ==> s[k] in cs) &&
    (forall k :: j <= k < |s| ==> s[k] in cs) &&
    (i == j || (s[i] !in cs && s[j - 1] !in cs))
  }

  /** The number of leading characters of `s` that `StripChars` removes. */
  function LeadLength(s: string, cs: iset<char>): nat
  {
    |s| - |TrimLeft(s, cs)|
  }

  /**
   * Python's `s.strip(chars)`: `chars` is a SET of characters, and any run
   * of them is removed from both ends (not the literal string `chars`).
   */
  function StripChars(s: string, cs: iset<char>): (r: string)
    ensures |r| <= |s|
  {
    TrimRight(TrimLeft(s, cs), cs)
  }

  /**
   * Cutting a prefix of `cs` characters off `s`, leaving `t`, and then a
   * suffix of `cs` characters off `t`, leaving `r`, cuts `s` as `StrippedAt`
   * describes.
   */
  lemma StrippedAtTwoCuts(s: string, cs: iset<char>, lead: int, t: string, r: string)
    requires 0 <= lead <= |s| && t == s[lead..]
    requires forall k :: 0 <= k < lead ==> s[k] in cs
    requires t == [] || t[0] !in cs
    requires |r| <= |t| && r == t[..|r|]
    requires forall k :: |r| <= k < |t| ==> t[k] in cs
    requires r == [] || r[|r| - 1] !in cs
    ensures StrippedAt(s, cs, lead, lead + |r|) && r == s[lead..lead + |r|]
  {
    forall k | lead + |r| <= k < |s|
      ensures s[k] in cs
    {
      assert s[k] == t[k - lead];
    }
    assert r == s[lead..lead + |r|];
    if r != [] {
      assert s[lead] == t[0] == r[0];
      assert s[lead + |r| - 1] == r[|r| - 1];
    }
  }

  /** `StripChars` cuts `s` as `StrippedAt` describes, after `LeadLength` characters. */
  lemma StripCharsSpec(s: string, cs: iset<char>)
    ensures var r := StripChars(s, cs);
      LeadLength(s, cs) + |r| <= |s| &&
      StrippedAt(s, cs, LeadLength(s, cs), LeadLength(s, cs) + |r|) &&
      r == s[LeadLength(s, cs)..LeadLength(s, cs) + |r|]
  {
    var t := TrimLeft(s, cs);
    var r := TrimRight(t, cs);
    TrimLeftSpec(s, cs);
    TrimRightSpec(t, cs);
    StrippedAtTwoCuts(s, cs, LeadLength(s, cs), t, r);
  }

  /** Python's `s.strip()`. */
  function Strip(s: string): string
  {
    StripChars(s, Whitespace)
  }

  /** At most one way of cutting `s` satisfies `StrippedAt`. */
  lemma StrippedAtDeterminesCut(s: string, cs: iset<char>, i: int, j: int, i': int, j': int)
    requires StrippedAt(s, cs, i, j) && StrippedAt(s, cs, i', j')
    ensures s[i..j] == s[i'..j']
  {
    if i < j && i' < j' {
      assert i == i' by {
        assert s[i] !in cs && s[i'] !in cs;
      }
      assert j == j' by {
        assert s[j - 1] !in cs && s[j' - 1] !in cs;
      }
    }
  }

  /**
   * `StrippedAt` characterises `StripChars`: any cut of `s` that removes only
   * characters of `cs` and leaves none at either end is its result.
   */
  lemma StripCharsUnique(s: string, cs: iset<char>, i: int, j: int)
    requires StrippedAt(s, cs, i, j)
    ensures StripChars(s, cs) == s[i..j]
  {
    var r := StripChars(s, cs);
    StripCharsSpec(s, cs);
    StrippedAtDeterminesCut(s, cs, i, j, LeadLength(s, cs), LeadLength(s, cs) + |r|);
  }

  /** Stripping the same characters twice changes nothing the second time. */
  lemma StripCharsIdempotent(s: string, cs: iset<char>)
    ensures StripChars(StripChars(s, cs), cs) == StripChars(s, cs)
  {
    var r := StripChars(s, cs);
    StripCharsSpec(s, cs);
    StripCharsUnique(r, cs, 0, |r|);
  }

  /** A string whose ends are outside `cs` is left as it is. */
  lemma StripCharsKeeps(s: string, cs: iset<char>)
    requires s == [] || (s[0] !in cs && s[|s| - 1] !in cs)
    ensures StripChars(s, cs) == s
  {
    StripCharsUnique(s, cs, 0, |s|);
  }

  /** `piece` occurs in `s` starting at position `i`. */
  ghost predicate OccursAt(s: string, piece: string, i: int)
  {
    0 <= i && i + |piece| <= |s| && s[i..i + |piece|] == piece
  }

  /** What `StripChars` returns occurs in its argument right after the removed prefix. */
  lemma StripCharsOccurs(s: string, cs: iset<char>)
    ensures OccursAt(s, StripChars(s, cs), LeadLength(s, cs))
  {
    StripCharsSpec(s, cs);
  }

  /** Where each of five concatenated strings sits. */
  lemma OccursInFive(a: string, b: string, c: string, d: string, e: string)
    ensures |a + b + c + d + e| == |a| + |b| + |c| + |d| + |e|
    ensures OccursAt(a + b + c + d + e, a, 0)
    ensures OccursAt(a + b + c + d + e, b, |a|)
    ensures OccursAt(a + b + c + d + e, c, |a| + |b|)
    ensures OccursAt(a + b + c + d + e, d, |a| + |b| + |c|)
    ensures OccursAt(a + b + c + d + e, e, |a| + |b| + |c| + |d|)
  {
    var s := a + b + c + d + e;
    assert s[..|a|] == a;
    assert s[|a| + |b| + |c| + |d|..] == e;
    assert s[|a|..|a| + |b|] == b;
    assert s[|a| + |b|..|a| + |b| + |c|] == c;
    assert s[|a| + |b| + |c|..|a| + |b| + |c| + |d|] == d;
  }

  /** Five strings between two characters, regrouped. */
  lemma FramedFive(left: char, a: string, b: string, c: string, d: string, e: string, right: char)
    ensures [left] + a + b + c + d + e + [right] == [left] + (a + b + c + d + e) + [right]
  {
  }

  /** A piece of a piece of `s` is a piece of `s`. */
  lemma OccursWithin(s: string, middle: string, piece: string, i: int, j: int)
    requires OccursAt(s, middle, i) && OccursAt(middle, piece, j)
    ensures OccursAt(s, piece, i + j)
  {
    forall k | 0 <= k < |piece|
      ensures s[i + j + k] == piece[k]
    {
      assert piece[k] == middle[j + k] == s[i + j + k];
    }
  }

  /** Stripping a text framed by one whitespace character on each side removes just those two. */
  lemma StripFramed(left: char, inner: string, right: char)
    requires left in Whitespace && right in Whitespace
    requires inner != [] && inner[0] !in Whitespace && inner[|inner| - 1] !in Whitespace
    ensures Strip([left] + inner + [right]) == inner
  {
    var s := [left] + inner + [right];
    assert s[1..|s| - 1] == inner;
    StripCharsUnique(s, Whitespace, 1, |s| - 1);
  }

  /** Python's `sep.join(parts)`. */
  function Join(sep: string, parts: seq<string>): string
  {
    if |parts| == 0 then ""
    else if |parts| == 1 then parts[0]
    else parts[0] + sep + Join(sep, parts[1..])
  }

  /** Joining two non-empty lists puts one separator between their joins. */
  lemma {:induction false} JoinAppend(sep: string, a: seq<string>, b: seq<string>)
    requires a != [] && b != []
    ensures Join(sep, a + b) == Join(sep, a) + sep + Join(sep, b)
  {
    if |a| == 1 {
      assert (a + b)[1..] == b;
    } else {
      assert (a + b)[1..] == a[1..] + b;
      JoinAppend(sep, a[1..], b);
    }
  }

  /** Joining a concatenation: the two joins with a separator only when both sides have parts. */
  lemma JoinConcat(sep: string, a: seq<string>, b: seq<string>)
    ensures Join(sep, a + b) == Join(sep, a) + (if a != [] && b != [] then sep else "") + Join(sep, b)
  {
    if a == [] {
      assert a + b == b;
    } else if b == [] {
      assert a + b == a;
    } else {
      JoinAppend(sep, a, b);
    }
  }

  /** `JoinConcat` after a fixed head. */
  lemma JoinConcatAfter(head: string, sep: string, a: seq<string>, b: seq<string>)
    ensures head + Join(sep, a + b) ==
      head + Join(sep, a) + (if a != [] && b != [] then sep else "") + Join(sep, b)
  {
    JoinConcat(sep, a, b);
  }

  /**
   * Part `i` sits in the joined text between the join of the parts before it
   * and the join of the parts after it, with one separator on each side that
   * has parts.
   */
  lemma JoinAt(sep: string, parts: seq<string>, i: int)
    requires 0 <= i < |parts|
    ensures Join(sep, parts) ==
      Join(sep, parts[..i]) + (if i > 0 then sep else "") + parts[i] +
      (if i + 1 < |parts| then sep else "") + Join(sep, parts[i + 1..])
  {
    var before, after := parts[..i], parts[i + 1..];
    var middle := Join(sep, before + [parts[i]]);
    if i > 0 {
      JoinAppend(sep, before, [parts[i]]);
    } else {
      assert before + [parts[i]] == [parts[i]];
    }
    if i + 1 < |parts| {
      assert parts == (before + [parts[i]]) + after;
      JoinAppend(sep, before + [parts[i]], after);
    } else {
      assert parts == before + [parts[i]];
    }
  }

  /** Joining one part gives that part; joining two puts the separator between them. */
  lemma JoinSmall(sep: string, a: string, b: string)
    ensures Join(sep, [a]) == a
    ensures Join(sep, [a, b]) == a + sep + b
  {
    assert [a, b][1..] == [b];
  }

  /** Python's `filter(None, parts)` on strings: drops the empty ones, keeping order. */
  function NonEmpty(parts: seq<string>): (r: seq<string>)
    ensures forall p :: p in r <==> p in parts && p != ""
    ensures |r| <= |parts|
  {
    if parts == [] then []
    else if parts[0] == "" then NonEmpty(parts[1..])
    else [parts[0]] + NonEmpty(parts[1..])
  }

  /** Filtering keeps order: the kept parts of a concatenation are the kept parts of each side, in turn. */
  lemma {:induction false} NonEmptyConcat(a: seq<string>, b: seq<string>)
    ensures NonEmpty(a + b) == NonEmpty(a) + NonEmpty(b)
    decreases |a|
  {
    if a == [] {
      assert a + b == b;
    } else {
      assert (a + b)[0] == a[0] && (a + b)[1..] == a[1..] + b;
      NonEmptyConcat(a[1..], b);
    }
  }

  /** `filter(None, [a, b])` keeps whichever of the two is non-empty, in order. */
  lemma NonEmptyPair(a: string, b: string)
    ensures NonEmpty([a, b]) == (if a == "" then [] else [a]) + (if b == "" then [] else [b])
  {
    assert [a, b][1..] == [b];
    assert [b][1..] == [];
  }
}
