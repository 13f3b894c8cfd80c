/**
 * The clean-up `get_sql_from_groq` applies to the model's reply:
 * remove every "```sql", then every "```", then strip surrounding
 * whitespace, all with Python's `str.replace` and `str.strip` semantics.
 */
module SqlText {
  import opened Wrappers

  const Fence: string := "```"
  const SqlFence: string := "```sql"

  /** Python's `str.isspace` for one character: the characters `str.strip()` removes. */
  predicate IsSpace(c: char) {
    || ('\t' <= c <= '\r')
    || ('\U{1C}' <= c <= '\U{1F}')
    || c == ' ' || c == '\U{85}' || c == '\U{A0}' || c == '\U{1680}'
    || ('\U{2000}' <= c <= '\U{200A}')
    || c == '\U{2028}' || c == '\U{2029}' || c == '\U{202F}' || c == '\U{205F}' || c == '\U{3000}'
  }

  /** `pat` occurs in `s` starting at index `i`. */
  predicate OccursAt(s: string, pat: string, i: int) {
    0 <= i && i + |pat| <= |s| && s[i..i + |pat|] == pat
  }

  /** `pat` is not a substring of `s`. */
  predicate Free(s: string, pat: string) {
    forall i :: 0 <= i <= |s| - |pat| ==> !OccursAt(s, pat, i)
  }

  /**
   * `s.replace(pat, "")`: scan left to right, drop each occurrence of `pat`
   * found at the scan position and continue after it, so occurrences never overlap.
   */
  function RemoveAll(s: string, pat: string): string
    requires pat != []
    decreases |s|
  {
    if |s| < |pat| then s
    else if s[..|pat|] == pat then RemoveAll(s[|pat|..], pat)
    else [s[0]] + RemoveAll(s[1..], pat)
  }

  /** `s.lstrip()`. */
  function LStrip(s: string): (r: string)
    ensures |r| <= |s| && r == s[|s| - |r|..]
    ensures forall k :: 0 <= k < |s| - |r| ==> IsSpace(s[k])
    ensures r == [] || !IsSpace(r[0])
  {
    if |s| > 0 && IsSpace(s[0]) then LStrip(s[1..]) else s
  }

  /** `s.rstrip()`. */
  function RStrip(s: string): (r: string)
    ensures |r| <= |s| && r == s[..|r|]
    ensures forall k :: |r| <= k < |s| ==> IsSpace(s[k])
    ensures r == [] || !IsSpace(r[|r| - 1])
  {
    if |s| > 0 && IsSpace(s[|s| - 1]) then RStrip(s[..|s| - 1]) else s
  }

  /** `s.strip()`. */
  function Strip(s: string): string {
    RStrip(LStrip(s))
  }

  /** The clean-up chain of api/app.py line 106. */
  function CleanSql(content: string): string {
    Strip(RemoveAll(RemoveAll(content, SqlFence), Fence))
  }

  /**
   * What `get_sql_from_groq` returns for a provider reply: the cleaned text,
   * or None when the provider call failed (the exception is caught).
   */
  function SqlFromReply(reply: Option<string>): (r: Option<string>)
    ensures r.None? <==> reply.None?
    ensures reply.Some? ==> r.value == CleanSql(reply.value)
    ensures r.Some? ==> Free(r.value, Fence)
    ensures r.Some? ==> r.value == [] || (!IsSpace(r.value[0]) && !IsSpace(r.value[|r.value| - 1]))
  {
    match reply
    case None => None
    case Some(content) => CleanSqlIsClean(content); Some(CleanSql(content))
  }

  // ---------------------------------------------------------------------------
  // Properties of the clean-up

  /** How many leading characters `s.strip()` drops. */
  function Lead(s: string): (n: nat)
    ensures n <= |s|
  {
    |s| - |LStrip(s)|
  }

  /** Strip keeps a contiguous slice of its input and removes only whitespace around it. */
  lemma StripIsTrim(s: string)
    ensures var r, i := Strip(s), Lead(s);
      && i + |r| <= |s| && r == s[i..i + |r|]
      && (forall k :: 0 <= k < i ==> IsSpace(s[k]))
      && (forall k :: i + |r| <= k < |s| ==> IsSpace(s[k]))
    ensures var r := Strip(s); r == [] || (!IsSpace(r[0]) && !IsSpace(r[|r| - 1]))
  {
    var l := LStrip(s);
    var r := RStrip(l);
    var i := |s| - |l|;
    assert l == s[i..];
    assert r == l[..|r|];
    assert r == s[i..i + |r|];
    forall k | i + |r| <= k < |s|
      ensures IsSpace(s[k])
    {
      assert s[k] == l[k - i];
    }
    if r != [] {
      assert l[0] == r[0];
    }
  }

  /** A lone backtick in the result of removing fences came from a backtick of the input. */
  lemma RemoveFirstTick(s: string)
    requires |RemoveAll(s, Fence)| > 0 && RemoveAll(s, Fence)[0] == '`'
    ensures |s| > 0 && s[0] == '`'
  {
  }

  /** Two leading backticks in the result can only come from two leading backticks of the input. */
  lemma RemoveFirstTwoTicks(s: string)
    requires |RemoveAll(s, Fence)| >= 2
    requires RemoveAll(s, Fence)[0] == '`' && RemoveAll(s, Fence)[1] == '`'
    ensures |s| >= 2 && s[0] == '`' && s[1] == '`'
  {
    if |s| >= |Fence| && s[..|Fence|] != Fence {
      RemoveFirstTick(s[1..]);
    }
  }

  /** Keeping a character that does not start a fence cannot create one at the front. */
  lemma NoFenceAtHead(s: string)
    requires |s| >= |Fence| && s[..|Fence|] != Fence
    ensures !OccursAt([s[0]] + RemoveAll(s[1..], Fence), Fence, 0)
  {
    var t := RemoveAll(s[1..], Fence);
    var r := [s[0]] + t;
    if OccursAt(r, Fence, 0) {
      assert r[..3] == Fence;
      assert r[1] == r[..3][1] && r[2] == r[..3][2];
      assert t[0] == '`' && t[1] == '`';
      RemoveFirstTwoTicks(s[1..]);
    }
  }

  /** A fence in `[c] + t` that is not at the front lies inside `t`. */
  lemma ConsFree(c: char, t: string)
    requires Free(t, Fence) && !OccursAt([c] + t, Fence, 0)
    ensures Free([c] + t, Fence)
  {
    var r := [c] + t;
    forall i | 1 <= i <= |r| - |Fence|
      ensures !OccursAt(r, Fence, i)
    {
      assert !OccursAt(t, Fence, i - 1);
      assert r[i..i + |Fence|] == t[i - 1..i - 1 + |Fence|];
    }
  }

  /**
   * Removing every "```" leaves none behind. This rests on the fence being
   * one character repeated: for a pattern such as "ab", removing it from
   * "aabb" leaves "ab".
   */
  lemma {:induction false} RemoveAllLeavesNoFence(s: string)
    ensures Free(RemoveAll(s, Fence), Fence)
    decreases |s|
  {
    if |s| < |Fence| {
    } else if s[..|Fence|] == Fence {
      RemoveAllLeavesNoFence(s[|Fence|..]);
    } else {
      RemoveAllLeavesNoFence(s[1..]);
      NoFenceAtHead(s);
      ConsFree(s[0], RemoveAll(s[1..], Fence));
    }
  }

  /** A slice of a string without `pat` has no `pat` either. */
  lemma FreeSlice(s: string, pat: string, i: int, j: int)
    requires 0 <= i <= j <= |s| && Free(s, pat)
    ensures Free(s[i..j], pat)
  {
    forall k | 0 <= k <= (j - i) - |pat|
      ensures !OccursAt(s[i..j], pat, k)
    {
      assert !OccursAt(s, pat, i + k);
      var u, w := s[i..j][k..k + |pat|], s[i + k..i + k + |pat|];
      forall m | 0 <= m < |pat|
        ensures u[m] == w[m]
      {
      }
      assert u == w;
    }
  }

  /** The cleaned SQL contains no "```" and starts and ends with a non-space character. */
  lemma CleanSqlIsClean(content: string)
    ensures Free(CleanSql(content), Fence)
    ensures var r := CleanSql(content); r == [] || (!IsSpace(r[0]) && !IsSpace(r[|r| - 1]))
  {
    var m := RemoveAll(RemoveAll(content, SqlFence), Fence);
    RemoveAllLeavesNoFence(RemoveAll(content, SqlFence));
    StripIsTrim(m);
    FreeSlice(m, Fence, Lead(m), Lead(m) + |Strip(m)|);
  }

  /** Removing a pattern that does not occur changes nothing. */
  lemma {:induction false} RemoveAllAbsent(s: string, pat: string)
    requires pat != [] && Free(s, pat)
    ensures RemoveAll(s, pat) == s
    decreases |s|
  {
    if |s| >= |pat| {
      assert !OccursAt(s, pat, 0);
      FreeSlice(s, pat, 1, |s|);
      assert s[1..|s|] == s[1..];
      RemoveAllAbsent(s[1..], pat);
    }
  }

  /** "```sql" cannot occur where "```" does not. */
  lemma NoFenceNoSqlFence(s: string)
    requires Free(s, Fence)
    ensures Free(s, SqlFence)
  {
    forall i | 0 <= i <= |s| - |SqlFence|
      ensures !OccursAt(s, SqlFence, i)
    {
      assert !OccursAt(s, Fence, i);
      assert s[i..i + |Fence|] == s[i..i + |SqlFence|][..|Fence|];
    }
  }

  /** Stripping a string with no surrounding whitespace changes nothing. */
  lemma StripTrimmed(s: string)
    requires s == [] || (!IsSpace(s[0]) && !IsSpace(s[|s| - 1]))
    ensures Strip(s) == s
  {
  }

  /** Cleaning is idempotent: an already cleaned reply is returned unchanged. */
  lemma CleanSqlIdempotent(content: string)
    ensures CleanSql(CleanSql(content)) == CleanSql(content)
  {
    var c := CleanSql(content);
    CleanSqlIsClean(content);
    NoFenceNoSqlFence(c);
    RemoveAllAbsent(c, SqlFence);
    RemoveAllAbsent(c, Fence);
    StripTrimmed(c);
  }
}
