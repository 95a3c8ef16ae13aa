/** The few java.lang.String operations the core relies on, over `seq<char>`. */
module JavaText {
  import opened Wrappers

  /** String.trim() removes every leading and trailing character whose code is at
      most U+0020. */
  predicate IsTrimmable(c: char) {
    c <= ' '
  }

  function TrimStart(s: string): string {
    if s != [] && IsTrimmable(s[0]) then TrimStart(s[1..]) else s
  }

  function TrimEnd(s: string): string {
    if s != [] && IsTrimmable(s[|s| - 1]) then TrimEnd(s[..|s| - 1]) else s
  }

  /** TrimStart drops a prefix of trimmable characters and stops at the first
      other one. */
  lemma {:induction false} TrimStartSpec(s: string)
    ensures var r := TrimStart(s);
            && |r| <= |s| && r == s[|s| - |r|..]
            && (forall i :: 0 <= i < |s| - |r| ==> IsTrimmable(s[i]))
            && (r == [] || !IsTrimmable(r[0]))
  {
    if s != [] && IsTrimmable(s[0]) {
      TrimStartSpec(s[1..]);
    }
  }

  /** TrimEnd drops a suffix of trimmable characters and stops at the last other
      one. */
  lemma {:induction false} TrimEndSpec(s: string)
    ensures var r := TrimEnd(s);
            && |r| <= |s| && r == s[..|r|]
            && (forall i :: |r| <= i < |s| ==> IsTrimmable(s[i]))
            && (r == [] || !IsTrimmable(r[|r| - 1]))
  {
    if s != [] && IsTrimmable(s[|s| - 1]) {
      TrimEndSpec(s[..|s| - 1]);
    }
  }

  /** `r` is the slice of `s` at offset `k` with only trimmable characters before
      and after it. */
  predicate TrimmedAt(s: string, r: string, k: int) {
    && 0 <= k <= |s| - |r| && r == s[k..k + |r|]
    && (forall i :: 0 <= i < k ==> IsTrimmable(s[i]))
    && (forall i :: k + |r| <= i < |s| ==> IsTrimmable(s[i]))
  }

  /** The two halves of trim() together leave the middle slice of `s`. */
  lemma TrimSlice(s: string)
    ensures var t := TrimStart(s);
            var r := TrimEnd(t);
            && TrimmedAt(s, r, |s| - |t|)
            && (r == [] || (!IsTrimmable(r[0]) && !IsTrimmable(r[|r| - 1])))
            && forall c :: c in r ==> c in s
  {
    var t := TrimStart(s);
    TrimStartSpec(s);
    TrimEndSpec(t);
    var r := TrimEnd(t);
    var k := |s| - |t|;
    assert r == s[k..k + |r|];
    forall i | k + |r| <= i < |s|
      ensures IsTrimmable(s[i])
    {
      assert s[i] == t[i - k];
    }
    if r != [] {
      assert r[0] == t[0];
    }
    forall c | c in r
      ensures c in s
    {
      var i :| 0 <= i < |r| && r[i] == c;
      assert s[k + i] == c;
    }
  }

  /** String.trim(): the middle of `s` once the trimmable characters at both ends
      are gone, so it neither starts nor ends with one. */
  function Trim(s: string): (r: string)
    ensures exists k :: TrimmedAt(s, r, k)
    ensures r == [] || (!IsTrimmable(r[0]) && !IsTrimmable(r[|r| - 1]))
    ensures forall c :: c in r ==> c in s
  {
    TrimSlice(s);
    TrimEnd(TrimStart(s))
  }

  /** `s.trim().isEmpty()`: every character is one trim() removes (lemma
      BlankIffTrimEmpty). */
  predicate IsBlank(s: string) {
    forall i :: 0 <= i < |s| ==> IsTrimmable(s[i])
  }

  /** `s == null || s.trim().isEmpty()`, the presence test every validator uses. */
  predicate IsMissing(s: Option<string>) {
    s.None? || IsBlank(s.value)
  }

  /** A string trims to the empty string exactly when every character is one trim()
      removes. */
  lemma BlankIffTrimEmpty(s: string)
    ensures IsBlank(s) <==> Trim(s) == ""
  {
    var t := TrimStart(s);
    TrimStartSpec(s);
    TrimEndSpec(t);
    if t != [] {
      assert !IsTrimmable(s[|s| - |t|]);
      assert TrimEnd(t) != [];
    }
  }

  /** Trimming a string with no trimmable character at either end changes nothing. */
  lemma TrimNoop(s: string)
    requires s != [] ==> !IsTrimmable(s[0]) && !IsTrimmable(s[|s| - 1])
    ensures Trim(s) == s
  {
    assert TrimStart(s) == s;
    assert TrimEnd(s) == s;
  }

  /** An ASCII approximation of the locale-sensitive String.toLowerCase(). */
  function LowerChar(c: char): (r: char)
    ensures 'A' <= c <= 'Z' ==> r as int == c as int + 32
    ensures !('A' <= c <= 'Z') ==> r == c
  {
    if 'A' <= c <= 'Z' then (c as int + 32) as char else c
  }

  function ToLower(s: string): (r: string)
    ensures |r| == |s|
    ensures forall i :: 0 <= i < |s| ==> r[i] == LowerChar(s[i])
  {
    if s == [] then [] else [LowerChar(s[0])] + ToLower(s[1..])
  }

  /** `needle` occurs in `hay` starting at offset `i`. */
  predicate OccursAt(hay: string, needle: string, i: int) {
    0 <= i <= |hay| - |needle| && hay[i..i + |needle|] == needle
  }

  /** String.contains: `needle` occurs in `hay` at some offset. */
  predicate Contains(hay: string, needle: string) {
    exists i :: 0 <= i <= |hay| - |needle| && OccursAt(hay, needle, i)
  }

  /** `needle` matches `hay` at offset `i` character by character, up to case. */
  predicate MatchesIgnoreCaseAt(hay: string, needle: string, i: int) {
    0 <= i <= |hay| - |needle| && forall j :: 0 <= j < |needle| ==> LowerChar(hay[i + j]) == LowerChar(needle[j])
  }

  lemma LowerOccurs(hay: string, needle: string)
    ensures forall i :: OccursAt(ToLower(hay), ToLower(needle), i) <==> MatchesIgnoreCaseAt(hay, needle, i)
  {
    forall i
      ensures OccursAt(ToLower(hay), ToLower(needle), i) <==> MatchesIgnoreCaseAt(hay, needle, i)
    {
      var h, n := ToLower(hay), ToLower(needle);
      if 0 <= i <= |hay| - |needle| {
        if OccursAt(h, n, i) {
          forall j | 0 <= j < |needle|
            ensures LowerChar(hay[i + j]) == LowerChar(needle[j])
          {
            assert h[i..i + |n|][j] == n[j];
          }
        }
        if MatchesIgnoreCaseAt(hay, needle, i) {
          assert h[i..i + |n|] == n;
        }
      }
    }
  }

  /** `a.toLowerCase().contains(b.toLowerCase())`: the needle matches the haystack
      at some offset when case is ignored. */
  function ContainsIgnoreCase(hay: string, needle: string): (r: bool)
    ensures r <==> exists i :: MatchesIgnoreCaseAt(hay, needle, i)
  {
    LowerOccurs(hay, needle);
    Contains(ToLower(hay), ToLower(needle))
  }
}
