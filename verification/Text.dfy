// Strings as the source trims them.
module Text {
  // Unicode White_Space, the characters `str::trim` removes.
  predicate IsWhite(c: char) {
    || '\t' <= c <= '\r' || c == ' ' || c == '\U{85}' || c == '\U{A0}' || c == '\U{1680}'
    || '\U{2000}' <= c <= '\U{200A}' || c == '\U{2028}' || c == '\U{2029}' || c == '\U{202F}'
    || c == '\U{205F}' || c == '\U{3000}'
  }

  function TrimStart(s: string): string {
    if s != "" && IsWhite(s[0]) then TrimStart(s[1..]) else s
  }

  function TrimEnd(s: string): string {
    if s != "" && IsWhite(s[|s| - 1]) then TrimEnd(s[..|s| - 1]) else s
  }

  function Trim(s: string): string {
    TrimEnd(TrimStart(s))
  }

  // ---------- What trimming means ----------

  predicate AllWhite(s: string) {
    forall k :: 0 <= k < |s| ==> IsWhite(s[k])
  }

  // `core` is `s` without the white space around it.
  ghost predicate IsTrimmed(core: string, s: string) {
    && (exists before, after :: AllWhite(before) && AllWhite(after) && s == before + core + after)
    && (core != "" ==> !IsWhite(core[0]) && !IsWhite(core[|core| - 1]))
  }

  lemma {:induction false} TrimStartCuts(s: string) returns (before: string)
    ensures AllWhite(before) && s == before + TrimStart(s)
    ensures TrimStart(s) != "" ==> !IsWhite(TrimStart(s)[0])
  {
    if s != "" && IsWhite(s[0]) {
      var more := TrimStartCuts(s[1..]);
      before := [s[0]] + more;
    } else {
      before := "";
    }
  }

  lemma {:induction false} TrimEndCuts(s: string) returns (after: string)
    ensures AllWhite(after) && s == TrimEnd(s) + after
    ensures TrimEnd(s) != "" ==> !IsWhite(TrimEnd(s)[|TrimEnd(s)| - 1])
  {
    if s != "" && IsWhite(s[|s| - 1]) {
      var more := TrimEndCuts(s[..|s| - 1]);
      after := more + [s[|s| - 1]];
      assert s == s[..|s| - 1] + [s[|s| - 1]];
    } else {
      after := "";
    }
  }

  lemma {:induction false} TrimMeans(s: string)
    ensures IsTrimmed(Trim(s), s)
  {
    var before := TrimStartCuts(s);
    var after := TrimEndCuts(TrimStart(s));
    assert s == before + Trim(s) + after;
    assert Trim(s) != "" ==> Trim(s)[0] == TrimStart(s)[0];
  }
}
