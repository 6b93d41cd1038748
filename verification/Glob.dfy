// Glob matching of permission rules (permission.rs): `*` and `?` stay within a path component, `**`
// crosses them.
module Glob {
  import opened Wrappers
  import opened Text

  datatype Tok = Star | DoubleStar | Question | Lit(c: char)

  function Tokens(pattern: string): seq<Tok>
    decreases |pattern|
  {
    if pattern == "" then []
    else if pattern[0] == '*' then
      if |pattern| > 1 && pattern[1] == '*' then [DoubleStar] + Tokens(pattern[2..])
      else [Star] + Tokens(pattern[1..])
    else if pattern[0] == '?' then [Question] + Tokens(pattern[1..])
    else [Lit(pattern[0])] + Tokens(pattern[1..])
  }

  method GlobTokens(pattern: string) returns (out: seq<Tok>)
    ensures out == Tokens(pattern)
  {
    out := [];
    var i := 0;
    assert pattern[0..] == pattern;
    while i < |pattern|
      invariant i <= |pattern| && out + Tokens(pattern[i..]) == Tokens(pattern)
    {
      assert pattern[i..][1..] == pattern[i + 1..];
      if pattern[i] == '*' {
        if i + 1 < |pattern| && pattern[i + 1] == '*' {
          assert pattern[i..][2..] == pattern[i + 2..];
          Regroup(out, [DoubleStar], Tokens(pattern[i + 2..]));
          out := out + [DoubleStar];
          i := i + 2;
        } else {
          Regroup(out, [Star], Tokens(pattern[i + 1..]));
          out := out + [Star];
          i := i + 1;
        }
      } else if pattern[i] == '?' {
        Regroup(out, [Question], Tokens(pattern[i + 1..]));
        out := out + [Question];
        i := i + 1;
      } else {
        Regroup(out, [Lit(pattern[i])], Tokens(pattern[i + 1..]));
        out := out + [Lit(pattern[i])];
        i := i + 1;
      }
    }
  }

  // ---------- What a pattern means ----------

  predicate NoSlash(text: string) {
    forall k :: 0 <= k < |text| ==> text[k] != '/'
  }

  // The texts a single token stands for.
  predicate Covers(tok: Tok, part: string) {
    match tok
    case Star => NoSlash(part)
    case DoubleStar => true
    case Question => |part| == 1 && part[0] != '/'
    case Lit(c) => part == [c]
  }

  // The text can be cut into one part for each token.
  ghost predicate Denotes(toks: seq<Tok>, text: string)
    decreases |toks|
  {
    if toks == [] then text == ""
    else exists k :: 0 <= k <= |text| && DenotesCut(toks, text, k)
  }

  ghost predicate DenotesCut(toks: seq<Tok>, text: string, k: nat)
    requires toks != [] && k <= |text|
    decreases |toks|, 0
  {
    Denotes(toks[..|toks| - 1], text[..k]) && Covers(toks[|toks| - 1], text[k..])
  }

  // ---------- The table ----------

  // Entry [i, j] of the table: the first `i` tokens match the first `j` characters.
  ghost predicate Entry(toks: seq<Tok>, text: string, i: nat, j: nat)
    requires i <= |toks| && j <= |text|
  {
    Denotes(toks[..i], text[..j])
  }

  // Token `i` takes the text from `j` to `x` after the tokens before it took the first `j` characters.
  ghost predicate Step(toks: seq<Tok>, text: string, i: nat, j: nat, x: nat)
    requires i < |toks| && j <= |text| && x <= |text|
  {
    j <= x && Entry(toks, text, i, j) && Covers(toks[i], text[j..x])
  }

  lemma {:induction false} EntryIff(toks: seq<Tok>, text: string, i: nat, x: nat)
    requires i < |toks| && x <= |text|
    ensures Entry(toks, text, i + 1, x) <==> Reached(toks, text, i, |text| + 1, x)
  {
    var part, t := toks[..i + 1], text[..x];
    assert part[..|part| - 1] == toks[..i] && part[|part| - 1] == toks[i];
    assert forall j :: 0 <= j <= x ==> t[..j] == text[..j] && t[j..] == text[j..x];
    if Entry(toks, text, i + 1, x) {
      assert Denotes(part, t);
      var j :| 0 <= j <= |t| && DenotesCut(part, t, j);
      assert Step(toks, text, i, j, x);
    }
    if j :| 0 <= j <= |text| && Step(toks, text, i, j, x) {
      assert DenotesCut(part, t, j);
    }
  }

  // Everything token `tok` can take from position `j` on is added to row `i`.
  method ExtendRow(dp: array2<bool>, i: nat, j: nat, tok: Tok, text: string)
    requires i < dp.Length0 && dp.Length1 == |text| + 1 && j <= |text|
    modifies dp
    ensures forall r, x :: 0 <= r < dp.Length0 && 0 <= x <= |text| && r != i ==> dp[r, x] == old(dp[r, x])
    ensures forall x :: 0 <= x <= |text| ==> dp[i, x] == (old(dp[i, x]) || (j <= x && Covers(tok, text[j..x])))
  {
    match tok {
      case DoubleStar =>
        for k := j to |text| + 1
          invariant forall r, x :: 0 <= r < dp.Length0 && 0 <= x <= |text| && r != i ==> dp[r, x] == old(dp[r, x])
          invariant forall x :: 0 <= x <= |text| ==> dp[i, x] == (old(dp[i, x]) || j <= x < k)
        {
          dp[i, k] := true;
        }
      case Star =>
        dp[i, j] := true;
        var k := j;
        assert NoSlash(text[j..j]);
        while k < |text| && text[k] != '/'
          invariant j <= k <= |text| && NoSlash(text[j..k])
          invariant forall r, x :: 0 <= r < dp.Length0 && 0 <= x <= |text| && r != i ==> dp[r, x] == old(dp[r, x])
          invariant forall x :: 0 <= x <= |text| ==> dp[i, x] == (old(dp[i, x]) || j <= x <= k)
        {
          dp[i, k + 1] := true;
          assert text[j..k + 1] == text[j..k] + [text[k]];
          k := k + 1;
        }
        StarReach(text, j, k);
      case Question =>
        if j < |text| && text[j] != '/' {
          dp[i, j + 1] := true;
        }
        OneReach(text, j);
      case Lit(c) =>
        if j < |text| && text[j] == c {
          dp[i, j + 1] := true;
        }
        OneReach(text, j);
    }
  }

  lemma {:induction false} StarReach(text: string, j: nat, k: nat)
    requires j <= k <= |text| && NoSlash(text[j..k]) && (k < |text| ==> text[k] == '/')
    ensures forall x :: j <= x <= |text| ==> (NoSlash(text[j..x]) <==> x <= k)
  {
    forall x | j <= x <= |text|
      ensures NoSlash(text[j..x]) <==> x <= k
    {
      if x <= k {
        assert forall y :: 0 <= y < x - j ==> text[j..x][y] == text[j..k][y];
      } else {
        assert text[j..x][k - j] == '/';
      }
    }
  }

  lemma {:induction false} OneReach(text: string, j: nat)
    requires j <= |text|
    ensures forall x :: j <= x <= |text| && |text[j..x]| == 1 ==> x == j + 1 && text[j..x] == [text[j]]
    ensures j < |text| ==> text[j..j + 1] == [text[j]]
  {
  }

  // The table says, for every prefix of the tokens and of the text, whether they match.
  method FillTable(toks: seq<Tok>, text: string) returns (dp: array2<bool>)
    ensures dp.Length0 == |toks| + 1 && dp.Length1 == |text| + 1
    ensures forall i, j :: 0 <= i <= |toks| && 0 <= j <= |text| ==> (dp[i, j] <==> Entry(toks, text, i, j))
  {
    dp := new bool[|toks| + 1, |text| + 1]((i, j) => i == 0 && j == 0);
    for i := 0 to |toks|
      invariant forall r, j :: 0 <= r <= i && 0 <= j <= |text| ==> (dp[r, j] <==> Entry(toks, text, r, j))
      invariant forall r, j :: i < r <= |toks| && 0 <= j <= |text| ==> !dp[r, j]
    {
      FillRow(dp, toks, text, i, i + 1);
    }
  }

  // Some step from one of the first `j` positions ends at `x`.
  ghost predicate Reached(toks: seq<Tok>, text: string, i: nat, j: nat, x: nat)
    requires i < |toks| && j <= |text| + 1 && x <= |text|
  {
    exists k :: 0 <= k < j && Step(toks, text, i, k, x)
  }

  lemma {:induction false} ReachedNext(toks: seq<Tok>, text: string, i: nat, j: nat, x: nat)
    requires i < |toks| && j <= |text| && x <= |text|
    ensures Reached(toks, text, i, j + 1, x) <==> Reached(toks, text, i, j, x) || Step(toks, text, i, j, x)
  {
    if k :| 0 <= k < j + 1 && Step(toks, text, i, k, x) {
      assert k < j ==> Reached(toks, text, i, j, x);
    }
    if k :| 0 <= k < j && Step(toks, text, i, k, x) {
      assert Reached(toks, text, i, j + 1, x);
    }
  }

  // Row `row` after position `j`, given it before and whether the row above has an entry there.
  lemma {:induction false} RowNext(toks: seq<Tok>, text: string, i: nat, j: nat, here: bool, was: seq<bool>,
                                   now: seq<bool>)
    requires i < |toks| && j <= |text| && |was| == |now| == |text| + 1
    requires here <==> Entry(toks, text, i, j)
    requires forall x :: 0 <= x <= |text| ==> (was[x] <==> Reached(toks, text, i, j, x))
    requires forall x :: 0 <= x <= |text| ==> (now[x] <==> was[x] || (here && j <= x && Covers(toks[i], text[j..x])))
    ensures forall x :: 0 <= x <= |text| ==> (now[x] <==> Reached(toks, text, i, j + 1, x))
  {
    forall x | 0 <= x <= |text|
      ensures now[x] <==> Reached(toks, text, i, j + 1, x)
    {
      ReachedNext(toks, text, i, j, x);
      assert Step(toks, text, i, j, x) <==> here && j <= x && Covers(toks[i], text[j..x]);
    }
  }

  // One row of the table as a sequence.
  ghost function Row(dp: array2<bool>, r: nat): (row: seq<bool>)
    requires r < dp.Length0
    reads dp
    ensures |row| == dp.Length1
    ensures forall x :: 0 <= x < dp.Length1 ==> row[x] == dp[r, x]
  {
    seq(dp.Length1, x requires 0 <= x < dp.Length1 reads dp => dp[r, x])
  }

  method FillRow(dp: array2<bool>, toks: seq<Tok>, text: string, i: nat, row: nat)
    requires i < |toks| && row == i + 1 && dp.Length0 == |toks| + 1 && dp.Length1 == |text| + 1
    requires forall j :: 0 <= j <= |text| ==> (dp[i, j] <==> Entry(toks, text, i, j))
    requires forall j :: 0 <= j <= |text| ==> !dp[row, j]
    modifies dp
    ensures forall r, x :: 0 <= r <= |toks| && 0 <= x <= |text| && r != row ==> dp[r, x] == old(dp[r, x])
    ensures forall x :: 0 <= x <= |text| ==> (dp[row, x] <==> Entry(toks, text, row, x))
  {
    for j := 0 to |text| + 1
      invariant forall r, x :: 0 <= r <= |toks| && 0 <= x <= |text| && r != row ==> dp[r, x] == old(dp[r, x])
      invariant forall x :: 0 <= x <= |text| ==> (dp[row, x] <==> Reached(toks, text, i, j, x))
    {
      ghost var here, was := dp[i, j], Row(dp, row);
      if dp[i, j] {
        ExtendRow(dp, row, j, toks[i], text);
      }
      RowNext(toks, text, i, j, here, was, Row(dp, row));
    }
    forall x | 0 <= x <= |text|
      ensures Reached(toks, text, i, |text| + 1, x) <==> Entry(toks, text, row, x)
    {
      EntryIff(toks, text, i, x);
    }
  }

  // `glob_match`: the trimmed pattern's meaning, except that a bare `*` matches everything.
  method GlobMatch(pattern: string, text: string) returns (matches: bool)
    ensures matches <==> Trim(pattern) == "*" || Denotes(Tokens(Trim(pattern)), text)
  {
    var p := Trim(pattern);
    if p == "*" || p == "**" {
      if p == "**" { DoubleStarMatchesAll(text); }
      return true;
    }
    var toks := GlobTokens(p);
    var dp := FillTable(toks, text);
    assert toks[..|toks|] == toks && text[..|text|] == text;
    matches := dp[|toks|, |text|];
  }

  lemma {:induction false} DoubleStarMatchesAll(text: string)
    ensures Denotes(Tokens("**"), text)
  {
    assert "**"[2..] == "";
    assert Tokens("**") == [DoubleStar];
    assert text[..0] == "" && [DoubleStar][..0] == [];
    assert DenotesCut([DoubleStar], text, 0);
  }

  // ---------- What follows from the meaning ----------

  function Joined(parts: seq<string>): string {
    if parts == [] then "" else Joined(parts[..|parts| - 1]) + parts[|parts| - 1]
  }

  // `parts` cuts the text into one part for each token.
  predicate Parts(toks: seq<Tok>, text: string, parts: seq<string>) {
    && |parts| == |toks| && Joined(parts) == text
    && forall i :: 0 <= i < |toks| ==> Covers(toks[i], parts[i])
  }

  // The recursive meaning is that of a cut into parts.
  lemma {:induction false} DenotesIff(toks: seq<Tok>, text: string)
    ensures Denotes(toks, text) <==> exists parts :: Parts(toks, text, parts)
    decreases |toks|
  {
    if toks == [] {
      assert Joined([]) == "";
      assert Denotes(toks, text) ==> Parts(toks, text, []);
    } else {
      if Denotes(toks, text) { CutHasParts(toks, text); }
      if parts :| Parts(toks, text, parts) {
        var n := |toks| - 1;
        var front := Joined(parts[..n]);
        assert Parts(toks[..n], front, parts[..n]);
        DenotesIff(toks[..n], front);
        assert text[..|front|] == front && text[|front|..] == parts[n];
        assert DenotesCut(toks, text, |front|);
      }
    }
  }

  lemma {:induction false} CutHasParts(toks: seq<Tok>, text: string)
    requires toks != [] && Denotes(toks, text)
    ensures exists parts :: Parts(toks, text, parts)
    decreases |toks|, 0
  {
    var n := |toks| - 1;
    var k :| 0 <= k <= |text| && DenotesCut(toks, text, k);
    DenotesIff(toks[..n], text[..k]);
    var parts :| Parts(toks[..n], text[..k], parts);
    var all := parts + [text[k..]];
    assert all[..n] == parts && text == text[..k] + text[k..];
    assert Parts(toks, text, all);
  }

  function RenderTok(tok: Tok): string {
    match tok
    case Star => "*"
    case DoubleStar => "**"
    case Question => "?"
    case Lit(c) => [c]
  }

  function Render(toks: seq<Tok>): string {
    if toks == [] then "" else RenderTok(toks[0]) + Render(toks[1..])
  }

  // Nothing of a pattern is lost in its tokens.
  lemma {:induction false} TokensRender(pattern: string)
    ensures Render(Tokens(pattern)) == pattern
    decreases |pattern|
  {
    if pattern != "" {
      var toks := Tokens(pattern);
      if toks[0].DoubleStar? {
        TokensRender(pattern[2..]);
        assert toks[1..] == Tokens(pattern[2..]) && pattern == "**" + pattern[2..];
      } else {
        TokensRender(pattern[1..]);
        assert toks[1..] == Tokens(pattern[1..]) && pattern == [pattern[0]] + pattern[1..];
      }
    }
  }

  predicate StaysInPath(tok: Tok) {
    !tok.DoubleStar? && tok != Lit('/')
  }

  // Without `**` and without a literal `/` no pattern matches a text that has a `/`.
  lemma {:induction false} NeverCrosses(toks: seq<Tok>, text: string)
    requires Denotes(toks, text) && forall i :: 0 <= i < |toks| ==> StaysInPath(toks[i])
    ensures NoSlash(text)
    decreases |toks|
  {
    if toks != [] {
      var n := |toks| - 1;
      var k :| 0 <= k <= |text| && DenotesCut(toks, text, k);
      NeverCrosses(toks[..n], text[..k]);
      assert StaysInPath(toks[n]) && NoSlash(text[k..]);
      forall j | 0 <= j < |text|
        ensures text[j] != '/'
      {
        assert if j < k then text[j] == text[..k][j] else text[j] == text[k..][j - k];
      }
    }
  }

  // ---------- What single tokens and whole patterns stand for ----------

  lemma {:induction false} OneTokenIff(tok: Tok, text: string)
    ensures Denotes([tok], text) <==>
              match tok
              case Star => forall k :: 0 <= k < |text| ==> text[k] != '/'
              case DoubleStar => true
              case Question => |text| == 1 && text[0] != '/'
              case Lit(c) => text == [c]
  {
    LastTokenIff([], tok, text);
    assert [] + [tok] == [tok] && text[..0] == "" && text[0..] == text;
    if Covers(tok, text) { assert EndsIn([], tok, text, 0); }
  }

  ghost predicate EndsIn(toks: seq<Tok>, last: Tok, text: string, k: nat)
    requires k <= |text|
  {
    Denotes(toks, text[..k]) && Covers(last, text[k..])
  }

  lemma {:induction false} WhereCut(toks: seq<Tok>, text: string) returns (k: nat)
    requires toks != [] && Denotes(toks, text)
    ensures k <= |text| && DenotesCut(toks, text, k)
  {
    k :| 0 <= k <= |text| && DenotesCut(toks, text, k);
  }

  lemma {:induction false} LastTokenIff(toks: seq<Tok>, last: Tok, text: string)
    ensures Denotes(toks + [last], text) <==> exists k :: 0 <= k <= |text| && EndsIn(toks, last, text, k)
  {
    var all := toks + [last];
    assert all != [] && all[..|all| - 1] == toks && all[|all| - 1] == last;
    if Denotes(all, text) {
      var k := WhereCut(all, text);
      assert EndsIn(toks, last, text, k);
    }
    if k :| 0 <= k <= |text| && EndsIn(toks, last, text, k) { assert DenotesCut(all, text, k); }
  }

  ghost predicate Splits(a: seq<Tok>, b: seq<Tok>, text: string, k: nat)
    requires k <= |text|
  {
    Denotes(a, text[..k]) && Denotes(b, text[k..])
  }

  // Two patterns in a row match what the one matches followed by what the other matches.
  lemma {:induction false} DenotesConcat(a: seq<Tok>, b: seq<Tok>, text: string)
    ensures Denotes(a + b, text) <==> exists k :: 0 <= k <= |text| && Splits(a, b, text, k)
    decreases |b|
  {
    if b == [] {
      assert a + b == a && text[..|text|] == text && text[|text|..] == "";
      assert Denotes(a, text) <==> Splits(a, b, text, |text|);
      assert forall k :: 0 <= k < |text| ==> text[k..] != "";
    } else {
      if Denotes(a + b, text) { ConcatSplits(a, b, text); }
      if k :| 0 <= k <= |text| && Splits(a, b, text, k) { SplitConcats(a, b, text, k); }
    }
  }

  lemma {:induction false} ConcatSplits(a: seq<Tok>, b: seq<Tok>, text: string)
    requires b != [] && Denotes(a + b, text)
    ensures exists k :: 0 <= k <= |text| && Splits(a, b, text, k)
    decreases |b|, 0
  {
    var n := |b| - 1;
    assert (a + b)[..|a + b| - 1] == a + b[..n] && (a + b)[|a + b| - 1] == b[n];
    var j :| 0 <= j <= |text| && DenotesCut(a + b, text, j);
    DenotesConcat(a, b[..n], text[..j]);
    var k :| 0 <= k <= j && Splits(a, b[..n], text[..j], k);
    assert text[..j][..k] == text[..k];
    assert text[k..][..j - k] == text[..j][k..] && text[k..][j - k..] == text[j..];
    assert DenotesCut(b, text[k..], j - k);
    assert Splits(a, b, text, k);
  }

  lemma {:induction false} SplitConcats(a: seq<Tok>, b: seq<Tok>, text: string, k: nat)
    requires b != [] && k <= |text| && Splits(a, b, text, k)
    ensures Denotes(a + b, text)
    decreases |b|, 0
  {
    var n := |b| - 1;
    assert (a + b)[..|a + b| - 1] == a + b[..n] && (a + b)[|a + b| - 1] == b[n];
    var rest := text[k..];
    assert Denotes(b, rest);
    var i :| 0 <= i <= |rest| && DenotesCut(b, rest, i);
    var j := k + i;
    assert text[..j][..k] == text[..k] && text[..j][k..] == text[k..][..i] && text[j..] == text[k..][i..];
    assert Splits(a, b[..n], text[..j], k);
    DenotesConcat(a, b[..n], text[..j]);
    assert DenotesCut(a + b, text, j);
  }

  // How a pattern is read: `**` before `*`, and every other character as itself.
  lemma {:induction false} TokensMean(rest: string, c: char)
    ensures Tokens("**" + rest) == [DoubleStar] + Tokens(rest)
    ensures rest == "" || rest[0] != '*' ==> Tokens("*" + rest) == [Star] + Tokens(rest)
    ensures Tokens("?" + rest) == [Question] + Tokens(rest)
    ensures c != '*' && c != '?' ==> Tokens([c] + rest) == [Lit(c)] + Tokens(rest)
  {
    assert ("**" + rest)[2..] == rest && ("*" + rest)[1..] == rest && ("?" + rest)[1..] == rest;
    assert ([c] + rest)[1..] == rest;
  }

  // A pattern without wildcards matches itself only.
  lemma {:induction false} PlainMatchesItself(pattern: string, text: string)
    requires forall k :: 0 <= k < |pattern| ==> pattern[k] != '*' && pattern[k] != '?'
    ensures Denotes(Tokens(pattern), text) <==> text == pattern
    decreases |pattern|
  {
    if pattern != "" {
      var c, rest := pattern[0], pattern[1..];
      assert Tokens(pattern) == [Lit(c)] + Tokens(rest);
      DenotesConcat([Lit(c)], Tokens(rest), text);
      forall k | 0 <= k <= |text|
        ensures Splits([Lit(c)], Tokens(rest), text, k) <==> text[..k] == [c] && text[k..] == rest
      {
        OneTokenIff(Lit(c), text[..k]);
        PlainMatchesItself(rest, text[k..]);
      }
      if text == pattern { assert text[..1] == [c] && Splits([Lit(c)], Tokens(rest), text, 1); }
    }
  }
}
