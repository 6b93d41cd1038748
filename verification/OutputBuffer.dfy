// The capped output buffer (tool.rs, `OutputBuffer`): 50,000 bytes in all, 2,000 bytes a line, one
// marker. Text is a sequence of Unicode scalar values, measured in UTF-8 bytes.
module Utf8 {
  function Width(c: char): (w: nat)
    ensures 1 <= w <= 4
  {
    if c as int < 0x80 then 1 else if c as int < 0x800 then 2 else if c as int < 0x1_0000 then 3 else 4
  }

  function Bytes(text: string): nat {
    if text == "" then 0 else Bytes(text[..|text| - 1]) + Width(text[|text| - 1])
  }

  lemma {:induction false} BytesSnoc(text: string, c: char)
    ensures Bytes(text + [c]) == Bytes(text) + Width(c)
  {
    assert (text + [c])[..|text|] == text;
  }

  lemma {:induction false} BytesConcat(a: string, b: string)
    ensures Bytes(a + b) == Bytes(a) + Bytes(b)
    decreases |b|
  {
    if b == "" {
      assert a + b == a;
    } else {
      BytesConcat(a, b[..|b| - 1]);
      assert a + b == (a + b[..|b| - 1]) + [b[|b| - 1]];
      BytesSnoc(a + b[..|b| - 1], b[|b| - 1]);
    }
  }

  lemma {:induction false} AsciiBytes(text: string)
    requires forall k :: 0 <= k < |text| ==> text[k] as int < 0x80
    ensures Bytes(text) == |text|
  {
    if text != "" { AsciiBytes(text[..|text| - 1]); }
  }
}

module OutputBuffers {
  import opened Utf8

  const DEFAULT_MAX_CHARS: nat := 50_000
  const DEFAULT_MAX_LINE_LENGTH: nat := 2_000
  const MARKER := "[...truncated]"

  // The bytes after the last line break.
  function LineBytes(text: string): nat {
    if text == "" || text[|text| - 1] == '\n' then 0
    else LineBytes(text[..|text| - 1]) + Width(text[|text| - 1])
  }

  datatype Buffer = Buffer(text: string, truncated: bool)

  const EMPTY := Buffer("", false)

  predicate Full(b: Buffer) {
    Bytes(b.text) >= DEFAULT_MAX_CHARS
  }

  // Whether the buffer takes one more character.
  predicate Takes(text: string, c: char) {
    Bytes(text) < DEFAULT_MAX_CHARS && (c == '\n' || LineBytes(text) < DEFAULT_MAX_LINE_LENGTH)
  }

  function Marked(b: Buffer): Buffer {
    if b.truncated then b else Buffer(b.text + MARKER, true)
  }

  function PushedChar(b: Buffer, c: char): Buffer {
    if Takes(b.text, c) then b.(text := b.text + [c]) else Marked(b)
  }

  function Pushed(b: Buffer, chunk: string): Buffer
    decreases |chunk|
  {
    if chunk == "" then b else Pushed(PushedChar(b, chunk[0]), chunk[1..])
  }

  lemma {:induction false} FullStays(b: Buffer, chunk: string)
    requires Full(b) && b.truncated
    ensures Pushed(b, chunk) == b
    decreases |chunk|
  {
    if chunk != "" { FullStays(b, chunk[1..]); }
  }

  // How a chunk is cut into pieces does not matter.
  lemma {:induction false} ChunkingIndependent(b: Buffer, x: string, y: string)
    ensures Pushed(b, x + y) == Pushed(Pushed(b, x), y)
    decreases |x|
  {
    if x == "" {
      assert x + y == y;
    } else {
      assert (x + y)[1..] == x[1..] + y;
      ChunkingIndependent(PushedChar(b, x[0]), x[1..], y);
    }
  }

  lemma {:induction false} OneBack(text: string, start: nat)
    requires 0 < start <= |text| && text[start - 1] != '\n'
    ensures LineBytes(text[..start]) + Bytes(text[start..]) == LineBytes(text[..start - 1]) + Bytes(text[start - 1..])
  {
    var c := text[start - 1];
    assert text[..start][..start - 1] == text[..start - 1];
    assert text[start - 1..] == [c] + text[start..];
    BytesConcat([c], text[start..]);
    BytesSnoc("", c);
    assert "" + [c] == [c];
  }

  class OutputBuffer {
    var text: string
    var truncated: bool

    ghost function State(): Buffer
      reads this
    {
      Buffer(text, truncated)
    }

    constructor ()
      ensures State() == EMPTY
    {
      text, truncated := "", false;
    }

    // The start of the current line.
    method LineStart() returns (start: nat)
      ensures start <= |text| && LineBytes(text) == Bytes(text[start..])
    {
      start := |text|;
      assert text[..start] == text;
      while start > 0 && text[start - 1] != '\n'
        invariant start <= |text|
        invariant LineBytes(text) == LineBytes(text[..start]) + Bytes(text[start..])
      {
        OneBack(text, start);
        start := start - 1;
      }
    }

    method Mark()
      modifies this
      ensures State() == Marked(old(State()))
    {
      if !truncated {
        text := text + MARKER;
        truncated := true;
      }
    }

    method Push(chunk: string)
      modifies this
      ensures State() == Pushed(old(State()), chunk)
    {
      if truncated && Bytes(text) >= DEFAULT_MAX_CHARS {
        FullStays(State(), chunk);
        return;
      }
      assert chunk[0..] == chunk;
      for i := 0 to |chunk|
        invariant Pushed(State(), chunk[i..]) == Pushed(old(State()), chunk)
      {
        var c := chunk[i];
        assert chunk[i..][1..] == chunk[i + 1..];
        if Bytes(text) >= DEFAULT_MAX_CHARS {
          MarkedStaysFull(State());
          Mark();
          FullStays(State(), chunk[i + 1..]);
          return;
        }
        if c == '\n' {
          text := text + [c];
          continue;
        }
        var lineStart := LineStart();
        if Bytes(text[lineStart..]) >= DEFAULT_MAX_LINE_LENGTH {
          Mark();
          continue;
        }
        text := text + [c];
      }
    }
  }

  lemma {:induction false} MarkerIsShort()
    ensures Bytes(MARKER) == 14 && |MARKER| == 14
    ensures forall k :: 0 <= k < |MARKER| ==> MARKER[k] != '\n'
  {
    AsciiBytes(MARKER);
  }

  lemma {:induction false} MarkedStaysFull(b: Buffer)
    requires Full(b)
    ensures Full(Marked(b))
  {
    BytesConcat(b.text, MARKER);
  }

  // ---------- Bounds ----------

  // Each line of the text, the last one included, has at most `n` bytes.
  predicate LinesWithin(text: string, n: nat) {
    forall k :: 0 <= k <= |text| ==> LineBytes(text[..k]) <= n
  }

  predicate Bounded(b: Buffer) {
    var extra := if b.truncated then 14 else 0;
    && Bytes(b.text) <= DEFAULT_MAX_CHARS + 3 + extra
    && LinesWithin(b.text, DEFAULT_MAX_LINE_LENGTH + 3 + extra)
  }

  lemma {:induction false} LineGrows(text: string, more: string)
    requires forall k :: 0 <= k < |more| ==> more[k] != '\n'
    ensures LineBytes(text + more) == LineBytes(text) + Bytes(more)
    decreases |more|
  {
    if more == "" {
      assert text + more == text;
    } else {
      var m := more[..|more| - 1];
      LineGrows(text, m);
      assert (text + more)[..|text + more| - 1] == text + m;
    }
  }

  lemma {:induction false} BytesGrow(a: string, k: nat)
    requires k <= |a|
    ensures Bytes(a[..k]) <= Bytes(a)
  {
    assert a == a[..k] + a[k..];
    BytesConcat(a[..k], a[k..]);
  }

  lemma {:induction false} MarkedBounded(b: Buffer)
    requires Bounded(b)
    ensures Bounded(Marked(b))
  {
    if !b.truncated {
      MarkerIsShort();
      BytesConcat(b.text, MARKER);
      var t := b.text + MARKER;
      forall k | 0 <= k <= |t|
        ensures LineBytes(t[..k]) <= DEFAULT_MAX_LINE_LENGTH + 3 + 14
      {
        if k <= |b.text| {
          assert t[..k] == b.text[..k];
        } else {
          var part := MARKER[..k - |b.text|];
          assert t[..k] == b.text + part;
          LineGrows(b.text, part);
          BytesGrow(MARKER, k - |b.text|);
          assert b.text[..|b.text|] == b.text;
        }
      }
    }
  }

  lemma {:induction false} PushedCharBounded(b: Buffer, c: char)
    requires Bounded(b)
    ensures Bounded(PushedChar(b, c))
  {
    if Takes(b.text, c) {
      BytesSnoc(b.text, c);
      var t := b.text + [c];
      forall k | 0 <= k <= |t|
        ensures LineBytes(t[..k]) <= DEFAULT_MAX_LINE_LENGTH + 3 + if b.truncated then 14 else 0
      {
        if k <= |b.text| {
          assert t[..k] == b.text[..k];
        } else {
          assert t[..k] == t && t[..|t| - 1] == b.text;
        }
      }
    } else {
      MarkedBounded(b);
    }
  }

  // Whatever is pushed, the text has at most 50,017 bytes and each line at most 2,017.
  lemma {:induction false} PushedBounded(b: Buffer, chunk: string)
    requires Bounded(b)
    ensures Bounded(Pushed(b, chunk))
    decreases |chunk|
  {
    if chunk != "" {
      PushedCharBounded(b, chunk[0]);
      PushedBounded(PushedChar(b, chunk[0]), chunk[1..]);
    }
  }

  // ---------- What is kept ----------

  // Every character finds room when the buffer takes all those before it.
  predicate Fits(input: string) {
    forall k :: 0 <= k < |input| ==> Takes(input[..k], input[k])
  }

  ghost predicate IsSubsequence(a: string, b: string)
    decreases |b|
  {
    a == "" || (b != "" && (IsSubsequence(a, b[1..]) || (a[0] == b[0] && IsSubsequence(a[1..], b[1..]))))
  }

  // A truncated buffer holds the longest part of the input that fits, one marker, and some of the
  // characters that came later.
  ghost predicate Cut(text: string, input: string, k: nat) {
    && k < |input| && Fits(input[..k]) && !Fits(input[..k + 1])
    && |text| >= k + |MARKER| && text[..k + |MARKER|] == input[..k] + MARKER
    && IsSubsequence(text[k + |MARKER|..], input[k + 1..])
  }

  lemma {:induction false} FitsSnoc(input: string, c: char)
    requires Fits(input)
    ensures Fits(input + [c]) <==> Takes(input, c)
  {
    var all := input + [c];
    assert all[..|input|] == input;
    forall k | 0 <= k < |input|
      ensures Takes(all[..k], all[k])
    {
      assert all[..k] == input[..k];
    }
    if Fits(all) { assert Takes(all[..|input|], all[|input|]); }
  }

  lemma {:induction false} FitsShorter(input: string, k: nat)
    requires Fits(input) && k <= |input|
    ensures Fits(input[..k])
  {
    forall j | 0 <= j < k
      ensures Takes(input[..k][..j], input[..k][j])
    {
      assert input[..k][..j] == input[..j];
    }
  }

  lemma {:induction false} SubsequenceSnoc(a: string, b: string, c: char)
    requires IsSubsequence(a, b)
    ensures IsSubsequence(a, b + [c]) && IsSubsequence(a + [c], b + [c])
    decreases |b|
  {
    if b == "" {
      assert a + [c] == [c] && b + [c] == [c] && [c][1..] == "";
    } else {
      assert (b + [c])[1..] == b[1..] + [c];
      if a != "" && IsSubsequence(a, b[1..]) {
        SubsequenceSnoc(a, b[1..], c);
      } else if a != "" {
        SubsequenceSnoc(a[1..], b[1..], c);
        assert (a + [c])[1..] == a[1..] + [c];
      } else {
        SubsequenceSnoc(a, b[1..], c);
      }
    }
  }

  // Either all of the input is there and it fitted, or the text was cut where it stopped fitting.
  ghost predicate Holds(b: Buffer, input: string) {
    if b.truncated then !Fits(input) && exists k: nat :: Cut(b.text, input, k) else Fits(input) && b.text == input
  }

  lemma {:induction false} PushedSnoc(b: Buffer, chunk: string, c: char)
    ensures Pushed(b, chunk + [c]) == PushedChar(Pushed(b, chunk), c)
  {
    ChunkingIndependent(b, chunk, [c]);
    assert [c][1..] == "";
  }

  lemma {:induction false} HoldsCut(b: Buffer, input: string, c: char)
    requires Holds(b, input) && b.truncated
    ensures Holds(PushedChar(b, c), input + [c])
  {
    var k: nat :| Cut(b.text, input, k);
    CutSnoc(b.text, input, k, c);
    assert (input + [c])[..|input|] == input;
    if Fits(input + [c]) { FitsShorter(input + [c], |input|); }
  }

  // It stays cut there, whether the next character is dropped or taken.
  lemma {:induction false} CutSnoc(text: string, input: string, k: nat, c: char)
    requires Cut(text, input, k)
    ensures Cut(text, input + [c], k) && Cut(text + [c], input + [c], k)
  {
    var all, t, n := input + [c], text + [c], k + |MARKER|;
    assert all[..k] == input[..k] && all[..k + 1] == input[..k + 1] && all[k + 1..] == input[k + 1..] + [c];
    SubsequenceSnoc(text[n..], input[k + 1..], c);
    assert t[n..] == text[n..] + [c] && t[..n] == text[..n];
  }

  lemma {:induction false} HoldsNext(b: Buffer, input: string, c: char)
    requires Holds(b, input)
    ensures Holds(PushedChar(b, c), input + [c])
  {
    var all := input + [c];
    if b.truncated {
      HoldsCut(b, input, c);
    } else {
      FitsSnoc(input, c);
      if !Takes(input, c) {
        var t := input + MARKER;
        var k := |input|;
        assert all[..k] == input && all[..k + 1] == all && all[k + 1..] == "" && t[k + |MARKER|..] == "";
        assert Cut(t, all, k);
      }
    }
  }

  lemma {:induction false} HoldsSnoc(before: string, c: char)
    requires Holds(Pushed(EMPTY, before), before)
    ensures Holds(Pushed(EMPTY, before + [c]), before + [c])
  {
    PushedSnoc(EMPTY, before, c);
    HoldsNext(Pushed(EMPTY, before), before, c);
  }

  lemma {:induction false} PushedHolds(input: string)
    ensures Holds(Pushed(EMPTY, input), input)
    decreases |input|
  {
    if input != "" {
      var before, c := input[..|input| - 1], input[|input| - 1];
      assert input == before + [c];
      PushedHolds(before);
      HoldsSnoc(before, c);
    }
  }

  // What stays within the limits fits: 50,000 bytes in all and 2,000 bytes a line. And what fits is at
  // most one character longer.
  lemma {:induction false} LimitsMean(input: string)
    ensures Bytes(input) <= 50_000 && LinesWithin(input, 2_000) ==> Fits(input)
    ensures Fits(input) ==> Bytes(input) < 50_004 && LinesWithin(input, 2_003)
  {
    if Bytes(input) <= 50_000 && LinesWithin(input, 2_000) {
      forall k | 0 <= k < |input|
        ensures Takes(input[..k], input[k])
      {
        OneLonger(input, k);
        BytesGrow(input, k + 1);
      }
    }
    if Fits(input) {
      forall k | 0 <= k <= |input|
        ensures LineBytes(input[..k]) <= 2_003
      {
        if k > 0 { OneLonger(input, k - 1); }
      }
      if input != "" {
        OneLonger(input, |input| - 1);
        assert input[..|input|] == input;
      }
    }
  }

  lemma {:induction false} OneLonger(input: string, k: nat)
    requires k < |input|
    ensures Bytes(input[..k + 1]) == Bytes(input[..k]) + Width(input[k])
    ensures LineBytes(input[..k + 1]) == if input[k] == '\n' then 0 else LineBytes(input[..k]) + Width(input[k])
  {
    assert input[..k + 1][..k] == input[..k];
  }

  // Exactly when the input did not fit is the buffer truncated, and then it is cut as described;
  // otherwise it holds the input.
  lemma {:induction false} TruncatedIff(input: string)
    ensures Pushed(EMPTY, input).truncated <==> !Fits(input)
    ensures Fits(input) ==> Pushed(EMPTY, input).text == input
    ensures !Fits(input) ==> exists k: nat :: Cut(Pushed(EMPTY, input).text, input, k)
  {
    PushedHolds(input);
  }

  // The text alone does not tell whether something was cut: a full line that goes on like the marker
  // comes out as it went in, and the buffer is truncated all the same.
  lemma {:induction false} TruncatedYetEqual(line: string)
    requires Fits(line) && LineBytes(line) >= DEFAULT_MAX_LINE_LENGTH
    ensures Pushed(EMPTY, line + MARKER) == Buffer(line + MARKER, true)
  {
    FittingIsKept(line);
    MarkerIsShort();
    ChunkingIndependent(EMPTY, line, MARKER);
    LongLineMarks(Buffer(line, false), MARKER);
  }

  lemma {:induction false} FittingIsKept(input: string)
    requires Fits(input)
    ensures Pushed(EMPTY, input) == Buffer(input, false)
  {
    TruncatedIff(input);
  }

  lemma {:induction false} LongLineMarks(b: Buffer, chunk: string)
    requires LineBytes(b.text) >= DEFAULT_MAX_LINE_LENGTH && chunk != ""
    requires forall k :: 0 <= k < |chunk| ==> chunk[k] != '\n'
    ensures Pushed(b, chunk) == Marked(b)
  {
    var marked := Marked(b);
    MarkedLineIsLong(b);
    assert PushedChar(b, chunk[0]) == marked;
    LongLineStays(marked, chunk[1..]);
  }

  lemma {:induction false} MarkedLineIsLong(b: Buffer)
    requires LineBytes(b.text) >= DEFAULT_MAX_LINE_LENGTH
    ensures LineBytes(Marked(b).text) >= DEFAULT_MAX_LINE_LENGTH
  {
    MarkerIsShort();
    LineGrows(b.text, MARKER);
  }

  lemma {:induction false} LongLineStays(b: Buffer, chunk: string)
    requires b.truncated && LineBytes(b.text) >= DEFAULT_MAX_LINE_LENGTH
    requires forall k :: 0 <= k < |chunk| ==> chunk[k] != '\n'
    ensures Pushed(b, chunk) == b
    decreases |chunk|
  {
    if chunk != "" { LongLineStays(b, chunk[1..]); }
  }

  lemma {:induction false} SameLetterFits(n: nat, line: string)
    requires n <= DEFAULT_MAX_LINE_LENGTH && |line| == n && forall k :: 0 <= k < n ==> line[k] == 'a'
    ensures Fits(line) && LineBytes(line) == n && Bytes(line) == n
  {
    if n > 0 {
      var before := line[..n - 1];
      SameLetterFits(n - 1, before);
      assert line == before + [line[n - 1]];
      FitsSnoc(before, line[n - 1]);
    }
  }

  // Such a line exists.
  lemma {:induction false} TruncationCanHide()
    ensures exists input :: Pushed(EMPTY, input) == Buffer(input, true)
  {
    var line := seq(DEFAULT_MAX_LINE_LENGTH, _ => 'a');
    SameLetterFits(DEFAULT_MAX_LINE_LENGTH, line);
    TruncatedYetEqual(line);
  }

  // ---------- Exactly which inputs are truncated and yet unchanged ----------

  // The input stops fitting at `k`, goes on there with the very letters of the marker, and from then
  // on every character is taken.
  predicate GoesOnAsMarker(input: string, k: nat) {
    && k + |MARKER| <= |input|
    && Fits(input[..k]) && !Takes(input[..k], input[k])
    && input[k..k + |MARKER|] == MARKER
    && forall j :: k + |MARKER| <= j < |input| ==> Takes(input[..j], input[j])
  }

  predicate AllTaken(text: string, rest: string) {
    forall j :: 0 <= j < |rest| ==> Takes(text + rest[..j], rest[j])
  }

  lemma {:induction false} AllTakenUnfolds(text: string, rest: string)
    requires rest != ""
    ensures AllTaken(text, rest) <==> Takes(text, rest[0]) && AllTaken(text + [rest[0]], rest[1..])
  {
    var more := text + [rest[0]];
    assert text + rest[..0] == text;
    forall j | 0 <= j < |rest[1..]|
      ensures more + rest[1..][..j] == text + rest[..j + 1] && rest[1..][j] == rest[j + 1]
    {
      assert rest[..j + 1] == [rest[0]] + rest[1..][..j];
    }
    if Takes(text, rest[0]) && AllTaken(more, rest[1..]) {
      forall j | 0 <= j < |rest|
        ensures Takes(text + rest[..j], rest[j])
      {
        if j > 0 { assert Takes(more + rest[1..][..j - 1], rest[1..][j - 1]); }
      }
    }
    if AllTaken(text, rest) {
      assert Takes(text + rest[..0], rest[0]);
      forall j | 0 <= j < |rest[1..]|
        ensures Takes(more + rest[1..][..j], rest[1..][j])
      {
        assert Takes(text + rest[..j + 1], rest[j + 1]);
      }
    }
  }

  // Behind a marker the text grows by all of the rest exactly if every character is taken.
  lemma {:induction false} GrowsByAllIff(b: Buffer, rest: string)
    requires b.truncated
    ensures |Pushed(b, rest).text| <= |b.text| + |rest| && Pushed(b, rest).truncated
    ensures Pushed(b, rest).text == b.text + rest <==> AllTaken(b.text, rest)
    decreases |rest|
  {
    if rest == "" {
      assert b.text + rest == b.text;
    } else {
      var b' := PushedChar(b, rest[0]);
      AllTakenUnfolds(b.text, rest);
      GrowsByAllIff(b', rest[1..]);
      if Takes(b.text, rest[0]) {
        assert (b.text + [rest[0]]) + rest[1..] == b.text + rest;
      }
    }
  }

  // Where the next character finds no room, the marker's own letters leave just the marker.
  lemma {:induction false} StuckMarks(text: string)
    requires !Takes(text, MARKER[0])
    ensures Pushed(Buffer(text, false), MARKER) == Buffer(text + MARKER, true)
  {
    var b := Buffer(text, false);
    MarkerIsShort();
    if Full(b) {
      MarkedStaysFull(b);
      FullStays(Marked(b), MARKER[1..]);
    } else {
      LongLineMarks(b, MARKER);
    }
  }

  lemma {:induction false} MarkerPushed(head: string, tail: string)
    requires Fits(head) && !Takes(head, MARKER[0])
    ensures Pushed(EMPTY, head + MARKER + tail) == Pushed(Buffer(head + MARKER, true), tail)
  {
    FittingIsKept(head);
    StuckMarks(head);
    ChunkingIndependent(EMPTY, head + MARKER, tail);
    ChunkingIndependent(EMPTY, head, MARKER);
  }

  lemma {:induction false} MarkerAt(input: string, k: nat)
    requires k + |MARKER| <= |input| && input[k..k + |MARKER|] == MARKER
    ensures input == input[..k] + MARKER + input[k + |MARKER|..]
    ensures input[k] == MARKER[0] && input[..k + |MARKER|] == input[..k] + MARKER
  {
    assert input[k..k + |MARKER|][0] == input[k];
  }

  // After the marker an input comes out unchanged exactly if all of its rest is taken.
  lemma {:induction false} UnchangedBehind(input: string, k: nat)
    requires k + |MARKER| <= |input| && input[k..k + |MARKER|] == MARKER
    requires Fits(input[..k]) && !Takes(input[..k], input[k])
    ensures Pushed(EMPTY, input) == Buffer(input, true)
      <==> forall j :: k + |MARKER| <= j < |input| ==> Takes(input[..j], input[j])
  {
    var n := k + |MARKER|;
    var head, tail := input[..n], input[n..];
    MarkerAt(input, k);
    MarkerPushed(input[..k], tail);
    GrowsByAllIff(Buffer(head, true), tail);
    assert head + tail == input;
    TailTakenIff(input, n);
  }

  lemma {:induction false} TailTakenIff(input: string, n: nat)
    requires n <= |input|
    ensures AllTaken(input[..n], input[n..]) <==> forall j :: n <= j < |input| ==> Takes(input[..j], input[j])
  {
    var head, tail := input[..n], input[n..];
    forall j | n <= j < |input|
      ensures head + tail[..j - n] == input[..j] && tail[j - n] == input[j]
    {
    }
    if AllTaken(head, tail) {
      forall j | n <= j < |input|
        ensures Takes(input[..j], input[j])
      {
        assert Takes(head + tail[..j - n], tail[j - n]);
      }
    }
    if forall j :: n <= j < |input| ==> Takes(input[..j], input[j]) {
      forall j | 0 <= j < |tail|
        ensures Takes(head + tail[..j], tail[j])
      {
        assert Takes(input[..j + n], input[j + n]);
      }
    }
  }

  // A truncated buffer that holds its input was cut where the input has the marker's letters.
  lemma {:induction false} UnchangedHasMarker(input: string)
    requires Pushed(EMPTY, input) == Buffer(input, true)
    ensures exists k: nat :: GoesOnAsMarker(input, k)
  {
    TruncatedIff(input);
    var k: nat :| Cut(input, input, k);
    var n := k + |MARKER|;
    assert input[k..n] == input[..n][k..] == MARKER;
    assert input[..k + 1] == input[..k] + [input[k]];
    FitsSnoc(input[..k], input[k]);
    UnchangedBehind(input, k);
    assert GoesOnAsMarker(input, k);
  }

  // The exact exception: an input comes out unchanged and truncated exactly if it goes on like the
  // marker where it stops fitting, and then fits again.
  lemma {:induction false} UnchangedYetTruncatedIff(input: string)
    ensures Pushed(EMPTY, input) == Buffer(input, true) <==> exists k: nat :: GoesOnAsMarker(input, k)
  {
    if Pushed(EMPTY, input) == Buffer(input, true) { UnchangedHasMarker(input); }
    if k: nat :| GoesOnAsMarker(input, k) { UnchangedBehind(input, k); }
  }

  // So the flag says whether the text differs from the input, for all inputs but those.
  lemma {:induction false} FlagTellsIff(input: string)
    ensures (Pushed(EMPTY, input).truncated <==> Pushed(EMPTY, input).text != input)
      <==> !exists k: nat :: GoesOnAsMarker(input, k)
  {
    TruncatedIff(input);
    UnchangedYetTruncatedIff(input);
  }
}
