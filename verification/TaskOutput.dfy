// Live output of background tasks (tool.rs): what is streamed while a task runs adds up to what it
// settles with.
module TaskOutputs {
  import opened Wrappers
  import opened Utf8
  import O = OutputBuffers

  // The longest prefix of at most `cap` bytes.
  function Truncated(text: string, cap: nat): string {
    TruncatedAfter(text, 0, cap)
  }

  // The part of `text[k..]` that is still kept after the first `k` characters were.
  function KeptCount(text: string, k: nat, cap: nat): (n: nat)
    requires k <= |text|
    ensures k <= n <= |text|
    decreases |text| - k
  {
    if k == |text| || Bytes(text[..k]) + Width(text[k]) > cap then k else KeptCount(text, k + 1, cap)
  }

  function TruncatedAfter(text: string, k: nat, cap: nat): string
    requires k <= |text|
  {
    text[..KeptCount(text, k, cap)]
  }

  lemma {:induction false} KeptFits(text: string, k: nat, cap: nat)
    requires k <= |text| && Bytes(text[..k]) <= cap
    ensures var n := KeptCount(text, k, cap);
      Bytes(text[..n]) <= cap && (n < |text| ==> Bytes(text[..n + 1]) > cap)
    decreases |text| - k
  {
    if k < |text| {
      assert text[..k + 1] == text[..k] + [text[k]];
      BytesSnoc(text[..k], text[k]);
      if Bytes(text[..k]) + Width(text[k]) <= cap { KeptFits(text, k + 1, cap); }
    }
  }

  // Truncation keeps the longest prefix that fits, and never splits a character.
  lemma {:induction false} TruncatedIsLongest(text: string, cap: nat, k: nat)
    requires k <= |text|
    ensures var kept := Truncated(text, cap);
      && |kept| <= |text| && kept == text[..|kept|] && Bytes(kept) <= cap
      && (Bytes(text[..k]) <= cap ==> k <= |kept|)
  {
    assert text[..0] == "";
    KeptFits(text, 0, cap);
    var n := KeptCount(text, 0, cap);
    if k > n {
      assert text[..k] == text[..n + 1] + text[n + 1..k];
      BytesConcat(text[..n + 1], text[n + 1..k]);
    }
  }

  method TruncateUtf8ToBytes(text: string, cap: nat) returns (capped: string)
    ensures capped == Truncated(text, cap)
  {
    capped := "";
    var used := 0;
    for i := 0 to |text|
      invariant capped == text[..i] && used == Bytes(capped)
      invariant Truncated(text, cap) == TruncatedAfter(text, i, cap)
    {
      if used + Width(text[i]) > cap {
        return;
      }
      BytesSnoc(capped, text[i]);
      assert text[..i + 1] == text[..i] + [text[i]];
      used := used + Width(text[i]);
      capped := capped + [text[i]];
    }
    assert text[..|text|] == text;
  }

  // ---------- A task ----------

  datatype Status = Running | Completed | Failed | Killed | TimedOut

  // A background command appends to its state as it goes; a subagent's text is kept beside the state
  // and stored when the task settles, except when it settles because it timed out.
  datatype Kind = Bash | Agent

  // `stream` is what the worker has gathered, `output` what the registry shows; `deltas` and
  // `settled` are the events the sink let through.
  datatype Task = Task(
    kind: Kind,
    status: Status,
    stream: string,
    output: string,
    sinkOpen: bool,
    deltas: seq<string>,
    settled: Option<string>)

  datatype Action =
    | Chunk(text: string)
    | Settle(status: Status)
    | CloseSink

  function Total(deltas: seq<string>): string {
    if deltas == [] then "" else Total(deltas[..|deltas| - 1]) + deltas[|deltas| - 1]
  }

  // The output of the foreground phase, cut to the cap, starts a background command's stream.
  function Launched(kind: Kind, seed: string): Task {
    var kept := if kind.Bash? then Truncated(seed, O.DEFAULT_MAX_CHARS) else "";
    Task(kind, Running, kept, kept, true, if kept == "" then [] else [kept], None)
  }

  function Appended(t: Task, chunk: string): Task {
    if Bytes(t.stream) >= O.DEFAULT_MAX_CHARS then t
    else
      var delta := Truncated(chunk, O.DEFAULT_MAX_CHARS - Bytes(t.stream));
      if delta == "" then t
      else
        t.(stream := t.stream + delta,
           output := if t.kind.Bash? then t.output + delta else t.output,
           deltas := if t.sinkOpen then t.deltas + [delta] else t.deltas)
  }

  // A subagent whose session is gone is marked as killed, and its text is not stored.
  function Settled(t: Task, status: Status): Task {
    if t.kind.Agent? && !t.sinkOpen then t.(status := Killed)
    else
      var output := if t.kind.Agent? && !status.TimedOut? then t.stream else t.output;
      t.(status := status, output := output, settled := if t.sinkOpen then Some(output) else None)
  }

  function Next(t: Task, a: Action): Task {
    if !t.status.Running? then t
    else
      match a
      case Chunk(text) => Appended(t, text)
      case Settle(status) => if status.Running? then t else Settled(t, status)
      case CloseSink => t.(sinkOpen := false)
  }

  function After(t: Task, actions: seq<Action>): Task
    decreases |actions|
  {
    if actions == [] then t else After(Next(t, actions[0]), actions[1..])
  }

  predicate Inv(t: Task) {
    && Bytes(t.stream) <= O.DEFAULT_MAX_CHARS
    && (t.sinkOpen ==> Total(t.deltas) == t.stream)
    && (t.kind.Bash? ==> t.output == t.stream)
    && (t.status.Running? ==> t.settled.None?)
    && (t.status.Running? && t.kind.Agent? ==> t.output == "")
    && (t.settled.Some? ==> SettledWell(t))
  }

  // The settled output is what was streamed; a subagent that timed out settles with nothing.
  predicate SettledWell(t: Task) {
    && t.sinkOpen && t.settled.Some?
    && t.settled.value == if t.kind.Agent? && t.status.TimedOut? then "" else Total(t.deltas)
  }

  lemma {:induction false} TotalSnoc(deltas: seq<string>, delta: string)
    ensures Total(deltas + [delta]) == Total(deltas) + delta
  {
    assert (deltas + [delta])[..|deltas|] == deltas;
  }

  lemma {:induction false} LaunchedInv(kind: Kind, seed: string)
    ensures Inv(Launched(kind, seed))
  {
    TruncatedIsLongest(seed, O.DEFAULT_MAX_CHARS, 0);
    var kept := Truncated(seed, O.DEFAULT_MAX_CHARS);
    TotalSnoc([], kept);
    assert [] + [kept] == [kept] && "" + kept == kept;
  }

  lemma {:induction false} AppendedInv(t: Task, chunk: string)
    requires Inv(t) && t.status.Running?
    ensures Inv(Appended(t, chunk))
  {
    if Bytes(t.stream) < O.DEFAULT_MAX_CHARS {
      var room := O.DEFAULT_MAX_CHARS - Bytes(t.stream);
      var delta := Truncated(chunk, room);
      TruncatedIsLongest(chunk, room, 0);
      BytesConcat(t.stream, delta);
      TotalSnoc(t.deltas, delta);
    }
  }

  lemma {:induction false} AfterInv(t: Task, actions: seq<Action>)
    requires Inv(t)
    ensures Inv(After(t, actions))
    decreases |actions|
  {
    if actions != [] {
      if t.status.Running? && actions[0].Chunk? { AppendedInv(t, actions[0].text); }
      AfterInv(Next(t, actions[0]), actions[1..]);
    }
  }

  // For every sequence of chunks and every way to settle: a settle event's output is exactly the
  // concatenated deltas and has at most 50,000 bytes - except for a subagent that timed out, for
  // which that holds exactly if it streamed nothing.
  lemma {:induction false} DeltasEqualSettle(kind: Kind, seed: string, actions: seq<Action>)
    requires After(Launched(kind, seed), actions).settled.Some?
    ensures var t := After(Launched(kind, seed), actions);
      && Bytes(t.settled.value) <= O.DEFAULT_MAX_CHARS
      && (t.settled.value == Total(t.deltas) <==> !(t.kind.Agent? && t.status.TimedOut? && Total(t.deltas) != ""))
  {
    LaunchedInv(kind, seed);
    AfterInv(Launched(kind, seed), actions);
  }

  // The exception happens: a subagent that streamed something and then timed out settles with nothing.
  lemma {:induction false} TimedOutAgentDiffers(text: string)
    requires text != "" && Bytes(text) <= O.DEFAULT_MAX_CHARS
    ensures var t := After(Launched(Agent, ""), [Chunk(text), Settle(TimedOut)]);
      t.settled == Some("") && Total(t.deltas) == text
  {
    var t0 := Launched(Agent, "");
    WholeChunkKept(t0, text);
    TotalSnoc([], text);
    assert [] + [text] == [text] && "" + text == text;
    TwoActions(t0, Chunk(text), Settle(TimedOut));
  }

  lemma {:induction false} WholeChunkKept(t: Task, text: string)
    requires text != "" && t.kind.Agent? && t.stream == "" && Bytes(text) <= O.DEFAULT_MAX_CHARS && t.sinkOpen
    ensures Appended(t, text) == t.(stream := text, deltas := t.deltas + [text])
  {
    assert text[..|text|] == text && "" + text == text;
    TruncatedIsLongest(text, O.DEFAULT_MAX_CHARS, |text|);
  }

  lemma {:induction false} TwoActions(t: Task, a: Action, b: Action)
    ensures After(t, [a, b]) == Next(Next(t, a), b)
  {
    assert [a, b][1..] == [b] && [b][1..] == [];
    assert After(t, [a, b]) == After(Next(t, a), [b]);
    assert After(Next(t, a), [b]) == After(Next(Next(t, a), b), []);
  }

  // A chunk for which there is room is kept whole, and told if anybody listens.
  lemma {:induction false} ChunkMeans(t: Task, chunk: string)
    requires Inv(t) && t.status.Running? && Bytes(t.stream) + Bytes(chunk) <= O.DEFAULT_MAX_CHARS
    ensures var t' := Next(t, Chunk(chunk));
      && t'.stream == t.stream + chunk && (t.kind.Bash? ==> t'.output == t'.stream)
      && t'.deltas == (if chunk != "" && t.sinkOpen then t.deltas + [chunk] else t.deltas)
      && t'.status.Running? && t'.settled.None?
  {
    assert t.stream + "" == t.stream && chunk[..|chunk|] == chunk;
    if Bytes(t.stream) < O.DEFAULT_MAX_CHARS {
      TruncatedIsLongest(chunk, O.DEFAULT_MAX_CHARS - Bytes(t.stream), |chunk|);
    } else {
      NoBytes(chunk);
    }
  }

  lemma {:induction false} NoBytes(text: string)
    ensures Bytes(text) == 0 ==> text == ""
  {
  }

  // A task settles once, with the status it is given, and shows what it streamed; a subagent whose
  // session is gone is killed instead, and neither it nor one that timed out shows anything. The event
  // is told if anybody listens, and nothing changes after it.
  lemma {:induction false} SettleMeans(t: Task, status: Status, a: Action)
    requires Inv(t) && t.status.Running? && !status.Running?
    ensures var t' := Next(t, Settle(status));
      && t'.status == (if t.kind.Agent? && !t.sinkOpen then Killed else status)
      && t'.output == (if t.kind.Agent? && (status.TimedOut? || !t.sinkOpen) then "" else t.stream)
      && t'.settled == (if t.sinkOpen then Some(t'.output) else None)
      && t'.stream == t.stream && t'.deltas == t.deltas
      && Next(t', a) == t'
  {
  }

  // A chunk loses characters only when the output is within three bytes of the cap.
  lemma {:induction false} LossMeansFull(t: Task, chunk: string)
    requires Inv(t) && t.status.Running?
    requires Appended(t, chunk).stream != t.stream + chunk
    ensures Bytes(Appended(t, chunk).stream) > O.DEFAULT_MAX_CHARS - 4
  {
    if Bytes(t.stream) < O.DEFAULT_MAX_CHARS {
      var room := O.DEFAULT_MAX_CHARS - Bytes(t.stream);
      var delta := Truncated(chunk, room);
      TruncatedIsFull(chunk, room);
      BytesConcat(t.stream, delta);
      assert t.stream + "" == t.stream;
    }
  }

  // Where something is cut off, less than four bytes are left.
  lemma {:induction false} TruncatedIsFull(text: string, cap: nat)
    ensures Truncated(text, cap) == text || cap < Bytes(Truncated(text, cap)) + 4
  {
    var kept := Truncated(text, cap);
    TruncatedIsLongest(text, cap, |text|);
    assert text[..|text|] == text;
    if |kept| < |text| {
      TruncatedIsLongest(text, cap, |kept| + 1);
      assert text[..|kept| + 1] == kept + [text[|kept|]];
      BytesSnoc(kept, text[|kept|]);
    }
  }

  // ---------- As it is written ----------

  class BackgroundTask {
    const kind: Kind
    var status: Status
    var stream: string
    var output: string
    var sinkOpen: bool
    var deltas: seq<string>
    var settled: Option<string>

    ghost function State(): Task
      reads this
    {
      Task(kind, status, stream, output, sinkOpen, deltas, settled)
    }

    constructor (kind: Kind, seed: string)
      ensures State() == Launched(kind, seed)
    {
      var kept := "";
      if kind.Bash? {
        kept := TruncateUtf8ToBytes(seed, O.DEFAULT_MAX_CHARS);
      }
      this.kind, status, stream, output := kind, Running, kept, kept;
      sinkOpen, deltas, settled := true, if kept == "" then [] else [kept], None;
    }

    method AppendAndEmit(chunk: string)
      modifies this
      ensures State() == Appended(old(State()), chunk)
    {
      var used := Bytes(stream);
      if used >= O.DEFAULT_MAX_CHARS {
        return;
      }
      var delta := TruncateUtf8ToBytes(chunk, O.DEFAULT_MAX_CHARS - used);
      if delta == "" {
        return;
      }
      stream := stream + delta;
      if kind.Bash? {
        output := output + delta;
      }
      if sinkOpen {
        deltas := deltas + [delta];
      }
    }

    method DrainStream(chunks: seq<string>) returns (any: bool)
      requires status.Running?
      modifies this
      ensures status.Running? && State() == After(old(State()), Chunks(chunks))
      ensures any <==> chunks != []
    {
      any := false;
      ghost var before := State();
      assert chunks[0..] == chunks;
      for i := 0 to |chunks|
        invariant status.Running? && (any <==> i > 0)
        invariant After(State(), Chunks(chunks[i..])) == After(before, Chunks(chunks))
      {
        assert chunks[i..][1..] == chunks[i + 1..];
        ChunksHead(chunks[i..]);
        AppendAndEmit(chunks[i]);
        any := true;
      }
    }

    // Drain every chunk that is there: those of stdout, then those of stderr.
    method DrainOutput(stdout: seq<string>, stderr: seq<string>) returns (any: bool)
      requires status.Running?
      modifies this
      ensures State() == After(After(old(State()), Chunks(stdout)), Chunks(stderr))
      ensures any <==> stdout != [] || stderr != []
    {
      var anyOut := DrainStream(stdout);
      var anyErr := DrainStream(stderr);
      any := anyOut || anyErr;
    }

    method SettleAs(status': Status)
      requires status.Running? && !status'.Running? && settled.None?
      modifies this
      ensures State() == Settled(old(State()), status')
    {
      if kind.Agent? && !sinkOpen {
        status := Killed;
        return;
      }
      if kind.Agent? && !status'.TimedOut? {
        output := stream;
      }
      status := status';
      settled := if sinkOpen then Some(output) else None;
    }
  }

  function Chunks(texts: seq<string>): seq<Action> {
    if texts == [] then [] else [Chunk(texts[0])] + Chunks(texts[1..])
  }

  lemma {:induction false} ChunksHead(texts: seq<string>)
    requires texts != []
    ensures Chunks(texts)[0] == Chunk(texts[0]) && Chunks(texts)[1..] == Chunks(texts[1..])
  {
  }
}
