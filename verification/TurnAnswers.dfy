// Same-step duplicates over whole runs: calls of one step that ask for the same thing are answered
// alike, and no duplicate ever misses its original's result. Nothing is assumed of the history the
// turn starts from, of call ids, or of the executor.
module TurnAnswers {
  import opened Messages
  import opened Tools
  import opened Turn
  import opened TurnRuns
  import opened Wrappers

  // ---------- The invariant ----------

  predicate Alike(a: Answer, b: Answer) {
    a.step == b.step && a.key == b.key ==> a.output == b.output
  }

  // Every answer was found and belongs to a step up to `step`, and like calls of one step have like
  // answers.
  predicate Agree(answers: seq<Answer>, step: nat) {
    && (forall j :: 0 <= j < |answers| ==> answers[j].found && answers[j].key.Some? && answers[j].step <= step)
    && (forall j, k :: 0 <= j < |answers| && 0 <= k < |answers| ==> Alike(answers[j], answers[k]))
  }

  // An answer of the current step is the result recorded under its key.
  predicate OnRecord(a: Answer, step: nat, results: map<string, ToolResult>) {
    a.step == step ==> a.key.Some? && a.key.value in results && results[a.key.value].output == a.output
  }

  predicate Linked(answers: seq<Answer>, step: nat, results: map<string, ToolResult>) {
    forall j :: 0 <= j < |answers| ==> OnRecord(answers[j], step, results)
  }

  predicate Tidy(s: Session) {
    Agree(s.answers, s.steps) && Linked(s.answers, s.steps, s.dedupe.stepResults)
  }

  // In a step, before one of its calls.
  ghost predicate Ready(s: Session) {
    Tidy(s) && D.Settled(s.dedupe) && s.pending.None?
  }

  // In a step, with that call being dealt with.
  ghost predicate Busy(s: Session, call: ToolCall) {
    Tidy(s) && D.Running(s.dedupe, call)
  }

  ghost predicate Fine(s: Session, flow: Flow) {
    match flow
    case Again => Agree(s.answers, s.steps) && s.pending.None?
    case Halt(NeedsApproval(_)) => s.pending.Some? && Busy(s, s.pending.value.call)
    case Halt(TurnOver(_)) => Agree(s.answers, s.steps)
  }

  // Nothing the invariant speaks of changed.
  predicate SameBooks(s: Session, s': Session) {
    s'.answers == s.answers && s'.steps == s.steps && s'.dedupe == s.dedupe && s'.pending == s.pending
  }

  lemma {:induction false} OneMoreAnswer(answers: seq<Answer>, a: Answer, step: nat)
    requires Agree(answers, step) && a.found && a.key.Some? && a.step == step
    requires forall j :: 0 <= j < |answers| ==> Alike(answers[j], a)
    ensures Agree(answers + [a], step)
  {
  }

  // ---------- One call ----------

  lemma {:induction false} FinalizeTidy(s: Session, call: ToolCall, r: ToolResult)
    requires Busy(s, call)
    ensures var s' := Finalize(s, call.id, r).0;
      Tidy(s') && D.Settled(s'.dedupe) && s'.pending == s.pending
  {
    D.FinalizedSettles(s.dedupe, call, r);
    var (d, final) := D.Finalized(s.dedupe, call.id, r);
    var a := Answer(s.steps, Some(KeyOf(call)), final.output, true);
    forall j | 0 <= j < |s.answers|
      ensures Alike(s.answers[j], a) && OnRecord(s.answers[j], s.steps, d.stepResults)
    {
      assert OnRecord(s.answers[j], s.steps, s.dedupe.stepResults);
    }
    OneMoreAnswer(s.answers, a, s.steps);
  }

  lemma {:induction false} SharedTidy(s: Session, call: ToolCall)
    requires Tidy(s) && KeyOf(call) in s.dedupe.stepResults
    ensures var s' := SettleShared(s, call);
      Tidy(s') && s'.dedupe == s.dedupe && s'.pending == s.pending
  {
    var a := Answer(s.steps, Some(KeyOf(call)), Shared(s.dedupe, call).output, true);
    forall j | 0 <= j < |s.answers|
      ensures Alike(s.answers[j], a)
    {
      assert OnRecord(s.answers[j], s.steps, s.dedupe.stepResults);
    }
    OneMoreAnswer(s.answers, a, s.steps);
  }

  lemma {:induction false} RunToolSame(s: Session, env: Env, call: ToolCall, batch: seq<ToolCall>)
    ensures SameBooks(s, RunTool(s, env, call, batch).0)
  {
  }

  ghost predicate CallFine(s': Session, p: Pending, end: CallEnd) {
    match end
    case Leaves(NeedsApproval(_)) => s'.pending == Some(p) && Busy(s', p.call)
    case Leaves(TurnOver(_)) => Agree(s'.answers, s'.steps)
    case _ => Ready(s')
  }

  ghost predicate KeepsAnswers(one: Calling) {
    forall s, p :: Ready(s) ==> CallFine(one(s, p).0, p, one(s, p).1)
  }

  lemma {:induction false} ApprovedFine(s: Session, env: Env, p: Pending, step: nat)
    requires Busy(s, p.call) && s.pending.None?
    ensures var (s', end) := ApprovedCall(s, env, p.call, p.batch, step); CallFine(s', p, end)
  {
    var (s1, result) := RunTool(Resolved(s), env, p.call, p.batch);
    RunToolSame(Resolved(s), env, p.call, p.batch);
    if result.Some? { FinalizeTidy(s1, p.call, result.value); }
  }

  lemma {:induction false} OneCallFine(s: Session, env: Env, cfg: Config, policy: ToolCall -> Verdict, p: Pending)
    requires Ready(s)
    ensures var (s', end) := OneCall(s, env, cfg, policy, p); CallFine(s', p, end)
  {
    var s0 := AskFlag(s);
    if !env.flag(s.clock.flags) {
      var (s1, duplicate) := Checked(s0, p.call);
      D.CheckFindsOriginal(s.dedupe, p.call);
      assert Tidy(s1);
      if duplicate {
        SharedTidy(s1, p.call);
      } else {
        match policy(p.call)
        case Approve => ApprovedFine(s1, env, p, p.step);
        case Deny(reason) =>
          FinalizeTidy(Emit(s1, ToolStarted(p.call)), p.call, ErrorResult(p.call, WorkerText(cfg, reason)));
        case Ask =>
      }
    }
  }

  lemma {:induction false} CallsKeepAnswers(env: Env, cfg: Config, policy: ToolCall -> Verdict)
    ensures KeepsAnswers(CallWith(env, cfg, policy))
  {
    forall s, p | Ready(s)
      ensures CallFine(OneCall(s, env, cfg, policy, p).0, p, OneCall(s, env, cfg, policy, p).1)
    {
      OneCallFine(s, env, cfg, policy, p);
    }
  }

  // ---------- A batch ----------

  lemma {:induction false} SkipSame(s: Session, calls: seq<ToolCall>, i: nat)
    ensures SameBooks(s, SkipFrom(s, calls, i))
    decreases |calls| - i
  {
    if i < |calls| { SkipSame(SettleNow(s, calls[i], ErrorResult(calls[i], TOOL_SKIPPED)), calls, i + 1); }
  }

  ghost predicate BatchFine(s': Session, end: BatchEnd) {
    match end
    case BatchDone(_) => Agree(s'.answers, s'.steps) && s'.pending.None?
    case BatchLeft(progress) => Fine(s', Halt(progress))
  }

  lemma {:induction false} BatchKeepsAnswers(s: Session, one: Calling, calls: seq<ToolCall>, i: nat, step: nat,
                                             usage: Usage)
    requires KeepsAnswers(one) && Ready(s)
    ensures var (s', end) := BatchFrom(s, one, calls, i, step, usage); BatchFine(s', end)
    decreases |calls| - i
  {
    if i < |calls| {
      var p := Pending(calls[i], calls, i, step, usage);
      var (s1, end) := one(s, p);
      assert CallFine(s1, p, end);
      if end.Goes? {
        BatchKeepsAnswers(s1, one, calls, i + 1, step, usage);
      } else if end.Stops? {
        SkipSame(s1, calls, i + 1);
      }
    }
  }

  lemma {:induction false} AfterBatchFine(s: Session, end: BatchEnd, step: nat, usage: Usage)
    requires BatchFine(s, end)
    ensures var (s', flow) := AfterBatch(s, end, step, usage); Fine(s', flow)
  {
  }

  // ---------- resume ----------

  lemma {:induction false} SettledFine(s: Session, env: Env, cfg: Config, policy: ToolCall -> Verdict, p: Pending,
                                       r: ToolResult)
    requires Busy(s, p.call) && s.pending.None?
    ensures var (s', flow) := ResumeSettled(s, env, cfg, policy, p, r); Fine(s', flow)
  {
    var (s1, final) := Finalize(s, p.call.id, r);
    FinalizeTidy(s, p.call, r);
    if final.stopTurn {
      SkipSame(s1, p.batch, p.index + 1);
      AfterBatchFine(EndStep(SkipFrom(s1, p.batch, p.index + 1)), BatchDone(true), p.step, p.usage);
    } else {
      var one := CallWith(env, cfg, policy);
      var (s2, end) := BatchFrom(s1, one, p.batch, p.index + 1, s1.steps, p.usage);
      CallsKeepAnswers(env, cfg, policy);
      BatchKeepsAnswers(s1, one, p.batch, p.index + 1, s1.steps, p.usage);
      AfterBatchFine(s2, end, p.step, p.usage);
    }
  }

  lemma {:induction false} DecidedFine(s: Session, env: Env, cfg: Config, policy: ToolCall -> Verdict, p: Pending,
                                       d: Decision)
    requires Busy(s, p.call) && s.pending.None?
    ensures var (s', flow) := ResumeDecided(s, env, cfg, policy, p, d); Fine(s', flow)
  {
    match d
    case Approved =>
      var (s1, result) := RunTool(s, env, p.call, p.batch);
      RunToolSame(s, env, p.call, p.batch);
      if result.Some? { SettledFine(s1, env, cfg, policy, p, result.value); }
    case Rejected(feedback) =>
      var output := WorkerText(cfg, RejectedText(p.call.name, feedback));
      SettledFine(Emit(s, ToolStarted(p.call)), env, cfg, policy, p, ErrorResult(p.call, output));
    case DecisionCancelled =>
      var output := WorkerText(cfg, CancelledText(p.call.name));
      SettledFine(Emit(s, ToolStarted(p.call)), env, cfg, policy, p, ErrorResult(p.call, output));
  }

  lemma {:induction false} ResumedFine(s: Session, env: Env, cfg: Config, policy: ToolCall -> Verdict, d: Decision)
    requires s.pending.Some? && Busy(s, s.pending.value.call)
    ensures var (s', flow) := ResumeStep(s, env, cfg, policy, d); Fine(s', flow)
  {
    var s0 := AskFlag(s.(pending := None));
    if !env.flag(s.clock.flags) { DecidedFine(Resolved(s0), env, cfg, policy, s.pending.value, d); }
  }

  // ---------- A pass of the loop ----------

  lemma {:induction false} CompactSame(s: Session, env: Env)
    ensures SameBooks(s, Compact(s, env).0)
  {
  }

  lemma {:induction false} OpeningSame(s: Session, env: Env, cfg: Config)
    ensures SameBooks(s, MaybeCompact(DrainSteers(AskFlag(s), env), env, cfg))
  {
    CompactSame(DrainSteers(AskFlag(s), env), env);
  }

  lemma {:induction false} BeginsReady(s: Session, cfg: Config)
    requires Agree(s.answers, s.steps) && s.pending.None?
    ensures Ready(BeginStep(s, cfg))
  {
    assert forall j :: 0 <= j < |s.answers| ==> s.answers[j].step <= s.steps;
  }

  lemma {:induction false} TextFine(s: Session, env: Env, cfg: Config, finish: FinishReason, usage: Usage)
    requires Ready(s)
    ensures var (s', flow) := StepText(s, env, cfg, finish, usage); Fine(s', flow)
  {
  }

  lemma {:induction false} ErrorFine(s: Session, env: Env, cfg: Config, message: string, overflow: bool,
                                     retryable: bool)
    requires Ready(s)
    ensures var (s', flow) := StepError(s, env, cfg, message, overflow, retryable); Fine(s', flow)
  {
    var s0 := AskFlag(s);
    CompactSame(s0, env);
    var (s1, compacted) := if overflow && cfg.maxContext.Some? then Compact(s0, env) else (s0, false);
    if !compacted && retryable { RetryFine(s1, env, cfg, message, overflow); }
  }

  lemma {:induction false} RetryFine(s: Session, env: Env, cfg: Config, message: string, overflow: bool)
    requires Agree(s.answers, s.steps) && s.pending.None?
    ensures var (s', flow) := RetryStep(s, env, cfg, message, overflow); Fine(s', flow)
  {
  }

  lemma {:induction false} ToolsFine(s: Session, env: Env, cfg: Config, policy: ToolCall -> Verdict,
                                     calls: seq<ToolCall>, text: string, usage: Usage)
    requires Ready(s)
    ensures var (s', flow) := StepTools(s, env, cfg, policy, calls, text, usage); Fine(s', flow)
  {
    var one := CallWith(env, cfg, policy);
    var s0 := s.(messages := s.messages + [Asking(calls, text)]);
    CallsKeepAnswers(env, cfg, policy);
    BatchKeepsAnswers(s0, one, calls, 0, s.steps, usage);
    var (s1, end) := BatchFrom(s0, one, calls, 0, s.steps, usage);
    AfterBatchFine(if end.BatchDone? then s1.(retries := 0) else s1, end, s.steps, usage);
  }

  ghost predicate AnswersFinely(answering: Answering) {
    forall s, answer :: Ready(s) ==> Fine(answering(s, answer).0, answering(s, answer).1)
  }

  lemma {:induction false} AnswersFine(env: Env, cfg: Config, policy: ToolCall -> Verdict)
    ensures AnswersFinely(AnswerWith(env, cfg, policy))
  {
    forall s, answer | Ready(s)
      ensures var (s', flow) := StepAnswer(s, env, cfg, policy, answer); Fine(s', flow)
    {
      match answer
      case LlmError(message, overflow, retryable) => ErrorFine(s, env, cfg, message, overflow, retryable);
      case Reply(deltas, text, calls, finish, usage) =>
        var s1 := s.(events := s.events + Deltas(deltas));
        if calls == [] {
          TextFine(s1, env, cfg, finish, usage);
        } else {
          ToolsFine(s1, env, cfg, policy, calls, text, usage);
        }
    }
  }

  lemma {:induction false} IterateFine(s: Session, env: Env, cfg: Config, answering: Answering)
    requires AnswersFinely(answering) && Fine(s, Again)
    ensures var (s', flow) := Iterate(s, env, cfg, answering); Fine(s', flow)
  {
    OpeningSame(s, env, cfg);
    var s1 := MaybeCompact(DrainSteers(AskFlag(s), env), env, cfg);
    BeginsReady(s1, cfg);
    ReplyFine(BeginStep(s1, cfg), env, StepRequest(cfg, s1.messages).sent, answering);
  }

  lemma {:induction false} ReplyFine(s: Session, env: Env, request: seq<Message>, answering: Answering)
    requires AnswersFinely(answering) && Ready(s)
    ensures var (s', flow) := StepReply(s, env, request, answering); Fine(s', flow)
  {
    assert Ready(s.(clock := s.clock.(llm := s.clock.llm + 1)));
  }

  lemma {:induction false} LoopFine(s: Session, env: Env, cfg: Config, policy: ToolCall -> Verdict, fuel: nat)
    requires Fine(s, Again)
    ensures var (s', flow) := Loop(s, Pass(env, cfg, policy), fuel); Fine(s', flow)
  {
    var answering := AnswerWith(env, cfg, policy);
    AnswersFine(env, cfg, policy);
    var keeps := (s1: Session, flow: Flow) => Fine(s1, flow);
    forall s1 | keeps(s1, Again)
      ensures keeps(Iterate(s1, env, cfg, answering).0, Iterate(s1, env, cfg, answering).1)
    {
      IterateFine(s1, env, cfg, answering);
    }
    LoopKeeps(s, Pass(env, cfg, policy), fuel, keeps);
  }

  // ---------- Whole runs ----------

  lemma {:induction false} PlayFine(env: Env, cfg: Config, policy: ToolCall -> Verdict, fuel: nat, resumes: seq<Call>)
    ensures var (s, flow) := Play(env, cfg, policy, fuel, resumes); Fine(s, flow)
    decreases |resumes|
  {
    if resumes == [] {
      LoopFine(Started(cfg), env, cfg, policy, fuel);
    } else {
      var next := resumes[|resumes| - 1];
      PlayFine(env, cfg, policy, fuel, resumes[..|resumes| - 1]);
      var (s, flow) := Play(env, cfg, policy, fuel, resumes[..|resumes| - 1]);
      if flow.Halt? && flow.progress.NeedsApproval? {
        ResumedFine(s, env, cfg, next.policy, next.decision);
        var (s1, flow1) := ResumeStep(s, env, cfg, next.policy, next.decision);
        if flow1.Again? { LoopFine(s1, env, cfg, next.policy, next.fuel); }
      }
    }
  }

  // In every run, whatever is asked, decided and answered: two calls of one step with the same key get
  // the same output, and the result a duplicate shares is never lost.
  lemma {:induction false} DuplicatesAnsweredAlike(env: Env, cfg: Config, policy: ToolCall -> Verdict, fuel: nat,
                                                   resumes: seq<Call>)
    ensures var answers := Play(env, cfg, policy, fuel, resumes).0.answers;
      && (forall j :: 0 <= j < |answers| ==> answers[j].found)
      && (forall j, k :: 0 <= j < |answers| && 0 <= k < |answers| ==> Alike(answers[j], answers[k]))
  {
    PlayFine(env, cfg, policy, fuel, resumes);
    var (s, flow) := Play(env, cfg, policy, fuel, resumes);
    assert Agree(s.answers, s.steps);
  }
}
