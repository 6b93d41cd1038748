// A turn in which an approval pause decides the outcome: the model answers with a retryable error, a
// call, a retryable error and a text, and one retry is allowed. Paused at the call, the turn fails at
// the second error; with the call approved outright, it completes.
module TurnPauseCost {
  import opened Json
  import opened Messages
  import opened Tools
  import opened Turn
  import opened TurnPause
  import opened TurnPauseRuns
  import opened TurnPauseTheorems
  import opened TurnPauseTurns
  import opened Wrappers

  const CALL := ToolCall("1", "ls", Null)

  const NO_USAGE := Usage(0, 0, 0, 0)

  function Answers(n: nat, request: seq<Message>): LlmReply {
    if n == 0 || n == 2 then LlmError("busy", false, true)
    else if n == 1 then Reply([], "", [CALL], ToolCalls, NO_USAGE)
    else Reply([], "done", [], Completed, NO_USAGE)
  }

  function Executes(n: nat, call: ToolCall, batch: seq<ToolCall>): ToolResult {
    ToolResult(call.id, call.name, "ok", false, false, [])
  }

  function World(): Env {
    Env(Answers, n => false, Executes, n => Finishes, n => false, n => [], m => 0, 0)
  }

  function Limits(): Config {
    Config([], None, Some(1), None, None, None, false)
  }

  function AskAll(): ToolCall -> Verdict {
    call => Ask
  }

  function ApproveAll(): ToolCall -> Verdict {
    call => Approve
  }

  // Between two steps, after `n` model calls and with `r` retries spent.
  predicate At(s: Session, n: nat, r: nat) {
    && s.clock.llm == n && s.retries == r && s.pending.None? && s.steerQueue == []
    && (n <= 1 ==> s.dedupe.streak == D.NO_STREAK)
  }

  lemma {:induction false} Opens(s: Session, n: nat, r: nat, v: Answering)
    requires At(s, n, r)
    ensures var s1 := Heard(StepBegun(s, World(), Limits()));
      && s1.clock.llm == n + 1 && s1.retries == r && s1.pending.None? && s1.steerQueue == []
      && s1.dedupe == D.Begun(s.dedupe)
      && Iterate(s, World(), Limits(), v) == v(s1, ModelAnswer(s, World(), Limits()))
      && var request := StepRequest(Limits(), StepBegun(s, World(), Limits()).messages);
         ModelAnswer(s, World(), Limits()) == Answers(n, request.sent)
  {
    PassIsAnswer(s, World(), Limits(), v);
  }

  // ---------- Errors and the last text ----------

  lemma {:induction false} FirstErrorRetried(s: Session, n: nat, policy: ToolCall -> Verdict)
    requires At(s, n, 0) && (n == 0 || n == 2)
    ensures var (s', flow) := Pass(World(), Limits(), policy)(s); flow == Again && At(s', n + 1, 1)
  {
    Opens(s, n, 0, AnswerWith(World(), Limits(), policy));
  }

  lemma {:induction false} SecondErrorFails(s: Session, policy: ToolCall -> Verdict)
    requires At(s, 2, 1)
    ensures var flow := Pass(World(), Limits(), policy)(s).1; FailedTurn(flow)
  {
    Opens(s, 2, 1, AnswerWith(World(), Limits(), policy));
  }

  lemma {:induction false} TextCompletes(s: Session, policy: ToolCall -> Verdict)
    requires At(s, 3, 1)
    ensures CompletedTurn(Pass(World(), Limits(), policy)(s).1)
  {
    Opens(s, 3, 1, AnswerWith(World(), Limits(), policy));
  }

  predicate FailedTurn(flow: Flow) {
    flow.Halt? && flow.progress.TurnOver? && flow.progress.outcome.reason == TurnFailed
  }

  predicate CompletedTurn(flow: Flow) {
    flow.Halt? && flow.progress.TurnOver? && flow.progress.outcome.reason == TurnCompleted
  }

  // ---------- The call ----------

  lemma {:induction false} CallRuns(s: Session, step: nat)
    requires D.Running(s.dedupe, CALL) && s.dedupe.stepCalls == [KeyOf(CALL)] && s.dedupe.streak == D.NO_STREAK
    ensures var (s', end) := ApprovedCall(s, World(), CALL, [CALL], step);
      end == Goes && s'.retries == s.retries && s'.pending == s.pending && s'.steerQueue == s.steerQueue
      && s'.clock.llm == s.clock.llm && s'.steps == s.steps
  {
    assert s.dedupe.stepCalls[..1] == [KeyOf(CALL)] && [KeyOf(CALL)][1..] == [];
    assert D.Walk(D.NO_STREAK, [KeyOf(CALL)]) == D.Walk(D.Advance(D.NO_STREAK, KeyOf(CALL)), []);
  }

  // The call of a fresh step is checked as an original.
  lemma {:induction false} CallChecked(s: Session)
    requires s.dedupe == D.Begun(s.dedupe) && s.dedupe.streak == D.NO_STREAK
    ensures var (s1, duplicate) := Checked(s, CALL);
      && !duplicate && D.Running(s1.dedupe, CALL)
      && s1.dedupe.stepCalls == [KeyOf(CALL)] && s1.dedupe.streak == D.NO_STREAK
  {
  }

  lemma {:induction false} BatchOfOne(s: Session, one: Calling, step: nat)
    ensures var (s1, end) := one(s, Pending(CALL, [CALL], 0, step, NO_USAGE));
      BatchFrom(s, one, [CALL], 0, step, NO_USAGE)
      == match end
         case Goes => (EndStep(s1), BatchDone(false))
         case Stops => (EndStep(SkipFrom(s1, [CALL], 1)), BatchDone(true))
         case Leaves(progress) => (s1, BatchLeft(progress))
  {
  }

  // Waiting for the decision on the call, with one retry spent.
  ghost predicate PausedOnCall(s: Session) {
    && s.pending == Some(Pending(CALL, [CALL], 0, s.steps, NO_USAGE))
    && s.clock.llm == 2 && s.retries == 1 && s.steerQueue == []
    && D.Running(s.dedupe, CALL) && s.dedupe.stepCalls == [KeyOf(CALL)] && s.dedupe.streak == D.NO_STREAK
  }

  // The state in which the batch of the one call starts.
  predicate BatchStarts(s: Session) {
    && s.clock.llm == 2 && s.retries == 1 && s.pending.None? && s.steerQueue == []
    && s.dedupe == D.Begun(s.dedupe) && s.dedupe.streak == D.NO_STREAK
  }

  lemma {:induction false} CallAsked(s: Session)
    requires BatchStarts(s)
    ensures var p := Pending(CALL, [CALL], 0, s.steps, NO_USAGE);
      var (s', end) := OneCall(s, World(), Limits(), AskAll(), p);
      PausedOnCall(s') && end == Leaves(NeedsApproval(CALL))
  {
    CallChecked(AskFlag(s));
  }

  lemma {:induction false} CallApproved(s: Session)
    requires BatchStarts(s)
    ensures var p := Pending(CALL, [CALL], 0, s.steps, NO_USAGE);
      var (s', end) := OneCall(s, World(), Limits(), ApproveAll(), p);
      end == Goes && s'.pending.None? && s'.steerQueue == [] && s'.clock.llm == 2
  {
    CallChecked(AskFlag(s));
    CallRuns(Checked(AskFlag(s), CALL).0, s.steps);
  }

  lemma {:induction false} AskedPauses(s: Session)
    requires At(s, 1, 1)
    ensures var (s', flow) := Pass(World(), Limits(), AskAll())(s);
      flow == Halt(NeedsApproval(CALL)) && PausedOnCall(s')
  {
    var v := AnswerWith(World(), Limits(), AskAll());
    Opens(s, 1, 1, v);
    StepAsks(Heard(StepBegun(s, World(), Limits())));
  }

  lemma {:induction false} StepAsks(s: Session)
    requires BatchStarts(s)
    ensures var (s', flow) := StepAnswer(s, World(), Limits(), AskAll(), Answers(1, []));
      flow == Halt(NeedsApproval(CALL)) && PausedOnCall(s')
  {
    var s0 := s.(events := s.events + [], messages := s.messages + [Asking([CALL], "")]);
    BatchOfOne(s0, CallWith(World(), Limits(), AskAll()), s0.steps);
    CallAsked(s0);
  }

  lemma {:induction false} OutrightGoesOn(s: Session)
    requires At(s, 1, 1)
    ensures var (s', flow) := Pass(World(), Limits(), ApproveAll())(s); flow == Again && At(s', 2, 0)
  {
    var v := AnswerWith(World(), Limits(), ApproveAll());
    Opens(s, 1, 1, v);
    StepGoesOn(Heard(StepBegun(s, World(), Limits())));
  }

  lemma {:induction false} StepGoesOn(s: Session)
    requires BatchStarts(s)
    ensures var (s', flow) := StepAnswer(s, World(), Limits(), ApproveAll(), Answers(1, []));
      flow == Again && At(s', 2, 0)
  {
    var s0 := s.(events := s.events + [], messages := s.messages + [Asking([CALL], "")]);
    BatchOfOne(s0, CallWith(World(), Limits(), ApproveAll()), s0.steps);
    CallApproved(s0);
  }

  // The resumed step keeps its spent retry.
  lemma {:induction false} ApprovedGoesOn(s: Session)
    requires PausedOnCall(s)
    ensures var (s', flow) := ResumeStep(s, World(), Limits(), AskAll(), Approved); flow == Again && At(s', 2, 1)
  {
    ResumedIsAfterCall(s, World(), Limits(), AskAll());
    CallRuns(AskFlag(s.(pending := None)), s.steps);
  }

  // ---------- The two turns ----------

  lemma {:induction false} PausesAtCall()
    ensures var (s, flow) := Run(World(), Limits(), AskAll(), 2);
      flow == Halt(NeedsApproval(CALL)) && PausedOnCall(s)
  {
    var f := Pass(World(), Limits(), AskAll());
    var s0 := Started(Limits());
    FirstErrorRetried(s0, 0, AskAll());
    AskedPauses(f(s0).0);
    TwoPasses(s0, f);
  }

  lemma {:induction false} ResumedFails(s: Session)
    requires PausedOnCall(s)
    ensures FailedTurn(Resume(s, World(), Limits(), AskAll(), Approved, 1).1)
  {
    ApprovedGoesOn(s);
    var s1 := ResumeStep(s, World(), Limits(), AskAll(), Approved).0;
    SecondErrorFails(s1, AskAll());
    OnePass(s1, Pass(World(), Limits(), AskAll()));
  }

  lemma {:induction false} TwoRuns(first: Starting, resume: Resuming, m: nat, n: nat)
    requires Waits(first(m).1)
    ensures Runs(first, resume, [m, n]) == resume(first(m).0, n)
  {
    assert [m, n][..1] == [m];
  }

  lemma {:induction false} PausedTurnFails()
    ensures FailedTurn(ApprovedRun(World(), Limits(), AskAll(), [2, 1]).1)
  {
    PausesAtCall();
    ResumedFails(Run(World(), Limits(), AskAll(), 2).0);
    TwoRuns(RunWith(World(), Limits(), AskAll()), ApproveWith(World(), Limits(), AskAll()), 2, 1);
  }

  lemma {:induction false} TwoPasses(s: Session, f: Passing)
    requires f(s).1.Again?
    ensures Loop(s, f, 2) == f(f(s).0)
  {
    OnePass(f(s).0, f);
  }

  lemma {:induction false} OutrightTurnCompletes()
    ensures CompletedTurn(Run(World(), Limits(), ApproveAll(), 4).1)
  {
    var g := Pass(World(), Limits(), ApproveAll());
    var s0 := Started(Limits());
    FirstErrorRetried(s0, 0, ApproveAll());
    var s1 := g(s0).0;
    OutrightGoesOn(s1);
    var s2 := g(s1).0;
    FirstErrorRetried(s2, 2, ApproveAll());
    var s3 := g(s2).0;
    TextCompletes(s3, ApproveAll());
    TwoPasses(s2, g);
    LoopAhead(s0, g);
  }

  lemma {:induction false} LoopAhead(s: Session, g: Passing)
    requires g(s).1.Again? && g(g(s).0).1.Again?
    ensures Loop(s, g, 4) == Loop(g(g(s).0).0, g, 2)
  {
    assert Loop(s, g, 4) == Loop(g(s).0, g, 3);
    assert Loop(g(s).0, g, 3) == Loop(g(g(s).0).0, g, 2);
  }

  // The same model, tools and limits: pausing for the approval makes the turn fail that completes if
  // the call is approved outright.
  lemma {:induction false} PauseCanFailATurn()
    ensures NeverFlagged(World()) && Anticipates(ApproveAll(), AskAll())
    ensures FailedTurn(ApprovedRun(World(), Limits(), AskAll(), [2, 1]).1)
    ensures CompletedTurn(Run(World(), Limits(), ApproveAll(), 4).1)
  {
    PausedTurnFails();
    OutrightTurnCompletes();
  }
}
