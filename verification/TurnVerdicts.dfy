// What a verdict and a decision mean for the call they are about: who gives its answer, whether the
// executor is asked, and what the history and the host are told.
module TurnVerdicts {
  import opened Wrappers
  import opened Json
  import opened Messages
  import opened Tools
  import opened Turn

  // ---------- What is told of an answer ----------

  // The tool message that answers a call.
  predicate AnswersCall(m: Message, callId: string, text: string) {
    m.role.Tool? && m.toolCallId == Some(callId) && m.content == Str(text)
  }

  // The history goes on from `ms` with this answer.
  predicate AnsweredNext(ms: seq<Message>, ms': seq<Message>, callId: string, text: string) {
    |ms'| > |ms| && ms'[..|ms|] == ms && AnswersCall(ms'[|ms|], callId, text)
  }

  // The event stream goes on with the call's start, its progress, and its result.
  predicate ToldNext(events: seq<Event>, events': seq<Event>, call: ToolCall, updates: seq<string>, callId: string,
                     text: string, isError: bool)
  {
    var n, k := |events|, |updates|;
    && |events'| >= n + k + 2 && events'[..n] == events
    && events'[n] == ToolStarted(call)
    && (forall j :: 0 <= j < k ==> events'[n + 1 + j] == ToolProgress(call.id, updates[j]))
    && events'[n + 1 + k] == ToolResulted(callId, text, isError)
  }

  // The engine answered the call itself: its executor was not asked, and the answer is an error.
  predicate AnsweredInstead(s: Session, s': Session, call: ToolCall, text: string) {
    AnsweredNext(s.messages, s'.messages, call.id, text) && ToldNext(s.events, s'.events, call, [], call.id, text, true)
  }

  // The executor's result `r` is the answer.
  predicate AnsweredBy(s: Session, s': Session, call: ToolCall, r: ToolResult, text: string) {
    && r.output <= text
    && AnsweredNext(s.messages, s'.messages, r.callId, text)
    && ToldNext(s.events, s'.events, call, r.updates, r.callId, text, r.isError)
  }

  // One answer and its events, and no more.
  predicate NoMore(s: Session, s': Session, updates: seq<string>) {
    |s'.messages| == |s.messages| + 1 && |s'.events| == |s.events| + |updates| + 2
  }

  lemma {:induction false} ReminderOnly(d: D.State, callId: string, r: ToolResult)
    ensures var final := D.Finalized(d, callId, r).1;
      && r.output <= final.output && (r.stopTurn ==> final.stopTurn)
      && final == r.(output := final.output, stopTurn := final.stopTurn)
  {
    if callId in d.originalIndex && d.originalIndex[callId] < |d.stepCalls| {
      var streak := D.StreakAt(d, d.originalIndex[callId]);
      D.RemindedMeans(r, streak, streak);
    }
  }

  // Settling adds the result's message and its event.
  lemma {:induction false} FinalizeTells(s: Session, callId: string, r: ToolResult)
    ensures var (s', final) := Finalize(s, callId, r);
      && s'.messages == s.messages + [ResultMessage(final)]
      && s'.events == s.events + [ToolResulted(r.callId, final.output, r.isError)]
      && final.callId == r.callId && r.output <= final.output && (r.stopTurn ==> final.stopTurn)
      && s'.clock == s.clock
  {
    ReminderOnly(s.dedupe, callId, r);
  }

  lemma {:induction false} ProgressTold(callId: string, updates: seq<string>)
    ensures |ProgressEvents(callId, updates)| == |updates|
    ensures forall j :: 0 <= j < |updates| ==> ProgressEvents(callId, updates)[j] == ToolProgress(callId, updates[j])
  {
    if updates != [] { ProgressTold(callId, updates[1..]); }
  }

  // ---------- The verdict on a call ----------

  // The call is asked about neither too late nor a second time in its step.
  predicate Dispatched(s: Session, env: Env, p: Pending) {
    !env.flag(s.clock.flags) && KeyOf(p.call) !in s.dedupe.stepKeys
  }

  // An approved call that is not cancelled is run, once, and its own result is the answer.
  lemma {:induction false} ApproveMeans(s: Session, env: Env, cfg: Config, policy: ToolCall -> Verdict, p: Pending)
    returns (text: string)
    requires Dispatched(s, env, p) && policy(p.call).Approve? && env.race(s.clock.runs).Finishes?
    ensures var r := env.exec(s.clock.runs, p.call, p.batch);
      var (s', end) := OneCall(s, env, cfg, policy, p);
      && AnsweredBy(s, s', p.call, r, text) && NoMore(s, s', r.updates)
      && s'.clock.runs == s.clock.runs + 1 && s'.trail == s.trail + [Trace(KeyOf(p.call), true)]
      && (end.Goes? || end.Stops?) && (r.stopTurn ==> end.Stops?)
  {
    text := RunTells(Checked(AskFlag(s), p.call).0, env, p.call, p.batch, p.step);
  }

  lemma {:induction false} RunTells(s: Session, env: Env, call: ToolCall, batch: seq<ToolCall>, step: nat)
    returns (text: string)
    requires env.race(s.clock.runs).Finishes?
    ensures var r := env.exec(s.clock.runs, call, batch);
      var (s', end) := ApprovedCall(s, env, call, batch, step);
      && AnsweredBy(s, s', call, r, text) && NoMore(s, s', r.updates)
      && s'.clock.runs == s.clock.runs + 1
      && (end.Goes? || end.Stops?) && (r.stopTurn ==> end.Stops?)
  {
    var r := env.exec(s.clock.runs, call, batch);
    var s1 := RunTool(Resolved(s), env, call, batch).0;
    RunToolTells(Resolved(s), env, call, batch);
    FinalizeTells(s1, call.id, r);
    text := Finalize(s1, call.id, r).1.output;
    ToldOn(s.events, s1.events, Finalize(s1, call.id, r).0.events, call, r.updates,
           ToolResulted(r.callId, text, r.isError));
  }

  lemma {:induction false} RunToolTells(s: Session, env: Env, call: ToolCall, batch: seq<ToolCall>)
    requires env.race(s.clock.runs).Finishes?
    ensures var r := env.exec(s.clock.runs, call, batch);
      var (s', result) := RunTool(s, env, call, batch);
      && result == Some(r) && s'.messages == s.messages && s'.clock.runs == s.clock.runs + 1
      && s'.events == s.events + [ToolStarted(call)] + ProgressEvents(call.id, r.updates)
      && |s'.events| == |s.events| + 1 + |r.updates|
  {
    ProgressTold(call.id, env.exec(s.clock.runs, call, batch).updates);
  }

  // A call whose race is lost to the cancel signal gets no answer, and the turn is over; it was announced
  // unless the race was lost before that.
  lemma {:induction false} LostRaceMeans(s: Session, env: Env, cfg: Config, policy: ToolCall -> Verdict, p: Pending)
    requires Dispatched(s, env, p) && policy(p.call).Approve? && !env.race(s.clock.runs).Finishes?
    ensures var (s', end) := OneCall(s, env, cfg, policy, p);
      var announced := if env.race(s.clock.runs).CancelledDuring? then [ToolStarted(p.call)] else [];
      && s'.messages == s.messages && s'.clock.runs == s.clock.runs + 1
      && s'.events == s.events + announced + [StepInterrupted(p.step, true), TurnEnded(TurnCancelled, None, true)]
      && end == Leaves(TurnOver(Outcome(TurnCancelled, s.steps, None, false)))
  {
    assert s.events + [] == s.events;
  }

  // A denied call is not run: its answer is the reason, as an error, and the batch goes on.
  lemma {:induction false} DenyMeans(s: Session, env: Env, cfg: Config, policy: ToolCall -> Verdict, p: Pending,
                                     reason: string)
    returns (text: string)
    requires Dispatched(s, env, p) && policy(p.call) == Deny(reason)
    ensures reason <= text
    ensures var (s', end) := OneCall(s, env, cfg, policy, p);
      && AnsweredInstead(s, s', p.call, text) && NoMore(s, s', [])
      && s'.clock.runs == s.clock.runs && s'.trail == s.trail + [Trace(KeyOf(p.call), false)] && end.Goes?
  {
    var s1 := Emit(Checked(AskFlag(s), p.call).0, ToolStarted(p.call));
    var r := ErrorResult(p.call, WorkerText(cfg, reason));
    FinalizeTells(s1, p.call.id, r);
    text := Finalize(s1, p.call.id, r).1.output;
  }

  // A call the policy asks about is not run, and nothing is told of it yet.
  lemma {:induction false} AskMeans(s: Session, env: Env, cfg: Config, policy: ToolCall -> Verdict, p: Pending)
    requires Dispatched(s, env, p) && policy(p.call).Ask?
    ensures var (s', end) := OneCall(s, env, cfg, policy, p);
      && s'.messages == s.messages && s'.events == s.events && s'.clock.runs == s.clock.runs
      && s'.pending == Some(p) && end == Leaves(NeedsApproval(p.call))
  {
  }

  // A call that repeats one of its step is not run either, whatever the policy says: it is answered
  // under its own id with the result that is recorded for the other.
  lemma {:induction false} DuplicateMeans(s: Session, env: Env, cfg: Config, policy: ToolCall -> Verdict, p: Pending)
    requires !env.flag(s.clock.flags) && KeyOf(p.call) in s.dedupe.stepKeys
    requires KeyOf(p.call) in s.dedupe.stepResults
    ensures var r := s.dedupe.stepResults[KeyOf(p.call)];
      var (s', end) := OneCall(s, env, cfg, policy, p);
      && AnsweredNext(s.messages, s'.messages, p.call.id, r.output)
      && ToldNext(s.events, s'.events, p.call, [], p.call.id, r.output, r.isError) && NoMore(s, s', [])
      && s'.clock.runs == s.clock.runs && end == if r.stopTurn then Stops else Goes
  {
  }

  // Once the cancel flag is seen set no further call is dealt with, and the turn is over.
  lemma {:induction false} CancelMeans(s: Session, env: Env, cfg: Config, policy: ToolCall -> Verdict, p: Pending)
    requires env.flag(s.clock.flags)
    ensures var (s', end) := OneCall(s, env, cfg, policy, p);
      && s'.messages == s.messages && s'.clock.runs == s.clock.runs
      && s'.events == s.events + [StepInterrupted(p.step, true), TurnEnded(TurnCancelled, None, true)]
      && end == Leaves(TurnOver(Outcome(TurnCancelled, s.steps, None, false)))
  {
  }

  // One skipped call: announced, and answered with an error.
  predicate Skipped(s: Session, s': Session, call: ToolCall) {
    && s'.clock == s.clock
    && |s'.messages| == |s.messages| + 1 && s'.messages[..|s.messages|] == s.messages
    && AnswersCall(s'.messages[|s.messages|], call.id, TOOL_SKIPPED)
    && s'.events == s.events + [ToolStarted(call), ToolResulted(call.id, TOOL_SKIPPED, true)]
  }

  // The calls after one that stopped the turn are not run: each, in turn, is answered with the same
  // error.
  lemma {:induction false} SkipMeans(s: Session, calls: seq<ToolCall>, i: nat)
    requires i < |calls|
    ensures exists s1 :: Skipped(s, s1, calls[i]) && SkipFrom(s, calls, i) == SkipFrom(s1, calls, i + 1)
  {
    var s1 := SettleNow(s, calls[i], ErrorResult(calls[i], TOOL_SKIPPED));
    assert Skipped(s, s1, calls[i]);
  }

  // ---------- What follows only adds ----------

  predicate Extends(s: Session, s': Session) {
    && |s.messages| <= |s'.messages| && s'.messages[..|s.messages|] == s.messages
    && |s.events| <= |s'.events| && s'.events[..|s.events|] == s.events
  }

  lemma {:induction false} ExtendsOn(a: Session, b: Session, c: Session)
    requires Extends(a, b) && Extends(b, c)
    ensures Extends(a, c)
  {
    assert c.messages[..|a.messages|] == c.messages[..|b.messages|][..|a.messages|];
    assert c.events[..|a.events|] == c.events[..|b.events|][..|a.events|];
  }

  ghost predicate CallsExtend(one: Calling) {
    forall s, p :: Extends(s, one(s, p).0)
  }

  lemma {:induction false} FinalizeExtends(s: Session, callId: string, r: ToolResult)
    ensures Extends(s, Finalize(s, callId, r).0)
  {
    FinalizeTells(s, callId, r);
  }

  lemma {:induction false} ApprovedExtends(s: Session, env: Env, call: ToolCall, batch: seq<ToolCall>, step: nat)
    ensures Extends(s, ApprovedCall(s, env, call, batch, step).0)
  {
    var (s1, result) := RunTool(Resolved(s), env, call, batch);
    if result.Some? {
      FinalizeExtends(s1, call.id, result.value);
      ExtendsOn(s, s1, Finalize(s1, call.id, result.value).0);
    }
  }

  lemma {:induction false} OneCallExtends(s: Session, env: Env, cfg: Config, policy: ToolCall -> Verdict, p: Pending)
    ensures Extends(s, OneCall(s, env, cfg, policy, p).0)
  {
    var (s1, duplicate) := Checked(AskFlag(s), p.call);
    if !env.flag(s.clock.flags) && !duplicate {
      match policy(p.call)
      case Approve => ApprovedExtends(s1, env, p.call, p.batch, p.step);
      case Deny(reason) =>
        FinalizeExtends(Emit(s1, ToolStarted(p.call)), p.call.id, ErrorResult(p.call, WorkerText(cfg, reason)));
      case Ask =>
    }
  }

  lemma {:induction false} SkipKeeps(s: Session, calls: seq<ToolCall>, i: nat)
    ensures Extends(s, SkipFrom(s, calls, i))
    decreases |calls| - i
  {
    if i < |calls| {
      var s1 := SettleNow(s, calls[i], ErrorResult(calls[i], TOOL_SKIPPED));
      SkipKeeps(s1, calls, i + 1);
      ExtendsOn(s, s1, SkipFrom(s1, calls, i + 1));
    }
  }

  lemma {:induction false} EveryCallExtends(env: Env, cfg: Config, policy: ToolCall -> Verdict)
    ensures CallsExtend(CallWith(env, cfg, policy))
  {
    forall s, p
      ensures Extends(s, OneCall(s, env, cfg, policy, p).0)
    {
      OneCallExtends(s, env, cfg, policy, p);
    }
  }

  lemma {:induction false} BatchExtends(s: Session, one: Calling, calls: seq<ToolCall>, i: nat, step: nat, usage: Usage)
    requires CallsExtend(one) && i <= |calls|
    ensures Extends(s, BatchFrom(s, one, calls, i, step, usage).0)
    decreases |calls| - i
  {
    if i < |calls| {
      var (s1, end) := one(s, Pending(calls[i], calls, i, step, usage));
      if end.Goes? {
        BatchExtends(s1, one, calls, i + 1, step, usage);
        ExtendsOn(s, s1, BatchFrom(s1, one, calls, i + 1, step, usage).0);
      } else if end.Stops? {
        SkipKeeps(s1, calls, i + 1);
        ExtendsOn(s, s1, SkipFrom(s1, calls, i + 1));
      }
    }
  }

  lemma {:induction false} RestExtends(s: Session, final: ToolResult, one: Calling, p: Pending)
    requires CallsExtend(one) && p.index < |p.batch|
    ensures Extends(s, BatchRest(s, final, one, p).0)
  {
    if final.stopTurn {
      SkipKeeps(s, p.batch, p.index + 1);
    } else {
      BatchExtends(s, one, p.batch, p.index + 1, s.steps, p.usage);
    }
  }

  lemma {:induction false} AfterBatchExtends(s: Session, end: BatchEnd, step: nat, usage: Usage)
    ensures Extends(s, AfterBatch(s, end, step, usage).0)
  {
  }

  // ---------- The user's decision on the pending call ----------

  // The pending call is settled with `r`; what comes after only adds to that.
  lemma {:induction false} SettledTells(s: Session, env: Env, cfg: Config, policy: ToolCall -> Verdict, p: Pending,
                                        r: ToolResult)
    returns (text: string)
    requires p.index < |p.batch|
    ensures r.output <= text
    ensures var s' := ResumeSettled(s, env, cfg, policy, p, r).0;
      && AnsweredNext(s.messages, s'.messages, r.callId, text)
      && |s'.events| > |s.events| && s'.events[..|s.events|] == s.events
      && s'.events[|s.events|] == ToolResulted(r.callId, text, r.isError)
  {
    var (s1, final) := Finalize(s, p.call.id, r);
    var (s2, end) := BatchRest(s1, final, CallWith(env, cfg, policy), p);
    var s' := AfterBatch(s2, end, p.step, p.usage).0;
    FinalizeTells(s, p.call.id, r);
    EveryCallExtends(env, cfg, policy);
    RestExtends(s1, final, CallWith(env, cfg, policy), p);
    AfterBatchExtends(s2, end, p.step, p.usage);
    ExtendsOn(s1, s2, s');
    text := final.output;
    Kept(s1.messages, s'.messages, |s.messages|);
    Kept(s1.events, s'.events, |s.events|);
  }

  lemma {:induction false} Kept<T>(a: seq<T>, b: seq<T>, n: nat)
    requires n < |a| <= |b| && b[..|a|] == a
    ensures b[n] == a[n] && b[..n] == a[..n]
  {
    assert b[..n] == b[..|a|][..n];
  }

  predicate StandsBehind(text: string, before: string, part: string) {
    before + part <= text
  }

  ghost predicate Mentions(text: string, part: string) {
    exists before :: StandsBehind(text, before, part)
  }

  predicate Undecided(s: Session, env: Env, p: Pending) {
    s.pending == Some(p) && p.index < |p.batch| && !env.flag(s.clock.flags)
  }

  // Once approved, the pending call is run, and its own result is the answer.
  lemma {:induction false} ApprovalMeans(s: Session, env: Env, cfg: Config, policy: ToolCall -> Verdict, p: Pending)
    returns (text: string)
    requires Undecided(s, env, p) && env.race(s.clock.runs).Finishes?
    ensures var r := env.exec(s.clock.runs, p.call, p.batch);
      AnsweredBy(s, ResumeStep(s, env, cfg, policy, Approved).0, p.call, r, text)
  {
    var r := env.exec(s.clock.runs, p.call, p.batch);
    var (s1, result) := RunTool(Resolved(AskFlag(s.(pending := None))), env, p.call, p.batch);
    text := SettledTells(s1, env, cfg, policy, p, r);
    RunToolTells(Resolved(AskFlag(s.(pending := None))), env, p.call, p.batch);
    var s' := ResumeStep(s, env, cfg, policy, Approved).0;
    ToldOn(s.events, s1.events, s'.events, p.call, r.updates, ToolResulted(r.callId, text, r.isError));
  }

  lemma {:induction false} ToldOn(a: seq<Event>, b: seq<Event>, c: seq<Event>, call: ToolCall, updates: seq<string>,
                                  result: Event)
    requires result.ToolResulted? && b == a + [ToolStarted(call)] + ProgressEvents(call.id, updates)
    requires |c| > |b| && c[..|b|] == b && c[|b|] == result
    ensures ToldNext(a, c, call, updates, result.callId, result.output, result.isError)
  {
    ProgressTold(call.id, updates);
    assert c[..|a|] == b[..|a|] == a;
    assert c[|a|] == b[|a|];
    forall j | 0 <= j < |updates|
      ensures c[|a| + 1 + j] == ToolProgress(call.id, updates[j])
    {
      assert c[|a| + 1 + j] == b[|a| + 1 + j];
    }
  }

  // Answered by the engine itself, with that text in the answer.
  lemma {:induction false} InsteadTells(s: Session, env: Env, cfg: Config, policy: ToolCall -> Verdict, p: Pending,
                                        output: string)
    returns (text: string)
    requires p.index < |p.batch|
    ensures output <= text
    ensures var r := ErrorResult(p.call, output);
      AnsweredInstead(s, ResumeSettled(Emit(s, ToolStarted(p.call)), env, cfg, policy, p, r).0, p.call, text)
  {
    var s1, r := Emit(s, ToolStarted(p.call)), ErrorResult(p.call, output);
    text := SettledTells(s1, env, cfg, policy, p, r);
    var s' := ResumeSettled(s1, env, cfg, policy, p, r).0;
    ToldOn(s.events, s1.events, s'.events, p.call, [], ToolResulted(p.call.id, text, true));
  }

  // Once rejected, the pending call is not run: the answer is an error that names the tool and gives the
  // user's feedback.
  lemma {:induction false} RejectionMeans(s: Session, env: Env, cfg: Config, policy: ToolCall -> Verdict, p: Pending,
                                          feedback: Option<string>)
    returns (text: string)
    requires Undecided(s, env, p)
    ensures AnsweredInstead(s, ResumeStep(s, env, cfg, policy, Rejected(feedback)).0, p.call, text)
    ensures Mentions(text, p.call.name) && (feedback.Some? ==> Mentions(text, feedback.value))
  {
    var s0 := Resolved(AskFlag(s.(pending := None)));
    var said := RejectedText(p.call.name, feedback);
    text := InsteadTells(s0, env, cfg, policy, p, WorkerText(cfg, said));
    RejectionMentions(p.call.name, feedback, text);
  }

  lemma {:induction false} RejectionMentions(name: string, feedback: Option<string>, text: string)
    requires RejectedText(name, feedback) <= text
    ensures Mentions(text, name) && (feedback.Some? ==> Mentions(text, feedback.value))
  {
    var said := RejectedText(name, feedback);
    MentionedIn(said, text, "Tool ", name);
    if feedback.Some? {
      var before := if feedback.value == "" then "" else "Tool " + name + " was rejected." + " Reason: ";
      MentionedIn(said, text, before, feedback.value);
    }
  }

  lemma {:induction false} MentionedIn(said: string, text: string, before: string, part: string)
    requires said <= text && before + part <= said
    ensures Mentions(text, part)
  {
    assert StandsBehind(text, before, part);
  }

  // When the request for approval is cancelled the call is not run either.
  lemma {:induction false} CancellationMeans(s: Session, env: Env, cfg: Config, policy: ToolCall -> Verdict,
                                             p: Pending)
    returns (text: string)
    requires Undecided(s, env, p)
    ensures AnsweredInstead(s, ResumeStep(s, env, cfg, policy, DecisionCancelled).0, p.call, text)
    ensures Mentions(text, p.call.name)
  {
    var s0 := Resolved(AskFlag(s.(pending := None)));
    var said := CancelledText(p.call.name);
    text := InsteadTells(s0, env, cfg, policy, p, WorkerText(cfg, said));
    MentionedIn(said, text, "Tool ", p.call.name);
  }

  // The last call of a batch, when it is not approved, leaves the executor unasked.
  lemma {:induction false} NotApprovedIsNotRun(s: Session, env: Env, cfg: Config, policy: ToolCall -> Verdict,
                                               p: Pending, decision: Decision)
    requires Undecided(s, env, p) && !decision.Approved? && p.index + 1 == |p.batch|
    ensures ResumeStep(s, env, cfg, policy, decision).0.clock.runs == s.clock.runs
  {
  }

  // A resume without a pending call fails the turn and does nothing else.
  lemma {:induction false} NothingPending(s: Session, env: Env, cfg: Config, policy: ToolCall -> Verdict,
                                          decision: Decision)
    requires s.pending.None?
    ensures var (s', flow) := ResumeStep(s, env, cfg, policy, decision);
      && s' == s.(finished := true)
      && flow == Halt(TurnOver(Outcome(TurnFailed, s.steps, Some(NoPendingApproval), false)))
  {
  }
}
