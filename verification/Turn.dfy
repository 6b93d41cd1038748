// The turn engine as functions on values (engine.rs): what `TurnSession` does, step by step.
//
// Everything the engine does not decide itself comes from an `Env`: model replies, tool results,
// steering texts, and how each race against cancellation ends. Each oracle is asked with a counter,
// so it may answer differently every time; properties quantify over all of them.
module Turn {
  import opened Wrappers
  import opened Json
  import opened Text
  import opened Messages
  import opened Tools
  import opened Exchange
  import opened Context
  import D = Dedupe

  // ---------- The boundary ----------

  datatype FinishReason = Completed | ToolCalls | Length | Truncated | ContentFilter | Filtered

  datatype Usage = Usage(prompt: nat, completion: nat, cached: nat, reasoning: nat)

  datatype LlmReply =
    | Reply(deltas: seq<string>, text: string, calls: seq<ToolCall>, finish: FinishReason, usage: Usage)
    | LlmError(message: string, overflow: bool, retryable: bool)

  // How awaiting a tool ends: with its result, or with the cancel signal winning before or after
  // the call was announced.
  datatype Race = Finishes | CancelledBefore | CancelledDuring

  datatype Verdict = Approve | Deny(reason: string) | Ask

  datatype Decision = Approved | Rejected(feedback: Option<string>) | DecisionCancelled

  datatype Env = Env(
    llm: (nat, seq<Message>) -> LlmReply,
    llmCancelled: nat -> bool,
    exec: (nat, ToolCall, seq<ToolCall>) -> ToolResult,
    race: nat -> Race,
    flag: nat -> bool,
    steers: nat -> seq<string>,
    estimate: Message -> nat,
    toolTokens: nat)

  // How often each oracle was asked so far.
  datatype Clock = Clock(llm: nat, runs: nat, flags: nat, looks: nat)

  datatype Review = Review(minSteps: nat, reminder: string)

  datatype Config = Config(
    input: seq<Message>,
    maxSteps: Option<nat>,
    maxRetries: Option<nat>,
    window: Option<nat>,
    maxContext: Option<nat>,
    review: Option<Review>,
    workerGuidance: bool)

  const DEFAULT_MAX_RETRY_ATTEMPTS: nat := 10
  const COMPACTION_MAX_SHRINK_ATTEMPTS: nat := 3

  // ---------- Events and results ----------

  datatype EndReason = TurnCompleted | TurnCancelled | TurnFailed

  datatype Failure =
    | MaxStepsExceeded
    | ProviderError(message: string, overflow: bool)
    | ProviderFiltered
    | NoPendingApproval

  datatype Event =
    | TurnStarted
    | StepStarted(step: nat)
    | StepCompleted(step: nat, usage: Usage, finish: FinishReason)
    | StepInterrupted(step: nat, aborted: bool)
    | StepRetrying(step: nat, failedAttempt: nat, maxAttempts: nat)
    | ToolStarted(call: ToolCall)
    | ToolProgress(callId: string, update: string)
    | ToolResulted(callId: string, output: string, isError: bool)
    | StreamDelta(text: string)
    | ContextCompacted(summary: string, before: nat, after: nat, count: nat)
    | ReviewInjected(reminder: string)
    | TurnEnded(reason: EndReason, failure: Option<Failure>, steersRefused: bool)

  datatype Outcome = Outcome(reason: EndReason, steps: nat, failure: Option<Failure>, truncated: bool)

  datatype Progress = TurnOver(outcome: Outcome) | NeedsApproval(call: ToolCall)

  datatype Pending = Pending(call: ToolCall, batch: seq<ToolCall>, index: nat, step: nat, usage: Usage)

  // One checked call of the turn, and whether it was really run or decided by the user.
  datatype Trace = Trace(key: string, resolved: bool)

  // How a checked call was answered: in which step, under which key, with what output, and whether
  // the result was there when it was needed.
  datatype Answer = Answer(step: nat, key: Option<string>, output: string, found: bool)

  // A step request: the history as assembled, and as sent after the repair.
  datatype Request = Request(assembled: seq<Message>, sent: seq<Message>)

  // `requests`, `trail`, `ended` and `answers` only record: the step requests made, every call
  // checked, the keys of all finished steps, and how the checked calls were answered.
  datatype Session = Session(
    messages: seq<Message>,
    steps: nat,
    retries: nat,
    pending: Option<Pending>,
    steerQueue: seq<Message>,
    lastCompacted: Option<nat>,
    dedupe: D.State,
    finished: bool,
    events: seq<Event>,
    clock: Clock,
    requests: seq<Request>,
    trail: seq<Trace>,
    ended: seq<string>,
    answers: seq<Answer>)

  // ---------- Fixed texts (their wording is shortened) ----------

  const TOOL_SKIPPED := "Tool skipped because a previous tool call stopped the turn."
  const RESULT_LOST := "Tool call deduplicated but original result was lost"
  const WORKER_GUIDANCE := " Try a different approach."
  const COMPACTION_INSTRUCTION := "Write a first-person handoff note."

  function WorkerText(cfg: Config, output: string): string {
    if cfg.workerGuidance then output + WORKER_GUIDANCE else output
  }

  function RejectedText(name: string, feedback: Option<string>): string {
    "Tool " + name + " was rejected."
    + if feedback.Some? && feedback.value != "" then " Reason: " + feedback.value else ""
  }

  function CancelledText(name: string): string {
    "Tool " + name + " was not run: approval cancelled."
  }

  // ---------- Emitting, finishing ----------

  function Emit(s: Session, e: Event): Session {
    s.(events := s.events + [e])
  }

  function Finish(s: Session, reason: EndReason, failure: Option<Failure>, truncated: bool): (Session, Progress) {
    var s' := s.(finished := true);
    (Emit(s', TurnEnded(reason, failure, s'.finished)), TurnOver(Outcome(reason, s.steps, failure, truncated)))
  }

  function Aborted(s: Session, step: nat): (Session, Progress) {
    Finish(Emit(s, StepInterrupted(step, true)), TurnCancelled, None, false)
  }

  function AskFlag(s: Session): Session {
    s.(clock := s.clock.(flags := s.clock.flags + 1))
  }

  // ---------- One tool call ----------

  function ProgressEvents(callId: string, updates: seq<string>): seq<Event> {
    if updates == [] then [] else [ToolProgress(callId, updates[0])] + ProgressEvents(callId, updates[1..])
  }

  function RunTool(s: Session, env: Env, call: ToolCall, batch: seq<ToolCall>): (Session, Option<ToolResult>) {
    var n := s.clock.runs;
    var s' := s.(clock := s.clock.(runs := n + 1));
    match env.race(n)
    case CancelledBefore => (s', None)
    case CancelledDuring => (Emit(s', ToolStarted(call)), None)
    case Finishes =>
      var result := env.exec(n, call, batch);
      (s'.(events := s.events + [ToolStarted(call)] + ProgressEvents(call.id, result.updates)), Some(result))
  }

  function Settle(s: Session, r: ToolResult): Session {
    s.(events := s.events + [ToolResulted(r.callId, r.output, r.isError)],
       messages := s.messages + [ResultMessage(r)])
  }

  // Announce a call and settle it at once.
  function SettleNow(s: Session, call: ToolCall, r: ToolResult): Session {
    Settle(Emit(s, ToolStarted(call)), r)
  }

  function Finalize(s: Session, callId: string, r: ToolResult): (Session, ToolResult) {
    var (d, final) := D.Finalized(s.dedupe, callId, r);
    var answer := Answer(s.steps, D.KeyInFlight(s.dedupe, callId), final.output, true);
    (Settle(s.(dedupe := d, answers := s.answers + [answer]), final), final)
  }

  function Checked(s: Session, call: ToolCall): (Session, bool) {
    var (d, duplicate) := D.Checked(s.dedupe, call);
    (s.(dedupe := d, trail := s.trail + [Trace(KeyOf(call), false)]), duplicate)
  }

  function Resolved(s: Session): Session {
    if s.trail == [] then s
    else s.(trail := s.trail[|s.trail| - 1 := s.trail[|s.trail| - 1].(resolved := true)])
  }

  function Shared(d: D.State, call: ToolCall): ToolResult {
    var key := KeyOf(call);
    var found := if key in d.stepResults then d.stepResults[key] else ErrorResult(call, RESULT_LOST);
    found.(callId := call.id, toolName := call.name)
  }

  // A duplicate is announced and answered with its original's result.
  function SettleShared(s: Session, call: ToolCall): Session {
    var shared := Shared(s.dedupe, call);
    var answer := Answer(s.steps, Some(KeyOf(call)), shared.output, KeyOf(call) in s.dedupe.stepResults);
    SettleNow(s.(answers := s.answers + [answer]), call, shared)
  }

  // What a call does to the batch it is part of.
  datatype CallEnd = Goes | Stops | Leaves(progress: Progress)

  function Leave(r: (Session, Progress)): (Session, CallEnd) {
    (r.0, Leaves(r.1))
  }

  function ApprovedCall(s: Session, env: Env, call: ToolCall, batch: seq<ToolCall>, step: nat): (Session, CallEnd) {
    var (s1, result) := RunTool(Resolved(s), env, call, batch);
    if result.None? then Leave(Aborted(s1, step))
    else
      var (s2, final) := Finalize(s1, call.id, result.value);
      (s2, if final.stopTurn then Stops else Goes)
  }

  // A denied call never stops the batch, even when its finalized result carries the stop flag.
  function DeniedCall(s: Session, cfg: Config, call: ToolCall, reason: string): (Session, CallEnd) {
    (Finalize(Emit(s, ToolStarted(call)), call.id, ErrorResult(call, WorkerText(cfg, reason))).0, Goes)
  }

  function AskedCall(s: Session, p: Pending): (Session, CallEnd) {
    (s.(pending := Some(p)), Leaves(NeedsApproval(p.call)))
  }

  // A call that repeats none of its step, as the policy wants it.
  function OriginalCall(s: Session, env: Env, cfg: Config, policy: ToolCall -> Verdict,
                        p: Pending): (Session, CallEnd)
  {
    match policy(p.call)
    case Approve => ApprovedCall(s, env, p.call, p.batch, p.step)
    case Deny(reason) => DeniedCall(s, cfg, p.call, reason)
    case Ask => AskedCall(s, p)
  }

  // One call of a batch, `p` saying which.
  function OneCall(s: Session, env: Env, cfg: Config, policy: ToolCall -> Verdict, p: Pending): (Session, CallEnd) {
    var s0 := AskFlag(s);
    if env.flag(s.clock.flags) then Leave(Aborted(s0, p.step))
    else
      var (s1, duplicate) := Checked(s0, p.call);
      if duplicate then
        (SettleShared(s1, p.call), if Shared(s1.dedupe, p.call).stopTurn then Stops else Goes)
      else OriginalCall(s1, env, cfg, policy, p)
  }

  // How one call of a batch is dealt with.
  type Calling = (Session, Pending) -> (Session, CallEnd)

  function CallWith(env: Env, cfg: Config, policy: ToolCall -> Verdict): Calling {
    (s, p) => OneCall(s, env, cfg, policy, p)
  }

  // ---------- A batch ----------

  function SkipFrom(s: Session, calls: seq<ToolCall>, i: nat): Session
    decreases |calls| - i
  {
    if i >= |calls| then s
    else SkipFrom(SettleNow(s, calls[i], ErrorResult(calls[i], TOOL_SKIPPED)), calls, i + 1)
  }

  function EndStep(s: Session): Session {
    s.(dedupe := D.Ended(s.dedupe), ended := s.ended + s.dedupe.stepCalls)
  }

  datatype BatchEnd = BatchDone(stopped: bool) | BatchLeft(progress: Progress)

  // `execute_batch` from call `i` on.
  function BatchFrom(s: Session, one: Calling, calls: seq<ToolCall>, i: nat, step: nat,
                     usage: Usage): (Session, BatchEnd)
    decreases |calls| - i
  {
    if i >= |calls| then (EndStep(s), BatchDone(false))
    else
      var (s1, end) := one(s, Pending(calls[i], calls, i, step, usage));
      match end
      case Goes => BatchFrom(s1, one, calls, i + 1, step, usage)
      case Stops => (EndStep(SkipFrom(s1, calls, i + 1)), BatchDone(true))
      case Leaves(progress) => (s1, BatchLeft(progress))
  }

  datatype Flow = Again | Halt(progress: Progress)

  function HaltWith(r: (Session, Progress)): (Session, Flow) {
    (r.0, Halt(r.1))
  }

  function CompleteStep(s: Session, step: nat, usage: Usage, finish: FinishReason): Session {
    Emit(s, StepCompleted(step, usage, finish))
  }

  function AfterBatch(s: Session, end: BatchEnd, step: nat, usage: Usage): (Session, Flow) {
    match end
    case BatchLeft(progress) => (s, Halt(progress))
    case BatchDone(true) => HaltWith(Finish(CompleteStep(s, step, usage, Completed), TurnCompleted, None, false))
    case BatchDone(false) => (CompleteStep(s, step, usage, ToolCalls), Again)
  }

  // ---------- resume ----------

  function ResumeSettled(s: Session, env: Env, cfg: Config, policy: ToolCall -> Verdict,
                         p: Pending, r: ToolResult): (Session, Flow)
  {
    var (s1, final) := Finalize(s, p.call.id, r);
    var (s2, end) := BatchRest(s1, final, CallWith(env, cfg, policy), p);
    AfterBatch(s2, end, p.step, p.usage)
  }

  // The pending call `p` has its final result: the batch is stopped, or the rest of it runs.
  function BatchRest(s: Session, final: ToolResult, one: Calling, p: Pending): (Session, BatchEnd) {
    if final.stopTurn then (EndStep(SkipFrom(s, p.batch, p.index + 1)), BatchDone(true))
    else BatchFrom(s, one, p.batch, p.index + 1, s.steps, p.usage)
  }

  function ResumeDecided(s: Session, env: Env, cfg: Config, policy: ToolCall -> Verdict,
                         p: Pending, decision: Decision): (Session, Flow)
  {
    match decision
    case Approved =>
      var (s1, result) := RunTool(s, env, p.call, p.batch);
      if result.None? then HaltWith(Aborted(s1, s1.steps))
      else ResumeSettled(s1, env, cfg, policy, p, result.value)
    case Rejected(feedback) =>
      ResumeSettled(Emit(s, ToolStarted(p.call)), env, cfg, policy, p,
                    ErrorResult(p.call, WorkerText(cfg, RejectedText(p.call.name, feedback))))
    case DecisionCancelled =>
      ResumeSettled(Emit(s, ToolStarted(p.call)), env, cfg, policy, p,
                    ErrorResult(p.call, WorkerText(cfg, CancelledText(p.call.name))))
  }

  // `resume` up to the point where it enters the step loop again.
  function ResumeStep(s: Session, env: Env, cfg: Config, policy: ToolCall -> Verdict,
                      decision: Decision): (Session, Flow)
  {
    match s.pending
    case None =>
      (s.(finished := true), Halt(TurnOver(Outcome(TurnFailed, s.steps, Some(NoPendingApproval), false))))
    case Some(p) =>
      var s0 := AskFlag(s.(pending := None));
      if env.flag(s.clock.flags) then HaltWith(Aborted(s0, p.step))
      else ResumeDecided(Resolved(s0), env, cfg, policy, p, decision)
  }

  // ---------- Compaction ----------

  // Ask for a summary at most `attempts` times, dropping the oldest message after each unusable
  // answer: the calls made so far, and the summary if one was usable.
  function Summarize(env: Env, n: nat, history: seq<Message>, attempts: nat): (nat, Option<string>)
    decreases attempts
  {
    if attempts == 0 then (n, None)
    else
      match env.llm(n, history + [UserText(COMPACTION_INSTRUCTION)])
      case LlmError(_, _, _) => (n + 1, None)
      case Reply(_, text, _, finish, _) =>
        if Trim(text) != "" && finish != Length then (n + 1, Some(Trim(text)))
        else if |history| <= 1 then (n + 1, None)
        else Summarize(env, n + 1, history[1..], attempts - 1)
  }

  // `compact`: whether the history was replaced.
  function Compact(s: Session, env: Env): (Session, bool) {
    var before := Tokens(s.messages, env.estimate);
    var (n, summary) := Summarize(env, s.clock.llm, Repair(s.messages), COMPACTION_MAX_SHRINK_ATTEMPTS + 1);
    var s1 := s.(clock := s.clock.(llm := n));
    if summary.None? then (s1, false)
    else
      var compacted := Compacted(s.messages, summary.value, env.estimate);
      var after := Tokens(compacted, env.estimate);
      (Emit(s1.(messages := compacted, lastCompacted := Some(after)),
            ContextCompacted(summary.value, before, after, |s.messages|)), true)
  }

  // `should_compact`: the trigger ratio is 0.85.
  predicate ShouldCompact(estimated: nat, max: nat) {
    max > 0 && estimated * 100 >= max * 85
  }

  function MaybeCompact(s: Session, env: Env, cfg: Config): Session {
    if cfg.maxContext.None? || cfg.maxContext.value == 0 then s
    else
      var estimated := Tokens(s.messages, env.estimate) + env.toolTokens;
      var alreadyCompacted := s.lastCompacted.Some? && estimated <= s.lastCompacted.value;
      if ShouldCompact(estimated, cfg.maxContext.value) && !alreadyCompacted then Compact(s, env).0 else s
  }

  // ---------- The step loop ----------

  function UserTexts(texts: seq<string>): seq<Message> {
    if texts == [] then [] else [UserText(texts[0])] + UserTexts(texts[1..])
  }

  // The steering messages that arrived by now are in the queue.
  function LookAtSteers(s: Session, env: Env): Session {
    s.(steerQueue := s.steerQueue + UserTexts(env.steers(s.clock.looks)),
       clock := s.clock.(looks := s.clock.looks + 1))
  }

  function DrainSteers(s: Session, env: Env): Session {
    var s1 := LookAtSteers(s, env);
    s1.(messages := s1.messages + s1.steerQueue, steerQueue := [])
  }

  function StepRequest(cfg: Config, messages: seq<Message>): Request {
    var assembled :=
      if cfg.window.Some? && cfg.window.value > 0 then Projected(messages, cfg.window.value) else messages;
    Request(assembled, Repair(assembled))
  }

  // The step has begun and its request is on its way.
  function BeginStep(s: Session, cfg: Config): Session {
    s.(steps := s.steps + 1,
       dedupe := D.Begun(s.dedupe),
       events := s.events + [StepStarted(s.steps + 1)],
       requests := s.requests + [StepRequest(cfg, s.messages)])
  }

  function MaxAttempts(cfg: Config): nat {
    var n := if cfg.maxRetries.Some? then cfg.maxRetries.value else DEFAULT_MAX_RETRY_ATTEMPTS;
    if n < 1 then 1 else n
  }

  function FailStep(s: Session, message: string, overflow: bool): (Session, Flow) {
    var s1 := Emit(s, StepInterrupted(s.steps, false));
    HaltWith(Finish(s1, TurnFailed, Some(ProviderError(message, overflow)), false))
  }

  function RetryStep(s: Session, env: Env, cfg: Config, message: string, overflow: bool): (Session, Flow) {
    var max := MaxAttempts(cfg);
    if s.retries < max then
      var s1 := Emit(s.(retries := s.retries + 1), StepRetrying(s.steps, s.retries + 1, max));
      if env.flag(s1.clock.flags) then HaltWith(Finish(AskFlag(s1), TurnCancelled, None, false))
      else (AskFlag(s1), Again)
    else FailStep(s.(retries := 0), message, overflow)
  }

  function StepError(s: Session, env: Env, cfg: Config, message: string, overflow: bool,
                     retryable: bool): (Session, Flow)
  {
    var s0 := AskFlag(s);
    if env.flag(s.clock.flags) then HaltWith(Finish(s0, TurnCancelled, None, false))
    else
      var (s1, compacted) := if overflow && cfg.maxContext.Some? then Compact(s0, env) else (s0, false);
      if compacted then (s1, Again)
      else if retryable then RetryStep(s1, env, cfg, message, overflow)
      else FailStep(s1, message, overflow)
  }

  predicate Reviewable(finish: FinishReason) {
    !finish.Filtered? && !finish.ContentFilter? && !finish.Truncated? && !finish.Length?
  }

  predicate Reviews(cfg: Config, s: Session, finish: FinishReason) {
    cfg.review.Some? && Reviewable(finish) && s.steps >= cfg.review.value.minSteps
  }

  function EndedBy(s: Session, finish: FinishReason): (Session, Progress) {
    match finish
    case Truncated => Finish(s, TurnCompleted, None, true)
    case Length => Finish(s, TurnCompleted, None, true)
    case Filtered => Finish(s, TurnFailed, Some(ProviderFiltered), false)
    case ContentFilter => Finish(s, TurnFailed, Some(ProviderFiltered), false)
    case _ => Finish(s, TurnCompleted, None, false)
  }

  // A step without tool calls.
  function StepText(s: Session, env: Env, cfg: Config, finish: FinishReason, usage: Usage): (Session, Flow) {
    var s0 := s.(retries := 0);
    if Reviews(cfg, s, finish) then
      var reminder := cfg.review.value.reminder;
      var s1 := CompleteStep(s0, s.steps, usage, finish);
      (Emit(s1.(messages := s1.messages + [UserText(reminder)]), ReviewInjected(reminder)), Again)
    else
      var s1 := LookAtSteers(s0, env);
      if s1.steerQueue != [] then (CompleteStep(s1, s.steps, usage, finish), Again)
      else HaltWith(EndedBy(CompleteStep(s1.(finished := true), s.steps, usage, finish), finish))
  }

  function CallRefs(calls: seq<ToolCall>): seq<CallRef> {
    if calls == [] then [] else [CallRef(calls[0].id, calls[0].name, calls[0].args)] + CallRefs(calls[1..])
  }

  function Asking(calls: seq<ToolCall>, text: string): Message {
    Message(Assistant, Str(text), None, None, Some(CallRefs(calls)))
  }

  // A step with tool calls.
  function StepTools(s: Session, env: Env, cfg: Config, policy: ToolCall -> Verdict,
                     calls: seq<ToolCall>, text: string, usage: Usage): (Session, Flow)
  {
    var s0 := s.(messages := s.messages + [Asking(calls, text)]);
    var (s1, end) := BatchFrom(s0, CallWith(env, cfg, policy), calls, 0, s.steps, usage);
    AfterBatch(if end.BatchDone? then s1.(retries := 0) else s1, end, s.steps, usage)
  }

  function Deltas(texts: seq<string>): seq<Event> {
    if texts == [] then [] else [StreamDelta(texts[0])] + Deltas(texts[1..])
  }

  function StepAnswer(s: Session, env: Env, cfg: Config, policy: ToolCall -> Verdict,
                      answer: LlmReply): (Session, Flow)
  {
    match answer
    case LlmError(message, overflow, retryable) => StepError(s, env, cfg, message, overflow, retryable)
    case Reply(deltas, text, calls, finish, usage) =>
      var s1 := s.(events := s.events + Deltas(deltas));
      if calls == [] then StepText(s1, env, cfg, finish, usage)
      else StepTools(s1, env, cfg, policy, calls, text, usage)
  }

  // What a step does with the model's answer.
  type Answering = (Session, LlmReply) -> (Session, Flow)

  function AnswerWith(env: Env, cfg: Config, policy: ToolCall -> Verdict): Answering {
    (s, answer) => StepAnswer(s, env, cfg, policy, answer)
  }

  // The model's answer to the request of a begun step.
  function StepReply(s: Session, env: Env, request: seq<Message>, answering: Answering): (Session, Flow) {
    var n := s.clock.llm;
    var s0 := s.(clock := s.clock.(llm := n + 1));
    if env.llmCancelled(n) then HaltWith(Aborted(s0, s.steps))
    else answering(s0, env.llm(n, request))
  }

  // One pass of `run_loop`.
  function Iterate(s: Session, env: Env, cfg: Config, answering: Answering): (Session, Flow) {
    var s0 := AskFlag(s);
    if env.flag(s.clock.flags) then HaltWith(Finish(s0, TurnCancelled, None, false))
    else if cfg.maxSteps.Some? && cfg.maxSteps.value > 0 && s.steps >= cfg.maxSteps.value then
      HaltWith(Finish(s0, TurnFailed, Some(MaxStepsExceeded), false))
    else
      var s1 := MaybeCompact(DrainSteers(s0, env), env, cfg);
      StepReply(BeginStep(s1, cfg), env, StepRequest(cfg, s1.messages).sent, answering)
  }

  // `run_loop`, watched for at most `fuel` passes.
  function Loop(s: Session, pass: Session -> (Session, Flow), fuel: nat): (Session, Flow)
    decreases fuel
  {
    if fuel == 0 then (s, Again)
    else
      var (s1, flow) := pass(s);
      if flow.Again? then Loop(s1, pass, fuel - 1) else (s1, flow)
  }

  function Pass(env: Env, cfg: Config, policy: ToolCall -> Verdict): Session -> (Session, Flow) {
    s => Iterate(s, env, cfg, AnswerWith(env, cfg, policy))
  }

  function New(): Session {
    Session([], 0, 0, None, [], None, D.FRESH, false, [], Clock(0, 0, 0, 0), [], [], [], [])
  }

  function Started(cfg: Config): Session {
    Emit(New().(messages := cfg.input), TurnStarted)
  }

  function Run(env: Env, cfg: Config, policy: ToolCall -> Verdict, fuel: nat): (Session, Flow) {
    Loop(Started(cfg), Pass(env, cfg, policy), fuel)
  }

  function Resume(s: Session, env: Env, cfg: Config, policy: ToolCall -> Verdict, decision: Decision,
                  fuel: nat): (Session, Flow)
  {
    var (s1, flow) := ResumeStep(s, env, cfg, policy, decision);
    if flow.Again? then Loop(s1, Pass(env, cfg, policy), fuel) else (s1, flow)
  }
}
