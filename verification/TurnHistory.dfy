// What the engine's history looks like at every moment of a batch.
module TurnHistory {
  import opened Wrappers
  import opened Messages
  import opened Tools
  import opened Turn

  // The executor answers the call it was given.
  ghost predicate AnswersItsCall(env: Env) {
    forall n, call, batch :: env.exec(n, call, batch).callId == call.id
  }

  function CallIds(calls: seq<ToolCall>): (ids: seq<string>)
    ensures |ids| == |calls|
    ensures forall k :: 0 <= k < |ids| ==> ids[k] == calls[k].id
  {
    if calls == [] then [] else [calls[0].id] + CallIds(calls[1..])
  }

  lemma {:induction false} AskingDeclares(calls: seq<ToolCall>, text: string)
    ensures DeclaredIds(Asking(calls, text)) == CallIds(calls)
  {
    RefsKeepIds(calls);
  }

  lemma {:induction false} RefsKeepIds(calls: seq<ToolCall>)
    ensures Ids(CallRefs(calls)) == CallIds(calls)
  {
    if calls != [] {
      RefsKeepIds(calls[1..]);
      assert CallRefs(calls)[1..] == CallRefs(calls[1..]);
    }
  }

  // The history grew by exactly one result per id, in order.
  predicate Grew(before: seq<Message>, after: seq<Message>, ids: seq<string>) {
    && |before| <= |after|
    && after[..|before|] == before
    && ResultsOf(after[|before|..], ids)
  }

  lemma {:induction false} GrewByOne(before: seq<Message>, after: seq<Message>, m: Message, id: string)
    requires after == before + [m] && IsResultOf(m, id)
    ensures Grew(before, after, [id])
  {
    assert after[|before|..] == [m];
  }

  lemma {:induction false} GrewOn(a: seq<Message>, b: seq<Message>, c: seq<Message>, ids: seq<string>,
                                  more: seq<string>)
    requires Grew(a, b, ids) && Grew(b, c, more)
    ensures Grew(a, c, ids + more)
  {
    var x, y := b[|a|..], c[|b|..];
    assert c == b + y && b == a + x;
    assert c[..|a|] == a;
    assert c[|a|..] == x + y;
  }

  // What a call of the batch leaves behind.
  predicate CallHistory(s: Session, s': Session, p: Pending, end: CallEnd) {
    match end
    case Leaves(NeedsApproval(call)) =>
      call == p.call && s'.pending == Some(p) && s'.messages == s.messages && s'.finished == s.finished
    case Leaves(TurnOver(_)) => s'.finished && s'.pending == s.pending && s'.messages == s.messages
    case _ =>
      Grew(s.messages, s'.messages, [p.call.id]) && s'.finished == s.finished && s'.pending == s.pending
  }

  ghost predicate KeepsHistory(one: Calling) {
    forall s, p :: CallHistory(s, one(s, p).0, p, one(s, p).1)
  }

  lemma {:induction false} FinalizeHistory(s: Session, callId: string, r: ToolResult)
    requires r.callId == callId
    ensures var s' := Finalize(s, callId, r).0;
      Grew(s.messages, s'.messages, [callId]) && s'.finished == s.finished && s'.pending == s.pending
  {
    var (s', final) := Finalize(s, callId, r);
    GrewByOne(s.messages, s'.messages, ResultMessage(final), callId);
  }

  lemma {:induction false} OneCallHistory(s: Session, env: Env, cfg: Config, policy: ToolCall -> Verdict, p: Pending)
    requires AnswersItsCall(env)
    ensures var (s', end) := OneCall(s, env, cfg, policy, p); CallHistory(s, s', p, end)
  {
    var call := p.call;
    var s0 := AskFlag(s);
    if !env.flag(s.clock.flags) {
      var (s1, duplicate) := Checked(s0, call);
      if duplicate {
        var s2 := SettleShared(s1, call);
        GrewByOne(s.messages, s2.messages, ResultMessage(Shared(s1.dedupe, call)), call.id);
      } else {
        match policy(call)
        case Approve =>
          var (s2, result) := RunTool(Resolved(s1), env, call, p.batch);
          if result.Some? { FinalizeHistory(s2, call.id, result.value); }
        case Deny(reason) =>
          FinalizeHistory(Emit(s1, ToolStarted(call)), call.id, ErrorResult(call, WorkerText(cfg, reason)));
        case Ask =>
      }
    }
  }

  lemma {:induction false} CallsKeepHistory(env: Env, cfg: Config, policy: ToolCall -> Verdict)
    requires AnswersItsCall(env)
    ensures KeepsHistory(CallWith(env, cfg, policy))
  {
    forall s, p
      ensures CallHistory(s, OneCall(s, env, cfg, policy, p).0, p, OneCall(s, env, cfg, policy, p).1)
    {
      OneCallHistory(s, env, cfg, policy, p);
    }
  }

  lemma {:induction false} SkipHistory(s: Session, calls: seq<ToolCall>, i: nat)
    requires i <= |calls|
    ensures var s' := SkipFrom(s, calls, i);
      && Grew(s.messages, s'.messages, CallIds(calls)[i..])
      && s'.finished == s.finished && s'.pending == s.pending
    decreases |calls| - i
  {
    if i < |calls| {
      var r := ErrorResult(calls[i], TOOL_SKIPPED);
      var s1 := SettleNow(s, calls[i], r);
      GrewByOne(s.messages, s1.messages, ResultMessage(r), calls[i].id);
      SkipHistory(s1, calls, i + 1);
      GrewOn(s.messages, s1.messages, SkipFrom(s, calls, i).messages, [calls[i].id], CallIds(calls)[i + 1..]);
      assert CallIds(calls)[i..] == [calls[i].id] + CallIds(calls)[i + 1..];
    } else {
      assert s.messages[|s.messages|..] == [];
    }
  }
}
