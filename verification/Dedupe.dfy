// Tool-call dedupe state (dedupe.rs): same-step suppression and the cross-step streak.
module Dedupe {
  import opened Wrappers
  import opened Json
  import opened Tools

  const REPEAT_REMINDER_1_START: nat := 3
  const REPEAT_REMINDER_2_START: nat := 5
  const REPEAT_REMINDER_3_START: nat := 8
  const REPEAT_FORCE_STOP_STREAK: nat := 12

  // The reminders' wording is shortened.
  const REMINDER_TEXT_1 := "\n\nThe same tool call has been repeated several times."
  const REMINDER_TEXT_3 := "\n\nWrite your final response now."

  function MakeReminderText2(repeatCount: nat): string {
    "\n\nThe same tool call has now been issued " + Dec(repeatCount) + " times."
  }

  // ---------- The streak, and what it is meant to count ----------

  datatype Streak = Streak(key: Option<string>, count: nat)

  const NO_STREAK := Streak(None, 0)

  function Advance(s: Streak, key: string): Streak {
    if s.key == Some(key) then Streak(s.key, s.count + 1) else Streak(Some(key), 1)
  }

  function Walk(s: Streak, calls: seq<string>): Streak
    decreases |calls|
  {
    if calls == [] then s else Walk(Advance(s, calls[0]), calls[1..])
  }

  // `n` is the length of the maximal run of equal keys that ends the list.
  ghost predicate IsTrailingRun(calls: seq<string>, n: nat) {
    && n <= |calls|
    && (calls != [] ==> n > 0)
    && (forall k :: |calls| - n <= k < |calls| ==> calls[k] == calls[|calls| - 1])
    && (n < |calls| ==> calls[|calls| - n - 1] != calls[|calls| - 1])
  }

  lemma {:induction false} WalkConcat(s: Streak, a: seq<string>, b: seq<string>)
    ensures Walk(s, a + b) == Walk(Walk(s, a), b)
    decreases |a|
  {
    if a == [] {
      assert a + b == b;
    } else {
      assert (a + b)[1..] == a[1..] + b;
      WalkConcat(Advance(s, a[0]), a[1..], b);
    }
  }

  lemma {:induction false} WalkSnoc(s: Streak, a: seq<string>, key: string)
    ensures Walk(s, a + [key]) == Advance(Walk(s, a), key)
  {
    WalkConcat(s, a, [key]);
    assert [key][1..] == [];
  }

  // Walking a whole history from the empty streak finds its last key and its trailing run.
  lemma {:induction false} WalkCountsRun(history: seq<string>)
    ensures var s := Walk(NO_STREAK, history);
      && IsTrailingRun(history, s.count)
      && (history != [] ==> s.key == Some(history[|history| - 1]))
      && (history == [] ==> s == NO_STREAK)
  {
    if history != [] {
      var n := |history|;
      var before := history[..n - 1];
      WalkCountsRun(before);
      WalkSnoc(NO_STREAK, before, history[n - 1]);
      assert history == before + [history[n - 1]];
      var s := Walk(NO_STREAK, before);
      if s.key == Some(history[n - 1]) {
        forall k | n - (s.count + 1) <= k < n
          ensures history[k] == history[n - 1]
        {
          assert k < n - 1 ==> history[k] == before[k];
        }
      }
    }
  }

  // ---------- The state and its operations, as values ----------

  datatype State = State(
    stepCalls: seq<string>,
    stepKeys: set<string>,
    originalIndex: map<string, nat>,
    stepResults: map<string, ToolResult>,
    streak: Streak)

  const FRESH := State([], {}, map[], map[], NO_STREAK)

  function Begun(d: State): State {
    State([], {}, map[], map[], d.streak)
  }

  // `check`: the new state, and whether the call repeats an earlier one of this step.
  function Checked(d: State, call: ToolCall): (State, bool) {
    var key := KeyOf(call);
    var d' := d.(stepCalls := d.stepCalls + [key], stepKeys := d.stepKeys + {key});
    if key in d.stepKeys then (d', true)
    else (d'.(originalIndex := d.originalIndex[call.id := |d.stepCalls|]), false)
  }

  function StreakAt(d: State, index: nat): nat
    requires index < |d.stepCalls|
  {
    Walk(d.streak, d.stepCalls[..index + 1]).count
  }

  function Reminded(result: ToolResult, streak: nat): ToolResult {
    if streak >= REPEAT_FORCE_STOP_STREAK then
      result.(output := result.output + REMINDER_TEXT_3, stopTurn := true)
    else if streak >= REPEAT_REMINDER_3_START then
      result.(output := result.output + REMINDER_TEXT_3)
    else if streak >= REPEAT_REMINDER_2_START then
      result.(output := result.output + MakeReminderText2(streak))
    else if streak >= REPEAT_REMINDER_1_START then
      result.(output := result.output + REMINDER_TEXT_1)
    else result
  }

  // How often a call has to be repeated for the reminders.
  function Severity(streak: nat): nat {
    if streak < 3 then 0 else if streak < 5 then 1 else if streak < 8 then 2 else 3
  }

  // A reminder is appended from the third call of a run on; it is a different one from the fifth on,
  // naming the number of calls, and from the eighth on. The twelfth call stops the turn. Nothing else of
  // the result changes.
  lemma {:induction false} RemindedMeans(result: ToolResult, m: nat, n: nat)
    ensures var r := Reminded(result, n);
      && result.output <= r.output && (r.output == result.output <==> Severity(n) == 0)
      && (r.stopTurn <==> result.stopTurn || n >= 12)
      && r == result.(output := r.output, stopTurn := r.stopTurn)
    ensures Reminded(result, m).output == Reminded(result, n).output
      <==> m == n || (Severity(m) == Severity(n) && Severity(n) != 2)
  {
    var a, b := Reminder(m), Reminder(n);
    ReminderAppended(result, m);
    ReminderAppended(result, n);
    RemindersDiffer(m, n);
    if result.output + a == result.output + b {
      assert (result.output + a)[|result.output|..] == a && (result.output + b)[|result.output|..] == b;
    }
  }

  function Reminder(streak: nat): string {
    match Severity(streak)
    case 0 => ""
    case 1 => REMINDER_TEXT_1
    case 2 => MakeReminderText2(streak)
    case _ => REMINDER_TEXT_3
  }

  lemma {:induction false} ReminderAppended(result: ToolResult, streak: nat)
    ensures Reminded(result, streak).output == result.output + Reminder(streak)
  {
  }

  lemma {:induction false} RemindersDiffer(m: nat, n: nat)
    ensures Reminder(m) == Reminder(n) <==> m == n || (Severity(m) == Severity(n) && Severity(n) != 2)
    ensures Reminder(n) == "" <==> Severity(n) == 0
  {
    assert |REMINDER_TEXT_1| == 53 && |REMINDER_TEXT_3| == 32;
    assert Severity(m) == 2 ==> |MakeReminderText2(m)| == 49;
    assert Severity(n) == 2 ==> |MakeReminderText2(n)| == 49;
    if Severity(m) == 2 && Severity(n) == 2 { CountsDiffer(m, n); }
  }

  lemma {:induction false} CountsDiffer(m: nat, n: nat)
    requires 5 <= m < 8 && 5 <= n < 8
    ensures MakeReminderText2(m) == MakeReminderText2(n) ==> m == n
  {
    var intro := "\n\nThe same tool call has now been issued ";
    assert MakeReminderText2(m)[|intro|] == Dec(m)[0] && MakeReminderText2(n)[|intro|] == Dec(n)[0];
  }

  function Finalized(d: State, callId: string, result: ToolResult): (State, ToolResult) {
    if callId !in d.originalIndex then (d, result)
    else
      var index := d.originalIndex[callId];
      var d' := d.(originalIndex := d.originalIndex - {callId});
      if index >= |d.stepCalls| then (d', result)
      else
        var final := Reminded(result, StreakAt(d, index));
        (d'.(stepResults := d.stepResults[d.stepCalls[index] := final]), final)
  }

  // The key under which the result of the call in flight is recorded.
  function KeyInFlight(d: State, callId: string): Option<string> {
    if callId in d.originalIndex && d.originalIndex[callId] < |d.stepCalls|
    then Some(d.stepCalls[d.originalIndex[callId]]) else None
  }

  function Ended(d: State): State {
    d.(streak := Walk(d.streak, d.stepCalls))
  }

  // Between two calls of a step every key seen has its finalized result and no original is open.
  ghost predicate Settled(d: State) {
    && d.originalIndex == map[]
    && d.stepResults.Keys == d.stepKeys
    && (forall key :: key in d.stepKeys <==> key in d.stepCalls)
  }

  // One original call is being run: the last one checked.
  ghost predicate Running(d: State, call: ToolCall) {
    && d.stepCalls != []
    && d.stepCalls[|d.stepCalls| - 1] == KeyOf(call)
    && KeyOf(call) !in d.stepResults
    && d.originalIndex == map[call.id := |d.stepCalls| - 1]
    && d.stepKeys == d.stepResults.Keys + {KeyOf(call)}
    && (forall key :: key in d.stepKeys <==> key in d.stepCalls)
  }

  // Same-step lookup never misses: a duplicate always finds its original's result, and an original
  // is alone in flight until it is finalized under its own key. Call ids need not differ.
  lemma {:induction false} CheckFindsOriginal(d: State, call: ToolCall)
    requires Settled(d)
    ensures var (d', duplicate) := Checked(d, call);
      && (duplicate <==> KeyOf(call) in d.stepCalls)
      && (duplicate ==> KeyOf(call) in d'.stepResults && Settled(d'))
      && (!duplicate ==> Running(d', call))
      && d'.stepResults == d.stepResults && d'.streak == d.streak
      && d'.stepCalls == d.stepCalls + [KeyOf(call)]
  {
    var (d', duplicate) := Checked(d, call);
    forall key
      ensures key in d'.stepKeys <==> key in d'.stepCalls
    {
      assert d'.stepCalls[|d.stepCalls|] == KeyOf(call);
    }
  }

  // Finalizing the call in flight settles the step again, with the result under the call's key.
  lemma {:induction false} FinalizedSettles(d: State, call: ToolCall, result: ToolResult)
    requires Running(d, call)
    ensures var (d', final) := Finalized(d, call.id, result);
      Settled(d') && d'.stepResults == d.stepResults[KeyOf(call) := final]
    ensures KeyInFlight(d, call.id) == Some(KeyOf(call))
  {
    assert d.originalIndex - {call.id} == map[];
  }

  // Finalizing the call in flight reminds by the length of the run over everything called so far
  // in the turn, and settles the step again with that result under its key.
  lemma {:induction false} FinalizeByTurnRun(d: State, call: ToolCall, result: ToolResult, history: seq<string>)
    requires Running(d, call)
    requires d.streak == Walk(NO_STREAK, history)
    ensures var (d', final) := Finalized(d, call.id, result);
      var run := Walk(NO_STREAK, history + d.stepCalls).count;
      && IsTrailingRun(history + d.stepCalls, run)
      && final == Reminded(result, run)
      && Settled(d')
      && d'.stepResults == d.stepResults[KeyOf(call) := final]
      && d'.stepCalls == d.stepCalls && d'.streak == d.streak
  {
    WalkConcat(NO_STREAK, history, d.stepCalls);
    WalkCountsRun(history + d.stepCalls);
    assert d.stepCalls[..|d.stepCalls|] == d.stepCalls;
    assert d.originalIndex - {call.id} == map[];
  }

  lemma {:induction false} EndedStreak(d: State, history: seq<string>)
    requires d.streak == Walk(NO_STREAK, history)
    ensures Ended(d).streak == Walk(NO_STREAK, history + d.stepCalls)
  {
    WalkConcat(NO_STREAK, history, d.stepCalls);
  }

  // ---------- The mutable state of the source ----------

  class DedupeState {
    var stepCalls: seq<string>
    var stepKeys: set<string>
    var originalIndex: map<string, nat>
    var stepResults: map<string, ToolResult>
    var consecutiveKey: Option<string>
    var consecutiveCount: nat

    ghost function View(): State
      reads this
    {
      State(stepCalls, stepKeys, originalIndex, stepResults, Streak(consecutiveKey, consecutiveCount))
    }

    constructor ()
      ensures View() == FRESH
    {
      stepCalls, stepKeys, originalIndex, stepResults := [], {}, map[], map[];
      consecutiveKey, consecutiveCount := None, 0;
    }

    method BeginStep()
      modifies this
      ensures View() == Begun(old(View()))
    {
      stepCalls, stepKeys, originalIndex, stepResults := [], {}, map[], map[];
    }

    method Check(call: ToolCall) returns (duplicate: bool)
      modifies this
      ensures (View(), duplicate) == Checked(old(View()), call)
    {
      var key := KeyOf(call);
      var index := |stepCalls|;
      stepCalls := stepCalls + [key];
      duplicate := key in stepKeys;
      stepKeys := stepKeys + {key};
      if !duplicate {
        originalIndex := originalIndex[call.id := index];
      }
    }

    method StreakUpTo(index: nat) returns (streak: nat)
      requires index < |stepCalls|
      ensures streak == StreakAt(View(), index)
    {
      var lastKey := consecutiveKey;
      streak := consecutiveCount;
      for i := 0 to index + 1
        invariant Streak(lastKey, streak) == Walk(View().streak, stepCalls[..i])
      {
        var key := stepCalls[i];
        WalkSnoc(View().streak, stepCalls[..i], key);
        assert stepCalls[..i + 1] == stepCalls[..i] + [key];
        if lastKey == Some(key) {
          streak := streak + 1;
        } else {
          lastKey := Some(key);
          streak := 1;
        }
      }
    }

    method FinalizeResult(callId: string, result: ToolResult) returns (final: ToolResult)
      modifies this
      ensures (View(), final) == Finalized(old(View()), callId, result)
    {
      final := result;
      if callId !in originalIndex {
        return;
      }
      var index := originalIndex[callId];
      originalIndex := originalIndex - {callId};
      if index >= |stepCalls| {
        return;
      }
      var key := stepCalls[index];
      var streak := StreakUpTo(index);
      if streak >= REPEAT_FORCE_STOP_STREAK {
        final := final.(output := final.output + REMINDER_TEXT_3, stopTurn := true);
      } else if streak >= REPEAT_REMINDER_3_START {
        final := final.(output := final.output + REMINDER_TEXT_3);
      } else if streak >= REPEAT_REMINDER_2_START {
        final := final.(output := final.output + MakeReminderText2(streak));
      } else if streak >= REPEAT_REMINDER_1_START {
        final := final.(output := final.output + REMINDER_TEXT_1);
      }
      stepResults := stepResults[key := final];
    }

    method EndStep()
      modifies this
      ensures View() == Ended(old(View()))
    {
      ghost var before := View();
      for i := 0 to |stepCalls|
        invariant stepCalls == before.stepCalls
        invariant View() == before.(streak := Walk(before.streak, stepCalls[..i]))
      {
        var key := stepCalls[i];
        WalkSnoc(before.streak, stepCalls[..i], key);
        assert stepCalls[..i + 1] == stepCalls[..i] + [key];
        if consecutiveKey == Some(key) {
          consecutiveCount := consecutiveCount + 1;
        } else {
          consecutiveKey, consecutiveCount := Some(key), 1;
        }
      }
      assert stepCalls[..|stepCalls|] == stepCalls;
    }
  }
}
