// Tool-exchange repair: `close_unresolved_tool_exchanges` (engine.rs).
module Exchange {
  import opened Wrappers
  import opened Json
  import opened Messages

  const TOOL_INTERRUPTED_TEXT :=
    "Tool result is not available in the current context. Do not assume the tool completed successfully."

  function Placeholder(id: string): Message {
    Message(Role.Tool, Str(TOOL_INTERRUPTED_TEXT), None, Some(id), None)
  }

  function IdSet(ids: seq<string>): set<string> {
    set id | id in ids
  }

  // ---------- What the repair is meant to produce ----------

  // The ids of a declaration that open a slot: first occurrences that are not open already.
  function Fresh(ids: seq<string>, open: set<string>): seq<string> {
    if ids == [] then []
    else if ids[0] in open then Fresh(ids[1..], open)
    else [ids[0]] + Fresh(ids[1..], open + {ids[0]})
  }

  // The first later result for a call, or the placeholder when none ever arrives.
  function Answer(rest: seq<Message>, id: string): Message {
    if rest == [] then Placeholder(id)
    else if IsResultOf(rest[0], id) then rest[0]
    else Answer(rest[1..], id)
  }

  function Answers(rest: seq<Message>, ids: seq<string>): (answers: seq<Message>)
    ensures |answers| == |ids|
    ensures forall k :: 0 <= k < |ids| ==> answers[k] == Answer(rest, ids[k])
  {
    if ids == [] then [] else [Answer(rest, ids[0])] + Answers(rest, ids[1..])
  }

  function Closing(m: Message, open: set<string>): set<string> {
    if m.toolCallId.Some? then open - {m.toolCallId.value} else open
  }

  // Reading left to right with the set of calls still waiting for a result: a message that is not
  // a tool result stays where it is and is followed by the answers of the calls it opens; a tool
  // result appears only as such an answer.
  function RepairFrom(ms: seq<Message>, open: set<string>): seq<Message> {
    if ms == [] then []
    else if ms[0].role.Tool? then RepairFrom(ms[1..], Closing(ms[0], open))
    else
      var ids := DeclaredIds(ms[0]);
      [ms[0]] + Answers(ms[1..], Fresh(ids, open)) + RepairFrom(ms[1..], open + IdSet(ids))
  }

  function Repair(ms: seq<Message>): seq<Message> {
    RepairFrom(ms, {})
  }

  // ---------- The slot-map rewriter of the source ----------

  ghost predicate SlotOwes(goal: seq<Message>, out: seq<Message>, slots: map<string, nat>, id: string,
                           rest: seq<Message>)
    requires id in slots && |out| <= |goal|
  {
    slots[id] < |out| && out[slots[id]] == Placeholder(id) && goal[slots[id]] == Answer(rest, id)
  }

  ghost predicate Settled(goal: seq<Message>, out: seq<Message>, slots: map<string, nat>, k: nat)
    requires k < |out| <= |goal|
  {
    var id := out[k].toolCallId;
    out[k] == goal[k] || (id.Some? && id.value in slots && slots[id.value] == k)
  }

  // What the rewriter still owes: every slot points at its own placeholder, and patching the slots
  // with the answers found in `rest`, then repairing `rest`, gives `goal`.
  ghost predicate Pending(goal: seq<Message>, out: seq<Message>, slots: map<string, nat>, rest: seq<Message>)
  {
    && |out| <= |goal|
    && goal[|out|..] == RepairFrom(rest, slots.Keys)
    && (forall id :: id in slots ==> SlotOwes(goal, out, slots, id, rest))
    && (forall k :: 0 <= k < |out| ==> Settled(goal, out, slots, k))
  }

  lemma {:induction false} SlotFilled(goal: seq<Message>, out: seq<Message>, slots: map<string, nat>, ms: seq<Message>,
                                      id: string)
    requires ms != [] && ms[0].role.Tool? && ms[0].toolCallId == Some(id) && id in slots
    requires Pending(goal, out, slots, ms)
    ensures slots[id] < |out| && Pending(goal, out[slots[id] := ms[0]], slots - {id}, ms[1..])
  {
    assert SlotOwes(goal, out, slots, id, ms);
    var out', slots' := out[slots[id] := ms[0]], slots - {id};
    assert slots'.Keys == Closing(ms[0], slots.Keys);
    forall k | 0 <= k < |out'|
      ensures Settled(goal, out', slots', k)
    {
      assert Settled(goal, out, slots, k);
    }
    forall id' | id' in slots'
      ensures SlotOwes(goal, out', slots', id', ms[1..])
    {
      assert SlotOwes(goal, out, slots, id', ms);
    }
  }

  // The goal goes on with the message and the answers of the calls it opens.
  ghost predicate GoalHas(goal: seq<Message>, n: nat, m: Message, owed: seq<string>, rest: seq<Message>) {
    && n + 1 + |owed| <= |goal|
    && goal[n] == m
    && forall k :: 0 <= k < |owed| ==> goal[n + 1 + k] == Answer(rest, owed[k])
  }

  lemma {:induction false} GoalSlices(goal: seq<Message>, n: nat, m: Message, answers: seq<Message>, tail: seq<Message>)
    requires n <= |goal| && goal[n..] == [m] + answers + tail
    ensures n + 1 + |answers| <= |goal| && goal[n] == m && goal[n + 1 + |answers|..] == tail
    ensures forall k :: 0 <= k < |answers| ==> goal[n + 1 + k] == answers[k]
  {
    var rest := goal[n..];
    assert goal[n] == rest[0];
    assert goal[n + 1 + |answers|..] == rest[1 + |answers|..];
    forall k | 0 <= k < |answers|
      ensures goal[n + 1 + k] == answers[k]
    {
      assert goal[n + 1 + k] == rest[1 + k];
    }
  }

  // `n` messages are out and the calls in `open` have slots; after the next message it is `n'` and `open'`.
  lemma {:induction false} GoalAfterMessage(goal: seq<Message>, n: nat, n': nat, ms: seq<Message>, open: set<string>,
                                            open': set<string>, owed: seq<string>)
    requires ms != [] && !ms[0].role.Tool?
    requires n <= |goal| && goal[n..] == RepairFrom(ms, open)
    requires owed == Fresh(DeclaredIds(ms[0]), open) && n' == n + 1 + |owed|
    requires open' == open + IdSet(DeclaredIds(ms[0]))
    ensures GoalHas(goal, n, ms[0], owed, ms[1..])
    ensures n' <= |goal| && goal[n'..] == RepairFrom(ms[1..], open')
  {
    GoalSlices(goal, n, ms[0], Answers(ms[1..], owed), RepairFrom(ms[1..], open'));
  }

  lemma {:induction false} SlotsAfterMessage(goal: seq<Message>, out: seq<Message>, slots: map<string, nat>,
                                             ms: seq<Message>, owed: seq<string>,
                                             out': seq<Message>, slots': map<string, nat>)
    requires ms != [] && !ms[0].role.Tool?
    requires |out| < |out'| <= |goal|
    requires forall id :: id in slots ==> SlotOwes(goal, out, slots, id, ms)
    requires NewSlots(owed, slots, out + [ms[0]], slots', out')
    requires forall k :: 0 <= k < |owed| ==> goal[|out| + 1 + k] == Answer(ms[1..], owed[k])
    ensures forall id :: id in slots' ==> SlotOwes(goal, out', slots', id, ms[1..])
  {
    forall id | id in slots'
      ensures SlotOwes(goal, out', slots', id, ms[1..])
    {
      if id in slots {
        assert SlotOwes(goal, out, slots, id, ms);
        assert out'[slots[id]] == (out + [ms[0]])[slots[id]];
      } else {
        var k :| 0 <= k < |owed| && owed[k] == id;
      }
    }
  }

  lemma {:induction false} SettledAfterMessage(goal: seq<Message>, out: seq<Message>, slots: map<string, nat>,
                                               m: Message, owed: seq<string>,
                                               out': seq<Message>, slots': map<string, nat>)
    requires |out| < |out'| <= |goal| && goal[|out|] == m
    requires forall k :: 0 <= k < |out| ==> Settled(goal, out, slots, k)
    requires NewSlots(owed, slots, out + [m], slots', out')
    ensures forall k :: 0 <= k < |out'| ==> Settled(goal, out', slots', k)
  {
    forall k | 0 <= k < |out'|
      ensures Settled(goal, out', slots', k)
    {
      if k <= |out| {
        assert out'[k] == (out + [m])[k];
        assert k < |out| ==> Settled(goal, out, slots, k);
      } else {
        var id := owed[k - |out| - 1];
        assert id in slots' && out'[|out + [m]| + (k - |out| - 1)] == Placeholder(id);
      }
    }
  }

  lemma {:induction false} MessageKept(goal: seq<Message>, out: seq<Message>, slots: map<string, nat>,
                                       ms: seq<Message>, out': seq<Message>, slots': map<string, nat>)
    requires ms != [] && !ms[0].role.Tool?
    requires Pending(goal, out, slots, ms)
    requires SlotsOpened(DeclaredIds(ms[0]), slots, out + [ms[0]], slots', out')
    ensures Pending(goal, out', slots', ms[1..])
  {
    var owed := Fresh(DeclaredIds(ms[0]), slots.Keys);
    GoalAfterMessage(goal, |out|, |out'|, ms, slots.Keys, slots'.Keys, owed);
    SlotsAfterMessage(goal, out, slots, ms, owed, out', slots');
    SettledAfterMessage(goal, out, slots, ms[0], owed, out', slots');
  }

  // One new slot and one placeholder per fresh id, in declaration order; every other slot and
  // message untouched.
  ghost predicate SlotsOpened(ids: seq<string>, slots: map<string, nat>, out: seq<Message>,
                              slots': map<string, nat>, out': seq<Message>)
  {
    && slots'.Keys == slots.Keys + IdSet(ids)
    && NewSlots(Fresh(ids, slots.Keys), slots, out, slots', out')
  }

  ghost predicate NewSlots(owed: seq<string>, slots: map<string, nat>, out: seq<Message>,
                           slots': map<string, nat>, out': seq<Message>)
  {
    && |out'| == |out| + |owed|
    && (forall k :: 0 <= k < |out| ==> out'[k] == out[k])
    && (forall k :: 0 <= k < |owed| ==> owed[k] in slots' && slots'[owed[k]] == |out| + k
                                        && out'[|out| + k] == Placeholder(owed[k]))
    && (forall id :: id in slots ==> id in slots' && slots'[id] == slots[id])
    && (forall id :: id in slots' && id !in slots ==> id in owed)
  }

  // After the first k ids: the slots opened so far, and what opening the others still adds.
  ghost predicate Opening(ids: seq<string>, k: nat, owed: seq<string>, slots: map<string, nat>, out: seq<Message>,
                          slots': map<string, nat>, out': seq<Message>)
    requires k <= |ids|
  {
    && slots'.Keys + IdSet(ids[k..]) == slots.Keys + IdSet(ids)
    && Fresh(ids, slots.Keys) == owed + Fresh(ids[k..], slots'.Keys)
    && NewSlots(owed, slots, out, slots', out')
  }

  // The ids left shrink by the one that is dealt with.
  lemma {:induction false} IdsLeft(ids: seq<string>, k: nat, have: set<string>)
    requires k < |ids|
    ensures have + IdSet(ids[k..]) == have + {ids[k]} + IdSet(ids[k + 1..])
    ensures Fresh(ids[k..], have)
      == (if ids[k] in have then [] else [ids[k]]) + Fresh(ids[k + 1..], have + {ids[k]})
  {
    var rest := ids[k..];
    assert rest[1..] == ids[k + 1..] && rest[0] == ids[k];
    assert IdSet(rest) == {ids[k]} + IdSet(ids[k + 1..]);
    if ids[k] in have {
      assert have + {ids[k]} == have;
      assert [] + Fresh(ids[k + 1..], have) == Fresh(ids[k + 1..], have);
    }
  }

  lemma {:induction false} IdOpened(ids: seq<string>, k: nat, owed: seq<string>, slots: map<string, nat>,
                                    out: seq<Message>, slots': map<string, nat>, out': seq<Message>)
    requires k < |ids| && Opening(ids, k, owed, slots, out, slots', out')
    ensures ids[k] in slots' ==> Opening(ids, k + 1, owed, slots, out, slots', out')
    ensures ids[k] !in slots' ==>
      Opening(ids, k + 1, owed + [ids[k]], slots, out, slots'[ids[k] := |out'|], out' + [Placeholder(ids[k])])
  {
    var id := ids[k];
    IdsLeft(ids, k, slots'.Keys);
    if id in slots' {
      assert slots'.Keys + {id} == slots'.Keys;
      assert [] + Fresh(ids[k + 1..], slots'.Keys) == Fresh(ids[k + 1..], slots'.Keys);
    } else {
      Regroup(owed, [id], Fresh(ids[k + 1..], slots'.Keys + {id}));
      SlotAdded(owed, slots, out, slots', out', id);
    }
  }

  lemma {:induction false} SlotAdded(owed: seq<string>, slots: map<string, nat>, out: seq<Message>,
                                     slots': map<string, nat>, out': seq<Message>, id: string)
    requires NewSlots(owed, slots, out, slots', out') && id !in slots'
    ensures NewSlots(owed + [id], slots, out, slots'[id := |out'|], out' + [Placeholder(id)])
    ensures (slots'[id := |out'|]).Keys == slots'.Keys + {id}
  {
    var next, more := slots'[id := |out'|], owed + [id];
    forall i | i in next && i !in slots
      ensures i in more
    {
      assert id == more[|owed|];
      if i != id { assert i in owed; }
    }
  }

  method OpenSlots(ids: seq<string>, slots: map<string, nat>, out: seq<Message>)
    returns (slots': map<string, nat>, out': seq<Message>)
    ensures SlotsOpened(ids, slots, out, slots', out')
  {
    slots', out' := slots, out;
    ghost var owed: seq<string> := [];
    assert ids[0..] == ids;
    for k := 0 to |ids|
      invariant Opening(ids, k, owed, slots, out, slots', out')
    {
      var id := ids[k];
      IdOpened(ids, k, owed, slots, out, slots', out');
      if id !in slots' {
        slots' := slots'[id := |out'|];
        out' := out' + [Placeholder(id)];
        owed := owed + [id];
      }
    }
  }

  method CloseUnresolvedToolExchanges(messages: seq<Message>) returns (out: seq<Message>)
    ensures out == Repair(messages)
  {
    var slots: map<string, nat> := map[];
    out := [];
    ghost var goal := Repair(messages);
    assert messages[0..] == messages && slots.Keys == {} && goal[0..] == goal;
    for n := 0 to |messages|
      invariant Pending(goal, out, slots, messages[n..])
    {
      var message := messages[n];
      assert messages[n..][1..] == messages[n + 1..];
      if message.role.Tool? {
        if message.toolCallId.Some? && message.toolCallId.value in slots {
          var id := message.toolCallId.value;
          SlotFilled(goal, out, slots, messages[n..], id);
          out := out[slots[id] := message];
          slots := slots - {id};
        } else {
          assert Closing(message, slots.Keys) == slots.Keys;
        }
      } else {
        ghost var slots0, out0 := slots, out;
        out := out + [message];
        slots, out := OpenSlots(DeclaredIds(message), slots, out);
        MessageKept(goal, out0, slots0, messages[n..], out, slots);
      }
    }
    assert messages[|messages|..] == [] && RepairFrom([], slots.Keys) == [];
    assert |out| == |goal|;
    forall k | 0 <= k < |out|
      ensures out[k] == goal[k]
    {
      assert Settled(goal, out, slots, k);
    }
  }
}
