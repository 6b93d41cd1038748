// What the repaired history guarantees, and exactly when it is a closed exchange.
module ExchangeTheorems {
  import opened Wrappers
  import opened Messages
  import opened Exchange

  // Every assistant message is followed at once by one result per distinct declared id, in
  // declaration order, and no other tool message occurs: what a strict provider accepts.
  predicate Closed(ms: seq<Message>) {
    if ms == [] then true
    else if ms[0].role.Tool? then false
    else
      var ids := Fresh(DeclaredIds(ms[0]), {});
      && |ids| < |ms|
      && ResultsOf(ms[1..1 + |ids|], ids)
      && Closed(ms[1 + |ids|..])
  }

  // No assistant message declares an id whose earlier call is still waiting for a result.
  predicate NoReopen(ms: seq<Message>, open: set<string>) {
    if ms == [] then true
    else if ms[0].role.Tool? then NoReopen(ms[1..], Closing(ms[0], open))
    else
      var ids := DeclaredIds(ms[0]);
      IdSet(ids) !! open && NoReopen(ms[1..], open + IdSet(ids))
  }

  function Foreign(ms: seq<Message>): seq<Message> {
    if ms == [] then []
    else if ms[0].role.Tool? then Foreign(ms[1..])
    else [ms[0]] + Foreign(ms[1..])
  }

  // ---------- Fresh ids ----------

  lemma {:induction false} FreshIds(ids: seq<string>, open: set<string>)
    ensures Distinct(Fresh(ids, open))
    ensures IdSet(Fresh(ids, open)) == IdSet(ids) - open
  {
    if ids != [] {
      assert IdSet(ids) == {ids[0]} + IdSet(ids[1..]);
      if ids[0] in open {
        FreshIds(ids[1..], open);
      } else {
        var rest := Fresh(ids[1..], open + {ids[0]});
        FreshIds(ids[1..], open + {ids[0]});
        assert ids[0] !in IdSet(rest);
        assert IdSet([ids[0]] + rest) == {ids[0]} + IdSet(rest);
        assert forall j :: 0 <= j < |rest| ==> rest[j] in IdSet(rest);
      }
    }
  }

  lemma {:induction false} DistinctCount(ids: seq<string>)
    requires Distinct(ids)
    ensures |IdSet(ids)| == |ids|
  {
    if ids != [] {
      DistinctCount(ids[1..]);
      assert IdSet(ids) == {ids[0]} + IdSet(ids[1..]);
      assert ids[0] !in ids[1..];
    }
  }

  lemma {:induction false} FreshApart(ids: seq<string>, open: set<string>, more: set<string>)
    requires IdSet(ids) !! open
    ensures Fresh(ids, open + more) == Fresh(ids, more)
  {
    if ids != [] {
      assert ids[0] in IdSet(ids);
      assert IdSet(ids) == {ids[0]} + IdSet(ids[1..]);
      if ids[0] in more {
        FreshApart(ids[1..], open, more);
      } else {
        assert open + more + {ids[0]} == open + (more + {ids[0]});
        FreshApart(ids[1..], open, more + {ids[0]});
      }
    }
  }

  lemma {:induction false} FreshOfDistinct(ids: seq<string>, seen: set<string>)
    requires Distinct(ids) && IdSet(ids) !! seen
    ensures Fresh(ids, seen) == ids
  {
    if ids != [] {
      assert ids[0] in IdSet(ids);
      assert IdSet(ids) == {ids[0]} + IdSet(ids[1..]);
      assert ids[0] !in ids[1..];
      FreshOfDistinct(ids[1..], seen + {ids[0]});
    }
  }

  // An id that is open already makes the declaration open strictly fewer slots than it names ids.
  lemma {:induction false} FreshFewer(ids: seq<string>, open: set<string>)
    requires !(IdSet(ids) !! open)
    ensures |Fresh(ids, open)| < |Fresh(ids, {})|
  {
    var some, all := Fresh(ids, open), Fresh(ids, {});
    FreshIds(ids, open);
    FreshIds(ids, {});
    DistinctCount(some);
    DistinctCount(all);
    var common :| common in IdSet(ids) && common in open;
    assert IdSet(some) <= IdSet(all) - {common};
    Smaller(IdSet(some), IdSet(all), common);
  }

  lemma {:induction false} Smaller(a: set<string>, b: set<string>, x: string)
    requires a <= b - {x} && x in b
    ensures |a| < |b|
  {
    var rest := b - a;
    assert b == a + rest && a !! rest && x in rest;
  }

  // ---------- The output of the repair ----------

  lemma {:induction false} AnswerIsResult(rest: seq<Message>, id: string)
    ensures IsResultOf(Answer(rest, id), id)
  {
    if rest != [] && !IsResultOf(rest[0], id) {
      AnswerIsResult(rest[1..], id);
    }
  }

  lemma {:induction false} AnswersAreResults(rest: seq<Message>, ids: seq<string>)
    ensures ResultsOf(Answers(rest, ids), ids)
  {
    forall k | 0 <= k < |ids|
      ensures IsResultOf(Answers(rest, ids)[k], ids[k])
    {
      AnswerIsResult(rest, ids[k]);
    }
  }

  lemma {:induction false} StartsForeign(ms: seq<Message>, open: set<string>)
    ensures RepairFrom(ms, open) != [] ==> !RepairFrom(ms, open)[0].role.Tool?
  {
    if ms != [] && ms[0].role.Tool? {
      StartsForeign(ms[1..], Closing(ms[0], open));
    }
  }

  // The three parts of a repaired history that starts with a kept message.
  lemma {:induction false} RepairedParts(ms: seq<Message>, open: set<string>)
    requires ms != [] && !ms[0].role.Tool?
    ensures var owed := Fresh(DeclaredIds(ms[0]), open);
      var out := RepairFrom(ms, open);
      && |out| > |owed|
      && out[0] == ms[0]
      && out[1..] == out[1..1 + |owed|] + out[1 + |owed|..]
      && out[1..1 + |owed|] == Answers(ms[1..], owed)
      && out[1 + |owed|..] == RepairFrom(ms[1..], open + IdSet(DeclaredIds(ms[0])))
      && ResultsOf(out[1..1 + |owed|], owed)
  {
    var owed := Fresh(DeclaredIds(ms[0]), open);
    AnswersAreResults(ms[1..], owed);
    HeadAndParts(ms[0], Answers(ms[1..], owed), RepairFrom(ms[1..], open + IdSet(DeclaredIds(ms[0]))));
  }

  // Non-tool messages survive unchanged and in order; nothing else does but answers.
  lemma {:induction false} ForeignKept(ms: seq<Message>, open: set<string>)
    ensures Foreign(RepairFrom(ms, open)) == Foreign(ms)
  {
    if ms == [] {
    } else if ms[0].role.Tool? {
      ForeignKept(ms[1..], Closing(ms[0], open));
    } else {
      var owed := Fresh(DeclaredIds(ms[0]), open);
      var out := RepairFrom(ms, open);
      RepairedParts(ms, open);
      ForeignKept(ms[1..], open + IdSet(DeclaredIds(ms[0])));
      ForeignAfterTools(out[1..1 + |owed|], out[1 + |owed|..]);
    }
  }

  lemma {:induction false} ForeignAfterTools(tools: seq<Message>, rest: seq<Message>)
    requires forall k :: 0 <= k < |tools| ==> tools[k].role.Tool?
    ensures Foreign(tools + rest) == Foreign(rest)
  {
    if tools == [] {
      assert tools + rest == rest;
    } else {
      assert (tools + rest)[1..] == tools[1..] + rest;
      ForeignAfterTools(tools[1..], rest);
    }
  }

  // ---------- Exactly when the repair closes every exchange ----------

  lemma {:induction false} RepairedIsClosedIff(ms: seq<Message>, open: set<string>)
    ensures Closed(RepairFrom(ms, open)) <==> NoReopen(ms, open)
  {
    if ms == [] {
    } else if ms[0].role.Tool? {
      RepairedIsClosedIff(ms[1..], Closing(ms[0], open));
    } else {
      var ids := DeclaredIds(ms[0]);
      var owed, all := Fresh(ids, open), Fresh(ids, {});
      var out := RepairFrom(ms, open);
      RepairedParts(ms, open);
      RepairedIsClosedIff(ms[1..], open + IdSet(ids));
      if IdSet(ids) !! open {
        FreshApart(ids, open, {});
        assert open + {} == open;
      } else {
        FreshFewer(ids, open);
        StartsForeign(ms[1..], open + IdSet(ids));
        DanglingNotClosed(out, |owed|);
      }
    }
  }

  lemma {:induction false} DanglingNotClosed(out: seq<Message>, n: nat)
    requires out != [] && n < |Fresh(DeclaredIds(out[0]), {})|
    requires n + 1 < |out| ==> !out[n + 1].role.Tool?
    ensures !Closed(out)
  {
    var ids := Fresh(DeclaredIds(out[0]), {});
    if |ids| < |out| {
      var results := out[1..1 + |ids|];
      assert results[n] == out[n + 1];
      assert !IsResultOf(results[n], ids[n]);
    }
  }

  // ---------- Exactly when the repair changes nothing ----------

  // Reading past results closes their slots.
  lemma {:induction false} ToolsRead(tools: seq<Message>, ids: seq<string>, rest: seq<Message>, open: set<string>)
    requires ResultsOf(tools, ids)
    ensures RepairFrom(tools + rest, open) == RepairFrom(rest, open - IdSet(ids))
    decreases |tools|
  {
    if tools == [] {
      assert tools + rest == rest && open - IdSet(ids) == open;
    } else {
      var open' := Closing(tools[0], open);
      assert IsResultOf(tools[0], ids[0]);
      assert (tools + rest)[1..] == tools[1..] + rest;
      assert forall k :: 0 <= k < |tools[1..]| ==> IsResultOf(tools[1..][k], ids[1..][k]);
      ToolsRead(tools[1..], ids[1..], rest, open');
      assert IdSet(ids) == {ids[0]} + IdSet(ids[1..]);
      assert open' - IdSet(ids[1..]) == open - IdSet(ids);
    }
  }

  lemma {:induction false} AnswerAmong(tools: seq<Message>, ids: seq<string>, rest: seq<Message>, k: nat)
    requires ResultsOf(tools, ids) && Distinct(ids) && k < |ids|
    ensures Answer(tools + rest, ids[k]) == tools[k]
  {
    assert IsResultOf(tools[0], ids[0]);
    if k > 0 {
      assert (tools + rest)[1..] == tools[1..] + rest;
      assert forall j :: 0 <= j < |tools[1..]| ==> IsResultOf(tools[1..][j], ids[1..][j]);
      AnswerAmong(tools[1..], ids[1..], rest, k - 1);
    }
  }

  // An exchange whose results stand right behind its declaration is copied as it is.
  lemma {:induction false} PartsCopied(m: Message, tools: seq<Message>, tail: seq<Message>)
    requires !m.role.Tool? && ResultsOf(tools, Fresh(DeclaredIds(m), {}))
    ensures Repair([m] + tools + tail) == [m] + tools + Repair(tail)
  {
    var all := DeclaredIds(m);
    var ids := Fresh(all, {});
    HeadAndParts(m, tools, tail);
    FreshIds(all, {});
    AnswersInPlace(tools, ids, tail);
    ToolsRead(tools, ids, tail, {} + IdSet(all));
    assert {} + IdSet(all) - IdSet(ids) == {};
  }

  lemma {:induction false} BlockCopied(ms: seq<Message>)
    requires ms != [] && !ms[0].role.Tool?
    requires |Fresh(DeclaredIds(ms[0]), {})| < |ms|
    requires var ids := Fresh(DeclaredIds(ms[0]), {}); ResultsOf(ms[1..1 + |ids|], ids)
    ensures var n := 1 + |Fresh(DeclaredIds(ms[0]), {})|; Repair(ms) == ms[..n] + Repair(ms[n..])
  {
    var n := 1 + |Fresh(DeclaredIds(ms[0]), {})|;
    PartsCopied(ms[0], ms[1..n], ms[n..]);
    BlockParts(ms, n);
  }

  lemma {:induction false} BlockParts(ms: seq<Message>, n: nat)
    requires 1 <= n <= |ms|
    ensures [ms[0]] + ms[1..n] == ms[..n]
    ensures [ms[0]] + ms[1..n] + ms[n..] == ms
  {
  }

  lemma {:induction false} AnswersInPlace(tools: seq<Message>, ids: seq<string>, rest: seq<Message>)
    requires ResultsOf(tools, ids) && Distinct(ids)
    ensures Answers(tools + rest, ids) == tools
  {
    forall k | 0 <= k < |ids|
      ensures Answers(tools + rest, ids)[k] == tools[k]
    {
      AnswerAmong(tools, ids, rest, k);
    }
  }

  // A closed history starts with a block that is copied, and goes on closed.
  ghost predicate CopiedBlock(ms: seq<Message>, n: nat) {
    0 < n <= |ms| && Closed(ms[n..]) && Repair(ms) == ms[..n] + Repair(ms[n..])
  }

  lemma {:induction false} ClosedStarts(ms: seq<Message>)
    requires Closed(ms) && ms != []
    ensures exists n: nat :: CopiedBlock(ms, n)
  {
    BlockCopied(ms);
    assert CopiedBlock(ms, 1 + |Fresh(DeclaredIds(ms[0]), {})|);
  }

  lemma {:induction false} ClosedIsFixed(ms: seq<Message>)
    requires Closed(ms)
    ensures Repair(ms) == ms
  {
    if ms != [] {
      ClosedStarts(ms);
      var n: nat :| CopiedBlock(ms, n);
      ClosedIsFixed(ms[n..]);
      Rejoined(ms, n, Repair(ms[n..]));
    }
  }

  lemma {:induction false} Rejoined(ms: seq<Message>, n: nat, rest: seq<Message>)
    requires n <= |ms| && rest == ms[n..]
    ensures ms[..n] + rest == ms
  {
  }

  lemma {:induction false} FixedIsClosed(ms: seq<Message>)
    requires Repair(ms) == ms
    ensures Closed(ms)
  {
    StartsForeign(ms, {});
    if ms != [] {
      var n := 1 + |Fresh(DeclaredIds(ms[0]), {})|;
      RepairedParts(ms, {});
      BlockCopied(ms);
      assert ms == ms[..n] + Repair(ms[n..]);
      assert ms[n..] == Repair(ms[n..]);
      FixedIsClosed(ms[n..]);
    }
  }

  lemma {:induction false} FixedIff(ms: seq<Message>)
    ensures Repair(ms) == ms <==> Closed(ms)
  {
    if Closed(ms) { ClosedIsFixed(ms); }
    if Repair(ms) == ms { FixedIsClosed(ms); }
  }

  // The repair of a repaired history changes nothing exactly when no id was declared again while open.
  lemma {:induction false} IdempotentIff(ms: seq<Message>)
    ensures Repair(Repair(ms)) == Repair(ms) <==> NoReopen(ms, {})
  {
    RepairedIsClosedIff(ms, {});
    FixedIff(Repair(ms));
  }

  // A history that shows the condition is needed: the second declaration of the open id stays
  // without a result, so the repaired history is still dangling and repairing it again adds one.
  lemma {:induction false} ReopenedIdDangles(call: CallRef)
    ensures var asks := Message(Assistant, Json.Null, None, None, Some([call]));
      && Repair([asks, asks]) == [asks, Placeholder(call.id), asks]
      && !Closed(Repair([asks, asks]))
      && Repair(Repair([asks, asks])) == [asks, Placeholder(call.id), asks, Placeholder(call.id)]
  {
    var asks := Message(Assistant, Json.Null, None, None, Some([call]));
    var id, gap := call.id, Placeholder(call.id);
    assert DeclaredIds(asks) == [id];
    assert [id][1..] == [];
    assert Fresh([id], {}) == [id];
    assert Fresh([id], {id}) == Fresh([id][1..], {id}) == [];
    assert IdSet([id]) == {id} && {id} + {id} == {id};
    var ms := [asks, asks];
    assert ms[1..] == [asks] && ms[1..][1..] == [];
    assert RepairFrom([asks], {id}) == [asks];
    assert Answer([], id) == gap && Answer([asks], id) == Answer([asks][1..], id) == gap;
    assert Answers([asks], [id]) == [gap] + Answers([asks], [id][1..]) == [gap];
    assert {} + {id} == {id};
    assert Repair(ms) == [asks] + [gap] + [asks];
    var out := [asks, gap, asks];
    assert out[1..] == [gap, asks] && out[1..][1..] == [asks];
    assert Answers(out[1..], [id]) == [gap];
    assert Closing(gap, {id}) == {};
    assert [asks][1..] == [];
    assert RepairFrom([asks], {}) == [asks] + Answers([], [id]) + RepairFrom([], {id}) == [asks, gap];
    assert RepairFrom(out[1..], {id}) == [asks, gap];
    assert Repair(out) == [asks, gap, asks, gap];
    FixedIff(out);
  }

  // ---------- Histories the engine builds ----------

  // When every declared call was answered in place, the repair always yields a closed history.
  lemma {:induction false} AnsweredNeverReopens(ms: seq<Message>)
    requires Answered(ms)
    ensures NoReopen(ms, {})
  {
    if ms != [] {
      var ids := DeclaredIds(ms[0]);
      var results, rest := AnsweredParts(ms);
      HeadAndParts(ms[0], results, rest);
      ToolsPassed(results, ids, rest, {} + IdSet(ids));
      assert {} + IdSet(ids) - IdSet(ids) == {};
      AnsweredNeverReopens(rest);
    }
  }

  lemma {:induction false} ToolsPassed(tools: seq<Message>, ids: seq<string>, rest: seq<Message>, open: set<string>)
    requires ResultsOf(tools, ids)
    ensures NoReopen(tools + rest, open) == NoReopen(rest, open - IdSet(ids))
    decreases |tools|
  {
    if tools == [] {
      assert tools + rest == rest && open - IdSet(ids) == open;
    } else {
      var open' := Closing(tools[0], open);
      assert IsResultOf(tools[0], ids[0]);
      assert (tools + rest)[1..] == tools[1..] + rest;
      assert forall k :: 0 <= k < |tools[1..]| ==> IsResultOf(tools[1..][k], ids[1..][k]);
      ToolsPassed(tools[1..], ids[1..], rest, open');
      assert IdSet(ids) == {ids[0]} + IdSet(ids[1..]);
      assert open' - IdSet(ids[1..]) == open - IdSet(ids);
    }
  }

  lemma {:induction false} DistinctAnsweredIsClosed(ms: seq<Message>)
    requires Answered(ms) && DistinctCalls(ms)
    ensures Closed(ms)
  {
    if ms != [] {
      var ids := DeclaredIds(ms[0]);
      var n := 1 + |ids|;
      FreshOfDistinct(ids, {});
      assert forall i :: 0 <= i < |ms[n..]| ==> ms[n..][i] == ms[n + i];
      DistinctAnsweredIsClosed(ms[n..]);
    }
  }

  lemma {:induction false} AnsweredRepair(ms: seq<Message>)
    requires Answered(ms)
    ensures Closed(Repair(ms))
    ensures DistinctCalls(ms) ==> Repair(ms) == ms
  {
    AnsweredNeverReopens(ms);
    RepairedIsClosedIff(ms, {});
    if DistinctCalls(ms) {
      DistinctAnsweredIsClosed(ms);
      ClosedIsFixed(ms);
    }
  }
}
