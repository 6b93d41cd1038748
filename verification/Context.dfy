// Window projection (context.rs) and the compacted shape of a history (compaction.rs).
module Context {
  import opened Messages
  import opened Exchange
  import opened ExchangeTheorems
  import opened Text

  function TailOf(ms: seq<Message>, n: nat): seq<Message>
    requires n <= |ms|
  {
    ms[|ms| - n..]
  }

  function FirstSystem(ms: seq<Message>): seq<Message> {
    if ms == [] then [] else if ms[0].role.System? then [ms[0]] else FirstSystem(ms[1..])
  }

  // ---------- The first system message ----------

  predicate IsFirstSystem(ms: seq<Message>, i: nat) {
    i < |ms| && ms[i].role.System? && forall k :: 0 <= k < i ==> !ms[k].role.System?
  }

  // `head` holds the first system message, or nothing if there is none.
  ghost predicate HoldsFirstSystem(head: seq<Message>, ms: seq<Message>) {
    || (exists i: nat :: IsFirstSystem(ms, i) && head == [ms[i]])
    || (head == [] && forall k :: 0 <= k < |ms| ==> !ms[k].role.System?)
  }

  lemma {:induction false} FirstSystemHolds(ms: seq<Message>)
    ensures HoldsFirstSystem(FirstSystem(ms), ms)
  {
    if ms != [] {
      if ms[0].role.System? {
        assert IsFirstSystem(ms, 0);
      } else {
        var rest := ms[1..];
        FirstSystemHolds(rest);
        if i: nat :| IsFirstSystem(rest, i) && FirstSystem(rest) == [rest[i]] {
          assert forall k :: 0 < k < |ms| ==> ms[k] == rest[k - 1];
          assert IsFirstSystem(ms, i + 1);
        } else {
          assert forall k :: 0 < k < |ms| ==> ms[k] == rest[k - 1];
        }
      }
    }
  }

  // ---------- project_window ----------

  // The window start, moved back past tool results to the message that owns them.
  function Anchor(ms: seq<Message>, start: nat): (k: nat)
    requires start < |ms|
    ensures k <= start
  {
    if start > 0 && ms[start].role.Tool? then Anchor(ms, start - 1) else start
  }

  function Projected(ms: seq<Message>, window: nat): seq<Message>
    requires window > 0
  {
    if |ms| <= window then ms else FirstSystem(ms) + ms[Anchor(ms, |ms| - window)..]
  }

  // The window begins at `k`: as late as it may without beginning with a tool result.
  predicate BeginsAt(ms: seq<Message>, window: nat, k: nat) {
    && k < |ms| && k + window <= |ms| && (k == 0 || !ms[k].role.Tool?)
    && forall j :: k < j <= |ms| - window && j < |ms| ==> ms[j].role.Tool?
  }

  // A history that fits is projected to itself; of a longer one the first system message is kept, and
  // the window.
  ghost predicate IsProjection(out: seq<Message>, ms: seq<Message>, window: nat) {
    if |ms| <= window then out == ms
    else exists head, k: nat :: HoldsFirstSystem(head, ms) && BeginsAt(ms, window, k) && out == head + ms[k..]
  }

  lemma {:induction false} ProjectedMeans(ms: seq<Message>, window: nat)
    requires window > 0
    ensures IsProjection(Projected(ms, window), ms, window)
  {
    if |ms| > window {
      var k := Anchor(ms, |ms| - window);
      AnchorStops(ms, |ms| - window);
      FirstSystemHolds(ms);
      assert BeginsAt(ms, window, k);
    }
  }

  method FindSystem(messages: seq<Message>) returns (found: seq<Message>)
    ensures found == FirstSystem(messages)
    ensures HoldsFirstSystem(found, messages)
  {
    FirstSystemHolds(messages);
    assert messages[0..] == messages;
    for n := 0 to |messages|
      invariant FirstSystem(messages) == FirstSystem(messages[n..])
    {
      assert messages[n..][1..] == messages[n + 1..];
      if messages[n].role.System? {
        return [messages[n]];
      }
    }
    found := [];
  }

  method ProjectWindow(messages: seq<Message>, window: nat) returns (projected: seq<Message>)
    requires window > 0
    ensures projected == Projected(messages, window)
    ensures IsProjection(projected, messages, window)
  {
    if |messages| <= window {
      return messages;
    }
    projected := FindSystem(messages);
    var tailStart := |messages| - window;
    while tailStart > 0 && messages[tailStart].role.Tool?
      invariant 0 <= tailStart < |messages|
      invariant Anchor(messages, tailStart) == Anchor(messages, |messages| - window)
    {
      tailStart := tailStart - 1;
    }
    projected := projected + messages[tailStart..];
    assert projected == Projected(messages, window);
    ProjectedMeans(messages, window);
  }

  lemma {:induction false} AnchorStops(ms: seq<Message>, start: nat)
    requires start < |ms|
    ensures Anchor(ms, start) == 0 || !ms[Anchor(ms, start)].role.Tool?
    ensures forall k :: Anchor(ms, start) < k <= start ==> ms[k].role.Tool?
  {
    if start > 0 && ms[start].role.Tool? {
      AnchorStops(ms, start - 1);
    }
  }

  lemma {:induction false} FirstSystemIsPlain(ms: seq<Message>)
    ensures Answered(FirstSystem(ms)) && DistinctCalls(FirstSystem(ms))
  {
    if ms != [] && !ms[0].role.System? {
      FirstSystemIsPlain(ms[1..]);
    }
  }

  // The projection of an answered history splits no exchange, so it is answered itself.
  lemma {:induction false} ProjectedAnswered(ms: seq<Message>, window: nat)
    requires window > 0 && Answered(ms)
    ensures Answered(Projected(ms, window))
    ensures DistinctCalls(ms) ==> DistinctCalls(Projected(ms, window))
  {
    if |ms| > window {
      var k := ProjectedCut(ms, window);
      FirstSystemIsPlain(ms);
      CutAnswered(FirstSystem(ms), ms, k);
      if DistinctCalls(ms) {
        DistinctProjected(FirstSystem(ms), ms, k);
      }
    }
  }

  // Where the projected window begins.
  lemma {:induction false} ProjectedCut(ms: seq<Message>, window: nat) returns (k: nat)
    requires 0 < window < |ms|
    ensures k < |ms| && (k == 0 || !ms[k].role.Tool?)
    ensures Projected(ms, window) == FirstSystem(ms) + ms[k..]
  {
    k := Anchor(ms, |ms| - window);
    AnchorStops(ms, |ms| - window);
  }

  lemma {:induction false} CutAnswered(head: seq<Message>, ms: seq<Message>, k: nat)
    requires Answered(head) && Answered(ms) && k < |ms| && (k == 0 || !ms[k].role.Tool?)
    ensures Answered(head + ms[k..])
  {
    if k == 0 { assert ms[0..] == ms; } else { AnsweredSuffix(ms, k); }
    AnsweredConcat(head, ms[k..]);
  }

  lemma {:induction false} DistinctProjected(head: seq<Message>, ms: seq<Message>, k: nat)
    requires DistinctCalls(head) && DistinctCalls(ms) && k <= |ms|
    ensures DistinctCalls(head + ms[k..])
  {
    var out := head + ms[k..];
    forall i | 0 <= i < |out|
      ensures Distinct(DeclaredIds(out[i]))
    {
      assert i >= |head| ==> out[i] == ms[k + i - |head|];
    }
  }

  // It still holds the last `window` messages, after the system message and whatever the anchor added.
  lemma {:induction false} ProjectedTail(ms: seq<Message>, window: nat)
    requires window > 0
    ensures |Projected(ms, window)| >= (if |ms| <= window then |ms| else window)
    ensures |ms| > window ==> TailOf(Projected(ms, window), window) == TailOf(ms, window)
  {
    if |ms| > window {
      var start := |ms| - window;
      var k := Anchor(ms, start);
      assert ms[k..] == ms[k..start] + ms[start..];
      assert Projected(ms, window) == (FirstSystem(ms) + ms[k..start]) + ms[start..];
    }
  }

  // Hence the repair that follows the projection changes nothing when ids are distinct, and always
  // closes every exchange.
  lemma {:induction false} RequestIsClosed(ms: seq<Message>, window: nat)
    requires window > 0 && Answered(ms)
    ensures Closed(Repair(Projected(ms, window)))
    ensures DistinctCalls(ms) ==> Repair(Projected(ms, window)) == Projected(ms, window)
  {
    ProjectedAnswered(ms, window);
    AnsweredRepair(Projected(ms, window));
  }

  // ---------- compacted_shape ----------

  const COMPACT_USER_MESSAGE_MAX_TOKENS: nat := 20_000

  const COMPACTION_SUMMARY_PREFIX := "The conversation so far has been compacted to free up context."

  function SummaryMessage(summary: string): Message {
    UserText(COMPACTION_SUMMARY_PREFIX + "\n" + Trim(summary))
  }

  function Tokens(ms: seq<Message>, tok: Message -> nat): nat {
    if ms == [] then 0 else tok(ms[0]) + Tokens(ms[1..], tok)
  }

  function Users(ms: seq<Message>): seq<Message> {
    if ms == [] then []
    else Users(ms[..|ms| - 1]) + if ms[|ms| - 1].role.User? then [ms[|ms| - 1]] else []
  }

  // The recent user messages, newest first out of the budget.
  function Recent(ms: seq<Message>, budget: nat, tok: Message -> nat): seq<Message> {
    if ms == [] then []
    else
      var last, older := ms[|ms| - 1], ms[..|ms| - 1];
      if !last.role.User? then Recent(older, budget, tok)
      else if tok(last) > budget then []
      else Recent(older, budget - tok(last), tok) + [last]
  }

  function Compacted(ms: seq<Message>, summary: string, tok: Message -> nat): seq<Message> {
    FirstSystem(ms) + Recent(ms, COMPACT_USER_MESSAGE_MAX_TOKENS, tok) + [SummaryMessage(summary)]
  }

  function Reversed(ms: seq<Message>): seq<Message> {
    if ms == [] then [] else Reversed(ms[1..]) + [ms[0]]
  }

  method Reverse(ms: seq<Message>) returns (reversed: seq<Message>)
    ensures reversed == Reversed(ms)
  {
    reversed := [];
    assert ms[0..] == ms;
    for n := 0 to |ms|
      invariant Reversed(ms) == Reversed(ms[n..]) + reversed
    {
      assert ms[n..][1..] == ms[n + 1..];
      reversed := [ms[n]] + reversed;
    }
  }

  lemma {:induction false} ReversedSnoc(ms: seq<Message>, m: Message)
    ensures Reversed(ms + [m]) == [m] + Reversed(ms)
  {
    if ms == [] {
      assert [] + [m] == [m] && [m][1..] == [];
    } else {
      assert (ms + [m])[1..] == ms[1..] + [m];
      ReversedSnoc(ms[1..], m);
    }
  }

  method CompactedShape(messages: seq<Message>, summary: string, tok: Message -> nat)
    returns (kept: seq<Message>, tokensAfter: nat)
    ensures kept == Compacted(messages, summary, tok)
    ensures IsCompaction(kept, messages, summary, tok)
    ensures tokensAfter == Tokens(kept, tok)
  {
    kept := FindSystem(messages);
    var budget := COMPACT_USER_MESSAGE_MAX_TOKENS;
    var recent: seq<Message> := [];
    var n := |messages|;
    assert messages[..n] == messages;
    ghost var goal := Recent(messages, COMPACT_USER_MESSAGE_MAX_TOKENS, tok);
    while n > 0
      invariant n <= |messages|
      invariant goal == Recent(messages[..n], budget, tok) + Reversed(recent)
    {
      var message := messages[n - 1];
      assert messages[..n][..n - 1] == messages[..n - 1];
      if message.role.User? {
        var tokens := tok(message);
        if tokens > budget {
          break;
        }
        budget := budget - tokens;
        ReversedSnoc(recent, message);
        recent := recent + [message];
      }
      n := n - 1;
    }
    recent := Reverse(recent);
    kept := kept + recent + [SummaryMessage(summary)];
    tokensAfter := Tokens(kept, tok);
    assert kept == Compacted(messages, summary, tok);
    CompactedMeans(messages, summary, tok);
  }

  lemma {:induction false} TokensConcat(a: seq<Message>, b: seq<Message>, tok: Message -> nat)
    ensures Tokens(a + b, tok) == Tokens(a, tok) + Tokens(b, tok)
  {
    if a == [] {
      assert a + b == b;
    } else {
      assert (a + b)[1..] == a[1..] + b;
      TokensConcat(a[1..], b, tok);
    }
  }

  // `kept` is the longest suffix of `all` within the budget.
  ghost predicate LongestSuffix(kept: seq<Message>, all: seq<Message>, budget: nat, tok: Message -> nat) {
    && |kept| <= |all|
    && kept == TailOf(all, |kept|)
    && Tokens(kept, tok) <= budget
    && forall n :: |kept| < n <= |all| ==> Tokens(TailOf(all, n), tok) > budget
  }

  lemma {:induction false} LongestSnoc(kept: seq<Message>, all: seq<Message>, budget: nat, tok: Message -> nat,
                                       last: Message)
    requires LongestSuffix(kept, all, budget, tok)
    ensures LongestSuffix(kept + [last], all + [last], budget + tok(last), tok)
  {
    var more := all + [last];
    TailSnoc(all, last, |kept| + 1, tok);
    forall n | |kept| + 1 < n <= |more|
      ensures Tokens(TailOf(more, n), tok) > budget + tok(last)
    {
      TailSnoc(all, last, n, tok);
    }
  }

  lemma {:induction false} TailSnoc(all: seq<Message>, last: Message, n: nat, tok: Message -> nat)
    requires 0 < n <= |all| + 1
    ensures TailOf(all + [last], n) == TailOf(all, n - 1) + [last]
    ensures Tokens(TailOf(all + [last], n), tok) == Tokens(TailOf(all, n - 1), tok) + tok(last)
  {
    assert TailOf(all + [last], n) == TailOf(all, n - 1) + [last];
    TokensConcat(TailOf(all, n - 1), [last], tok);
  }

  lemma {:induction false} NothingFits(all: seq<Message>, budget: nat, tok: Message -> nat, last: Message)
    requires tok(last) > budget
    ensures LongestSuffix([], all + [last], budget, tok)
  {
    var more := all + [last];
    assert TailOf(more, 0) == [];
    forall n | 0 < n <= |more|
      ensures Tokens(TailOf(more, n), tok) > budget
    {
      TailSnoc(all, last, n, tok);
    }
  }

  lemma {:induction false} RecentIsLongest(ms: seq<Message>, budget: nat, tok: Message -> nat)
    ensures LongestSuffix(Recent(ms, budget, tok), Users(ms), budget, tok)
  {
    if ms != [] {
      var last, older := ms[|ms| - 1], ms[..|ms| - 1];
      if !last.role.User? {
        RecentIsLongest(older, budget, tok);
        assert Users(ms) == Users(older);
      } else if tok(last) > budget {
        NothingFits(Users(older), budget, tok, last);
      } else {
        RecentIsLongest(older, budget - tok(last), tok);
        LongestSnoc(Recent(older, budget - tok(last), tok), Users(older), budget - tok(last), tok, last);
      }
    }
  }

  lemma {:induction false} RecentAreUsers(ms: seq<Message>, budget: nat, tok: Message -> nat)
    ensures forall k :: 0 <= k < |Recent(ms, budget, tok)| ==> Recent(ms, budget, tok)[k].role.User?
  {
    if ms != [] {
      var last, older := ms[|ms| - 1], ms[..|ms| - 1];
      if !last.role.User? {
        RecentAreUsers(older, budget, tok);
      } else if tok(last) <= budget {
        RecentAreUsers(older, budget - tok(last), tok);
      }
    }
  }

  lemma {:induction false} PlainIsAnswered(ms: seq<Message>)
    requires forall k :: 0 <= k < |ms| ==> !ms[k].role.Assistant? && !ms[k].role.Tool?
    ensures Answered(ms) && DistinctCalls(ms)
  {
    if ms != [] {
      PlainIsAnswered(ms[1..]);
      assert ms[1..1] == [];
    }
  }

  // The kept user messages are the longest run of recent ones within the budget.
  lemma {:induction false} CompactedKeepsRecent(ms: seq<Message>, summary: string, tok: Message -> nat)
    ensures var kept := Compacted(ms, summary, tok)[|FirstSystem(ms)|..|Compacted(ms, summary, tok)| - 1];
      LongestSuffix(kept, Users(ms), COMPACT_USER_MESSAGE_MAX_TOKENS, tok)
  {
    var kept := Recent(ms, COMPACT_USER_MESSAGE_MAX_TOKENS, tok);
    RecentIsLongest(ms, COMPACT_USER_MESSAGE_MAX_TOKENS, tok);
    assert Compacted(ms, summary, tok)[|FirstSystem(ms)|..|Compacted(ms, summary, tok)| - 1] == kept;
  }

  // No assistant or tool message is left in the compacted history, so no exchange can dangle.
  lemma {:induction false} CompactedIsPlain(ms: seq<Message>, summary: string, tok: Message -> nat)
    ensures forall m :: m in Compacted(ms, summary, tok) ==> !m.role.Assistant? && !m.role.Tool?
    ensures Answered(Compacted(ms, summary, tok)) && DistinctCalls(Compacted(ms, summary, tok))
  {
    RecentAreUsers(ms, COMPACT_USER_MESSAGE_MAX_TOKENS, tok);
    FirstSystemRole(ms);
    PlainIsAnswered(Compacted(ms, summary, tok));
  }

  // ---------- What the compacted shape means ----------

  // A user message that ends with the trimmed summary, on its own line.
  ghost predicate Notes(m: Message, summary: string) {
    exists intro, core :: IsTrimmed(core, summary) && m == UserText(intro + "\n" + core)
  }

  // The first system message, the longest run of recent user messages within the budget, and a note
  // with the summary; nothing else.
  ghost predicate IsCompaction(out: seq<Message>, ms: seq<Message>, summary: string, tok: Message -> nat) {
    exists head, recent, note ::
      && out == head + recent + [note]
      && HoldsFirstSystem(head, ms)
      && LongestSuffix(recent, Users(ms), 20_000, tok)
      && Notes(note, summary)
  }

  lemma {:induction false} CompactedMeans(ms: seq<Message>, summary: string, tok: Message -> nat)
    ensures IsCompaction(Compacted(ms, summary, tok), ms, summary, tok)
  {
    FirstSystemHolds(ms);
    RecentIsLongest(ms, COMPACT_USER_MESSAGE_MAX_TOKENS, tok);
    TrimMeans(summary);
    assert Notes(SummaryMessage(summary), summary);
    var recent := Recent(ms, COMPACT_USER_MESSAGE_MAX_TOKENS, tok);
    assert Compacted(ms, summary, tok) == FirstSystem(ms) + recent + [SummaryMessage(summary)];
  }

  // The user messages of a history, in order, each as often as it is there.
  lemma {:induction false} UsersMean(a: seq<Message>, b: seq<Message>, m: Message)
    ensures Users(a + b) == Users(a) + Users(b)
    ensures Users([m]) == if m.role.User? then [m] else []
    ensures Users([]) == []
    decreases |b|
  {
    assert [m][..0] == [];
    if b == [] {
      assert a + b == a;
    } else {
      var init := b[..|b| - 1];
      UsersMean(a, init, m);
      assert (a + b)[..|a + b| - 1] == a + init;
    }
  }

  lemma {:induction false} TokensOne(m: Message, tok: Message -> nat)
    ensures Tokens([], tok) == 0 && Tokens([m], tok) == tok(m)
  {
    assert [m][1..] == [];
  }

  lemma {:induction false} CompactedSize(ms: seq<Message>, summary: string, tok: Message -> nat)
    ensures Tokens(Compacted(ms, summary, tok), tok)
      <= Tokens(FirstSystem(ms), tok) + COMPACT_USER_MESSAGE_MAX_TOKENS + tok(SummaryMessage(summary))
  {
    var kept := Recent(ms, COMPACT_USER_MESSAGE_MAX_TOKENS, tok);
    var note := SummaryMessage(summary);
    RecentIsLongest(ms, COMPACT_USER_MESSAGE_MAX_TOKENS, tok);
    TokensConcat(FirstSystem(ms), kept, tok);
    TokensConcat(FirstSystem(ms) + kept, [note], tok);
    assert Tokens([note], tok) == tok(note) + Tokens([note][1..], tok);
  }

  lemma {:induction false} FirstSystemRole(ms: seq<Message>)
    ensures forall k :: 0 <= k < |FirstSystem(ms)| ==> FirstSystem(ms)[k].role.System?
  {
    if ms != [] && !ms[0].role.System? {
      FirstSystemRole(ms[1..]);
    }
  }
}
