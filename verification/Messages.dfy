// The chat messages the engine keeps, repairs and sends (types.rs).
module Messages {
  import opened Wrappers
  import opened Json

  // `role` is a string in the source; every comparison it makes is with one of these four words.
  datatype Role = System | User | Assistant | Tool | OtherRole(word: string)

  datatype CallRef = CallRef(id: string, name: string, arguments: Json)

  datatype Message = Message(
    role: Role,
    content: Json,
    name: Option<string>,
    toolCallId: Option<string>,
    toolCalls: Option<seq<CallRef>>)

  function UserText(text: string): Message {
    Message(User, Str(text), None, None, None)
  }

  function Ids(calls: seq<CallRef>): (ids: seq<string>)
    ensures |ids| == |calls| && forall k :: 0 <= k < |ids| ==> ids[k] == calls[k].id
  {
    if calls == [] then [] else [calls[0].id] + Ids(calls[1..])
  }

  // The ids an assistant message declares, in order; other roles declare none.
  function DeclaredIds(m: Message): seq<string> {
    if m.role.Assistant? && m.toolCalls.Some? then Ids(m.toolCalls.value) else []
  }

  predicate Distinct(ids: seq<string>) {
    forall i, j :: 0 <= i < j < |ids| ==> ids[i] != ids[j]
  }

  predicate IsResultOf(m: Message, id: string) {
    m.role.Tool? && m.toolCallId == Some(id)
  }

  predicate ResultsOf(rs: seq<Message>, ids: seq<string>) {
    |rs| == |ids| && forall k :: 0 <= k < |ids| ==> IsResultOf(rs[k], ids[k])
  }

  // Every assistant message is followed at once by one result per declared call, in declaration
  // order, and no other tool message occurs.
  predicate Answered(ms: seq<Message>) {
    if ms == [] then true
    else if ms[0].role.Tool? then false
    else
      var ids := DeclaredIds(ms[0]);
      && |ids| < |ms|
      && ResultsOf(ms[1..1 + |ids|], ids)
      && Answered(ms[1 + |ids|..])
  }

  predicate DistinctCalls(ms: seq<Message>) {
    forall i :: 0 <= i < |ms| ==> Distinct(DeclaredIds(ms[i]))
  }

  // The first exchange of an answered history, and the rest of it.
  lemma {:induction false} AnsweredParts(ms: seq<Message>) returns (results: seq<Message>, rest: seq<Message>)
    requires Answered(ms) && ms != []
    ensures ms == [ms[0]] + results + rest
    ensures !ms[0].role.Tool? && ResultsOf(results, DeclaredIds(ms[0])) && Answered(rest)
  {
    var n := 1 + |DeclaredIds(ms[0])|;
    results, rest := ms[1..n], ms[n..];
  }

  lemma {:induction false} AnsweredBlock(m: Message, results: seq<Message>, rest: seq<Message>)
    requires !m.role.Tool? && ResultsOf(results, DeclaredIds(m)) && Answered(rest)
    ensures Answered([m] + results + rest)
  {
    HeadAndParts(m, results, rest);
  }

  lemma {:induction false} AnsweredConcat(a: seq<Message>, b: seq<Message>)
    requires Answered(a) && Answered(b)
    ensures Answered(a + b)
  {
    if a == [] {
      assert a + b == b;
    } else {
      var results, rest := AnsweredParts(a);
      AnsweredConcat(rest, b);
      AnsweredBlock(a[0], results, rest + b);
      Regroup([a[0]] + results, rest, b);
    }
  }

  // Cutting an answered history at a message that is not a tool result leaves an answered history.
  lemma {:induction false} AnsweredSuffix(ms: seq<Message>, k: nat)
    requires Answered(ms) && k <= |ms|
    requires k < |ms| ==> !ms[k].role.Tool?
    ensures Answered(ms[k..])
    decreases |ms|
  {
    if k == 0 {
      assert ms[0..] == ms;
    } else if k < |ms| {
      var n := 1 + |DeclaredIds(ms[0])|;
      ResultsAreTools(ms, n, k);
      SuffixOfSuffix(ms, n, k);
      AnsweredSuffix(ms[n..], k - n);
    }
  }

  // The first message after a declaration that is not a tool result lies behind its results.
  lemma {:induction false} ResultsAreTools(ms: seq<Message>, n: nat, k: nat)
    requires 1 <= n <= |ms| && 0 < k < |ms| && !ms[k].role.Tool?
    requires n == 1 + |DeclaredIds(ms[0])| && ResultsOf(ms[1..n], DeclaredIds(ms[0]))
    ensures n <= k
  {
    var results := ms[1..n];
    assert forall j :: 1 <= j < n ==> ms[j] == results[j - 1] && ms[j].role.Tool?;
  }

  lemma {:induction false} SuffixOfSuffix(ms: seq<Message>, n: nat, k: nat)
    requires n <= k < |ms|
    ensures ms[n..][k - n] == ms[k] && ms[n..][k - n..] == ms[k..]
  {
  }
}
