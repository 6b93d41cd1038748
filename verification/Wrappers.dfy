// Small datatypes and sequence facts shared by every module of the model.
module Wrappers {
  datatype Option<+T> = None | Some(value: T)

  lemma {:induction false} HeadAndParts<T>(x: T, a: seq<T>, b: seq<T>)
    ensures var s := [x] + a + b;
      s[0] == x && s[1..] == a + b && s[1..1 + |a|] == a && s[1 + |a|..] == b
  {
    var s := [x] + a + b;
    assert s == [x] + (a + b);
    assert s[1..1 + |a|] == (a + b)[..|a|] == a;
    assert s[1 + |a|..] == (a + b)[|a|..] == b;
  }

  lemma {:induction false} Regroup<T>(a: seq<T>, b: seq<T>, c: seq<T>)
    ensures (a + b) + c == a + (b + c)
  {
  }
}
