// `canonical_args` is a complete and injective key, and so is `make_key`.
module JsonTheorems {
  import opened Json

  // ---------- Decimal text determines the number ----------

  function Value(s: string): int {
    if s == "" then 0 else 10 * Value(s[..|s| - 1]) + (s[|s| - 1] as int - '0' as int)
  }

  lemma {:induction false} DecNatValue(n: nat)
    ensures Value(DecNat(n)) == n && DecNat(n) != ""
    ensures forall c :: c in DecNat(n) ==> '0' <= c <= '9'
  {
    if n >= 10 {
      DecNatValue(n / 10);
      var s := DecNat(n);
      assert s[..|s| - 1] == DecNat(n / 10);
    } else {
      assert DecNat(n)[..0] == "";
    }
  }

  // The number a decimal text spells.
  function Spelled(s: string): int {
    if s != "" && s[0] == '-' then -Value(s[1..]) else Value(s)
  }

  lemma {:induction false} DecSpells(n: int)
    ensures Spelled(Dec(n)) == n
  {
    if n < 0 {
      DecNatValue(-n);
      assert Dec(n)[1..] == DecNat(-n);
    } else {
      DecNatValue(n);
      assert Dec(n)[0] in DecNat(n);
    }
  }

  lemma {:induction false} NumberTextChars(number: Number)
    requires ValidNumber(number)
    ensures NumberText(number) != ""
    ensures forall c :: c in NumberText(number) ==> NumberChar(c)
    ensures '.' in NumberText(number) <==> number.OtherFloat?
  {
    if !number.OtherFloat? {
      var n := Printed(number);
      DecNatValue(if n < 0 then -n else n);
    }
  }

  // Numbers have the same text exactly when they are printed as the same number.
  lemma {:induction false} NumberTextIff(a: Number, b: Number)
    requires ValidNumber(a) && ValidNumber(b)
    ensures NumberText(a) == NumberText(b) <==> SamePrinted(a, b)
  {
    NumberTextChars(a);
    NumberTextChars(b);
    if NumberText(a) == NumberText(b) && !a.OtherFloat? {
      DecSpells(Printed(a));
      DecSpells(Printed(b));
    }
  }

  // ---------- Doubles and their digits ----------

  lemma {:induction false} UlpBound(n: nat)
    ensures Ulp(n) == 1 || Ulp(n) * 0x10_0000_0000_0000 <= n
  {
    if n >= TWO_53 { UlpBound(n / 2); }
  }

  lemma {:induction false} UlpHalves(n: nat)
    requires n >= 8 * TWO_53
    ensures Ulp(n) == 8 * Ulp(n / 2 / 2 / 2)
  {
    assert Ulp(n / 2) == 2 * Ulp(n / 2 / 2);
    assert Ulp(n / 2 / 2) == 2 * Ulp(n / 2 / 2 / 2);
  }

  // Between 2^63 and 2^64 the doubles are 2048 apart, from there to 2^65 4096.
  lemma {:induction false} UlpHere(n: nat)
    requires 0x8000_0000_0000_0000 <= n <= 2 * U64_MAX + 1
    ensures Ulp(n) == if n <= U64_MAX then 2048 else 4096
  {
    var a := n / 2 / 2 / 2;
    var b := a / 2 / 2 / 2;
    var c := b / 2 / 2 / 2;
    UlpHalves(n);
    UlpHalves(a);
    UlpHalves(b);
    assert Ulp(c) == 2 * Ulp(c / 2) && Ulp(c / 2) == 2 * Ulp(c / 2 / 2);
  }

  lemma {:induction false} RoundedNear(n: nat)
    ensures 2 * n - Ulp(n) <= 2 * Rounded(n) <= 2 * n + Ulp(n)
  {
  }

  // An integer up to 2^63 is not read as a double beyond; nor is one below 2^64 as a double beyond that,
  // or one from there on as a double below.
  lemma {:induction false} RoundedStays(n: nat)
    ensures n <= I64_MAX + 1 ==> Rounded(n) < I64_MAX + 1 + 2048
    ensures n <= U64_MAX ==> Rounded(n) <= U64_MAX + 1
    ensures n > U64_MAX ==> Rounded(n) > U64_MAX
  {
    RoundedNear(n);
    UlpBound(n);
    if I64_MAX + 1 <= n <= 2 * U64_MAX + 1 { RoundedAround(n); }
  }

  lemma {:induction false} RoundedAround(n: nat)
    requires I64_MAX + 1 <= n <= 2 * U64_MAX + 1
    ensures n == I64_MAX + 1 ==> Rounded(n) == n
    ensures n <= U64_MAX ==> Rounded(n) <= U64_MAX + 1
    ensures n > U64_MAX ==> Rounded(n) > U64_MAX
  {
    UlpHere(n);
    if n <= U64_MAX {
      RoundedIsOne(n, 2048);
      LastMultiple(n);
    } else {
      RoundedIsOne(n, 4096);
    }
  }

  lemma {:induction false} RoundedIsOne(n: nat, u: nat)
    requires Ulp(n) == u
    ensures Rounded(n) == n - n % u || (n % u != 0 && Rounded(n) == n - n % u + u)
  {
  }

  lemma {:induction false} LastMultiple(n: nat)
    requires n <= U64_MAX
    ensures n - n % 2048 <= U64_MAX - 2047
  {
  }

  // A double beyond 2^63 is at least 2048 beyond.
  lemma {:induction false} NextDouble(v: nat)
    requires Rounded(v) == v && I64_MAX + 1 < v <= U64_MAX
    ensures v >= I64_MAX + 1 + 2048
  {
    UlpHere(v);
    assert v % 2048 == 0;
  }

  // The shortest digits of a double stay on its side of 2^63 and 2^64.
  lemma {:induction false} DigitsStay(v: nat)
    requires Rounded(v) == v
    ensures v > I64_MAX + 1 ==> Digits(v) > I64_MAX + 1
    ensures v <= U64_MAX ==> Digits(v) <= U64_MAX
    ensures v > U64_MAX ==> Digits(v) > U64_MAX
  {
    ReadBack(v, Digits(v));
    if v == U64_MAX + 1 { PowerDigits(v); }
  }

  lemma {:induction false} ReadBack(v: nat, r: nat)
    requires Rounded(v) == v && Rounded(r) == v
    ensures v > I64_MAX + 1 ==> r > I64_MAX + 1
    ensures v <= U64_MAX ==> r <= U64_MAX
    ensures v > U64_MAX + 1 ==> r > U64_MAX
  {
    RoundedStays(r);
    if I64_MAX + 1 < v <= U64_MAX { NextDouble(v); }
  }

  lemma {:induction false} RoundedBy(n: nat, u: nat, v: nat)
    requires Ulp(n) == u
    requires if n < v then n % u == n + u - v && u > 2 * (v - n) else n % u == n - v && 2 * (n - v) < u
    ensures Rounded(n) == v
  {
  }

  lemma {:induction false} NextToLow(n: nat, v: nat)
    requires v % 2048 == 0 && -1024 < n - v < 1024
    ensures n % 2048 == if n < v then n + 2048 - v else n - v
  {
    assert n / 2048 == if n < v then v / 2048 - 1 else v / 2048;
  }

  lemma {:induction false} NextToHigh(n: nat, v: nat)
    requires v % 4096 == 0 && -2048 < n - v < 2048
    ensures n % 4096 == if n < v then n + 4096 - v else n - v
  {
    assert n / 4096 == if n < v then v / 4096 - 1 else v / 4096;
  }

  // An integer between 2^63 and 2^65 is read as the double it is next to.
  lemma {:induction false} RoundedLow(n: nat, v: nat)
    requires 0x8000_0000_0000_0000 <= n <= U64_MAX && v % 2048 == 0 && -1024 < n - v < 1024
    ensures Rounded(n) == v
  {
    UlpHere(n);
    NextToLow(n, v);
    RoundedBy(n, 2048, v);
  }

  lemma {:induction false} RoundedHigh(n: nat, v: nat)
    requires U64_MAX < n <= 2 * U64_MAX + 1 && v % 4096 == 0 && -2048 < n - v < 2048
    ensures Rounded(n) == v
  {
    UlpHere(n);
    NextToHigh(n, v);
    RoundedBy(n, 4096, v);
  }

  // The digits of a double whose nearest multiples of 10000 are read as other doubles.
  lemma {:induction false} ThreeZeros(v: nat)
    requires v >= 10000 && Rounded(v) == v && Reads(v, 10) && Reads(v, 100) && Reads(v, 1000) && !Reads(v, 10000)
    ensures Digits(v) == Near(v, 1000)
  {
    assert Shortest(v, 1) == Shortest(v, 10);
    assert Shortest(v, 10) == Shortest(v, 100);
    assert Shortest(v, 100) == Shortest(v, 1000);
  }

  lemma {:induction false} TenDigits(v: nat)
    requires v == 10000000000000002048
    ensures Rounded(v) == v && Digits(v) == v - 48
  {
    RoundedLow(v, v);
    RoundedLow(v - 8, v);
    RoundedLow(v - 48, v);
    RoundedLow(v - 2048, v - 2048);
    RoundedLow(v + 7952, v + 8192);
    ThreeZeros(v);
  }

  lemma {:induction false} ReadsLow(v: nat, p: nat, over: nat)
    requires p > 0 && over <= v && v % p == over && Rounded(v - over) == v
    ensures Reads(v, p)
  {
  }

  lemma {:induction false} ReadsNeither(v: nat, p: nat, over: nat)
    requires p > 0 && over <= v && v % p == over && Rounded(v - over) != v && Rounded(v - over + p) != v
    ensures !Reads(v, p)
  {
  }

  lemma {:induction false} NearHigh(v: nat, p: nat, over: nat)
    requires p > 0 && over <= v && v % p == over && p < 2 * over && Rounded(v - over + p) == v
    ensures Reads(v, p) && Near(v, p) == v - over + p
  {
  }

  lemma {:induction false} PowerDigits(v: nat)
    requires v == U64_MAX + 1
    ensures Rounded(v) == v && Digits(v) == v + 384
  {
    RoundedHigh(v, v);
    PowerReads(v);
    PowerReadsNoMore(v);
    ThreeZeros(v);
  }

  lemma {:induction false} PowerReads(v: nat)
    requires v == U64_MAX + 1
    ensures Reads(v, 10) && Reads(v, 100) && Reads(v, 1000) && Near(v, 1000) == v + 384
  {
    RoundedLow(v - 6, v);
    ReadsLow(v, 10, 6);
    RoundedLow(v - 16, v);
    ReadsLow(v, 100, 16);
    RoundedHigh(v + 384, v);
    NearHigh(v, 1000, 616);
  }

  lemma {:induction false} PowerReadsNoMore(v: nat)
    requires v == U64_MAX + 1
    ensures !Reads(v, 10000)
  {
    RoundedLow(v - 1616, v - 2048);
    RoundedHigh(v + 8384, v + 8192);
    ReadsNeither(v, 10000, 1616);
  }

  // Two doubles are never displayed alike.
  lemma {:induction false} DigitsDiffer(v: nat, w: nat)
    requires Rounded(v) == v && Rounded(w) == w && Digits(v) == Digits(w)
    ensures v == w
  {
  }

  // Exactly these numbers are not harmless: the float 2^63, and those floats between 2^63 and 2^64
  // whose shortest digits do not spell their value.
  lemma {:induction false} HarmlessIff(number: Number)
    requires ValidNumber(number)
    ensures !Harmless(number) <==>
              && number.IntegralFloat?
              && (number.n == I64_MAX + 1 || (I64_MAX + 1 < number.n <= U64_MAX && Digits(number.n) != number.n))
  {
    if number.IntegralFloat? {
      DigitsStay(if number.n < 0 then -number.n else number.n);
    }
  }

  lemma {:induction false} HarmlessExact(a: Number)
    requires ValidNumber(a) && Harmless(a) && !a.OtherFloat?
    ensures In64Bits(a.n) || In64Bits(Printed(a)) ==> Printed(a) == a.n
  {
    HarmlessIff(a);
    if a.IntegralFloat? && Printed(a) != a.n { FarStaysFar(a.n); }
  }

  // A float outside the 64 bits is not displayed inside.
  lemma {:induction false} FarStaysFar(n: int)
    requires IsDouble(n) && !In64Bits(n)
    ensures !In64Bits(Printed(IntegralFloat(n)))
  {
    DigitsStay(if n < 0 then -n else n);
  }

  lemma {:induction false} FarPrinted(n: int)
    requires IsDouble(n) && !In64Bits(Printed(IntegralFloat(n)))
    ensures n != 0 && Printed(IntegralFloat(n)) == if n > 0 then Digits(n) else -(Digits(-n) as int)
    ensures Printed(IntegralFloat(n)) > 0 <==> n > 0
  {
  }

  lemma {:induction false} PrintedDiffer(m: int, n: int)
    requires IsDouble(m) && IsDouble(n) && !In64Bits(Printed(IntegralFloat(m)))
    requires Printed(IntegralFloat(m)) == Printed(IntegralFloat(n))
    ensures m == n
  {
    FarPrinted(m);
    FarPrinted(n);
    DigitsDiffer(if m < 0 then -m else m, if n < 0 then -n else n);
  }

  // Harmless numbers are printed alike exactly when they are the same number.
  lemma {:induction false} HarmlessAlike(a: Number, b: Number)
    requires ValidNumber(a) && ValidNumber(b) && Harmless(a) && Harmless(b)
    ensures SamePrinted(a, b) <==> SameNumber(a, b)
  {
    if !a.OtherFloat? && !b.OtherFloat? {
      HarmlessExact(a);
      HarmlessExact(b);
      if a.IntegralFloat? && b.IntegralFloat? && Printed(a) == Printed(b) && !In64Bits(Printed(a)) {
        PrintedDiffer(a.n, b.n);
      }
    }
  }

  // ---------- Unique decodability: the end of a printed part can be found ----------

  // What may follow a printed value.
  predicate Ends(s: string) {
    s == "" || s[0] == ',' || s[0] == ']' || s[0] == '}'
  }

  lemma {:induction false} RunHead(a: string, s: string)
    requires forall c :: c in a ==> NumberChar(c)
    requires Ends(s)
    ensures a == "" <==> (a + s == "" || !NumberChar((a + s)[0]))
  {
    if a == "" { assert a + s == s; }
  }

  lemma {:induction false} CutRun(a: string, b: string, s: string, t: string)
    requires a + s == b + t
    requires forall c :: c in a ==> NumberChar(c)
    requires forall c :: c in b ==> NumberChar(c)
    requires Ends(s) && Ends(t)
    ensures a == b && s == t
  {
    RunHead(a, s);
    RunHead(b, t);
    if a == "" {
      assert a + s == s && b + t == t;
    } else {
      assert a[0] == (a + s)[0] == (b + t)[0] == b[0];
      assert a[1..] + s == (a + s)[1..] == (b + t)[1..] == b[1..] + t;
      CutRun(a[1..], b[1..], s, t);
      assert a == [a[0]] + a[1..] && b == [b[0]] + b[1..];
    }
  }

  lemma {:induction false} CutEscape(c: char, d: char, s: string, t: string)
    requires Escape(c) + s == Escape(d) + t
    ensures c == d && s == t
  {
    var x, y := Escape(c) + s, Escape(d) + t;
    assert x[0] == Escape(c)[0] && y[0] == Escape(d)[0];
    if Escape(c)[0] == '\\' {
      assert x[1] == Escape(c)[1] && y[1] == Escape(d)[1];
      if Escape(c)[1] == 'u' {
        assert x[4] == Escape(c)[4] && y[4] == Escape(d)[4];
        assert x[5] == Escape(c)[5] && y[5] == Escape(d)[5];
      }
    }
    assert c == d;
    assert s == x[|Escape(c)|..] && t == y[|Escape(d)|..];
  }

  lemma {:induction false} BodyHead(a: string, s: string)
    ensures var x := EscapeAll(a) + "\"" + s;
      && (a == "" ==> x[0] == '"' && x[1..] == s)
      && (a != "" ==> x[0] != '"' && x == Escape(a[0]) + (EscapeAll(a[1..]) + "\"" + s))
  {
    if a == "" {
      assert EscapeAll(a) + "\"" + s == "\"" + s;
    } else {
      assert EscapeAll(a) + "\"" + s == Escape(a[0]) + (EscapeAll(a[1..]) + "\"" + s);
    }
  }

  lemma {:induction false} CutBody(a: string, b: string, s: string, t: string)
    requires EscapeAll(a) + "\"" + s == EscapeAll(b) + "\"" + t
    ensures a == b && s == t
  {
    BodyHead(a, s);
    BodyHead(b, t);
    if a != "" {
      CutEscape(a[0], b[0], EscapeAll(a[1..]) + "\"" + s, EscapeAll(b[1..]) + "\"" + t);
      CutBody(a[1..], b[1..], s, t);
      assert a == [a[0]] + a[1..] && b == [b[0]] + b[1..];
    }
  }

  lemma {:induction false} CutString(a: string, b: string, s: string, t: string)
    requires JsonString(a) + s == JsonString(b) + t
    ensures a == b && s == t
  {
    var x, y := JsonString(a) + s, JsonString(b) + t;
    assert x[1..] == EscapeAll(a) + "\"" + s;
    assert y[1..] == EscapeAll(b) + "\"" + t;
    CutBody(a, b, s, t);
  }

  // ---------- Printed values ----------

  // The first character of a printed value tells its kind.
  lemma {:induction false} Head(v: Json)
    requires Valid(v)
    ensures var x := Canonical(v);
      && x != ""
      && (v.Null? <==> x[0] == 'n')
      && (v.Bool? && v.b <==> x[0] == 't')
      && (v.Bool? && !v.b <==> x[0] == 'f')
      && (v.Str? <==> x[0] == '"')
      && (v.Arr? <==> x[0] == '[')
      && (v.Obj? <==> x[0] == '{')
      && (v.Num? <==> NumberChar(x[0]))
      && !Ends(x)
  {
    match v
    case Num(number) =>
      NumberTextChars(number);
      assert Canonical(v)[0] in NumberText(number);
    case _ =>
  }

  // Two texts that start with printed values and then end or go on with a delimiter start with the
  // same printed value.
  lemma {:induction false} Cut(v: Json, w: Json, s: string, t: string)
    requires Valid(v) && Valid(w) && Ends(s) && Ends(t)
    requires Canonical(v) + s == Canonical(w) + t
    ensures Canonical(v) == Canonical(w) && s == t
    decreases v, 1, 0
  {
    var x, y := Canonical(v) + s, Canonical(w) + t;
    Head(v);
    Head(w);
    assert x[0] == Canonical(v)[0] && y[0] == Canonical(w)[0];
    match v
    case Null => SameLength(Canonical(v), Canonical(w), s, t);
    case Bool(_) => SameLength(Canonical(v), Canonical(w), s, t);
    case Num(number) =>
      NumberTextChars(number);
      NumberTextChars(w.number);
      CutRun(Canonical(v), Canonical(w), s, t);
    case Str(text) => CutString(text, w.text, s, t);
    case Arr(_) =>
      Wrapped("[", JoinItems(v, 0), "]", s);
      Wrapped("[", JoinItems(w, 0), "]", t);
      CutItems(v, w, 0, s, t);
    case Obj(_) =>
      var es, fs := Sort(Entries(v, 0)), Sort(Entries(w, 0));
      SortedEntries(v);
      SortedEntries(w);
      Wrapped("{", JoinEntries(es, true), "}", s);
      Wrapped("{", JoinEntries(fs, true), "}", t);
      CutEntries(v, w, es, fs, true, s, t);
  }

  lemma {:induction false} Wrapped(open: string, body: string, close: string, s: string)
    requires |open| == 1
    ensures ((open + body + close) + s)[1..] == body + (close + s)
  {
    assert (open + body + close) + s == open + (body + (close + s));
  }

  lemma {:induction false} SameLength(a: string, b: string, s: string, t: string)
    requires a + s == b + t && |a| == |b|
    ensures a == b && s == t
  {
    assert a == (a + s)[..|a|] && b == (b + t)[..|b|];
    assert s == (a + s)[|a|..] && t == (b + t)[|b|..];
  }

  function Separator(first: bool): string {
    if first then "" else ","
  }

  function ItemsThen(v: Json, i: nat, s: string): string
    requires v.Arr? && i <= |v.items|
  {
    JoinItems(v, i) + ("]" + s)
  }

  lemma {:induction false} ItemsUnfold(v: Json, i: nat, s: string)
    requires v.Arr? && i < |v.items|
    ensures ItemsThen(v, i, s) == Separator(i == 0) + (Canonical(v.items[i]) + ItemsThen(v, i + 1, s))
  {
    assert JoinItems(v, i) == Separator(i == 0) + Canonical(v.items[i]) + JoinItems(v, i + 1);
  }

  lemma {:induction false} ItemsHead(v: Json, i: nat, s: string)
    requires v.Arr? && Valid(v) && i <= |v.items|
    ensures ItemsThen(v, i, s) != ""
    ensures i == |v.items| <==> ItemsThen(v, i, s)[0] == ']'
    ensures i > 0 ==> Ends(ItemsThen(v, i, s))
  {
    if i < |v.items| {
      ItemsUnfold(v, i, s);
      Head(v.items[i]);
      assert i == 0 ==> ItemsThen(v, i, s)[0] == Canonical(v.items[i])[0];
    }
  }

  lemma {:induction false} CutItem(v: Json, w: Json, i: nat, s: string, t: string)
    requires v.Arr? && w.Arr? && Valid(v) && Valid(w) && Ends(s) && Ends(t)
    requires i < |v.items| && i < |w.items|
    requires ItemsThen(v, i, s) == ItemsThen(w, i, t)
    ensures Canonical(v.items[i]) == Canonical(w.items[i])
    ensures ItemsThen(v, i + 1, s) == ItemsThen(w, i + 1, t)
    decreases v, 0, 0
  {
    ItemsUnfold(v, i, s);
    ItemsUnfold(w, i, t);
    var s', t' := ItemsThen(v, i + 1, s), ItemsThen(w, i + 1, t);
    Stripped(Separator(i == 0), Canonical(v.items[i]) + s', Canonical(w.items[i]) + t');
    ItemsHead(v, i + 1, s);
    ItemsHead(w, i + 1, t);
    Cut(v.items[i], w.items[i], s', t');
  }

  lemma {:induction false} CutItems(v: Json, w: Json, i: nat, s: string, t: string)
    requires v.Arr? && w.Arr? && Valid(v) && Valid(w) && Ends(s) && Ends(t)
    requires i <= |v.items| && i <= |w.items|
    requires ItemsThen(v, i, s) == ItemsThen(w, i, t)
    ensures |v.items| == |w.items| && JoinItems(v, i) == JoinItems(w, i) && s == t
    ensures forall k :: i <= k < |v.items| ==> Canonical(v.items[k]) == Canonical(w.items[k])
    decreases v, 0, |v.items| - i + 1
  {
    ItemsHead(v, i, s);
    ItemsHead(w, i, t);
    if i < |v.items| {
      CutItem(v, w, i, s, t);
      CutItems(v, w, i + 1, s, t);
    } else {
      ItemsEnd(v, w, s, t);
    }
  }

  lemma {:induction false} ItemsEnd(v: Json, w: Json, s: string, t: string)
    requires v.Arr? && w.Arr? && ItemsThen(v, |v.items|, s) == ItemsThen(w, |w.items|, t)
    ensures s == t
  {
    assert ItemsThen(v, |v.items|, s) == "]" + s && ItemsThen(w, |w.items|, t) == "]" + t;
    Stripped("]", s, t);
  }

  lemma {:induction false} Stripped(sep: string, x: string, y: string)
    requires sep + x == sep + y
    ensures x == y
  {
    assert (sep + x)[|sep|..] == x && (sep + y)[|sep|..] == y;
  }

  // ---------- Sorted entries ----------

  ghost predicate EntryOf(v: Json, e: Entry)
    requires v.Obj?
  {
    exists i :: 0 <= i < |v.fields| && e == Entry(v.fields[i].key, Canonical(v.fields[i].value))
  }

  lemma {:induction false} EntriesAt(v: Json, i: nat)
    requires v.Obj? && i <= |v.fields|
    ensures forall k :: i <= k < |v.fields| ==>
      Entries(v, i)[k - i] == Entry(v.fields[k].key, Canonical(v.fields[k].value))
    decreases |v.fields| - i
  {
    if i < |v.fields| {
      EntriesAt(v, i + 1);
      forall k | i <= k < |v.fields|
        ensures Entries(v, i)[k - i] == Entry(v.fields[k].key, Canonical(v.fields[k].value))
      {
        assert k > i ==> Entries(v, i)[k - i] == Entries(v, i + 1)[k - i - 1];
      }
    }
  }

  lemma {:induction false} InsertKeeps(e: Entry, es: seq<Entry>)
    ensures |Insert(e, es)| == |es| + 1
    ensures forall f :: f in Insert(e, es) <==> f == e || f in es
  {
    if es != [] && !Less(e.key, es[0].key) {
      InsertKeeps(e, es[1..]);
      assert es == [es[0]] + es[1..];
    }
  }

  lemma {:induction false} SortKeeps(es: seq<Entry>)
    ensures |Sort(es)| == |es|
    ensures forall f :: f in Sort(es) <==> f in es
  {
    if es != [] {
      SortKeeps(es[1..]);
      InsertKeeps(es[0], Sort(es[1..]));
      assert es == [es[0]] + es[1..];
    }
  }

  lemma {:induction false} SortedEntries(v: Json)
    requires v.Obj?
    ensures |Sort(Entries(v, 0))| == |v.fields|
    ensures forall e :: e in Sort(Entries(v, 0)) <==> EntryOf(v, e)
  {
    var es := Entries(v, 0);
    SortKeeps(es);
    EntriesAt(v, 0);
    assert forall k :: 0 <= k < |v.fields| ==> es[k - 0] == Entry(v.fields[k].key, Canonical(v.fields[k].value));
    forall e | EntryOf(v, e)
      ensures e in es
    {
      var i :| 0 <= i < |v.fields| && e == Entry(v.fields[i].key, Canonical(v.fields[i].value));
      assert es[i - 0] == e;
    }
    forall e | e in es
      ensures EntryOf(v, e)
    {
      var i :| 0 <= i < |es| && es[i] == e;
      assert es[i - 0] == Entry(v.fields[i].key, Canonical(v.fields[i].value));
    }
  }

  lemma {:induction false} Regrouped(a: string, b: string, c: string, d: string, e: string, f: string)
    ensures (a + b + c + d + e) + f == a + (b + (c + (d + (e + f))))
  {
    assert (a + b + c + d + e) + f == (a + b + c + d) + (e + f);
    assert (a + b + c + d) + (e + f) == (a + b + c) + (d + (e + f));
    assert (a + b + c) + (d + (e + f)) == (a + b) + (c + (d + (e + f)));
  }

  function EntriesThen(es: seq<Entry>, first: bool, s: string): string {
    JoinEntries(es, first) + ("}" + s)
  }

  lemma {:induction false} EntriesUnfold(es: seq<Entry>, first: bool, s: string)
    requires es != []
    ensures EntriesThen(es, first, s)
      == Separator(first) + (JsonString(es[0].key) + (":" + (es[0].text + EntriesThen(es[1..], false, s))))
  {
    assert JoinEntries(es, first)
      == Separator(first) + JsonString(es[0].key) + ":" + es[0].text + JoinEntries(es[1..], false);
    Regrouped(Separator(first), JsonString(es[0].key), ":", es[0].text, JoinEntries(es[1..], false), "}" + s);
  }

  lemma {:induction false} EntriesHead(es: seq<Entry>, first: bool, s: string)
    ensures EntriesThen(es, first, s) != ""
    ensures es == [] <==> EntriesThen(es, first, s)[0] == '}'
    ensures !first ==> Ends(EntriesThen(es, first, s))
  {
    if es != [] {
      EntriesUnfold(es, first, s);
    }
  }

  lemma {:induction false} CutEntries(v: Json, w: Json, es: seq<Entry>, fs: seq<Entry>, first: bool, s: string,
                                      t: string)
    requires v.Obj? && w.Obj? && Valid(v) && Valid(w) && Ends(s) && Ends(t)
    requires forall e :: e in es ==> EntryOf(v, e)
    requires forall e :: e in fs ==> EntryOf(w, e)
    requires EntriesThen(es, first, s) == EntriesThen(fs, first, t)
    ensures es == fs && s == t
    decreases v, 0, |es|
  {
    EntriesHead(es, first, s);
    EntriesHead(fs, first, t);
    if es != [] {
      var e, f := es[0], fs[0];
      var s', t' := EntriesThen(es[1..], false, s), EntriesThen(fs[1..], false, t);
      EntriesUnfold(es, first, s);
      EntriesUnfold(fs, first, t);
      Stripped(Separator(first), JsonString(e.key) + (":" + (e.text + s')), JsonString(f.key) + (":" + (f.text + t')));
      CutString(e.key, f.key, ":" + (e.text + s'), ":" + (f.text + t'));
      Stripped(":", e.text + s', f.text + t');
      EntriesHead(es[1..], false, s);
      EntriesHead(fs[1..], false, t);
      CutEntry(v, w, e, f, s', t');
      CutEntries(v, w, es[1..], fs[1..], false, s, t);
      assert es == [e] + es[1..] && fs == [f] + fs[1..];
    } else {
      assert EntriesThen(es, first, s) == "}" + s && EntriesThen(fs, first, t) == "}" + t;
      Stripped("}", s, t);
    }
  }

  lemma {:induction false} CutEntry(v: Json, w: Json, e: Entry, f: Entry, s: string, t: string)
    requires v.Obj? && w.Obj? && Valid(v) && Valid(w) && Ends(s) && Ends(t)
    requires EntryOf(v, e) && EntryOf(w, f) && e.text + s == f.text + t
    ensures e.text == f.text && s == t
    decreases v, 0, 0
  {
    var i :| 0 <= i < |v.fields| && e == Entry(v.fields[i].key, Canonical(v.fields[i].value));
    var j :| 0 <= j < |w.fields| && f == Entry(w.fields[j].key, Canonical(w.fields[j].value));
    Cut(v.fields[i].value, w.fields[j].value, s, t);
  }

  // ---------- Sorted lists of entries are determined by their elements ----------

  lemma {:induction false} LessOrder(a: string, b: string, c: string)
    ensures !Less(a, a)
    ensures Less(a, b) || Less(b, a) || a == b
    ensures Less(a, b) && Less(b, c) ==> Less(a, c)
  {
    if a != "" && b != "" {
      LessOrder(a[1..], b[1..], if c == "" then "" else c[1..]);
      assert a == [a[0]] + a[1..] && b == [b[0]] + b[1..];
    } else if a != "" {
      LessOrder(a[1..], "", "");
    }
  }

  predicate Ascending(es: seq<Entry>) {
    forall i, j :: 0 <= i < j < |es| ==> Less(es[i].key, es[j].key)
  }

  lemma {:induction false} InsertAscends(e: Entry, es: seq<Entry>)
    requires Ascending(es)
    requires forall f :: f in es ==> f.key != e.key
    ensures Ascending(Insert(e, es))
  {
    if es != [] {
      var out := Insert(e, es);
      LessOrder(e.key, es[0].key, e.key);
      if Less(e.key, es[0].key) {
        forall j | 0 < j < |out|
          ensures Less(out[0].key, out[j].key)
        {
          LessOrder(e.key, es[0].key, es[j - 1].key);
        }
      } else {
        InsertAscends(e, es[1..]);
        InsertKeeps(e, es[1..]);
        assert es[0] in es;
        forall j | 0 < j < |out|
          ensures Less(out[0].key, out[j].key)
        {
          assert out[j] in Insert(e, es[1..]);
        }
      }
    }
  }

  lemma {:induction false} SortAscends(es: seq<Entry>)
    requires forall i, j :: 0 <= i < j < |es| ==> es[i].key != es[j].key
    ensures Ascending(Sort(es))
  {
    if es != [] {
      SortAscends(es[1..]);
      SortKeeps(es[1..]);
      InsertAscends(es[0], Sort(es[1..]));
    }
  }

  lemma {:induction false} SomeIn(es: seq<Entry>)
    ensures es != [] ==> exists e :: e in es
  {
    if es != [] { assert es[0] in es; }
  }

  lemma {:induction false} AscendingUnique(es: seq<Entry>, fs: seq<Entry>)
    requires Ascending(es) && Ascending(fs)
    requires forall e :: e in es <==> e in fs
    ensures es == fs
  {
    SomeIn(fs);
    if es != [] {
      assert es[0] in es && es[0] in fs;
      assert fs[0] in fs && fs[0] in es;
      LessOrder(es[0].key, fs[0].key, es[0].key);
      assert es[0] == fs[0];
      LessOrder(es[0].key, es[0].key, es[0].key);
      forall e
        ensures e in es[1..] <==> e in fs[1..]
      {
        assert e in es[1..] <==> e in es && e != es[0];
        assert e in fs[1..] <==> e in fs && e != fs[0];
      }
      AscendingUnique(es[1..], fs[1..]);
      assert es == [es[0]] + es[1..] && fs == [fs[0]] + fs[1..];
    }
  }

  // ---------- The key is complete and injective ----------

  lemma {:induction false} SortedAlike(v: Json, w: Json)
    requires v.Obj? && w.Obj? && Valid(v) && Valid(w)
    requires forall e :: EntryOf(v, e) <==> EntryOf(w, e)
    ensures Sort(Entries(v, 0)) == Sort(Entries(w, 0))
  {
    EntriesSorted(v);
    EntriesSorted(w);
    SortedEntries(v);
    SortedEntries(w);
    AscendingUnique(Sort(Entries(v, 0)), Sort(Entries(w, 0)));
  }

  lemma {:induction false} EntriesSorted(v: Json)
    requires v.Obj? && Valid(v)
    ensures Ascending(Sort(Entries(v, 0)))
  {
    var es := Entries(v, 0);
    EntriesAt(v, 0);
    forall i, j | 0 <= i < j < |es|
      ensures es[i].key != es[j].key
    {
      assert es[i - 0].key == v.fields[i].key && es[j - 0].key == v.fields[j].key;
    }
    SortAscends(es);
  }

  // Every field of one object has its like in the other; with distinct keys and equal sizes this
  // goes both ways.
  ghost predicate Covered(v: Json, w: Json)
    requires v.Obj? && w.Obj?
  {
    forall e :: EntryOf(v, e) ==> EntryOf(w, e)
  }

  lemma {:induction false} CoveredBack(v: Json, w: Json)
    requires v.Obj? && w.Obj? && Valid(v) && Valid(w) && |v.fields| == |w.fields| && Covered(v, w)
    ensures forall e :: EntryOf(v, e) <==> EntryOf(w, e)
  {
    var es, fs := Sort(Entries(v, 0)), Sort(Entries(w, 0));
    SortedEntries(v);
    SortedEntries(w);
    EntriesSorted(v);
    EntriesSorted(w);
    var a, b := EntrySet(es), EntrySet(fs);
    AscendingCount(es);
    AscendingCount(fs);
    assert a <= b;
    SubsetOfSameSize(a, b);
    forall e | EntryOf(w, e)
      ensures EntryOf(v, e)
    {
      assert e in fs;
      assert e in b;
      assert e in a;
      assert e in es;
    }
  }

  function EntrySet(es: seq<Entry>): set<Entry> {
    set e | e in es
  }

  lemma {:induction false} AscendingCount(es: seq<Entry>)
    requires Ascending(es)
    ensures |EntrySet(es)| == |es|
  {
    if es != [] {
      AscendingCount(es[1..]);
      LessOrder(es[0].key, es[0].key, es[0].key);
      assert es[0] !in es[1..];
      assert EntrySet(es) == {es[0]} + EntrySet(es[1..]);
    }
  }

  lemma {:induction false} SubsetOfSameSize(a: set<Entry>, b: set<Entry>)
    requires a <= b && |a| == |b|
    ensures a == b
  {
    var rest := b - a;
    assert b == a + rest && a !! rest;
  }

  // Among the numbers that are `ok`, those with the same text are the same.
  ghost predicate Tells(ok: Number -> bool, same: (Number, Number) -> bool) {
    forall a, b :: ValidNumber(a) && ValidNumber(b) && ok(a) && ok(b) ==>
      (NumberText(a) == NumberText(b) <==> same(a, b))
  }

  lemma {:induction false} EquivSameText(ok: Number -> bool, same: (Number, Number) -> bool, v: Json, w: Json)
    requires Valid(v) && Valid(w) && Numbers(ok, v) && Numbers(ok, w) && Tells(ok, same) && Equiv(same, v, w)
    ensures Canonical(v) == Canonical(w)
    decreases v
  {
    match v
    case Num(number) =>
    case Arr(items) =>
      forall i | 0 <= i < |items|
        ensures Canonical(items[i]) == Canonical(w.items[i])
      {
        EquivSameText(ok, same, items[i], w.items[i]);
      }
      SameItems(v, w, 0);
    case Obj(fields) =>
      forall e | EntryOf(v, e)
        ensures EntryOf(w, e)
      {
        var i :| 0 <= i < |fields| && e == Entry(fields[i].key, Canonical(fields[i].value));
        assert FieldFound(same, fields[i], w.fields);
        var j :| 0 <= j < |w.fields| && fields[i].key == w.fields[j].key
                 && Equiv(same, fields[i].value, w.fields[j].value);
        EquivSameText(ok, same, fields[i].value, w.fields[j].value);
      }
      CoveredBack(v, w);
      SortedAlike(v, w);
    case _ =>
  }

  lemma {:induction false} SameItems(v: Json, w: Json, i: nat)
    requires v.Arr? && w.Arr? && |v.items| == |w.items| && i <= |v.items|
    requires forall k :: 0 <= k < |v.items| ==> Canonical(v.items[k]) == Canonical(w.items[k])
    ensures JoinItems(v, i) == JoinItems(w, i)
    decreases |v.items| - i
  {
    if i < |v.items| {
      SameItems(v, w, i + 1);
    }
  }

  lemma {:induction false} SameTextEquiv(ok: Number -> bool, same: (Number, Number) -> bool, v: Json, w: Json)
    requires Valid(v) && Valid(w) && Numbers(ok, v) && Numbers(ok, w) && Tells(ok, same)
    requires Canonical(v) == Canonical(w)
    ensures Equiv(same, v, w)
    decreases v
  {
    Head(v);
    Head(w);
    var x, y := Canonical(v) + "", Canonical(w) + "";
    match v
    case Null =>
    case Bool(_) =>
    case Num(_) =>
    case Str(text) => CutString(text, w.text, "", "");
    case Arr(items) =>
      Wrapped("[", JoinItems(v, 0), "]", "");
      Wrapped("[", JoinItems(w, 0), "]", "");
      CutItems(v, w, 0, "", "");
      forall i | 0 <= i < |items|
        ensures Equiv(same, items[i], w.items[i])
      {
        SameTextEquiv(ok, same, items[i], w.items[i]);
      }
    case Obj(fields) =>
      SortedEntries(v);
      SortedEntries(w);
      Wrapped("{", JoinEntries(Sort(Entries(v, 0)), true), "}", "");
      Wrapped("{", JoinEntries(Sort(Entries(w, 0)), true), "}", "");
      CutEntries(v, w, Sort(Entries(v, 0)), Sort(Entries(w, 0)), true, "", "");
      forall i | 0 <= i < |fields|
        ensures FieldFound(same, fields[i], w.fields)
      {
        var e := Entry(fields[i].key, Canonical(fields[i].value));
        assert EntryOf(v, e) && EntryOf(w, e);
        var j :| 0 <= j < |w.fields| && e == Entry(w.fields[j].key, Canonical(w.fields[j].value));
        SameTextEquiv(ok, same, fields[i].value, w.fields[j].value);
      }
  }

  lemma {:induction false} TextIff(ok: Number -> bool, same: (Number, Number) -> bool, v: Json, w: Json)
    requires Valid(v) && Valid(w) && Numbers(ok, v) && Numbers(ok, w) && Tells(ok, same)
    ensures Canonical(v) == Canonical(w) <==> Equiv(same, v, w)
  {
    if Canonical(v) == Canonical(w) { SameTextEquiv(ok, same, v, w); }
    if Equiv(same, v, w) { EquivSameText(ok, same, v, w); }
  }

  lemma {:induction false} ValidNumbers(v: Json)
    requires Valid(v)
    ensures Numbers(ValidNumber, v)
    decreases v
  {
    match v
    case Arr(items) =>
      forall i | 0 <= i < |items|
        ensures Numbers(ValidNumber, items[i])
      {
        ValidNumbers(items[i]);
      }
    case Obj(fields) =>
      forall i | 0 <= i < |fields|
        ensures Numbers(ValidNumber, fields[i].value)
      {
        ValidNumbers(fields[i].value);
      }
    case _ =>
  }

  lemma {:induction false} PrintedTells()
    ensures Tells(ValidNumber, SamePrinted)
  {
    forall a, b | ValidNumber(a) && ValidNumber(b)
      ensures NumberText(a) == NumberText(b) <==> SamePrinted(a, b)
    {
      NumberTextIff(a, b);
    }
  }

  lemma {:induction false} HarmlessTells()
    ensures Tells(Harmless, SameNumber)
  {
    forall a, b | ValidNumber(a) && ValidNumber(b) && Harmless(a) && Harmless(b)
      ensures NumberText(a) == NumberText(b) <==> SameNumber(a, b)
    {
      NumberTextIff(a, b);
      HarmlessAlike(a, b);
    }
  }

  // Two arguments get the same text exactly when they are equal up to object key order and their
  // numbers are printed alike; if those are harmless, when the numbers are the same.
  lemma {:induction false} CanonicalIff(v: Json, w: Json)
    requires Valid(v) && Valid(w)
    ensures Canonical(v) == Canonical(w) <==> Equiv(SamePrinted, v, w)
    ensures Numbers(Harmless, v) && Numbers(Harmless, w) ==>
              (Canonical(v) == Canonical(w) <==> Equiv(SameNumber, v, w))
  {
    ValidNumbers(v);
    ValidNumbers(w);
    PrintedTells();
    HarmlessTells();
    TextIff(ValidNumber, SamePrinted, v, w);
    if Numbers(Harmless, v) && Numbers(Harmless, w) { TextIff(Harmless, SameNumber, v, w); }
  }

  // ---------- The exact condition ----------

  // The value with each number that is not harmless replaced by the integer it is printed as.
  function Tamed(v: Json): Json {
    match v
    case Num(number) => if Harmless(number) then v else Num(Int(Printed(number)))
    case Arr(items) => Arr(seq(|items|, i requires 0 <= i < |items| => Tamed(items[i])))
    case Obj(fields) =>
      Obj(seq(|fields|, i requires 0 <= i < |fields| => Field(fields[i].key, Tamed(fields[i].value))))
    case _ => v
  }

  lemma {:induction false} SameEntries(v: Json, w: Json, i: nat)
    requires v.Obj? && w.Obj? && |v.fields| == |w.fields| && i <= |v.fields|
    requires forall k :: 0 <= k < |v.fields| ==> v.fields[k].key == w.fields[k].key
    requires forall k :: 0 <= k < |v.fields| ==> Canonical(v.fields[k].value) == Canonical(w.fields[k].value)
    ensures Entries(v, i) == Entries(w, i)
    decreases |v.fields| - i
  {
    if i < |v.fields| { SameEntries(v, w, i + 1); }
  }

  ghost predicate Tame(v: Json) {
    Valid(v) && Numbers(Harmless, v)
  }

  lemma {:induction false} TamedAlike(v: Json)
    requires Valid(v)
    ensures Tame(Tamed(v)) && Canonical(Tamed(v)) == Canonical(v)
    decreases v
  {
    match v
    case Arr(items) =>
      forall i | 0 <= i < |items|
        ensures Tame(Tamed(items[i])) && Canonical(Tamed(items[i])) == Canonical(items[i])
      {
        TamedAlike(items[i]);
      }
      SameItems(Tamed(v), v, 0);
    case Obj(fields) =>
      forall i | 0 <= i < |fields|
        ensures Tame(Tamed(fields[i].value)) && Canonical(Tamed(fields[i].value)) == Canonical(fields[i].value)
      {
        TamedAlike(fields[i].value);
      }
      SameEntries(Tamed(v), v, 0);
    case _ =>
  }

  lemma {:induction false} TamedEquivIff(v: Json)
    requires Valid(v)
    ensures Equiv(SameNumber, v, Tamed(v)) <==> Numbers(Harmless, v)
    decreases v
  {
    match v
    case Arr(items) =>
      forall i | 0 <= i < |items|
        ensures Equiv(SameNumber, items[i], Tamed(v).items[i]) <==> Numbers(Harmless, items[i])
      {
        TamedEquivIff(items[i]);
      }
    case Obj(fields) =>
      var tamed := Tamed(v).fields;
      forall i | 0 <= i < |fields|
        ensures FieldFound(SameNumber, fields[i], tamed) <==> Numbers(Harmless, fields[i].value)
      {
        TamedEquivIff(fields[i].value);
        if Numbers(Harmless, fields[i].value) {
          assert fields[i].key == tamed[i].key && Equiv(SameNumber, fields[i].value, tamed[i].value);
        }
      }
    case _ =>
  }

  // The exact condition for a value's text to tell it from all harmless values that are not equal to
  // it: all its numbers are harmless. `HarmlessIff` says which numbers are not.
  lemma {:induction false} FaithfulIff(v: Json)
    requires Valid(v)
    ensures (forall w :: Tame(w) ==> (Canonical(v) == Canonical(w) <==> Equiv(SameNumber, v, w)))
      <==> Numbers(Harmless, v)
  {
    TamedAlike(v);
    TamedEquivIff(v);
    if Numbers(Harmless, v) {
      forall w | Tame(w)
        ensures Canonical(v) == Canonical(w) <==> Equiv(SameNumber, v, w)
      {
        CanonicalIff(v, w);
      }
    }
  }

  // Two numbers that are not: the float 2^63 saturates and takes the text of a different integer, and
  // the float 10000000000000002048 that of the integer its shortest digits spell.
  lemma {:induction false} InexactFloatsCollide()
    ensures var f, n := Num(IntegralFloat(I64_MAX + 1)), Num(Int(I64_MAX));
      Valid(f) && Valid(n) && Canonical(f) == Canonical(n) && !Equiv(SameNumber, f, n)
    ensures var f, n := Num(IntegralFloat(10000000000000002048)), Num(Int(10000000000000002000));
      Valid(f) && Valid(n) && Canonical(f) == Canonical(n) && !Equiv(SameNumber, f, n)
  {
    RoundedLow(I64_MAX + 1, I64_MAX + 1);
    TenDigits(10000000000000002048);
    NumbersCollide(IntegralFloat(I64_MAX + 1), Int(I64_MAX));
    NumbersCollide(IntegralFloat(10000000000000002048), Int(10000000000000002000));
  }

  lemma {:induction false} NumbersCollide(a: Number, b: Number)
    requires ValidNumber(a) && ValidNumber(b) && !a.OtherFloat? && !b.OtherFloat?
    requires Printed(a) == Printed(b) && Denoted(a) != Denoted(b)
    ensures Valid(Num(a)) && Valid(Num(b)) && Canonical(Num(a)) == Canonical(Num(b))
    ensures !Equiv(SameNumber, Num(a), Num(b))
  {
  }

  // ---------- Tool names may contain spaces: the key still splits in one way ----------

  // Where a reader of the canonical text is: outside string literals, inside one, behind a
  // backslash, or lost because a space or a backslash stood outside a literal.
  datatype Place = Out | In | Escaped | Lost

  function Step(p: Place, c: char): Place {
    match p
    case Out => if c == '"' then In else if c == ' ' || c == '\\' then Lost else Out
    case In => if c == '"' then Out else if c == '\\' then Escaped else In
    case Escaped => In
    case Lost => Lost
  }

  function Scan(p: Place, s: string): Place
    decreases |s|
  {
    if s == "" then p else Scan(Step(p, s[0]), s[1..])
  }

  lemma {:induction false} ScanConcat(p: Place, a: string, b: string)
    ensures Scan(p, a + b) == Scan(Scan(p, a), b)
    decreases |a|
  {
    if a == "" {
      assert a + b == b;
    } else {
      assert (a + b)[1..] == a[1..] + b;
      ScanConcat(Step(p, a[0]), a[1..], b);
    }
  }

  lemma {:induction false} ScanPlain(s: string)
    requires forall c :: c in s ==> c != '"' && c != ' ' && c != '\\'
    ensures Scan(Out, s) == Out
  {
    if s != "" {
      assert s[0] in s && forall c :: c in s[1..] ==> c in s;
      ScanPlain(s[1..]);
    }
  }

  lemma {:induction false} ScanEscape(c: char)
    ensures Scan(In, Escape(c)) == In
  {
    var e := Escape(c);
    if |e| == 1 {
      assert Scan(In, e) == Scan(Step(In, c), e[1..]);
    } else {
      assert Scan(In, e) == Scan(Escaped, e[1..]) == Scan(In, e[1..][1..]);
      if |e| == 2 {
        assert e[1..][1..] == "";
      } else {
        var r := e[1..][1..];
        assert r == ['0', '0', e[4], e[5]];
        ScanLiteral(r);
      }
    }
  }

  lemma {:induction false} ScanLiteral(s: string)
    requires forall c :: c in s ==> c != '"' && c != '\\'
    ensures Scan(In, s) == In
  {
    if s != "" {
      assert s[0] in s && forall c :: c in s[1..] ==> c in s;
      ScanLiteral(s[1..]);
    }
  }

  lemma {:induction false} ScanBody(s: string)
    ensures Scan(In, EscapeAll(s)) == In
  {
    if s != "" {
      ScanEscape(s[0]);
      ScanBody(s[1..]);
      ScanConcat(In, Escape(s[0]), EscapeAll(s[1..]));
    }
  }

  lemma {:induction false} ScanString(s: string)
    ensures Scan(Out, JsonString(s)) == Out
  {
    ScanBody(s);
    assert JsonString(s) == "\"" + (EscapeAll(s) + "\"");
    assert JsonString(s)[1..] == EscapeAll(s) + "\"";
    ScanConcat(In, EscapeAll(s), "\"");
    assert Scan(In, "\"") == Scan(Out, "\""[1..]) == Out;
  }

  lemma {:induction false} ScanCanonical(v: Json)
    requires Valid(v)
    ensures Scan(Out, Canonical(v)) == Out
    decreases v, 1, 0
  {
    match v
    case Num(number) =>
      NumberTextChars(number);
      ScanPlain(NumberText(number));
    case Str(text) => ScanString(text);
    case Arr(_) =>
      ScanItems(v, 0);
      ScanPlain("[");
      ScanPlain("]");
      ScanConcat(Out, "[", JoinItems(v, 0));
      ScanConcat(Out, "[" + JoinItems(v, 0), "]");
    case Obj(_) =>
      SortedEntries(v);
      ScanEntries(v, Sort(Entries(v, 0)), true);
      ScanPlain("{");
      ScanPlain("}");
      ScanConcat(Out, "{", JoinEntries(Sort(Entries(v, 0)), true));
      ScanConcat(Out, "{" + JoinEntries(Sort(Entries(v, 0)), true), "}");
    case _ => ScanPlain(Canonical(v));
  }

  lemma {:induction false} ScanItems(v: Json, i: nat)
    requires v.Arr? && Valid(v) && i <= |v.items|
    ensures Scan(Out, JoinItems(v, i)) == Out
    decreases v, 0, |v.items| - i
  {
    if i < |v.items| {
      ScanPlain(Separator(i == 0));
      ScanCanonical(v.items[i]);
      ScanItems(v, i + 1);
      ScanConcat(Out, Separator(i == 0), Canonical(v.items[i]));
      ScanConcat(Out, Separator(i == 0) + Canonical(v.items[i]), JoinItems(v, i + 1));
    }
  }

  lemma {:induction false} ScanEntries(v: Json, es: seq<Entry>, first: bool)
    requires v.Obj? && Valid(v)
    requires forall e :: e in es ==> EntryOf(v, e)
    ensures Scan(Out, JoinEntries(es, first)) == Out
    decreases v, 0, |es|
  {
    if es != [] {
      var key, text := JsonString(es[0].key), es[0].text;
      assert EntryOf(v, es[0]);
      var i :| 0 <= i < |v.fields| && es[0] == Entry(v.fields[i].key, Canonical(v.fields[i].value));
      ScanPlain(Separator(first));
      ScanString(es[0].key);
      ScanPlain(":");
      ScanCanonical(v.fields[i].value);
      ScanEntries(v, es[1..], false);
      ScanConcat(Out, Separator(first), key);
      ScanConcat(Out, Separator(first) + key, ":");
      ScanConcat(Out, Separator(first) + key + ":", text);
      ScanConcat(Out, Separator(first) + key + ":" + text, JoinEntries(es[1..], false));
    }
  }

  // One text cannot be read to its end both from outside and from inside a literal.
  lemma {:induction false} ScanOneWay(s: string)
    ensures !(Scan(Out, s) == Out && Scan(In, s) == Out)
    ensures !(Scan(Out, s) == In && Scan(In, s) == In)
  {
    if s != "" && s[0] != ' ' && s[0] != '\\' {
      ScanOneWay(s[1..]);
    }
    if s != "" {
      LostForGood(s[1..]);
    }
  }

  lemma {:induction false} LostForGood(s: string)
    ensures Scan(Lost, s) == Lost
  {
    if s != "" { LostForGood(s[1..]); }
  }

  lemma {:induction false} NamesAlike(m: string, v: Json, n: string, w: Json)
    requires Valid(v) && Valid(w) && MakeKey(m, v) == MakeKey(n, w)
    ensures |m| >= |n|
  {
    var key := MakeKey(m, v);
    if |m| < |n| {
      var r := n[|m| + 1..];
      assert Canonical(v) == key[|m| + 1..];
      assert key[|m| + 1..] == r + " " + Canonical(w);
      ScanConcat(Out, r + " ", Canonical(w));
      ScanConcat(Out, r, " ");
      assert Scan(Scan(Out, r), " ") == Step(Scan(Out, r), ' ');
      LostForGood(Canonical(w));
      ScanOneWay(Canonical(w));
      ScanCanonical(w);
      ScanCanonical(v);
    }
  }

  // The key splits into name and text in one way only.
  lemma {:induction false} KeySplits(m: string, v: Json, n: string, w: Json)
    requires Valid(v) && Valid(w)
    ensures MakeKey(m, v) == MakeKey(n, w) <==> m == n && Canonical(v) == Canonical(w)
  {
    if MakeKey(m, v) == MakeKey(n, w) {
      NamesAlike(m, v, n, w);
      NamesAlike(n, w, m, v);
      TextsAlike(m, Canonical(v), n, Canonical(w));
    }
  }

  lemma {:induction false} TextsAlike(m: string, x: string, n: string, y: string)
    requires |m| == |n| && m + " " + x == n + " " + y
    ensures m == n && x == y
  {
    assert m + " " + x == m + (" " + x) && n + " " + y == n + (" " + y);
    SameLength(m, n, " " + x, " " + y);
    Stripped(" ", x, y);
  }

  // `make_key` separates calls exactly: same name, and arguments that are equal up to object key order
  // with numbers printed alike; if those are harmless, the same.
  lemma {:induction false} MakeKeyIff(m: string, v: Json, n: string, w: Json)
    requires Valid(v) && Valid(w)
    ensures MakeKey(m, v) == MakeKey(n, w) <==> m == n && Equiv(SamePrinted, v, w)
    ensures Numbers(Harmless, v) && Numbers(Harmless, w) ==>
              (MakeKey(m, v) == MakeKey(n, w) <==> m == n && Equiv(SameNumber, v, w))
  {
    CanonicalIff(v, w);
    KeySplits(m, v, n, w);
  }
}
