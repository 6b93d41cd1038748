// JSON values and the canonical text the dedupe key is made of (dedupe.rs).
module Json {
  // A number as serde_json holds it: an integer of 64 bits, signed or unsigned, a double with an
  // integral value, or any other double, kept as the text it is printed as.
  datatype Number =
    | Int(n: int)
    | IntegralFloat(n: int)
    | OtherFloat(text: string)

  // Objects keep insertion order (serde_json's `preserve_order`).
  datatype Json =
    | Null
    | Bool(b: bool)
    | Num(number: Number)
    | Str(text: string)
    | Arr(items: seq<Json>)
    | Obj(fields: seq<Field>)
  datatype Field = Field(key: string, value: Json)

  // ---------- Decimal numbers ----------

  function Digit(d: nat): char
    requires d < 10
  {
    '0' + d as char
  }

  function DecNat(n: nat): string {
    if n < 10 then [Digit(n)] else DecNat(n / 10) + [Digit(n % 10)]
  }

  function Dec(n: int): string {
    if n < 0 then "-" + DecNat(-n) else DecNat(n)
  }

  // ---------- Doubles ----------

  const TWO_53: nat := 0x20_0000_0000_0000

  // The distance of the doubles from `n` up to the next power of two.
  function Ulp(n: nat): (u: nat)
    ensures u > 0
  {
    if n < TWO_53 then 1 else 2 * Ulp(n / 2)
  }

  // The double an integer is read as: the nearest, and of two equally near the one with the even
  // significand.
  function Rounded(n: nat): nat {
    var u := Ulp(n);
    var over := n % u;
    if 2 * over < u || (2 * over == u && n / u % 2 == 0) then n - over else n - over + u
  }

  // One of the two multiples of `p` around `v` is read as `v`.
  predicate Reads(v: nat, p: nat)
    requires p > 0
  {
    Rounded(v - v % p) == v || Rounded(v - v % p + p) == v
  }

  // That multiple; if both are, the nearer.
  function Near(v: nat, p: nat): (r: nat)
    requires p > 0 && Reads(v, p)
    ensures Rounded(r) == v
  {
    var low, high := v - v % p, v - v % p + p;
    if Rounded(low) == v && (Rounded(high) != v || v - low <= high - v) then low else high
  }

  function Shortest(v: nat, p: nat): (r: nat)
    requires p > 0 && Reads(v, p)
    ensures Rounded(r) == v
    decreases v - p
  {
    if 10 * p <= v && Reads(v, 10 * p) then Shortest(v, 10 * p) else Near(v, p)
  }

  // What an integral double is displayed as: the integer with the fewest digits before its trailing
  // zeros that is read as the double, and of those the nearest.
  function Digits(v: nat): nat {
    if Rounded(v) == v then Shortest(v, 1) else v
  }

  predicate IsDouble(n: int) {
    var v: nat := if n < 0 then -n else n;
    Rounded(v) == v
  }

  const I64_MAX: int := 0x7FFF_FFFF_FFFF_FFFF
  const U64_MAX: int := 0xFFFF_FFFF_FFFF_FFFF

  // What serde_json holds as an integer.
  predicate In64Bits(n: int) {
    -I64_MAX - 1 <= n <= U64_MAX
  }

  // `canonical_number`: an integral float between -2^63 and 2^63 is printed as the i64 it converts
  // to, a conversion that saturates for the float 2^63; one beyond is displayed as it is.
  function NumberText(number: Number): string {
    match number
    case OtherFloat(text) => text
    case _ => Dec(Printed(number))
  }

  // The integer a number is printed as, and the one it denotes.
  function Printed(number: Number): int
    requires !number.OtherFloat?
  {
    match number
    case Int(n) => n
    case IntegralFloat(n) =>
      if n < -I64_MAX - 1 then -(Digits(-n) as int)
      else if n > I64_MAX + 1 then Digits(n)
      else if n > I64_MAX then I64_MAX
      else n
  }

  function Denoted(number: Number): int
    requires !number.OtherFloat?
  {
    number.n
  }

  // ---------- Strings ----------

  function Hex(d: nat): char
    requires d < 16
  {
    if d < 10 then '0' + d as char else 'a' + (d - 10) as char
  }

  // One character of a string literal, escaped as section 7 of RFC 8259 requires.
  function Escape(c: char): (e: string)
    ensures |e| > 0
  {
    if c == '"' then "\\\""
    else if c == '\\' then "\\\\"
    else if c == 8 as char then "\\b"
    else if c == 12 as char then "\\f"
    else if c == '\n' then "\\n"
    else if c == '\r' then "\\r"
    else if c == '\t' then "\\t"
    else if c < ' ' then ['\\', 'u', '0', '0', Hex(c as nat / 16), Hex(c as nat % 16)]
    else [c]
  }

  function EscapeAll(s: string): string {
    if s == "" then "" else Escape(s[0]) + EscapeAll(s[1..])
  }

  function JsonString(s: string): string {
    "\"" + EscapeAll(s) + "\""
  }

  // ---------- Sorting object entries by key ----------

  datatype Entry = Entry(key: string, text: string)

  // The order of Rust strings: bytewise on UTF-8, which is code point order.
  predicate Less(a: string, b: string) {
    b != "" && (a == "" || a[0] < b[0] || (a[0] == b[0] && Less(a[1..], b[1..])))
  }

  function Insert(e: Entry, es: seq<Entry>): seq<Entry> {
    if es == [] || Less(e.key, es[0].key) then [e] + es else [es[0]] + Insert(e, es[1..])
  }

  function Sort(es: seq<Entry>): seq<Entry> {
    if es == [] then [] else Insert(es[0], Sort(es[1..]))
  }

  // ---------- canonical_args ----------

  function Canonical(v: Json): string
    decreases v, 1, 0
  {
    match v
    case Null => "null"
    case Bool(b) => if b then "true" else "false"
    case Num(number) => NumberText(number)
    case Str(text) => JsonString(text)
    case Arr(_) => "[" + JoinItems(v, 0) + "]"
    case Obj(_) => "{" + JoinEntries(Sort(Entries(v, 0)), true) + "}"
  }

  function JoinItems(v: Json, i: nat): string
    requires v.Arr? && i <= |v.items|
    decreases v, 0, |v.items| - i
  {
    if i == |v.items| then ""
    else (if i == 0 then "" else ",") + Canonical(v.items[i]) + JoinItems(v, i + 1)
  }

  function Entries(v: Json, i: nat): (es: seq<Entry>)
    requires v.Obj? && i <= |v.fields|
    ensures |es| == |v.fields| - i
    decreases v, 0, |v.fields| - i
  {
    if i == |v.fields| then []
    else [Entry(v.fields[i].key, Canonical(v.fields[i].value))] + Entries(v, i + 1)
  }

  function JoinEntries(es: seq<Entry>, first: bool): string {
    if es == [] then ""
    else (if first then "" else ",") + JsonString(es[0].key) + ":" + es[0].text + JoinEntries(es[1..], false)
  }

  // `make_key`
  function MakeKey(name: string, args: Json): string {
    name + " " + Canonical(args)
  }

  // ---------- When two values mean the same ----------

  predicate NumberChar(c: char) {
    '0' <= c <= '9' || c == '-' || c == '+' || c == '.' || c == 'e' || c == 'E'
  }

  predicate ValidNumber(number: Number) {
    match number
    case Int(n) => In64Bits(n)
    case IntegralFloat(n) => IsDouble(n)
    case OtherFloat(text) => text != "" && '.' in text && forall c :: c in text ==> NumberChar(c)
  }

  // Values a parser can produce: objects without repeated keys.
  predicate Valid(v: Json) {
    match v
    case Num(number) => ValidNumber(number)
    case Arr(items) => forall i :: 0 <= i < |items| ==> Valid(items[i])
    case Obj(fields) =>
      && (forall i :: 0 <= i < |fields| ==> Valid(fields[i].value))
      && (forall i, j :: 0 <= i < j < |fields| ==> fields[i].key != fields[j].key)
    case _ => true
  }

  // Printed as what it denotes, or as no integer of 64 bits.
  predicate Harmless(number: Number) {
    number.OtherFloat? || Printed(number) == Denoted(number) || !In64Bits(Printed(number))
  }

  // Every number in the value is of that kind.
  predicate Numbers(ok: Number -> bool, v: Json) {
    match v
    case Num(number) => ok(number)
    case Arr(items) => forall i :: 0 <= i < |items| ==> Numbers(ok, items[i])
    case Obj(fields) => forall i :: 0 <= i < |fields| ==> Numbers(ok, fields[i].value)
    case _ => true
  }

  predicate SamePrinted(a: Number, b: Number) {
    if a.OtherFloat? || b.OtherFloat? then a == b else Printed(a) == Printed(b)
  }

  predicate SameNumber(a: Number, b: Number) {
    if a.OtherFloat? || b.OtherFloat? then a == b else Denoted(a) == Denoted(b)
  }

  // Equal up to the order of object keys, numbers being equal if they are the `same`.
  ghost predicate Equiv(same: (Number, Number) -> bool, a: Json, b: Json)
    decreases a
  {
    match a
    case Num(number) => b.Num? && same(number, b.number)
    case Arr(items) =>
      b.Arr? && |items| == |b.items| && forall i :: 0 <= i < |items| ==> Equiv(same, items[i], b.items[i])
    case Obj(fields) =>
      && b.Obj? && |fields| == |b.fields|
      && forall i :: 0 <= i < |fields| ==> FieldFound(same, fields[i], b.fields)
    case _ => a == b
  }

  ghost predicate FieldFound(same: (Number, Number) -> bool, f: Field, fields: seq<Field>)
    decreases f
  {
    exists j :: 0 <= j < |fields| && f.key == fields[j].key && Equiv(same, f.value, fields[j].value)
  }
}
