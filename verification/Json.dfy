/** JSON values as the plan compiler, the graph simulator and the capabilities exchange them. */
module Json {

  datatype Option<+T> = None | Some(value: T)

  /** A value, or the reason a Python exception was raised instead. */
  datatype Result<+T> = Ok(value: T) | Raise(reason: string) {
    predicate IsFailure() { Raise? }
    function PropagateFailure<U>(): Result<U>
      requires Raise?
    { Raise(reason) }
    function Extract(): T
      requires Ok?
    { value }
  }

  datatype Json =
    | Null
    | Bool(b: bool)
    | Num(n: real)
    | Str(s: string)
    | Arr(items: seq<Json>)
    | Obj(fields: map<string, Json>)

  /** A dotted path, split at its dots. */
  type Path = seq<string>

  /** Python truthiness. */
  predicate Truthy(v: Json) {
    match v
    case Null => false
    case Bool(b) => b
    case Num(n) => n != 0.0
    case Str(s) => s != ""
    case Arr(items) => items != []
    case Obj(fields) => fields != map[]
  }

  // ---------------------------------------------------------------- decimal indices

  predicate IsDigit(c: char) { '0' <= c <= '9' }

  predicate AllDigits(s: string) { forall i | 0 <= i < |s| :: IsDigit(s[i]) }

  function Digit(n: nat): (c: char)
    requires n < 10
    ensures IsDigit(c) && DigitValue(c) == n
  {
    ('0' as int + n) as char
  }

  function DigitValue(c: char): (n: nat)
    requires IsDigit(c)
    ensures n < 10
  {
    c as int - '0' as int
  }

  function Digits(n: nat): (s: string)
    ensures s != "" && AllDigits(s)
  {
    if n < 10 then [Digit(n)] else Digits(n / 10) + [Digit(n % 10)]
  }

  function DecimalValue(s: string): nat
    requires AllDigits(s)
  {
    if s == "" then 0 else 10 * DecimalValue(s[..|s| - 1]) + DigitValue(s[|s| - 1])
  }

  function ParseNat(s: string): Option<nat>
  {
    if s == "" || !AllDigits(s) then None else Some(DecimalValue(s))
  }

  /** An optional minus sign and decimal digits. */
  function ParseIndex(s: string): Option<int>
  {
    var negative := s != "" && s[0] == '-';
    var magnitude := ParseNat(if negative then s[1..] else s);
    if magnitude.None? then None
    else var i: int := if negative then 0 - magnitude.value else magnitude.value; Some(i)
  }

  lemma {:induction false} DecimalRoundTrip(n: nat)
    ensures DecimalValue(Digits(n)) == n
  {
    var s := Digits(n);
    if n < 10 {
      assert s[..|s| - 1] == "";
    } else {
      DecimalRoundTrip(n / 10);
      assert s[..|s| - 1] == Digits(n / 10);
      assert s[|s| - 1] == Digit(n % 10);
    }
  }

  lemma IndexRoundTrip(n: nat)
    ensures ParseIndex(Digits(n)) == Some(n)
  {
    DecimalRoundTrip(n);
    assert IsDigit(Digits(n)[0]);
  }

  // ---------------------------------------------------------------- lookup

  /** One step of a dotted lookup; anything missing reads as null. */
  function Step(v: Json, part: string): Json
  {
    match v
    case Arr(items) =>
      (match ParseIndex(part)
       case Some(i) =>
         if 0 <= i < |items| then items[i]
         else if -|items| <= i < 0 then items[|items| + i]
         else Null
       case None => Null)
    case Obj(fields) => if part in fields then fields[part] else Null
    case _ => Null
  }

  function Lookup(v: Json, path: Path): Json
    decreases path
  {
    if path == [] then v else Lookup(Step(v, path[0]), path[1..])
  }

  lemma {:induction false} LookupAppend(v: Json, p: Path, q: Path)
    ensures Lookup(v, p + q) == Lookup(Lookup(v, p), q)
    decreases p
  {
    if p == [] {
      assert p + q == q;
    } else {
      assert (p + q)[0] == p[0] && (p + q)[1..] == p[1..] + q;
      LookupAppend(Step(v, p[0]), p[1..], q);
    }
  }

  lemma LookupFirst(fields: map<string, Json>, key: string, rest: Path)
    ensures Lookup(Obj(fields), [key] + rest) == Lookup(if key in fields then fields[key] else Null, rest)
  {
    assert ([key] + rest)[1..] == rest;
  }

  lemma {:induction false} LookupNull(p: Path)
    ensures Lookup(Null, p) == Null
  {
    if p != [] { LookupNull(p[1..]); }
  }

  // ---------------------------------------------------------------- equality

  /** Python's == identifies True with 1 and False with 0, at every depth. */
  function Normal(v: Json): Json
  {
    match v
    case Bool(b) => Num(if b then 1.0 else 0.0)
    case Arr(items) => Arr(seq(|items|, i requires 0 <= i < |items| => Normal(items[i])))
    case Obj(fields) => Obj(map k | k in fields :: Normal(fields[k]))
    case _ => v
  }

  predicate LooseEqual(a: Json, b: Json) { Normal(a) == Normal(b) }

  predicate SameKind(a: Json, b: Json) {
    || (a.Null? && b.Null?) || (a.Bool? && b.Bool?) || (a.Num? && b.Num?)
    || (a.Str? && b.Str?) || (a.Arr? && b.Arr?) || (a.Obj? && b.Obj?)
  }

  predicate StrictEqual(a: Json, b: Json) { SameKind(a, b) && LooseEqual(a, b) }
}
