// Decimal numbers as text: the canonical form that fmt's %d writes, Go's
// strconv.ParseInt, and the two hand-written printers of cmd/afc/handlers.go.
module Decimal {
  import opened Maps

  const MIN64: int := -0x8000_0000_0000_0000
  const MAX64: int := 0x7FFF_FFFF_FFFF_FFFF

  predicate Int64(v: int) {
    MIN64 <= v <= MAX64
  }

  function DigitChar(d: nat): char
    requires d < 10
  {
    ('0' as int + d) as char
  }

  predicate IsDigit(c: char) {
    '0' <= c <= '9'
  }

  function DigitValue(c: char): nat
    requires IsDigit(c)
  {
    c as int - '0' as int
  }

  function Digits(n: nat): string {
    if n < 10 then [DigitChar(n)] else Digits(n / 10) + [DigitChar(n % 10)]
  }

  // fmt.Sprintf("%d", v)
  function Print(v: int): string {
    if v < 0 then "-" + Digits(-v) else Digits(v)
  }

  predicate AllDigits(s: string) {
    forall c :: c in s ==> IsDigit(c)
  }

  function NatOf(s: string): nat
    requires AllDigits(s)
  {
    if s == "" then 0 else 10 * NatOf(s[..|s| - 1]) + DigitValue(s[|s| - 1])
  }

  // strconv.ParseInt(s, 10, 64): an optional sign, at least one digit, nothing
  // else, and a value that fits.
  function ParseInt(s: string): Option<int> {
    if s == "" then None else
    var body := if s[0] == '-' || s[0] == '+' then s[1..] else s;
    if body == "" || !AllDigits(body) then None else
    var magnitude: int := NatOf(body);
    var v := if s[0] == '-' then -magnitude else magnitude;
    if Int64(v) then Some(v) else None
  }

  // ---------- Print and ParseInt are inverse ----------

  lemma {:induction false} DigitsRead(n: nat)
    ensures Digits(n) != "" && AllDigits(Digits(n)) && NatOf(Digits(n)) == n
    ensures IsDigit(Digits(n)[0]) && (n > 0 ==> Digits(n)[0] != '0')
  {
    var d := DigitChar(n % 10);
    assert IsDigit(d) && DigitValue(d) == n % 10;
    if n < 10 {
      assert NatOf("") == 0 && [d][..0] == "";
    } else {
      DigitsRead(n / 10);
      assert Digits(n)[..|Digits(n)| - 1] == Digits(n / 10);
      assert Digits(n)[0] == Digits(n / 10)[0];
    }
  }

  lemma PrintThenParse(v: int)
    ensures ParseInt(Print(v)) == if Int64(v) then Some(v) else None
  {
    var magnitude := if v < 0 then -v else v;
    DigitsRead(magnitude);
    var s := Print(v);
    var body := if s[0] == '-' || s[0] == '+' then s[1..] else s;
    assert body == Digits(magnitude);
  }

  // No sign but a minus on a nonzero value, no leading zero.
  predicate Canonical(s: string) {
    && s != ""
    && var body := if s[0] == '-' then s[1..] else s;
       && body != "" && AllDigits(body) && (body[0] == '0' ==> s == "0")
  }

  lemma {:induction false} DigitsAreCanonical(s: string)
    requires s != "" && AllDigits(s) && (s[0] == '0' ==> s == "0")
    ensures s == Digits(NatOf(s)) && (s != "0" ==> NatOf(s) > 0)
  {
    var front, last := s[..|s| - 1], s[|s| - 1];
    assert DigitChar(DigitValue(last)) == last;
    assert s == front + [last];
    if front == "" {
      assert NatOf(front) == 0;
    } else {
      DigitsAreCanonical(front);
      assert NatOf(s) / 10 == NatOf(front) && NatOf(s) % 10 == DigitValue(last);
    }
  }

  // Print gives the one canonical text of each value.
  lemma CanonicalIsPrinted(s: string, v: int)
    ensures Canonical(s) && ParseInt(s) == Some(v) <==> s == Print(v) && Int64(v)
  {
    PrintThenParse(v);
    DigitsRead(if v < 0 then -v else v);
    if s == Print(v) && Int64(v) {
      assert v < 0 ==> s[1..] == Digits(-v);
      assert v >= 0 ==> s[0] in Digits(v);
    }
    if Canonical(s) && ParseInt(s) == Some(v) {
      var body := if s[0] == '-' then s[1..] else s;
      assert s[0] == '+' ==> s[0] in body;
      DigitsAreCanonical(body);
    }
  }

  // Printed numbers hold no separator of the event log.
  lemma PrintIsPlain(v: int)
    ensures Print(v) != "" && '\t' !in Print(v) && '\n' !in Print(v)
  {
    DigitsRead(if v < 0 then -v else v);
  }

  // ---------- The hand-written printers ----------

  // Negation of a 64-bit integer wraps at the least value.
  function Neg64(v: int): int {
    if v == MIN64 then MIN64 else -v
  }

  lemma DigitsPrepend(v: nat, digits: string)
    requires v > 0
    ensures Digits(v) + digits
            == (if v < 10 then "" else Digits(v / 10)) + ([DigitChar(v % 10)] + digits)
  {
  }

  // The loop of both printers: nothing comes out unless the value is positive.
  method PositiveDigits(value: int) returns (digits: string)
    ensures digits == if value > 0 then Digits(value) else ""
  {
    var rest := value;
    digits := "";
    while rest > 0
      invariant value <= 0 ==> rest == value && digits == ""
      invariant value > 0 ==> rest >= 0 && (if rest == 0 then "" else Digits(rest)) + digits == Digits(value)
      decreases rest
    {
      DigitsPrepend(rest, digits);
      digits := [DigitChar(rest % 10)] + digits;
      rest := rest / 10;
    }
  }

  method Itoa(value: int) returns (s: string)
    requires Int64(value)
    ensures value >= 0 ==> s == Print(value)
    ensures ParseInt(s) == Some(value) <==> value >= 0
  {
    PrintThenParse(value);
    if value == 0 {
      return "0";
    }
    s := PositiveDigits(value);
  }

  method Int64String(value: int) returns (s: string)
    requires Int64(value)
    ensures value != MIN64 ==> s == Print(value)
    ensures value == MIN64 ==> s == "-"
    ensures ParseInt(s) == Some(value) <==> value != MIN64
  {
    PrintThenParse(value);
    if value == 0 {
      return "0";
    }
    var negative := value < 0;
    s := PositiveDigits(if negative then Neg64(value) else value);
    if negative {
      s := ['-'] + s;
    }
    if value == MIN64 {
      assert s == "-" && s[1..] == "";
    }
  }
}
