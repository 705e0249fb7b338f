/**
 Decimal text: the printers and parsers the relay's names and nonces go through.
 src/core/Utils.go prints room codes, src/core/ConnectionsClientToRelay.go prints request
 names, and src/core/RoomCreation.go parses the nonce that the solver printed.
 */
module Decimal {
  import opened Options

  const MAX_INT64: int := 0x7FFF_FFFF_FFFF_FFFF
  const MIN_INT64: int := -0x8000_0000_0000_0000
  const CODE_SPACE: nat := 1_000_000
  const REQUEST_PREFIX := "REQUESTCONNECTION_"

  predicate IsDigit(c: char) {
    '0' <= c <= '9'
  }

  predicate AllDigits(s: string) {
    forall i :: 0 <= i < |s| ==> IsDigit(s[i])
  }

  function Digit(d: nat): char
    requires d < 10
  {
    '0' + d as char
  }

  /** The number a string of digits denotes. */
  function Value(s: string): nat
    requires AllDigits(s)
  {
    if s == "" then 0 else Value(s[..|s| - 1]) * 10 + (s[|s| - 1] - '0') as nat
  }

  /** strconv.Itoa on a non-negative number. */
  function Itoa(n: nat): string {
    if n < 10 then [Digit(n)] else Itoa(n / 10) + [Digit(n % 10)]
  }

  /** The verb %d, and strconv.Itoa, on any int64. */
  function FormatInt(n: int): string {
    if n < 0 then "-" + Itoa(-n) else Itoa(n)
  }

  /** strconv.ParseInt(s, 10, 64): one optional sign, at least one digit, and a 64-bit range check. */
  function ParseInt(s: string): (r: Option<int>)
    ensures r.Some? ==> MIN_INT64 <= r.value <= MAX_INT64
  {
    var negative := s != "" && s[0] == '-';
    var digits := if s != "" && (s[0] == '-' || s[0] == '+') then s[1..] else s;
    if digits == "" || !AllDigits(digits) then None
    else
      var n: int := (if negative then -1 else 1) * Value(digits);
      if MIN_INT64 <= n <= MAX_INT64 then Some(n) else None
  }

  lemma {:induction false} ItoaValue(n: nat)
    ensures Itoa(n) != "" && AllDigits(Itoa(n)) && Value(Itoa(n)) == n
  {
    if n < 10 {
      assert Itoa(n)[..0] == "";
    } else {
      ItoaValue(n / 10);
      assert Itoa(n)[..|Itoa(n)| - 1] == Itoa(n / 10);
    }
  }

  function Zeros(k: nat): string {
    seq(k, _ => '0')
  }

  lemma ItoaAppends(m: nat, d: nat)
    requires m > 0 && d < 10
    ensures Itoa(m * 10 + d) == Itoa(m) + [Digit(d)]
  {
    assert (m * 10 + d) / 10 == m && (m * 10 + d) % 10 == d;
  }

  /** What is printed, after any number of zeros. */
  predicate Pads(digits: string, n: nat) {
    |Itoa(n)| <= |digits| && digits == Zeros(|digits| - |Itoa(n)|) + Itoa(n)
  }

  lemma PadsOneMore(init: string, m: nat, d: nat)
    requires init != "" && Pads(init, m) && d < 10
    ensures Pads(init + [Digit(d)], m * 10 + d)
  {
    if m > 0 {
      ItoaAppends(m, d);
    } else {
      assert init == Zeros(|init|);
    }
  }

  lemma DigitValue(c: char)
    requires IsDigit(c)
    ensures (c - '0') as int < 10 && Digit((c - '0') as nat) == c
  {
  }

  /** A number's digits are those that are printed, after any number of zeros. */
  lemma {:induction false} DigitsArePadded(digits: string)
    requires digits != "" && AllDigits(digits)
    ensures Pads(digits, Value(digits))
  {
    var init, last := digits[..|digits| - 1], digits[|digits| - 1];
    DigitValue(last);
    assert digits == init + [last];
    if init == "" {
      assert Value(init) == 0 && Itoa(Value(digits)) == [last];
    } else {
      DigitsArePadded(init);
      PadsOneMore(init, Value(init), (last - '0') as nat);
    }
  }

  lemma {:induction false} ZerosInFront(k: nat, digits: string)
    requires AllDigits(digits)
    ensures AllDigits(Zeros(k) + digits) && Value(Zeros(k) + digits) == Value(digits)
  {
    if digits != "" {
      var init := digits[..|digits| - 1];
      ZerosInFront(k, init);
      assert (Zeros(k) + digits)[..k + |digits| - 1] == Zeros(k) + init;
    } else if k > 0 {
      ZerosInFront(k - 1, "");
      assert (Zeros(k) + "")[..k - 1] == Zeros(k - 1) + "";
    }
  }

  /** A sign that a number may be written with. */
  predicate SignOf(sign: string, n: int) {
    (sign == "-" && n <= 0) || ((sign == "" || sign == "+") && n >= 0)
  }

  function Magnitude(n: int): nat {
    if n < 0 then -n else n
  }

  /** s is n, written with a sign, leading zeros and the printed digits. */
  ghost predicate Writes(s: string, n: int) {
    exists sign: string, k: nat :: SignOf(sign, n) && s == sign + (Zeros(k) + Itoa(Magnitude(n)))
  }

  lemma ParsedIsWritten(s: string, n: int)
    requires ParseInt(s) == Some(n)
    ensures Writes(s, n)
  {
    var sign := if s[0] == '-' || s[0] == '+' then s[..1] else "";
    var digits := s[|sign|..];
    assert s == sign + digits;
    assert SignOf(sign, n) && Value(digits) == Magnitude(n);
    DigitsArePadded(digits);
  }

  lemma WrittenIsParsed(sign: string, digits: string, n: int)
    requires SignOf(sign, n) && digits != "" && AllDigits(digits) && Value(digits) == Magnitude(n)
    requires MIN_INT64 <= n <= MAX_INT64
    ensures ParseInt(sign + digits) == Some(n)
  {
    var s := sign + digits;
    assert IsDigit(digits[0]);
    if sign == "" {
      assert s == digits;
    } else {
      assert s[0] == sign[0] && s[1..] == digits;
    }
  }

  /** What one side prints, the other side reads back: every int64, negative ones included. */
  lemma ParseFormat(n: int)
    requires MIN_INT64 <= n <= MAX_INT64
    ensures ParseInt(FormatInt(n)) == Some(n)
  {
    ItoaValue(Magnitude(n));
    WrittenIsParsed(if n < 0 then "-" else "", Itoa(Magnitude(n)), n);
    assert n >= 0 ==> "" + Itoa(n) == FormatInt(n);
  }

  /** The parser accepts exactly the 64-bit numbers, in exactly these writings. */
  lemma ParseIntAcceptsExactly(s: string, n: int)
    ensures ParseInt(s) == Some(n) <==> -9_223_372_036_854_775_808 <= n <= 9_223_372_036_854_775_807 && Writes(s, n)
  {
    if ParseInt(s) == Some(n) {
      ParsedIsWritten(s, n);
    }
    if MIN_INT64 <= n <= MAX_INT64 && Writes(s, n) {
      var sign: string, k: nat :| SignOf(sign, n) && s == sign + (Zeros(k) + Itoa(Magnitude(n)));
      ItoaValue(Magnitude(n));
      ZerosInFront(k, Itoa(Magnitude(n)));
      WrittenIsParsed(sign, Zeros(k) + Itoa(Magnitude(n)), n);
    }
  }

  // ---- Room codes ----

  predicate IsCode(s: string) {
    |s| == 6 && AllDigits(s)
  }

  /** The verb %0<width>d. */
  function Padded(n: nat, width: nat): string {
    if width == 0 then "" else Padded(n / 10, width - 1) + [Digit(n % 10)]
  }

  /** generateRandomId prints the number it drew below one million with %06d. */
  function CodeOf(n: nat): string
    requires n < CODE_SPACE
  {
    Padded(n, 6)
  }

  function Pow10(k: nat): nat {
    if k == 0 then 1 else 10 * Pow10(k - 1)
  }

  lemma {:induction false} PaddedValue(n: nat, width: nat)
    requires n < Pow10(width)
    ensures |Padded(n, width)| == width && AllDigits(Padded(n, width)) && Value(Padded(n, width)) == n
  {
    if width > 0 {
      PaddedValue(n / 10, width - 1);
      assert Padded(n, width)[..width - 1] == Padded(n / 10, width - 1);
    }
  }

  lemma {:induction false} ValuePadded(s: string)
    requires AllDigits(s)
    ensures Value(s) < Pow10(|s|) && Padded(Value(s), |s|) == s
  {
    if s != "" {
      var init := s[..|s| - 1];
      ValuePadded(init);
      assert s == init + [s[|s| - 1]];
      assert Value(s) / 10 == Value(init);
    }
  }

  /** Printing is one-to-one between the numbers below a million and the six-digit strings. */
  lemma CodesAreExactlySixDigits(s: string)
    ensures IsCode(s) <==> exists n: nat :: n < CODE_SPACE && CodeOf(n) == s
    ensures forall n: nat | n < CODE_SPACE :: IsCode(CodeOf(n)) && Value(CodeOf(n)) == n
  {
    assert Pow10(6) == CODE_SPACE by {
      assert Pow10(3) == 1000;
    }
    forall n: nat | n < CODE_SPACE
      ensures IsCode(CodeOf(n)) && Value(CodeOf(n)) == n
    {
      PaddedValue(n, 6);
    }
    if IsCode(s) {
      ValuePadded(s);
      assert CodeOf(Value(s)) == s;
    }
  }

  // ---- Request names ----

  /** The name under which a client files its request: prefix, random number, room code. */
  function RequestName(n: nat, code: string): string {
    REQUEST_PREFIX + Itoa(n) + code
  }

  /** A name as it goes over the wire. */
  lemma RequestNamesRead()
    ensures RequestName(7, "123456") == "REQUESTCONNECTION_7123456"
  {
    assert Itoa(7) == "7";
  }

  /** Reads a request name from its fixed-width ends. */
  function SplitRequestName(name: string): Option<(nat, string)> {
    if |name| < 24 then None
    else
      var number := name[18..|name| - 6];
      if AllDigits(number) then Some((Value(number), name[|name| - 6..])) else None
  }

  /** A name whose code has six characters gives back its number and its code. */
  lemma RequestNameSplits(n: nat, code: string)
    requires |code| == 6
    ensures SplitRequestName(RequestName(n, code)) == Some((n, code))
  {
    ItoaValue(n);
    var name := RequestName(n, code);
    assert |REQUEST_PREFIX| == 18;
    assert name[18..|name| - 6] == Itoa(n);
    assert name[|name| - 6..] == code;
  }

  /** Two clients share a name only when they drew the same number for the same code. */
  lemma RequestNamesCollideOnlyOnEqualDraws(n1: nat, code1: string, n2: nat, code2: string)
    requires IsCode(code1) && IsCode(code2)
    ensures RequestName(n1, code1) == RequestName(n2, code2) <==> n1 == n2 && code1 == code2
  {
    RequestNameSplits(n1, code1);
    RequestNameSplits(n2, code2);
  }

  /** A name whose code has a known length gives back its number and its code. */
  lemma RequestNamesOfOneWidth(n1: nat, code1: string, n2: nat, code2: string)
    requires |code1| == |code2| && AllDigits(code1) && AllDigits(code2)
    ensures RequestName(n1, code1) == RequestName(n2, code2) <==> n1 == n2 && code1 == code2
  {
    if RequestName(n1, code1) == RequestName(n2, code2) {
      var name, p := RequestName(n1, code1), |REQUEST_PREFIX|;
      assert name[p..|name| - |code1|] == Itoa(n1) && name[p..|name| - |code2|] == Itoa(n2);
      assert name[|name| - |code1|..] == code1 && name[|name| - |code2|..] == code2;
      ItoaValue(n1);
      ItoaValue(n2);
    }
  }

  lemma {:induction false} PowersPrintAsZeros(k: nat)
    ensures Itoa(Pow10(k)) == "1" + Zeros(k)
  {
    if k > 0 {
      PowersPrintAsZeros(k - 1);
      assert Pow10(k) / 10 == Pow10(k - 1) && Pow10(k) % 10 == 0;
      assert Zeros(k) == Zeros(k - 1) + ['0'];
    }
  }

  /** Two requests with codes of digits, of the given lengths, that make the same name. */
  ghost predicate NamesCollide(a: nat, b: nat) {
    exists n1: nat, code1: string, n2: nat, code2: string ::
      && |code1| == a && AllDigits(code1) && |code2| == b && AllDigits(code2)
      && (n1 != n2 || code1 != code2) && RequestName(n1, code1) == RequestName(n2, code2)
  }

  lemma ShorterCodesCollide(a: nat, b: nat)
    requires a < b
    ensures NamesCollide(a, b) && NamesCollide(b, a)
  {
    var n := Pow10(b - a);
    PowersPrintAsZeros(b - a);
    assert Itoa(1) == "1" && Zeros(b - a) + Zeros(a) == Zeros(b);
    assert RequestName(n, Zeros(a)) == RequestName(1, Zeros(b));
    assert |Zeros(a)| == a && |Zeros(b)| == b;
  }

  /**
   Names are unambiguous exactly when all codes have the same length, whichever it is: any two
   lengths have a collision.
   */
  lemma RequestNamesNeedFixedWidth(a: nat, b: nat)
    ensures NamesCollide(a, b) <==> a != b
  {
    if a < b {
      ShorterCodesCollide(a, b);
    } else if b < a {
      ShorterCodesCollide(b, a);
    } else if NamesCollide(a, b) {
      var n1: nat, code1: string, n2: nat, code2: string :|
        && |code1| == a && AllDigits(code1) && |code2| == b && AllDigits(code2)
        && (n1 != n2 || code1 != code2) && RequestName(n1, code1) == RequestName(n2, code2);
      RequestNamesOfOneWidth(n1, code1, n2, code2);
    }
  }
}
