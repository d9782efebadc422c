/** The decimal printer itoa (client) and the /get argument parser parseGetArg (server), on 64-bit integers. */
module Text {
  const TWO_63 := 0x8000_0000_0000_0000
  const MIN_INT := -TWO_63
  const MAX_INT := TWO_63 - 1
  const QTY_LIMIT := 100000

  predicate IsInt64(n: int) { MIN_INT <= n <= MAX_INT }

  /** Two's-complement wrap-around of Go's int. */
  function Wrap(n: int): (w: int)
    ensures IsInt64(w) && (IsInt64(n) ==> w == n)
  {
    (n + TWO_63) % (2 * TWO_63) - TWO_63
  }

  predicate IsDigit(c: char) { '0' <= c <= '9' }

  function DigitChar(d: int): char
    requires 0 <= d < 10
  {
    '0' + d as char
  }

  function DigitValue(c: char): int
    requires IsDigit(c)
  {
    c as int - '0' as int
  }

  /** Decimal notation without leading zeros. */
  function Digits(n: nat): string {
    if n < 10 then [DigitChar(n)] else Digits(n / 10) + [DigitChar(n % 10)]
  }

  function Decimal(n: int): string { if n < 0 then "-" + Digits(-n) else Digits(n) }

  ghost predicate AllDigits(s: string) { forall i :: 0 <= i < |s| ==> IsDigit(s[i]) }

  /** The number a digit string denotes. */
  ghost function Value(s: string): nat
    requires AllDigits(s)
  {
    if s == [] then 0 else Value(s[..|s| - 1]) * 10 + DigitValue(s[|s| - 1])
  }

  /** Positional notation, the most significant digit first. */
  lemma {:induction false} DigitsStep(n: nat, d: nat)
    requires n > 0 && d < 10
    ensures Digits(10 * n + d) == Digits(n) + Digits(d) && Digits(d) == ["0123456789"[d]]
  {
    assert (10 * n + d) / 10 == n && (10 * n + d) % 10 == d;
  }

  lemma {:induction false} DigitsDenote(n: nat)
    ensures Digits(n) != [] && AllDigits(Digits(n)) && Value(Digits(n)) == n
  {
    var s := Digits(n);
    if n < 10 {
      assert s[..0] == [];
      assert Value(s[..0]) == 0;
    } else {
      DigitsDenote(n / 10);
      assert s[..|s| - 1] == Digits(n / 10);
    }
  }

  // ---------------------------------------------------------------------------------------------
  // itoa

  function Pow10(k: nat): nat { if k == 0 then 1 else 10 * Pow10(k - 1) }

  lemma {:induction false} FitsInNineteenDigits(n: int)
    requires 0 <= n <= MAX_INT
    ensures n < Pow10(19)
  {
    assert Pow10(4) == 10000;
    assert Pow10(8) == 10000 * Pow10(4);
    assert Pow10(12) == 10000 * Pow10(8);
    assert Pow10(16) == 10000 * Pow10(12);
    assert Pow10(19) == 1000 * Pow10(16);
  }

  lemma {:induction false} OneDigitLess(k: int, p: nat)
    requires 0 < k < Pow10(p)
    ensures p > 0 && 0 <= k / 10 < Pow10(p - 1)
  {
  }

  /** What is still to be written in front of the digits already in the buffer. */
  function Pending(n: nat): string { if n == 0 then "" else Digits(n) }

  lemma {:induction false} PendingStep(n: nat, tail: string)
    requires n > 0
    ensures Pending(n) + tail == Pending(n / 10) + ([DigitChar(n % 10)] + tail)
  {
  }

  /** The digit loop of itoa; its index stays inside the buffer and leaves room for a sign. */
  method FillDigits(buf: array<char>, n: int) returns (i: int)
    requires buf.Length == 20 && 0 < n <= MAX_INT
    modifies buf
    ensures 1 <= i <= 20 && buf[i..] == Digits(n)
  {
    var k := n;
    i := 20;
    FitsInNineteenDigits(n);
    while k > 0
      invariant 1 <= i <= 20 && 0 <= k < Pow10(i - 1)
      invariant Digits(n) == Pending(k) + buf[i..]
    {
      PendingStep(k, buf[i..]);
      OneDigitLess(k, i - 1);
      ghost var tail := buf[i..];
      i := i - 1;
      buf[i] := DigitChar(k % 10);
      assert buf[i..] == [DigitChar(k % 10)] + tail;
      k := k / 10;
    }
  }

  /**
   itoa: right for every int except the least one, whose negation overflows back to itself so that
   only the sign is printed.
   */
  method Itoa(n: int) returns (s: string)
    requires IsInt64(n)
    ensures s == if n == MIN_INT then "-" else Decimal(n)
    ensures n >= 0 ==> s == Digits(n)
    ensures MIN_INT < n < 0 ==> s == "-" + Digits(-n)
  {
    if n == 0 {
      return "0";
    }
    var neg, k := n < 0, n;
    if neg {
      k := Wrap(-n);
    }
    var buf := new char[20];
    var i := 20;
    if k > 0 {
      i := FillDigits(buf, k);
    }
    if neg {
      ghost var tail := buf[i..];
      i := i - 1;
      buf[i] := '-';
      assert buf[i..] == "-" + tail;
    }
    s := buf[i..];
  }

  // ---------------------------------------------------------------------------------------------
  // parseGetArg

  /** Where the trailing run of digits starts. */
  function TailStart(s: string): (i: nat)
    ensures i <= |s| && AllDigits(s[i..]) && (i > 0 ==> !IsDigit(s[i - 1]))
  {
    if s != [] && IsDigit(s[|s| - 1]) then
      var i := TailStart(s[..|s| - 1]);
      assert s[i..] == s[..|s| - 1][i..] + [s[|s| - 1]];
      i
    else |s|
  }

  function Clamp(n: int): int { if n > QTY_LIMIT then QTY_LIMIT else n }

  datatype GetArg = GetArg(name: string, qty: int, ok: bool)

  ghost function Parsed(rest: string): GetArg {
    var i := TailStart(rest);
    if i == 0 || i == |rest| then GetArg("", 0, false)
    else GetArg(rest[..i], Clamp(Wrap(Value(rest[i..]))), true)
  }

  /** Accepted iff a name is followed by at least one digit; the parts make up the whole. */
  lemma {:induction false} ParsedIff(rest: string)
    ensures var a := Parsed(rest);
            && (a.ok <==> rest != "" && IsDigit(rest[|rest| - 1]) && exists i :: 0 <= i < |rest| && !IsDigit(rest[i]))
            && (a.ok ==> a.name != "" && a.name < rest && AllDigits(rest[|a.name|..]) && !IsDigit(a.name[|a.name| - 1]))
            && (!a.ok ==> a == GetArg("", 0, false))
  {
    var i := TailStart(rest);
    if i < |rest| { assert IsDigit(rest[i..][|rest| - 1 - i]); }
    if i == 0 {
      forall k | 0 <= k < |rest| ensures IsDigit(rest[k]) {
        assert rest[k] == rest[i..][k];
      }
    }
  }

  lemma {:induction false} WrapStep(v: int, d: int)
    ensures Wrap(Wrap(Wrap(v) * 10) + d) == Wrap(v * 10 + d)
  {
    var m := 2 * TWO_63;
    var k := (v + TWO_63) / m;
    assert Wrap(v) == v - k * m;
    var k2 := (Wrap(v) * 10 + TWO_63) / m;
    assert Wrap(Wrap(v) * 10) == Wrap(v) * 10 - k2 * m;
    WrapShift(v * 10 + d, 10 * k + k2);
  }

  lemma {:induction false} WrapShift(n: int, k: int)
    ensures Wrap(n - k * (2 * TWO_63)) == Wrap(n)
  {
    var m := 2 * TWO_63;
    var a := n + TWO_63;
    assert a - k * m == (a / m - k) * m + a % m;
  }

  /** The trailing digits are unique: nothing else splits the string this way. */
  lemma {:induction false} TailStartUnique(s: string, i: nat)
    requires i <= |s| && AllDigits(s[i..]) && (i > 0 ==> !IsDigit(s[i - 1]))
    ensures TailStart(s) == i
  {
    var j := TailStart(s);
    forall k | j <= k < |s| ensures IsDigit(s[k]) {
      assert s[k] == s[j..][k - j];
    }
    forall k | i <= k < |s| ensures IsDigit(s[k]) {
      assert s[k] == s[i..][k - i];
    }
  }

  method ParseGetArg(rest: string) returns (name: string, qty: int, ok: bool)
    ensures GetArg(name, qty, ok) == Parsed(rest)
  {
    var i := |rest|;
    while i > 0 && IsDigit(rest[i - 1])
      invariant 0 <= i <= |rest| && AllDigits(rest[i..])
    {
      assert rest[i - 1..] == [rest[i - 1]] + rest[i..];
      i := i - 1;
    }
    TailStartUnique(rest, i);
    name, qty, ok := rest[..i], 0, true;
    var digits := rest[i..];
    if name == "" || digits == "" {
      return "", 0, false;
    }
    for j := 0 to |digits|
      invariant AllDigits(digits[..j]) && qty == Wrap(Value(digits[..j]))
    {
      assert digits[..j + 1][..j] == digits[..j];
      WrapStep(Value(digits[..j]), DigitValue(digits[j]));
      qty := Wrap(Wrap(qty * 10) + DigitValue(digits[j]));
    }
    assert digits[..|digits|] == digits;
    if qty > QTY_LIMIT {
      qty := QTY_LIMIT;
    }
  }

  // ---------------------------------------------------------------------------------------------
  // The parser against the printer

  predicate Parseable(name: string) { name != "" && !IsDigit(name[|name| - 1]) }

  lemma {:induction false} ParsePrinted(name: string, n: nat)
    ensures Parseable(name) ==> Parsed(name + Digits(n)) == GetArg(name, Clamp(Wrap(n)), true)
    ensures !Parseable(name) ==> Parsed(name + Digits(n)).name != name || !Parsed(name + Digits(n)).ok
  {
    DigitsDenote(n);
    var s := name + Digits(n);
    assert s[|name|..] == Digits(n) && s[..|name|] == name;
    var i := TailStart(s);
    if Parseable(name) {
      TailStartUnique(s, |name|);
    } else {
      assert i > 0 ==> i != |name|;
      assert |s[..i]| == i;
    }
  }

  /** For every printable count, parsing undoes printing exactly when the name is non-empty and ends in no digit. */
  lemma {:induction false} ParserUndoesPrinter(name: string, n: int)
    requires 0 <= n <= MAX_INT
    ensures Parsed(name + Decimal(n)) == GetArg(name, if n > 100000 then 100000 else n, true) <==>
            name != "" && !('0' <= name[|name| - 1] <= '9')
  {
    ParsePrinted(name, n);
  }

  /** The quantity is the written one, limited to 100000, exactly when the wrapped accumulator says so. */
  lemma {:induction false} QuantityExactIff(name: string, n: nat)
    requires Parseable(name)
    ensures Parsed(name + Digits(n)) == GetArg(name, if n > 100000 then 100000 else n, true) <==>
            n <= MAX_INT || Wrap(n) >= 100000
  {
    ParsePrinted(name, n);
  }

  lemma {:induction false} WrapHigh(n: int)
    requires TWO_63 <= n < 2 * TWO_63
    ensures Wrap(n) == n - 2 * TWO_63
  {
    WrapShift(n, 1);
  }

  /** Every count from 2^63 up to 2^64 is accepted as a negative quantity. */
  lemma {:induction false} NegativeQuantity(name: string, n: nat)
    requires Parseable(name) && TWO_63 <= n < 2 * TWO_63
    ensures Parsed(name + Digits(n)) == GetArg(name, n - 2 * TWO_63, true)
  {
    WrapHigh(n);
    ParsePrinted(name, n);
  }
}
