/** Exact conversion between decimal amounts and integer base units (go-api/internal/money/convert.go). */
module Money {
  import opened Common

  datatype MoneyError = TooPrecise | NotANumber

  predicate IsDigit(c: char) {
    '0' <= c <= '9'
  }

  predicate Digits(s: string) {
    forall i :: 0 <= i < |s| ==> IsDigit(s[i])
  }

  function Zeros(k: nat): (z: string)
    ensures |z| == k
  {
    seq(k, _ => '0')
  }

  /** The number a digit string denotes. */
  function NatOf(s: string): nat
    requires Digits(s)
  {
    if s == [] then 0 else 10 * NatOf(s[..|s| - 1]) + (s[|s| - 1] - '0') as nat
  }

  function DigitChar(d: nat): char
    requires d < 10
  {
    '0' + d as char
  }

  /** `big.Int.String` on a non-negative number. */
  function PrintNat(n: nat): (s: string)
    ensures s != [] && Digits(s)
  {
    if n < 10 then [DigitChar(n)] else PrintNat(n / 10) + [DigitChar(n % 10)]
  }

  /** `big.Int.SetString(s, 10)`: an optional sign and at least one digit, and nothing else. */
  function SetString(s: string): Option<int> {
    var signed := s != [] && (s[0] == '+' || s[0] == '-');
    var body := if signed then s[1..] else s;
    if body == [] || !Digits(body) then None
    else if signed && s[0] == '-' then Some(0 - NatOf(body))
    else Some(NatOf(body))
  }

  /** `strings.IndexByte(s, '.')`, with the length of `s` when there is none. */
  function IndexOfDot(s: string): (i: nat)
    ensures i <= |s| && '.' !in s[..i] && (i < |s| ==> s[i] == '.')
  {
    if s == [] || s[0] == '.' then 0
    else
      var i := 1 + IndexOfDot(s[1..]);
      assert s[..i] == [s[0]] + s[1..][..i - 1];
      i
  }

  function IntPart(amount: string): string {
    amount[..IndexOfDot(amount)]
  }

  function FracPart(amount: string): string {
    var i := IndexOfDot(amount);
    if i < |amount| then amount[i + 1..] else []
  }

  function DecimalToBaseUnits(amount: string, decimals: nat): (r: Result<int, MoneyError>)
    ensures r == Err(TooPrecise) <==> |FracPart(amount)| > decimals
  {
    var intPart, fracPart := IntPart(amount), FracPart(amount);
    if |fracPart| > decimals then Err(TooPrecise)
    else
      var digits := intPart + (fracPart + Zeros(decimals - |fracPart|));
      match SetString(digits)
      case None => Err(NotANumber)
      case Some(n) => Ok(n)
  }

  function PadLeft(s: string, width: nat): string {
    if |s| < width then Zeros(width - |s|) + s else s
  }

  /** `strings.TrimRight(s, "0")`. */
  function TrimZeros(s: string): (t: string)
    ensures |t| <= |s| && t == s[..|t|] && (forall i :: |t| <= i < |s| ==> s[i] == '0')
    ensures t != [] ==> t[|t| - 1] != '0'
  {
    if s == [] || s[|s| - 1] != '0' then s else TrimZeros(s[..|s| - 1])
  }

  lemma TrimmedZeros(s: string)
    ensures s == TrimZeros(s) + Zeros(|s| - |TrimZeros(s)|)
  {
  }

  lemma {:induction false} TrimPadded(f: string, k: nat)
    requires f == [] || f[|f| - 1] != '0'
    ensures TrimZeros(f + Zeros(k)) == f
  {
    if k == 0 {
      assert f + Zeros(0) == f;
    } else {
      assert (f + Zeros(k))[..|f| + k - 1] == f + Zeros(k - 1);
      TrimPadded(f, k - 1);
    }
  }

  function Sign(neg: bool): string {
    if neg then "-" else ""
  }

  function Join(intPart: string, fracPart: string): string {
    if fracPart == [] then intPart else intPart + ("." + fracPart)
  }

  /** The digits of |n|, padded so that at least one stands before the decimal point. */
  function Padded(n: int, decimals: nat): (s: string)
    ensures |s| > decimals && Digits(s)
  {
    PadLeft(PrintNat(if n < 0 then -n else n), decimals + 1)
  }

  /** The canonical decimal form of `n` base units. */
  function Format(n: int, decimals: nat): string {
    var s := Padded(n, decimals);
    Join(Sign(n < 0) + s[..|s| - decimals], TrimZeros(s[|s| - decimals..]))
  }

  /** A plain decimal numeral: optional sign, digits, and possibly a dot and digits. */
  predicate Numeral(s: string) {
    Digits(UnsignedInt(s)) && Digits(FracPart(s))
  }

  predicate Negative(s: string) {
    s != [] && s[0] == '-'
  }

  function UnsignedInt(s: string): string {
    var i := IntPart(s);
    if i != [] && (i[0] == '+' || i[0] == '-') then i[1..] else i
  }

  /** The numerator of the value of `s` over 10 to the number of its fractional digits. */
  function Numerator(s: string): int
    requires Numeral(s)
  {
    if Negative(s) then 0 - NatOf(UnsignedInt(s) + FracPart(s)) else NatOf(UnsignedInt(s) + FracPart(s))
  }

  /** One way to write each value: no superfluous zero, sign or dot. */
  predicate Canonical(s: string) {
    && Numeral(s)
    && UnsignedInt(s) != [] && (UnsignedInt(s)[0] == '0' ==> UnsignedInt(s) == "0")
    && (s[0] != '+')
    && ('.' in s ==> FracPart(s) != []) && (FracPart(s) != [] ==> FracPart(s)[|FracPart(s)| - 1] != '0')
    && (Negative(s) ==> Numerator(s) != 0)
  }

  function Pow10(k: nat): (p: nat)
    ensures p > 0
  {
    if k == 0 then 1 else 10 * Pow10(k - 1)
  }

  lemma {:induction false} NatOfZerosAfter(s: string, k: nat)
    requires Digits(s)
    ensures NatOf(s + Zeros(k)) == NatOf(s) * Pow10(k)
  {
    if k == 0 {
      assert s + Zeros(0) == s;
    } else {
      var t := s + Zeros(k);
      assert t[..|t| - 1] == s + Zeros(k - 1);
      NatOfZerosAfter(s, k - 1);
    }
  }

  lemma {:induction false} NatOfZerosBefore(k: nat, s: string)
    requires Digits(s)
    ensures Digits(Zeros(k) + s) && NatOf(Zeros(k) + s) == NatOf(s)
  {
    var t := Zeros(k) + s;
    if s == [] {
      if k > 0 {
        assert t[..k - 1] == Zeros(k - 1) + s;
        NatOfZerosBefore(k - 1, s);
      }
    } else {
      assert t[..|t| - 1] == Zeros(k) + s[..|s| - 1];
      NatOfZerosBefore(k, s[..|s| - 1]);
    }
  }

  lemma {:induction false} PrintThenRead(n: nat)
    ensures NatOf(PrintNat(n)) == n
  {
    if n >= 10 {
      var s := PrintNat(n);
      assert s[..|s| - 1] == PrintNat(n / 10);
      PrintThenRead(n / 10);
    }
  }

  /** Printing the value of a digit string gives it back up to leading zeros. */
  lemma {:induction false} ReadThenPrint(s: string)
    requires s != [] && Digits(s)
    ensures PadLeft(PrintNat(NatOf(s)), |s|) == s
    ensures |PrintNat(NatOf(s))| <= |s| && (s[0] != '0' ==> |PrintNat(NatOf(s))| == |s|)
  {
    hide PrintNat, NatOf, DigitChar, Digits;
    var init, c := s[..|s| - 1], s[|s| - 1];
    var d := LastDigit(s);
    if init == [] {
      PrintDigit(d);
      NoDigits();
    } else {
      ReadThenPrint(init);
      if NatOf(init) == 0 {
        PrintDigit(0);
        PrintDigit(d);
        assert init == Zeros(|init| - 1) + "0" == Zeros(|init|);
      } else {
        PrintStep(NatOf(init), d);
      }
    }
  }

  lemma LastDigit(s: string) returns (d: nat)
    requires s != [] && Digits(s)
    ensures d < 10 && Digits(s[..|s| - 1]) && NatOf(s) == 10 * NatOf(s[..|s| - 1]) + d
    ensures s == s[..|s| - 1] + [DigitChar(d)]
  {
    d := (s[|s| - 1] - '0') as nat;
    assert DigitChar(d) == s[|s| - 1];
  }

  lemma PrintDigit(d: nat)
    requires d < 10
    ensures PrintNat(d) == [DigitChar(d)] && DigitChar(0) == '0' && NatOf("") == 0
  {
  }

  lemma PrintStep(v: nat, d: nat)
    requires v > 0 && d < 10
    ensures PrintNat(10 * v + d) == PrintNat(v) + [DigitChar(d)]
  {
    assert (10 * v + d) / 10 == v && (10 * v + d) % 10 == d;
  }

  /** Where the first dot of `sign + digits + rest` is, when `rest` is empty or starts with it. */
  lemma {:induction false} DotPosition(i: string, rest: string)
    requires '.' !in i && (rest == [] || rest[0] == '.')
    ensures IndexOfDot(i + rest) == |i|
  {
    if i != [] {
      assert (i + rest)[1..] == i[1..] + rest;
      DotPosition(i[1..], rest);
    }
  }

  lemma Parts(i: string, f: string)
    requires '.' !in i
    ensures IntPart(Join(i, f)) == i && FracPart(Join(i, f)) == f
  {
    DotPosition(i, if f == [] then [] else "." + f);
    assert i + [] == i;
  }

  /** A sign and digits hold no dot. */
  lemma SignedDigitsHaveNoDot(neg: bool, s: string)
    requires Digits(s)
    ensures '.' !in Sign(neg) + s
  {
  }

  lemma SetStringSigned(neg: bool, s: string)
    requires s != [] && Digits(s)
    ensures SetString(Sign(neg) + s) == Some(if neg then 0 - NatOf(s) else NatOf(s))
  {
    var t := Sign(neg) + s;
    assert neg ==> t[1..] == s;
    assert !neg ==> t == s;
  }

  lemma PaddedValue(n: int, decimals: nat)
    ensures NatOf(Padded(n, decimals)) == if n < 0 then -n else n
  {
    var m := if n < 0 then -n else n;
    PrintThenRead(m);
    if |PrintNat(m)| < decimals + 1 {
      NatOfZerosBefore(decimals + 1 - |PrintNat(m)|, PrintNat(m));
    }
  }

  lemma PaddedDigits(n: int, decimals: nat)
    ensures var s := Padded(n, decimals); |s| >= decimals && Digits(s[..|s| - decimals])
    ensures var s := Padded(n, decimals);
      Format(n, decimals) == Join(Sign(n < 0) + s[..|s| - decimals], TrimZeros(s[|s| - decimals..]))
  {
    hide PrintNat, Join, Sign, TrimZeros;
  }

  /** The two halves of a formatted amount. */
  lemma FormatParts(n: int, decimals: nat)
    ensures var s := Padded(n, decimals);
      && IntPart(Format(n, decimals)) == Sign(n < 0) + s[..|s| - decimals]
      && FracPart(Format(n, decimals)) == TrimZeros(s[|s| - decimals..])
  {
    hide *;
    var s := Padded(n, decimals);
    PaddedDigits(n, decimals);
    SignedDigitsHaveNoDot(n < 0, s[..|s| - decimals]);
    Parts(Sign(n < 0) + s[..|s| - decimals], TrimZeros(s[|s| - decimals..]));
  }

  lemma ParseParts(s: string, decimals: nat, digits: string)
    requires |FracPart(s)| <= decimals && digits == IntPart(s) + (FracPart(s) + Zeros(decimals - |FracPart(s)|))
    requires SetString(digits).Some?
    ensures DecimalToBaseUnits(s, decimals) == Ok(SetString(digits).value)
  {
  }

  lemma Reassemble(sign: string, s: string, k: nat, f: string, z: string)
    requires k <= |s| && s[k..] == f + z
    ensures (sign + s[..k]) + (f + z) == sign + s
  {
    assert s == s[..k] + s[k..];
  }

  /** Printing base units and reading them back loses nothing, for every integer and precision. */
  lemma FormatThenParse(n: int, decimals: nat)
    ensures DecimalToBaseUnits(Format(n, decimals), decimals) == Ok(n)
  {
    hide *;
    var s := Padded(n, decimals);
    FormatParts(n, decimals);
    PaddedValue(n, decimals);
    SetStringSigned(n < 0, s);
    var f := TrimZeros(s[|s| - decimals..]);
    TrimmedZeros(s[|s| - decimals..]);
    Reassemble(Sign(n < 0), s, |s| - decimals, f, Zeros(decimals - |f|));
    ParseParts(Format(n, decimals), decimals, Sign(n < 0) + s);
  }

  /** What `SetString` is given, for a numeral: its sign, then all its digits, then the padding. */
  lemma NumeralDigits(s: string, decimals: nat)
    requires Numeral(s) && |FracPart(s)| <= decimals
    ensures var body := (UnsignedInt(s) + FracPart(s)) + Zeros(decimals - |FracPart(s)|);
      SetString(IntPart(s) + (FracPart(s) + Zeros(decimals - |FracPart(s)|)))
        == if body == [] then None else Some(if Negative(s) then 0 - NatOf(body) else NatOf(body))
  {
    var i, u, f, z := IntPart(s), UnsignedInt(s), FracPart(s), Zeros(decimals - |FracPart(s)|);
    var t, body := i + (f + z), (u + f) + z;
    assert i != [] ==> i[0] == s[0];
    assert i == [] ==> !Negative(s);
    hide SetString, NatOf, IndexOfDot, IntPart, FracPart;
    if i != u {
      assert t[1..] == body && t[0] == i[0];
      SetStringValue(t, true, body);
    } else {
      assert t == body;
      SetStringValue(t, false, body);
    }
  }

  lemma SetStringValue(t: string, signed: bool, body: string)
    requires signed <==> t != [] && (t[0] == '+' || t[0] == '-')
    requires body == (if signed then t[1..] else t) && Digits(body)
    ensures SetString(t) ==
      if body == [] then None else Some(if signed && t[0] == '-' then 0 - NatOf(body) else NatOf(body))
  {
  }

  /** A numeral no finer than the precision is accepted, and keeps its value exactly. */
  lemma ParseKeepsValue(s: string, decimals: nat)
    requires Numeral(s) && |FracPart(s)| <= decimals && |UnsignedInt(s)| + decimals > 0
    ensures DecimalToBaseUnits(s, decimals) == Ok(Numerator(s) * Pow10(decimals - |FracPart(s)|))
  {
    hide *;
    var k := decimals - |FracPart(s)|;
    var m: int := NumeratorOf(s);
    NumeralDigits(s, decimals);
    NatOfZerosAfter(UnsignedInt(s) + FracPart(s), k);
    ParseParts(s, decimals, IntPart(s) + (FracPart(s) + Zeros(k)));
    Negated(m, Pow10(k));
  }

  lemma NumeratorOf(s: string) returns (m: nat)
    requires Numeral(s)
    ensures Digits(UnsignedInt(s) + FracPart(s)) && m == NatOf(UnsignedInt(s) + FracPart(s))
    ensures Numerator(s) == if Negative(s) then 0 - m as int else m
  {
    m := NatOf(UnsignedInt(s) + FracPart(s));
  }

  lemma Negated(m: int, p: int)
    ensures (0 - m) * p == 0 - m * p
  {
  }

  /** The one shape accepted beyond numerals: nothing before the dot, and a sign right after it. */
  predicate SignAfterDot(s: string) {
    && IntPart(s) == []
    && FracPart(s) != [] && (FracPart(s)[0] == '+' || FracPart(s)[0] == '-')
    && Digits(FracPart(s)[1..])
  }

  lemma SplitDigits(a: string, b: string, z: string)
    requires Digits(z)
    ensures Digits((a + b) + z) <==> Digits(a) && Digits(b)
  {
    var s := (a + b) + z;
    if Digits(s) {
      assert forall i :: 0 <= i < |a| ==> s[i] == a[i];
      assert forall i :: 0 <= i < |b| ==> s[|a| + i] == b[i];
    }
  }

  lemma SetStringAccepts(t: string, signed: bool, body: string)
    requires signed <==> t != [] && (t[0] == '+' || t[0] == '-')
    requires body == if signed then t[1..] else t
    ensures SetString(t).Some? <==> body != [] && Digits(body)
  {
  }

  lemma ParsedText(s: string, decimals: nat)
    ensures DecimalToBaseUnits(s, decimals).Ok? <==>
      |FracPart(s)| <= decimals && SetString(IntPart(s) + (FracPart(s) + Zeros(decimals - |FracPart(s)|))).Some?
  {
    hide SetString, IntPart, FracPart;
  }

  lemma ZerosAreDigits(k: nat)
    ensures Digits(Zeros(k))
  {
  }

  /** Exactly which strings are accepted. */
  lemma AcceptedExactly(s: string, decimals: nat)
    ensures DecimalToBaseUnits(s, decimals).Ok? <==>
      && |FracPart(s)| <= decimals
      && ((Numeral(s) && |UnsignedInt(s)| + decimals > 0) || (SignAfterDot(s) && decimals > 1))
  {
    hide SetString, DecimalToBaseUnits, Digits, IndexOfDot, IntPart, FracPart;
    var i, u, f := IntPart(s), UnsignedInt(s), FracPart(s);
    ParsedText(s, decimals);
    if |f| <= decimals {
      var z := Zeros(decimals - |f|);
      var t := i + (f + z);
      ZerosAreDigits(decimals - |f|);
      if i != u {
        assert t[1..] == (u + f) + z && t[0] == i[0];
        SetStringAccepts(t, true, (u + f) + z);
        SplitDigits(u, f, z);
      } else if i == [] && f != [] && (f[0] == '+' || f[0] == '-') {
        assert t == f + z && t[1..] == ([] + f[1..]) + z;
        SetStringAccepts(t, true, ([] + f[1..]) + z);
        SplitDigits([], f[1..], z);
        assert [] + f[1..] == f[1..];
        NotADigit(f);
        NoDigits();
        assert !Numeral(s) && (SignAfterDot(s) <==> Digits(f[1..]));
      } else {
        assert t == (u + f) + z;
        SetStringAccepts(t, false, t);
        SplitDigits(u, f, z);
      }
    }
  }

  lemma NoDigits()
    ensures Digits("")
  {
  }

  lemma NotADigit(f: string)
    requires f != [] && !IsDigit(f[0])
    ensures !Digits(f)
  {
  }

  /** The formatted amount is a canonical numeral. */
  lemma FormatIsCanonical(n: int, decimals: nat)
    ensures Canonical(Format(n, decimals))
  {
    hide PrintNat, NatOf, SetString, DecimalToBaseUnits;
    var s, t := Padded(n, decimals), Format(n, decimals);
    FormatParts(n, decimals);
    FormatThenParse(n, decimals);
    assert UnsignedInt(t) == s[..|s| - decimals];
    LeadingDigit(n, decimals);
    if Negative(t) {
      ParseKeepsValue(t, decimals);
    }
  }

  lemma {:induction false} NoLeadingZero(n: nat)
    ensures PrintNat(n)[0] == '0' ==> n == 0
  {
    if n >= 10 { NoLeadingZero(n / 10); }
  }

  lemma LeadingDigit(n: int, decimals: nat)
    ensures Padded(n, decimals)[0] == '0' ==> |Padded(n, decimals)| == decimals + 1
  {
    NoLeadingZero(if n < 0 then -n else n);
  }

  /** A canonical numeral is its sign, its integer digits and its fraction. */
  lemma CanonicalParts(s: string)
    requires Canonical(s)
    ensures s == Join(Sign(Negative(s)) + UnsignedInt(s), FracPart(s))
  {
    hide Numeral, Numerator, UnsignedInt, FracPart, IntPart, Negative, Sign, Join;
    SignedInt(s);
    JoinedParts(s);
  }

  lemma SignedInt(s: string)
    requires s != [] ==> s[0] != '+'
    ensures Sign(Negative(s)) + UnsignedInt(s) == IntPart(s)
  {
    hide IndexOfDot;
    var i := IntPart(s);
    if s != [] && s[0] == '-' {
      assert i != [] && i[0] == '-';
      assert i == ['-'] + i[1..];
    }
  }

  lemma JoinedParts(s: string)
    requires '.' in s ==> FracPart(s) != []
    ensures s == Join(IntPart(s), FracPart(s))
  {
    hide IndexOfDot;
    var k := IndexOfDot(s);
    if k < |s| {
      assert s == s[..k] + ("." + s[k + 1..]);
    }
  }

  /** Padding restores exactly the digits of a canonical numeral. */
  lemma CanonicalPads(u: string, fz: string, n: int)
    requires u != [] && Digits(u + fz) && (u[0] == '0' ==> u == "0")
    requires NatOf(u + fz) == if n < 0 then -n else n
    ensures Padded(n, |fz|) == u + fz
  {
    ReadThenPrint(u + fz);
  }

  /** Reading a canonical numeral and printing the result gives back the same string. */
  lemma ParseThenFormat(s: string, decimals: nat)
    requires Canonical(s) && |FracPart(s)| <= decimals
    ensures DecimalToBaseUnits(s, decimals).Ok?
    ensures Format(DecimalToBaseUnits(s, decimals).value, decimals) == s
  {
    hide *;
    var u, f, k := UnsignedInt(s), FracPart(s), decimals - |FracPart(s)|;
    var fz := f + Zeros(k);
    var m := CanonicalFacts(s, k);
    var n := Numerator(s) * Pow10(k);
    ParseKeepsValue(s, decimals);
    NatOfZerosAfter(u + f, k);
    SignOfProduct(m, Pow10(k));
    CanonicalPads(u, fz, n);
    TrimPadded(f, k);
    CanonicalParts(s);
    FormatOf(n, decimals, u, fz);
  }

  /** The two numerals denote the same amount. */
  predicate SameValue(s: string, t: string, decimals: nat)
    requires Numeral(s) && Numeral(t) && |FracPart(s)| <= decimals && |FracPart(t)| <= decimals
  {
    Numerator(s) * Pow10(decimals - |FracPart(s)|) == Numerator(t) * Pow10(decimals - |FracPart(t)|)
  }

  /** The two numerals denote the same number, however many digits each is written with. */
  predicate SameNumber(s: string, t: string) {
    Numeral(s) && Numeral(t) && Numerator(s) * Pow10(|FracPart(t)|) == Numerator(t) * Pow10(|FracPart(s)|)
  }

  lemma {:induction false} PowersAdd(a: nat, b: nat)
    ensures Pow10(a) * Pow10(b) == Pow10(a + b)
  {
    if a > 0 {
      PowersAdd(a - 1, b);
      Regroup(10, Pow10(a - 1), Pow10(b));
    }
  }

  lemma Regroup(x: int, y: int, z: int)
    ensures x * y * z == x * (y * z)
  {
  }

  lemma Swap(x: int, y: int, z: int)
    ensures x * y * z == x * z * y
  {
  }

  lemma Cancel(x: int, y: int, k: int)
    requires k > 0
    ensures x * k == y * k <==> x == y
  {
    if x < y { assert (y - x) * k > 0; }
    if y < x { assert (x - y) * k > 0; }
  }

  /** Scaling `x / 10^a` up to `d` decimals and back down again. */
  lemma Scaled(x: int, a: nat, b: nat, d: nat)
    requires a <= d
    ensures x * Pow10(d - a) * (Pow10(a) * Pow10(b)) == x * Pow10(b) * Pow10(d)
  {
    hide Pow10;
    var p, q, r := Pow10(d - a), Pow10(a), Pow10(b);
    PowersAdd(d - a, a);
    Regroup(x * p, q, r);
    Regroup(x, p, q);
    Swap(x, r, Pow10(d));
  }

  lemma CrossMultiply(x: int, a: nat, y: int, b: nat, d: nat)
    requires a <= d && b <= d
    ensures x * Pow10(d - a) == y * Pow10(d - b) <==> x * Pow10(b) == y * Pow10(a)
  {
    hide Pow10;
    var k := Pow10(a) * Pow10(b);
    assert k == Pow10(b) * Pow10(a);
    PowersAdd(a, b);
    Scaled(x, a, b, d);
    Scaled(y, b, a, d);
    Cancel(x * Pow10(d - a), y * Pow10(d - b), k);
    Cancel(x * Pow10(b), y * Pow10(a), Pow10(d));
  }

  /** Two numerals denote the same number exactly when they convert to the same base units, at any precision. */
  lemma SameNumberExactly(s: string, t: string, decimals: nat)
    requires Numeral(s) && Numeral(t) && |FracPart(s)| <= decimals && |FracPart(t)| <= decimals && decimals > 0
    ensures SameNumber(s, t) <==> DecimalToBaseUnits(s, decimals) == DecimalToBaseUnits(t, decimals)
  {
    hide Numerator, Pow10, DecimalToBaseUnits, Numeral, FracPart, UnsignedInt;
    ParseKeepsValue(s, decimals);
    ParseKeepsValue(t, decimals);
    CrossMultiply(Numerator(s), |FracPart(s)|, Numerator(t), |FracPart(t)|, decimals);
  }

  lemma FormatFits(n: int, decimals: nat)
    ensures |FracPart(Format(n, decimals))| <= decimals
  {
    hide *;
    FormatThenParse(n, decimals);
    assert DecimalToBaseUnits(Format(n, decimals), decimals) != Err(TooPrecise);
  }

  lemma CanonicalIsNumeral(s: string)
    requires Canonical(s)
    ensures Numeral(s) && UnsignedInt(s) != []
  {
  }

  /** Reading any accepted numeral and printing the result gives its one canonical form, with the same value. */
  lemma NormalForm(s: string, decimals: nat)
    requires Numeral(s) && DecimalToBaseUnits(s, decimals).Ok?
    ensures var t := Format(DecimalToBaseUnits(s, decimals).value, decimals);
      && Canonical(t) && Numeral(t) && |FracPart(s)| <= decimals && |FracPart(t)| <= decimals
      && SameValue(s, t, decimals)
      && forall u :: Canonical(u) && Numeral(u) && |FracPart(u)| <= decimals && SameValue(s, u, decimals) ==> u == t
  {
    hide *;
    AcceptedExactly(s, decimals);
    SignedNumeral(s);
    ParseKeepsValue(s, decimals);
    var n := DecimalToBaseUnits(s, decimals).value;
    var t := Format(n, decimals);
    FormatIsCanonical(n, decimals);
    CanonicalIsNumeral(t);
    FormatFits(n, decimals);
    FormatThenParse(n, decimals);
    ParseKeepsValue(t, decimals);
    SameIs(s, t, decimals);
    forall u | Canonical(u) && Numeral(u) && |FracPart(u)| <= decimals && SameValue(s, u, decimals)
      ensures u == t
    {
      CanonicalIsNumeral(u);
      SameIs(s, u, decimals);
      ParseKeepsValue(u, decimals);
      ParseThenFormat(u, decimals);
    }
  }

  lemma SameIs(s: string, t: string, decimals: nat)
    requires Numeral(s) && Numeral(t) && |FracPart(s)| <= decimals && |FracPart(t)| <= decimals
    ensures SameValue(s, t, decimals) <==>
      Numerator(s) * Pow10(decimals - |FracPart(s)|) == Numerator(t) * Pow10(decimals - |FracPart(t)|)
  {
    hide Numerator, Pow10;
  }

  /** A numeral is never one of the strings with its sign after the dot. */
  lemma SignedNumeral(s: string)
    requires Numeral(s)
    ensures !SignAfterDot(s)
  {
    hide IndexOfDot, IntPart, FracPart, UnsignedInt;
    if FracPart(s) != [] { assert IsDigit(FracPart(s)[0]); }
  }

  lemma CanonicalFacts(s: string, k: nat) returns (m: nat)
    requires Canonical(s)
    ensures var u, f := UnsignedInt(s), FracPart(s);
      && Numeral(s) && u != [] && (u[0] == '0' ==> u == "0") && (f == [] || f[|f| - 1] != '0')
      && Digits(u + f) && m == NatOf(u + f) && (u + f) + Zeros(k) == u + (f + Zeros(k)) && |Zeros(k)| == k
      && Digits(u + (f + Zeros(k)))
      && (if Negative(s) then Numerator(s) == 0 - m as int && m > 0 else Numerator(s) == m)
  {
    m := NumeratorOf(s);
  }

  lemma SignOfProduct(m: nat, p: nat)
    requires p > 0
    ensures m * p >= 0 && (m > 0 ==> m * p > 0) && (0 - m as int) * p == 0 - m * p
  {
  }

  lemma FormatOf(n: int, decimals: nat, u: string, fz: string)
    requires Padded(n, decimals) == u + fz && |fz| == decimals
    ensures Format(n, decimals) == Join(Sign(n < 0) + u, TrimZeros(fz))
  {
    assert (u + fz)[..|u|] == u && (u + fz)[|u|..] == fz;
  }

  method BaseUnitsToDecimal(amount: int, decimals: nat) returns (result: string)
    ensures result == Format(amount, decimals)
    ensures Canonical(result) && DecimalToBaseUnits(result, decimals) == Ok(amount)
  {
    hide *;
    var neg := amount < 0;
    var s := PrintNat(if neg then -amount else amount);
    PadIs(s, amount, decimals);

    while |s| <= decimals
      invariant PadLeft(s, decimals + 1) == Padded(amount, decimals)
      decreases decimals + 1 - |s|
    {
      PadOneMore(s, decimals + 1);
      s := "0" + s;
    }
    PadIs(s, amount, decimals);
    FormatAssembled(amount, decimals, s);
    var splitAt := |s| - decimals;
    var intPart, fracPart := s[..splitAt], TrimZeros(s[splitAt..]);
    result := intPart;
    if fracPart != "" {
      result := result + ("." + fracPart);
    }
    if neg && result != "0" {
      result := "-" + result;
    }
  }

  lemma FormatAssembled(n: int, decimals: nat, s: string)
    requires s == Padded(n, decimals)
    ensures var i, f := s[..|s| - decimals], TrimZeros(s[|s| - decimals..]);
      var t := if f != "" then i + ("." + f) else i;
      Format(n, decimals) == if n < 0 && t != "0" then "-" + t else t
    ensures Canonical(Format(n, decimals)) && DecimalToBaseUnits(Format(n, decimals), decimals) == Ok(n)
  {
    hide *;
    var i, f := s[..|s| - decimals], TrimZeros(s[|s| - decimals..]);
    JoinIs(i, f);
    UnsignedFormat(n, decimals, Join(i, f));
    FormatThenParse(n, decimals);
    FormatIsCanonical(n, decimals);
  }

  lemma PadIs(s: string, n: int, decimals: nat)
    ensures s == PrintNat(if n < 0 then -n else n) ==> PadLeft(s, decimals + 1) == Padded(n, decimals)
    ensures |s| > decimals ==> PadLeft(s, decimals + 1) == s
  {
  }

  lemma JoinIs(i: string, f: string)
    ensures Join(i, f) == if f != "" then i + ("." + f) else i
  {
  }

  lemma PadOneMore(s: string, width: nat)
    requires |s| < width
    ensures PadLeft("0" + s, width) == PadLeft(s, width)
  {
    assert Zeros(width - |s|) == Zeros(width - |s| - 1) + "0";
  }

  /** Only zero is written "0", and it carries no sign. */
  lemma UnsignedFormat(n: int, decimals: nat, t: string)
    requires var s := Padded(n, decimals); t == Join(s[..|s| - decimals], TrimZeros(s[|s| - decimals..]))
    ensures Format(n, decimals) == if n < 0 && t != "0" then "-" + t else t
  {
    var s := Padded(n, decimals);
    var i, f := s[..|s| - decimals], TrimZeros(s[|s| - decimals..]);
    assert Format(n, decimals) == Join(Sign(n < 0) + i, f);
    assert Join(Sign(n < 0) + i, f) == Sign(n < 0) + t by {
      assert (Sign(n < 0) + i) + ("." + f) == Sign(n < 0) + (i + ("." + f));
    }
    if t == "0" { ZeroText(n, decimals); }
  }

  /** Only zero is written "0". */
  lemma ZeroText(n: int, decimals: nat)
    requires var s := Padded(n, decimals); Join(s[..|s| - decimals], TrimZeros(s[|s| - decimals..])) == "0"
    ensures n == 0
  {
    var s := Padded(n, decimals);
    PaddedValue(n, decimals);
    NatOfZerosBefore(|s|, []);
    assert s == Zeros(|s|) + [];
  }
}
