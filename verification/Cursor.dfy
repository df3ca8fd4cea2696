/** Opaque pagination cursors (go-api/internal/payment/cursor.go) over padded base64url, section 5 of RFC 4648. */
module Cursor {
  import opened Common

  /** Text is bytes, one per character. */
  predicate IsBytes(s: string) {
    forall i :: 0 <= i < |s| ==> s[i] as int < 256
  }

  type Bytes = s: string | IsBytes(s)

  /** The digit of the URL-safe alphabet with value `v`. */
  function Digit(v: nat): char
    requires v < 64
  {
    if v < 26 then (('A' as int) + v) as char
    else if v < 52 then (('a' as int) + v - 26) as char
    else if v < 62 then (('0' as int) + v - 52) as char
    else if v == 62 then '-'
    else '_'
  }

  function Value(c: char): (v: Option<nat>)
    ensures v.Some? ==> v.value < 64
  {
    if 'A' <= c <= 'Z' then Some(c as int - 'A' as int)
    else if 'a' <= c <= 'z' then Some(c as int - 'a' as int + 26)
    else if '0' <= c <= '9' then Some(c as int - '0' as int + 52)
    else if c == '-' then Some(62)
    else if c == '_' then Some(63)
    else None
  }

  lemma DigitValue(v: nat)
    requires v < 64
    ensures Value(Digit(v)) == Some(v) && Digit(v) != '=' && !IsNewline(Digit(v))
  {
  }

  function Quantum(b0: nat, b1: nat, b2: nat): (q: string)
    requires b0 < 256 && b1 < 256 && b2 < 256
    ensures |q| == 4
  {
    [Digit(b0 / 4), Digit(b0 % 4 * 16 + b1 / 16), Digit(b1 % 16 * 4 + b2 / 64), Digit(b2 % 64)]
  }

  function Encode(b: Bytes): string {
    if |b| == 0 then ""
    else if |b| == 1 then Quantum(b[0] as int, 0, 0)[..2] + "=="
    else if |b| == 2 then Quantum(b[0] as int, b[1] as int, 0)[..3] + "="
    else Quantum(b[0] as int, b[1] as int, b[2] as int) + Encode(b[3..])
  }

  predicate IsNewline(c: char) {
    c == '\n' || c == '\r'
  }

  /** The decoder skips line breaks anywhere. */
  function Stripped(s: string): string {
    if s == [] then [] else if IsNewline(s[0]) then Stripped(s[1..]) else [s[0]] + Stripped(s[1..])
  }

  function Byte0(v0: nat, v1: nat): char
    requires v0 < 64 && v1 < 64
  {
    (v0 * 4 + v1 / 16) as char
  }

  function Byte1(v1: nat, v2: nat): char
    requires v1 < 64 && v2 < 64
  {
    (v1 % 16 * 16 + v2 / 4) as char
  }

  function Byte2(v2: nat, v3: nat): char
    requires v2 < 64 && v3 < 64
  {
    (v2 % 4 * 64 + v3) as char
  }

  /** Quantum by quantum; only the last may be padded, and its spare bits are ignored. */
  function DecodeQuanta(s: string): Option<string> {
    if s == [] then Some([])
    else if |s| < 4 then None
    else
      var v0, v1, v2, v3 := Value(s[0]), Value(s[1]), Value(s[2]), Value(s[3]);
      if v0.None? || v1.None? then None
      else if |s| == 4 && s[2] == '=' && s[3] == '=' then Some([Byte0(v0.value, v1.value)])
      else if v2.None? then None
      else if |s| == 4 && s[3] == '=' then Some([Byte0(v0.value, v1.value), Byte1(v1.value, v2.value)])
      else if v3.None? then None
      else
        match DecodeQuanta(s[4..])
        case None => None
        case Some(rest) =>
          Some([Byte0(v0.value, v1.value), Byte1(v1.value, v2.value), Byte2(v2.value, v3.value)] + rest)
  }

  function Decode(s: string): Option<string> {
    DecodeQuanta(Stripped(s))
  }

  lemma QuantumBytes(b0: nat, b1: nat, b2: nat)
    requires b0 < 256 && b1 < 256 && b2 < 256
    ensures var v0, v1, v2, v3 := b0 / 4, b0 % 4 * 16 + b1 / 16, b1 % 16 * 4 + b2 / 64, b2 % 64;
      && Byte0(v0, v1) == b0 as char && Byte1(v1, v2) == b1 as char && Byte2(v2, v3) == b2 as char
      && Value(Digit(v0)) == Some(v0) && Value(Digit(v1)) == Some(v1) && Value(Digit(v2)) == Some(v2)
      && Value(Digit(v3)) == Some(v3)
      && Digit(v2) != '=' && Digit(v3) != '='
  {
    hide Value, Digit;
    DigitValue(b0 / 4);
    DigitValue(b0 % 4 * 16 + b1 / 16);
    DigitValue(b1 % 16 * 4 + b2 / 64);
    DigitValue(b2 % 64);
  }

  /** The alphabet has no line breaks. */
  lemma {:induction false} StripsNothing(s: string)
    requires forall i :: 0 <= i < |s| ==> !IsNewline(s[i])
    ensures Stripped(s) == s
  {
    if s != [] { StripsNothing(s[1..]); }
  }

  lemma QuantumHasNoNewline(b0: nat, b1: nat, b2: nat)
    requires b0 < 256 && b1 < 256 && b2 < 256
    ensures forall i :: 0 <= i < 4 ==> !IsNewline(Quantum(b0, b1, b2)[i])
  {
    hide IsNewline, Digit;
    DigitValue(b0 / 4);
    DigitValue(b0 % 4 * 16 + b1 / 16);
    DigitValue(b1 % 16 * 4 + b2 / 64);
    DigitValue(b2 % 64);
  }

  lemma {:induction false} EncodedHasNoNewline(b: Bytes)
    ensures forall i :: 0 <= i < |Encode(b)| ==> !IsNewline(Encode(b)[i])
    ensures |Encode(b)| == (|b| + 2) / 3 * 4
  {
    hide Quantum;
    if |b| == 1 {
      QuantumHasNoNewline(b[0] as int, 0, 0);
    } else if |b| == 2 {
      QuantumHasNoNewline(b[0] as int, b[1] as int, 0);
    } else if |b| >= 3 {
      QuantumHasNoNewline(b[0] as int, b[1] as int, b[2] as int);
      EncodedHasNoNewline(b[3..]);
    }
  }

  lemma OneByte(c: char)
    requires c as int < 256
    ensures DecodeQuanta(Quantum(c as int, 0, 0)[..2] + "==") == Some([c])
  {
    hide Value, Digit, Byte0, Byte1, Byte2;
    QuantumBytes(c as int, 0, 0);
  }

  lemma TwoBytes(c: char, d: char)
    requires c as int < 256 && d as int < 256
    ensures DecodeQuanta(Quantum(c as int, d as int, 0)[..3] + "=") == Some([c, d])
  {
    hide Value, Digit, Byte0, Byte1, Byte2;
    QuantumBytes(c as int, d as int, 0);
  }

  lemma ThreeBytes(c: char, d: char, e: char, rest: string)
    requires c as int < 256 && d as int < 256 && e as int < 256
    ensures DecodeQuanta(rest).Some? ==>
      DecodeQuanta(Quantum(c as int, d as int, e as int) + rest) == Some([c, d, e] + DecodeQuanta(rest).value)
  {
    hide Value, Digit, Byte0, Byte1, Byte2;
    QuantumBytes(c as int, d as int, e as int);
    assert (Quantum(c as int, d as int, e as int) + rest)[4..] == rest;
  }

  lemma {:induction false} QuantaRoundTrip(b: Bytes)
    ensures DecodeQuanta(Encode(b)) == Some(b)
  {
    hide Quantum, DecodeQuanta;
    if |b| == 0 {
      NoBytes();
    } else if |b| == 1 {
      OneByte(b[0]);
      assert [b[0]] == b;
    } else if |b| == 2 {
      TwoBytes(b[0], b[1]);
      assert [b[0], b[1]] == b;
    } else {
      QuantaRoundTrip(b[3..]);
      ThreeBytes(b[0], b[1], b[2], Encode(b[3..]));
      assert [b[0], b[1], b[2]] + b[3..] == b;
    }
  }

  lemma NoBytes()
    ensures DecodeQuanta("") == Some("")
  {
  }

  /** Decoding undoes encoding, for every byte string. */
  lemma RoundTrip(b: Bytes)
    ensures Decode(Encode(b)) == Some(b)
  {
    hide Encode, DecodeQuanta, Stripped;
    EncodedHasNoNewline(b);
    StripsNothing(Encode(b));
    QuantaRoundTrip(b);
  }

  /** Test vectors of section 10 of RFC 4648, and the two digits in which the URL-safe alphabet differs. */
  lemma PublishedVectors()
    ensures Encode("") == "" && Encode("f") == "Zg==" && Encode("fo") == "Zm8=" && Encode("foo") == "Zm9v"
    ensures Encode("foobar") == "Zm9vYmFy"
    ensures IsBytes([0xfb as char, 0xff as char]) && Encode([0xfb as char, 0xff as char]) == "-_8="
  {
    assert "foobar"[3..] == "bar" && "bar"[3..] == "" && "foo"[3..] == "";
    assert Quantum(0x62, 0x61, 0x72) == "YmFy";
  }

  // ---- Cursors ----

  datatype CursorError = InvalidCursor

  function EncodeCursor(createdAt: Bytes, id: Bytes): string {
    Encode(createdAt + "," + id)
  }

  /** `strings.SplitN(s, ",", 2)`: the first comma separates. */
  function IndexOfComma(s: string): (i: nat)
    ensures i <= |s| && ',' !in s[..i] && (i < |s| ==> s[i] == ',')
  {
    if s == [] || s[0] == ',' then 0
    else
      var i := 1 + IndexOfComma(s[1..]);
      assert s[..i] == [s[0]] + s[1..][..i - 1];
      i
  }

  function DecodeCursor(cursor: string): Result<(string, string), CursorError> {
    match Decode(cursor)
    case None => Err(InvalidCursor)
    case Some(raw) =>
      var i := IndexOfComma(raw);
      if i == |raw| then Err(InvalidCursor) else Ok((raw[..i], raw[i + 1..]))
  }

  /** A cursor round-trips exactly when its timestamp text has no comma; the ID may be anything. */
  lemma CursorRoundTrip(createdAt: Bytes, id: Bytes)
    ensures DecodeCursor(EncodeCursor(createdAt, id)) == Ok((createdAt, id)) <==> ',' !in createdAt
    ensures EncodeCursor(createdAt, id) != ""
  {
    hide Encode, Decode, IndexOfComma;
    var raw := createdAt + "," + id;
    RoundTrip(raw);
    EncodedHasNoNewline(raw);
    assert forall k :: 0 <= k < |createdAt| ==> raw[k] == createdAt[k];
    assert raw[|createdAt|] == ',' && raw[..|createdAt|] == createdAt && raw[|createdAt| + 1..] == id;
    CommaBound(raw, |createdAt|);
    if ',' in createdAt {
      var k :| 0 <= k < |createdAt| && createdAt[k] == ',';
      CommaBound(raw, k);
    }
  }

  lemma {:induction false} CommaBound(s: string, k: nat)
    requires k < |s| && s[k] == ','
    ensures IndexOfComma(s) <= k
  {
    if s[0] != ',' { CommaBound(s[1..], k - 1); }
  }
}
