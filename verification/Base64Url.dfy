/** Unpadded base64url as the resume token uses it, and the lenient decoder underneath. */
module Base64Url {
  import opened Prelude

  type Byte = x: int | 0 <= x < 256
  type Sextet = x: int | 0 <= x < 64

  /** The alphabet of section 5 of RFC 4648. */
  function CharOf(v: Sextet): char {
    if v < 26 then ('A' as int + v) as char
    else if v < 52 then ('a' as int + (v - 26)) as char
    else if v < 62 then ('0' as int + (v - 52)) as char
    else if v == 62 then '-'
    else '_'
  }

  /** The value of a character once `-` and `_` are translated to `+` and `/`; both spellings are read. */
  function ValueOf(c: char): Option<Sextet> {
    if 'A' <= c <= 'Z' then Some(c as int - 'A' as int)
    else if 'a' <= c <= 'z' then Some(c as int - 'a' as int + 26)
    else if '0' <= c <= '9' then Some(c as int - '0' as int + 52)
    else if c == '-' || c == '+' then Some(62)
    else if c == '_' || c == '/' then Some(63)
    else None
  }

  lemma {:induction false} ValueOfChar(v: Sextet)
    ensures ValueOf(CharOf(v)) == Some(v) && CharOf(v) != '=' && CharOf(v) != '.'
  {
  }

  // ---- Encoding ----

  // The four digits of a group of three bytes; a shorter last group pads with zero bits.
  function D0(a: Byte): Sextet { a / 4 }
  function D1(a: Byte, b: Byte): Sextet { a % 4 * 16 + b / 16 }
  function D2(b: Byte, c: Byte): Sextet { b % 16 * 4 + c / 64 }
  function D3(c: Byte): Sextet { c % 64 }

  /** Three bytes give four characters; one or two left over give two or three. */
  function Digits(bytes: seq<Byte>): string {
    if |bytes| == 0 then ""
    else if |bytes| == 1 then [CharOf(D0(bytes[0])), CharOf(D1(bytes[0], 0))]
    else if |bytes| == 2 then [CharOf(D0(bytes[0])), CharOf(D1(bytes[0], bytes[1])), CharOf(D2(bytes[1], 0))]
    else
      [CharOf(D0(bytes[0])), CharOf(D1(bytes[0], bytes[1])), CharOf(D2(bytes[1], bytes[2])), CharOf(D3(bytes[2]))]
      + Digits(bytes[3..])
  }

  function Padding(length: nat): string {
    seq((4 - length % 4) % 4, _ => '=')
  }

  /** The standard encoding, padded to a multiple of four. */
  function Padded(bytes: seq<Byte>): string {
    Digits(bytes) + Padding(|Digits(bytes)|)
  }

  function StripPadding(s: string): string {
    if s != "" && s[|s| - 1] == '=' then StripPadding(s[..|s| - 1]) else s
  }

  function Encode(bytes: seq<Byte>): string {
    StripPadding(Padded(bytes))
  }

  // ---- Decoding ----

  predicate Ascii(s: string) {
    forall i :: 0 <= i < |s| ==> s[i] as int < 128
  }

  /**
    * The decoder's loop: `quad` characters of the current group read, `left` their bits not yet written, `pads` the padding seen.
    * Characters outside the alphabet are skipped; enough padding ends the input.
    */
  function Scan(s: string, quad: nat, left: Sextet, pads: nat, written: seq<Byte>): Option<seq<Byte>>
    requires quad < 4 && (quad == 2 ==> left < 16) && (quad == 3 ==> left < 4)
  {
    if s == "" then
      if quad == 0 then Some(written) else None
    else if s[0] == '=' then
      if quad >= 2 && quad + pads + 1 >= 4 then Some(written)
      else Scan(s[1..], quad, left, if quad >= 2 then pads + 1 else pads, written)
    else match ValueOf(s[0])
      case None => Scan(s[1..], quad, left, pads, written)
      case Some(v) =>
        if quad == 0 then Scan(s[1..], 1, v, 0, written)
        else if quad == 1 then Scan(s[1..], 2, v % 16, 0, written + [left * 4 + v / 16])
        else if quad == 2 then Scan(s[1..], 3, v % 4, 0, written + [left * 16 + v / 4])
        else Scan(s[1..], 0, 0, 0, written + [left * 64 + v])
  }

  function Decode(s: string): Option<seq<Byte>> {
    if Ascii(s) then Scan(s + Padding(|s|), 0, 0, 0, []) else None
  }

  // ---- Encoding then decoding ----

  /** Characters that are alphabet digits. */
  predicate AllDigits(s: string) {
    forall i :: 0 <= i < |s| ==> exists v: Sextet :: s[i] == CharOf(v)
  }

  lemma {:induction false} DigitsAreDigits(bytes: seq<Byte>)
    ensures AllDigits(Digits(bytes))
  {
    if |bytes| >= 3 {
      DigitsAreDigits(bytes[3..]);
    }
  }

  lemma {:induction false} DigitIsPlain(s: string, i: nat)
    requires AllDigits(s) && i < |s|
    ensures s[i] != '=' && s[i] != '.' && s[i] as int < 128
  {
    var v: Sextet :| s[i] == CharOf(v);
    ValueOfChar(v);
    assert ValueOf(s[i]).Some?;
  }

  lemma {:induction false} StripsOnlyPadding(digits: string, n: nat)
    requires AllDigits(digits)
    ensures StripPadding(digits + seq(n, _ => '=')) == digits
  {
    var s := digits + seq(n, _ => '=');
    if n == 0 {
      assert s == digits;
      if digits != "" {
        DigitIsPlain(digits, |digits| - 1);
      }
    } else {
      assert s[..|s| - 1] == digits + seq(n - 1, _ => '=');
      StripsOnlyPadding(digits, n - 1);
    }
  }

  /** The encoder's output is the digits alone. */
  lemma {:induction false} EncodeIsDigits(bytes: seq<Byte>)
    ensures Encode(bytes) == Digits(bytes)
  {
    DigitsAreDigits(bytes);
    StripsOnlyPadding(Digits(bytes), (4 - |Digits(bytes)| % 4) % 4);
  }

  /** Reading one digit. */
  lemma {:induction false} ScanDigit(v: Sextet, rest: string, quad: nat, left: Sextet, pads: nat, written: seq<Byte>)
    requires quad < 4 && (quad == 2 ==> left < 16) && (quad == 3 ==> left < 4)
    ensures Scan([CharOf(v)] + rest, quad, left, pads, written)
         == if quad == 0 then Scan(rest, 1, v, 0, written)
            else if quad == 1 then Scan(rest, 2, v % 16, 0, written + [left * 4 + v / 16])
            else if quad == 2 then Scan(rest, 3, v % 4, 0, written + [left * 16 + v / 4])
            else Scan(rest, 0, 0, 0, written + [left * 64 + v])
  {
    ValueOfChar(v);
    var s := [CharOf(v)] + rest;
    assert s[0] == CharOf(v) && s[1..] == rest;
  }

  /** What the decoder writes and keeps at each digit. */
  lemma {:induction false} GroupArithmetic(a: Byte, b: Byte, c: Byte)
    ensures D0(a) * 4 + D1(a, b) / 16 == a && D1(a, b) % 16 == b / 16
    ensures b / 16 * 16 + D2(b, c) / 4 == b && D2(b, c) % 4 == c / 64
    ensures c / 64 * 64 + D3(c) == c
  {
  }

  lemma {:induction false} ScanTwo(a: Byte, b: Byte, rest: string, pads: nat, written: seq<Byte>)
    ensures Scan([CharOf(D0(a)), CharOf(D1(a, b))] + rest, 0, 0, pads, written) == Scan(rest, 2, b / 16, 0, written + [a])
  {
    GroupArithmetic(a, b, 0);
    var s := [CharOf(D1(a, b))] + rest;
    assert [CharOf(D0(a)), CharOf(D1(a, b))] + rest == [CharOf(D0(a))] + s;
    ScanDigit(D0(a), s, 0, 0, pads, written);
    ScanDigit(D1(a, b), rest, 1, D0(a), 0, written);
  }

  lemma {:induction false} ScanLastTwo(b: Byte, c: Byte, rest: string, written: seq<Byte>)
    ensures Scan([CharOf(D2(b, c)), CharOf(D3(c))] + rest, 2, b / 16, 0, written) == Scan(rest, 0, 0, 0, written + [b, c])
  {
    GroupArithmetic(0, b, c);
    var s := [CharOf(D3(c))] + rest;
    assert [CharOf(D2(b, c)), CharOf(D3(c))] + rest == [CharOf(D2(b, c))] + s;
    ScanDigit(D2(b, c), s, 2, b / 16, 0, written);
    ScanDigit(D3(c), rest, 3, c / 64, 0, written + [b]);
    assert written + [b] + [c] == written + [b, c];
  }

  /** Four digits of a full group give its three bytes back. */
  lemma {:induction false} ScanGroup(a: Byte, b: Byte, c: Byte, rest: string, pads: nat, written: seq<Byte>)
    ensures Scan([CharOf(D0(a)), CharOf(D1(a, b)), CharOf(D2(b, c)), CharOf(D3(c))] + rest, 0, 0, pads, written)
         == Scan(rest, 0, 0, 0, written + [a, b, c])
  {
    var s := [CharOf(D2(b, c)), CharOf(D3(c))] + rest;
    assert [CharOf(D0(a)), CharOf(D1(a, b)), CharOf(D2(b, c)), CharOf(D3(c))] + rest == [CharOf(D0(a)), CharOf(D1(a, b))] + s;
    ScanTwo(a, b, s, pads, written);
    ScanLastTwo(b, c, rest, written + [a]);
    assert written + [a] + [b, c] == written + [a, b, c];
  }

  lemma {:induction false} ScanOneByte(a: Byte, written: seq<Byte>)
    ensures Scan([CharOf(D0(a)), CharOf(D1(a, 0))] + "==", 0, 0, 0, written) == Some(written + [a])
  {
    ScanTwo(a, 0, "==", 0, written);
    assert "=="[1..] == "=";
  }

  lemma {:induction false} ScanTwoBytes(a: Byte, b: Byte, written: seq<Byte>)
    ensures Scan([CharOf(D0(a)), CharOf(D1(a, b)), CharOf(D2(b, 0))] + "=", 0, 0, 0, written) == Some(written + [a, b])
  {
    GroupArithmetic(a, b, 0);
    var s := [CharOf(D2(b, 0))] + "=";
    assert [CharOf(D0(a)), CharOf(D1(a, b)), CharOf(D2(b, 0))] + "=" == [CharOf(D0(a)), CharOf(D1(a, b))] + s;
    ScanTwo(a, b, s, 0, written);
    ScanDigit(D2(b, 0), "=", 2, b / 16, 0, written + [a]);
    assert written + [a] + [b] == written + [a, b];
  }

  lemma {:induction false} ScanTail(bytes: seq<Byte>, written: seq<Byte>)
    requires 1 <= |bytes| <= 2
    ensures Scan(Padded(bytes), 0, 0, 0, written) == Some(written + bytes)
  {
    if |bytes| == 1 {
      ScanOneByte(bytes[0], written);
      assert bytes == [bytes[0]] && Padding(2) == "==";
    } else {
      ScanTwoBytes(bytes[0], bytes[1], written);
      assert bytes == [bytes[0], bytes[1]] && Padding(3) == "=";
    }
  }

  lemma {:induction false} PaddedStep(bytes: seq<Byte>)
    requires |bytes| >= 3
    ensures var a, b, c := bytes[0], bytes[1], bytes[2];
      Padded(bytes) == [CharOf(D0(a)), CharOf(D1(a, b)), CharOf(D2(b, c)), CharOf(D3(c))] + Padded(bytes[3..])
  {
    var a, b, c, rest := bytes[0], bytes[1], bytes[2], Digits(bytes[3..]);
    var head := [CharOf(D0(a)), CharOf(D1(a, b)), CharOf(D2(b, c)), CharOf(D3(c))];
    assert |head| == 4 && Digits(bytes) == head + rest;
    PaddingOfFourMore(|rest|);
    assert head + rest + Padding(|rest|) == head + (rest + Padding(|rest|));
  }

  lemma {:induction false} PaddingOfFourMore(n: nat)
    ensures Padding(n + 4) == Padding(n)
  {
  }

  lemma {:induction false} ScanDigits(bytes: seq<Byte>, written: seq<Byte>)
    ensures Scan(Padded(bytes), 0, 0, 0, written) == Some(written + bytes)
    decreases |bytes|
  {
    if |bytes| == 0 {
      assert Padded(bytes) == "";
      assert written + bytes == written;
    } else if |bytes| < 3 {
      ScanTail(bytes, written);
    } else {
      var a, b, c, rest := bytes[0], bytes[1], bytes[2], bytes[3..];
      PaddedStep(bytes);
      ScanGroup(a, b, c, Padded(rest), 0, written);
      ScanDigits(rest, written + [a, b, c]);
      assert written + [a, b, c] + rest == written + bytes;
    }
  }

  /** Decoding inverts encoding for every byte string. */
  lemma {:induction false} DecodeEncode(bytes: seq<Byte>)
    ensures Decode(Encode(bytes)) == Some(bytes)
  {
    EncodeIsDigits(bytes);
    DigitsAreDigits(bytes);
    forall i | 0 <= i < |Digits(bytes)| ensures Digits(bytes)[i] as int < 128 {
      DigitIsPlain(Digits(bytes), i);
    }
    ScanDigits(bytes, []);
    assert [] + bytes == bytes;
  }

  /** The token's separator never occurs in an encoded part, nor does padding. */
  lemma {:induction false} EncodeAvoidsSeparator(bytes: seq<Byte>)
    ensures '.' !in Encode(bytes) && '=' !in Encode(bytes)
  {
    EncodeIsDigits(bytes);
    DigitsAreDigits(bytes);
    forall i | 0 <= i < |Digits(bytes)| ensures Digits(bytes)[i] != '=' && Digits(bytes)[i] != '.' {
      DigitIsPlain(Digits(bytes), i);
    }
  }

  /** The decoder forgets what the encoder never writes: characters outside the alphabet do not change the value. */
  lemma {:induction false} ScanSkips(s: string, k: nat, noise: char, quad: nat, left: Sextet, pads: nat, written: seq<Byte>)
    requires k <= |s| && quad < 4 && (quad == 2 ==> left < 16) && (quad == 3 ==> left < 4)
    requires noise != '=' && ValueOf(noise).None?
    ensures Scan(s[..k] + [noise] + s[k..], quad, left, pads, written) == Scan(s, quad, left, pads, written)
    decreases k
  {
    var t := s[..k] + [noise] + s[k..];
    if k == 0 {
      assert t[0] == noise && t[1..] == s;
    } else {
      var u := s[1..];
      assert t[0] == s[0] && t[1..] == u[..k - 1] + [noise] + u[k - 1..];
      if s[0] == '=' {
        if !(quad >= 2 && quad + pads + 1 >= 4) {
          ScanSkips(u, k - 1, noise, quad, left, if quad >= 2 then pads + 1 else pads, written);
        }
      } else {
        match ValueOf(s[0])
        case None => ScanSkips(u, k - 1, noise, quad, left, pads, written);
        case Some(v) =>
          if quad == 0 {
            ScanSkips(u, k - 1, noise, 1, v, 0, written);
          } else if quad == 1 {
            ScanSkips(u, k - 1, noise, 2, v % 16, 0, written + [left * 4 + v / 16]);
          } else if quad == 2 {
            ScanSkips(u, k - 1, noise, 3, v % 4, 0, written + [left * 16 + v / 4]);
          } else {
            ScanSkips(u, k - 1, noise, 0, 0, 0, written + [left * 64 + v]);
          }
      }
    }
  }
}
