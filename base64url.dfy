/**
 * `Data.base64URLEncodedString()` of Exports.swift: Foundation's standard Base64
 * (section 4 of RFC 4648, padded), with `+` rewritten to `-`, `/` rewritten to `_`
 * and every `=` removed.
 *
 * Beside the encoder as written, the module gives an independent reference: the
 * base64url encoding of section 5 of RFC 4648 without padding (section 3.2 allows
 * omitting it), and a base64url decoder that accepts the text with or without its
 * padding. The lemmas at the end tie the three together.
 */
module Base64URL {
  import opened Wrappers

  type Byte = bv8

  /** One Base64 digit: a 6-bit value. */
  type Sextet = x: bv8 | x < 64

  /** The two characters in which the alphabets of sections 4 and 5 differ. */
  datatype Alphabet = Alphabet(c62: char, c63: char)

  /** Table 1 of RFC 4648 (section 4). */
  const Standard := Alphabet('+', '/')
  /** Table 2 of RFC 4648 (section 5, "URL and Filename safe"). */
  const UrlSafe := Alphabet('-', '_')

  /** The last two digits are distinct and are neither letters, decimal digits nor the pad character. */
  predicate ValidAlphabet(a: Alphabet) {
    a.c62 != a.c63 && !IsAlphanumeric(a.c62) && !IsAlphanumeric(a.c63) && a.c62 != '=' && a.c63 != '='
  }

  predicate IsAlphanumeric(c: char) {
    ('A' <= c <= 'Z') || ('a' <= c <= 'z') || ('0' <= c <= '9')
  }

  function DigitChar(v: Sextet, a: Alphabet): char {
    var i := v as int;
    if i < 26 then ('A' as int + i) as char
    else if i < 52 then ('a' as int + (i - 26)) as char
    else if i < 62 then ('0' as int + (i - 52)) as char
    else if i == 62 then a.c62
    else a.c63
  }

  function DigitValue(c: char, a: Alphabet): Option<Sextet> {
    if 'A' <= c <= 'Z' then Some((c as int - 'A' as int) as bv8)
    else if 'a' <= c <= 'z' then Some((c as int - 'a' as int + 26) as bv8)
    else if '0' <= c <= '9' then Some((c as int - '0' as int + 52) as bv8)
    else if c == a.c62 then Some(62)
    else if c == a.c63 then Some(63)
    else None
  }

  /** A full 3-byte quantum as four 6-bit groups, most significant bits first. */
  function EncodeQuantum(b0: Byte, b1: Byte, b2: Byte): seq<Sextet> {
    [b0 >> 2, ((b0 & 3) << 4) | (b1 >> 4), ((b1 & 15) << 2) | (b2 >> 6), b2 & 63]
  }

  /** Four 6-bit groups as the three bytes they encode. */
  function DecodeQuantum(d0: Sextet, d1: Sextet, d2: Sextet, d3: Sextet): seq<Byte> {
    var e0, e1, e2, e3 := d0 as Byte, d1 as Byte, d2 as Byte, d3 as Byte;
    [(e0 << 2) | (e1 >> 4), ((e1 & 15) << 4) | (e2 >> 2), ((e2 & 3) << 6) | e3]
  }

  /** A final partial quantum of one or two bytes as two or three 6-bit groups, zero-filled. */
  function EncodeTail(b: seq<Byte>): seq<Sextet>
    requires |b| < 3
  {
    if |b| == 0 then []
    else if |b| == 1 then [b[0] >> 2, (b[0] & 3) << 4]
    else [b[0] >> 2, ((b[0] & 3) << 4) | (b[1] >> 4), (b[1] & 15) << 2]
  }

  /**
   * Fewer than four 6-bit groups as the bytes they encode. A lone digit cannot encode a byte,
   * and the bits a partial quantum leaves over must be zero (section 3.5 of RFC 4648).
   */
  function DecodeTail(s: seq<Sextet>): Option<seq<Byte>>
    requires |s| < 4
  {
    if |s| == 0 then Some([])
    else if |s| == 1 then None
    else
      var d0, d1 := s[0] as Byte, s[1] as Byte;
      if |s| == 2 then
        if d1 & 15 == 0 then Some([(d0 << 2) | (d1 >> 4)]) else None
      else
        var d2 := s[2] as Byte;
        if d2 & 3 == 0 then Some([(d0 << 2) | (d1 >> 4), ((d1 & 15) << 4) | (d2 >> 2)]) else None
  }

  /** Splits bytes into 6-bit groups: each 3-byte quantum gives 4 digits, a final 1 or 2 bytes give 2 or 3. */
  function ToSextets(b: seq<Byte>): seq<Sextet>
    decreases |b|
  {
    if |b| < 3 then EncodeTail(b)
    else EncodeQuantum(b[0], b[1], b[2]) + ToSextets(b[3..])
  }

  /** Reassembles bytes from 6-bit groups; `None` when the groups are not a canonical encoding. */
  function FromSextets(s: seq<Sextet>): Option<seq<Byte>>
    decreases |s|
  {
    if |s| < 4 then DecodeTail(s)
    else
      match FromSextets(s[4..])
      case None => None
      case Some(rest) => Some(DecodeQuantum(s[0], s[1], s[2], s[3]) + rest)
  }

  function Digits(s: seq<Sextet>, a: Alphabet): (r: string)
    ensures |r| == |s|
  {
    seq(|s|, i requires 0 <= i < |s| => DigitChar(s[i], a))
  }

  function DigitValues(s: string, a: Alphabet): Option<seq<Sextet>>
    decreases |s|
  {
    if |s| == 0 then Some([])
    else
      match DigitValue(s[0], a)
      case None => None
      case Some(v) =>
        match DigitValues(s[1..], a)
        case None => None
        case Some(rest) => Some([v] + rest)
  }

  /** The `=` characters that complete the final quantum of an n-byte input to four characters. */
  function Padding(n: nat): string {
    if n % 3 == 1 then "==" else if n % 3 == 2 then "=" else ""
  }

  /** Base64 of `b` over alphabet `a`, with or without padding. */
  function Encode(b: seq<Byte>, a: Alphabet, padded: bool): string {
    Digits(ToSextets(b), a) + (if padded then Padding(|b|) else "")
  }

  /** Foundation's `Data.base64EncodedString()` with no options: section 4 of RFC 4648, padded, no line breaks. */
  function Base64EncodedString(data: seq<Byte>): string {
    Encode(data, Standard, true)
  }

  /** `String.replacingOccurrences(of:with:)` for a one-character target. */
  function ReplacingOccurrences(s: string, target: char, replacement: string): string
    decreases |s|
  {
    if |s| == 0 then ""
    else (if s[0] == target then replacement else [s[0]]) + ReplacingOccurrences(s[1..], target, replacement)
  }

  /**
   * `Data.base64URLEncodedString()` as written: three replacements over the standard encoding.
   * The result is the unpadded base64url encoding of section 5 of RFC 4648.
   */
  function Base64URLEncodedString(data: seq<Byte>): (r: string)
    ensures r == Encode(data, UrlSafe, false)
  {
    ReplacementChain(data);
    ReplacingOccurrences(
      ReplacingOccurrences(
        ReplacingOccurrences(Base64EncodedString(data), '+', "-"),
        '/', "_"),
      '=', "")
  }

  /** Drops the padding of a padded final quantum: `==` or `=` at the end of a multiple-of-four text. */
  function StripPadding(s: string): string {
    if |s| % 4 == 0 && |s| >= 2 && s[|s| - 2] == '=' && s[|s| - 1] == '=' then s[..|s| - 2]
    else if |s| % 4 == 0 && |s| >= 1 && s[|s| - 1] == '=' then s[..|s| - 1]
    else s
  }

  /** Reference decoder for base64url (section 5 of RFC 4648), padding optional. */
  function Base64URLDecode(s: string): Option<seq<Byte>> {
    match DigitValues(StripPadding(s), UrlSafe)
    case None => None
    case Some(digits) => FromSextets(digits)
  }

  // ---------------------------------------------------------------------------
  // Digits and 6-bit groups
  // ---------------------------------------------------------------------------

  lemma DigitCharValue(v: Sextet, a: Alphabet)
    requires ValidAlphabet(a)
    ensures DigitValue(DigitChar(v, a), a) == Some(v)
  {
  }

  lemma DigitValueChar(c: char, a: Alphabet, v: Sextet)
    requires ValidAlphabet(a)
    requires DigitValue(c, a) == Some(v)
    ensures DigitChar(v, a) == c
  {
    if 'A' <= c <= 'Z' {
      SmallBvInt(c as int - 'A' as int);
    } else if 'a' <= c <= 'z' {
      SmallBvInt(c as int - 'a' as int + 26);
    } else if '0' <= c <= '9' {
      SmallBvInt(c as int - '0' as int + 52);
    }
  }

  lemma SmallBvInt(x: int)
    requires 0 <= x < 64
    ensures (x as bv8) as int == x
  {
  }

  lemma QuantumInverse(b0: Byte, b1: Byte, b2: Byte)
    ensures var q := EncodeQuantum(b0, b1, b2); DecodeQuantum(q[0], q[1], q[2], q[3]) == [b0, b1, b2]
  {
  }

  lemma QuantumCanonical(d0: Sextet, d1: Sextet, d2: Sextet, d3: Sextet)
    ensures var b := DecodeQuantum(d0, d1, d2, d3); EncodeQuantum(b[0], b[1], b[2]) == [d0, d1, d2, d3]
  {
  }

  lemma TailInverse(b: seq<Byte>)
    requires |b| < 3
    ensures |EncodeTail(b)| == (if |b| == 0 then 0 else |b| + 1)
    ensures DecodeTail(EncodeTail(b)) == Some(b)
  {
    if |b| == 1 {
      assert b == [b[0]];
    } else if |b| == 2 {
      assert b == [b[0], b[1]];
    }
  }

  lemma TailCanonical(s: seq<Sextet>, b: seq<Byte>)
    requires |s| < 4 && DecodeTail(s) == Some(b)
    ensures |b| < 3 && EncodeTail(b) == s
  {
    if |s| == 2 {
      assert s == [s[0], s[1]];
    } else if |s| == 3 {
      assert s == [s[0], s[1], s[2]];
    }
  }

  lemma {:induction false} SextetCount(b: seq<Byte>)
    ensures |ToSextets(b)| == 4 * (|b| / 3) + (if |b| % 3 == 0 then 0 else |b| % 3 + 1)
    decreases |b|
  {
    if |b| < 3 {
      TailInverse(b);
    } else {
      SextetCount(b[3..]);
    }
  }

  /** Reassembling the 6-bit groups of any byte sequence gives the bytes back. */
  lemma {:induction false} SextetsRoundTrip(b: seq<Byte>)
    ensures FromSextets(ToSextets(b)) == Some(b)
    decreases |b|
  {
    if |b| < 3 {
      TailInverse(b);
    } else {
      var q, t := EncodeQuantum(b[0], b[1], b[2]), ToSextets(b[3..]);
      SextetsRoundTrip(b[3..]);
      QuantumInverse(b[0], b[1], b[2]);
      assert ToSextets(b) == q + t;
      assert (q + t)[4..] == t;
      assert (q + t)[..4] == q;
      assert b == [b[0], b[1], b[2]] + b[3..];
    }
  }

  /** Conversely, the only 6-bit groups that reassemble to `b` are those of `b`. */
  lemma {:induction false} SextetsCanonical(s: seq<Sextet>, b: seq<Byte>)
    requires FromSextets(s) == Some(b)
    ensures ToSextets(b) == s
    decreases |s|
  {
    if |s| < 4 {
      TailCanonical(s, b);
    } else {
      var rest := FromSextets(s[4..]).value;
      SextetsCanonical(s[4..], rest);
      var q := DecodeQuantum(s[0], s[1], s[2], s[3]);
      QuantumCanonical(s[0], s[1], s[2], s[3]);
      assert b == q + rest;
      assert b[..3] == q && b[3..] == rest;
      assert s == [s[0], s[1], s[2], s[3]] + s[4..];
    }
  }

  lemma DigitsCons(s: seq<Sextet>, a: Alphabet)
    requires |s| > 0
    ensures Digits(s, a) == [DigitChar(s[0], a)] + Digits(s[1..], a)
  {
  }

  lemma {:induction false} DigitValuesOfDigits(s: seq<Sextet>, a: Alphabet)
    requires ValidAlphabet(a)
    ensures DigitValues(Digits(s, a), a) == Some(s)
    decreases |s|
  {
    if |s| > 0 {
      DigitsCons(s, a);
      DigitCharValue(s[0], a);
      DigitValuesOfDigits(s[1..], a);
      assert Digits(s, a)[1..] == Digits(s[1..], a);
      assert s == [s[0]] + s[1..];
    }
  }

  lemma {:induction false} DigitsOfDigitValues(t: string, a: Alphabet, s: seq<Sextet>)
    requires ValidAlphabet(a)
    requires DigitValues(t, a) == Some(s)
    ensures Digits(s, a) == t
    decreases |t|
  {
    if |t| > 0 {
      var v := DigitValue(t[0], a).value;
      var rest := DigitValues(t[1..], a).value;
      DigitValueChar(t[0], a, v);
      DigitsOfDigitValues(t[1..], a, rest);
      DigitsCons(s, a);
      assert s[1..] == rest;
      assert t == [t[0]] + t[1..];
    }
  }

  // ---------------------------------------------------------------------------
  // The replacement chain
  // ---------------------------------------------------------------------------

  lemma {:induction false} ReplacingOccurrencesAppend(x: string, y: string, target: char, replacement: string)
    ensures ReplacingOccurrences(x + y, target, replacement)
         == ReplacingOccurrences(x, target, replacement) + ReplacingOccurrences(y, target, replacement)
    decreases |x|
  {
    if |x| == 0 {
      assert x + y == y;
    } else {
      assert (x + y)[0] == x[0];
      assert (x + y)[1..] == x[1..] + y;
      ReplacingOccurrencesAppend(x[1..], y, target, replacement);
    }
  }

  /** Replacing one alphabet character by another turns the digits over one alphabet into the digits over the other. */
  lemma {:induction false} ReplaceDigit(s: seq<Sextet>, a: Alphabet, target: char, replacement: char)
    requires !IsAlphanumeric(target) && a.c62 != a.c63
    ensures ReplacingOccurrences(Digits(s, a), target, [replacement])
         == Digits(s, Alphabet(if a.c62 == target then replacement else a.c62,
                               if a.c63 == target then replacement else a.c63))
    decreases |s|
  {
    if |s| > 0 {
      var a' := Alphabet(if a.c62 == target then replacement else a.c62,
                         if a.c63 == target then replacement else a.c63);
      DigitsCons(s, a);
      DigitsCons(s, a');
      assert Digits(s, a)[1..] == Digits(s[1..], a);
      ReplaceDigit(s[1..], a, target, replacement);
    }
  }

  lemma {:induction false} ReplaceAbsent(t: string, target: char, replacement: string)
    requires forall i | 0 <= i < |t| :: t[i] != target
    ensures ReplacingOccurrences(t, target, replacement) == t
    decreases |t|
  {
    if |t| > 0 {
      ReplaceAbsent(t[1..], target, replacement);
      assert t == [t[0]] + t[1..];
    }
  }

  lemma NoPadInDigits(s: seq<Sextet>, a: Alphabet)
    requires ValidAlphabet(a)
    ensures forall i | 0 <= i < |s| :: Digits(s, a)[i] != '='
  {
  }

  /**
   * The three replacements turn the standard alphabet into the URL-safe one and remove the padding.
   */
  lemma ReplacementChain(data: seq<Byte>)
    ensures ReplacingOccurrences(
              ReplacingOccurrences(
                ReplacingOccurrences(Base64EncodedString(data), '+', "-"),
                '/', "_"),
              '=', "")
         == Encode(data, UrlSafe, false)
  {
    var s := ToSextets(data);
    var pad := Padding(|data|);
    var step1 := ReplacingOccurrences(Digits(s, Standard) + pad, '+', "-");
    ReplacingOccurrencesAppend(Digits(s, Standard), pad, '+', "-");
    ReplaceDigit(s, Standard, '+', '-');
    ReplaceAbsent(pad, '+', "-");
    var mid := Alphabet('-', '/');
    assert step1 == Digits(s, mid) + pad;
    var step2 := ReplacingOccurrences(step1, '/', "_");
    ReplacingOccurrencesAppend(Digits(s, mid), pad, '/', "_");
    ReplaceDigit(s, mid, '/', '_');
    ReplaceAbsent(pad, '/', "_");
    assert step2 == Digits(s, UrlSafe) + pad;
    ReplacingOccurrencesAppend(Digits(s, UrlSafe), pad, '=', "");
    NoPadInDigits(s, UrlSafe);
    ReplaceAbsent(Digits(s, UrlSafe), '=', "");
    PaddingRemoved(|data|);
  }

  lemma PaddingRemoved(n: nat)
    ensures ReplacingOccurrences(Padding(n), '=', "") == ""
  {
    assert ReplacingOccurrences("=", '=', "") == "";
    assert "=="[1..] == "=";
  }

  // ---------------------------------------------------------------------------
  // What the encoder promises
  // ---------------------------------------------------------------------------

  /** Every output character is a digit of the URL-safe alphabet; in particular none is `+`, `/` or `=`. */
  lemma EncodedAlphabet(data: seq<Byte>)
    ensures var r := Base64URLEncodedString(data);
      forall i | 0 <= i < |r| :: r[i] != '+' && r[i] != '/' && r[i] != '=' && DigitValue(r[i], UrlSafe).Some?
  {
    var s := ToSextets(data);
    forall i | 0 <= i < |s|
      ensures DigitValue(Digits(s, UrlSafe)[i], UrlSafe).Some?
    {
      DigitCharValue(s[i], UrlSafe);
    }
  }

  /**
   * For n input bytes the output has 4 * ceil(n / 3) characters less the padding
   * the standard encoding would have carried: two when n mod 3 = 1, one when n mod 3 = 2.
   */
  lemma EncodedLength(data: seq<Byte>)
    ensures var n := |data|;
      |Base64URLEncodedString(data)|
        == 4 * ((n + 2) / 3) - (if n % 3 == 1 then 2 else if n % 3 == 2 then 1 else 0)
    ensures |Base64URLEncodedString(data)| == |Base64EncodedString(data)| - |Padding(|data|)|
  {
    SextetCount(data);
  }

  lemma StripPaddingUnpadded(t: string)
    requires forall i | 0 <= i < |t| :: t[i] != '='
    ensures StripPadding(t) == t
  {
  }

  /** Decoding the output as base64url (section 5 of RFC 4648) recovers the input bytes exactly. */
  lemma EncodedRoundTrip(data: seq<Byte>)
    ensures Base64URLDecode(Base64URLEncodedString(data)) == Some(data)
  {
    var sextets := ToSextets(data);
    var r := Digits(sextets, UrlSafe);
    assert Base64URLEncodedString(data) == r;
    NoPadInDigits(sextets, UrlSafe);
    StripPaddingUnpadded(r);
    DigitValuesOfDigits(sextets, UrlSafe);
    SextetsRoundTrip(data);
  }

  /**
   * Conversely, any text that decodes to some bytes is exactly what the encoder makes of
   * those bytes, once the text's own padding is dropped: the encoding is canonical.
   */
  lemma DecodedReencodes(text: string, data: seq<Byte>)
    requires Base64URLDecode(text) == Some(data)
    ensures Base64URLEncodedString(data) == StripPadding(text)
  {
    var digits := DigitValues(StripPadding(text), UrlSafe).value;
    DigitsOfDigitValues(StripPadding(text), UrlSafe, digits);
    SextetsCanonical(digits, data);
  }

  /** Decoding is injective on canonical encodings: distinct byte strings never share an encoding. */
  lemma EncodingInjective(x: seq<Byte>, y: seq<Byte>)
    requires Base64URLEncodedString(x) == Base64URLEncodedString(y)
    ensures x == y
  {
    EncodedRoundTrip(x);
    EncodedRoundTrip(y);
  }

  /** The bytes DE AD: standard Base64 "3q0=", URL-safe without padding "3q0". */
  lemma DeadVector()
    ensures Base64EncodedString([0xDE, 0xAD]) == "3q0="
    ensures Base64URLEncodedString([0xDE, 0xAD]) == "3q0"
  {
    var s := ToSextets([0xDE, 0xAD]);
    assert s == EncodeTail([0xDE, 0xAD]) == [55, 42, 52];
    assert DigitChar(55, Standard) == '3' && DigitChar(42, Standard) == 'q' && DigitChar(52, Standard) == '0';
    assert Digits(s, Standard) == "3q0";
    assert Padding(2) == "=";
  }

  /** The bytes FB FF exercise both replaced characters: standard "+/8=", URL-safe "-_8". */
  lemma ReplacedCharactersVector()
    ensures Base64EncodedString([0xFB, 0xFF]) == "+/8="
    ensures Base64URLEncodedString([0xFB, 0xFF]) == "-_8"
  {
    var s := ToSextets([0xFB, 0xFF]);
    assert s == EncodeTail([0xFB, 0xFF]) == [62, 63, 60];
    assert DigitChar(62, Standard) == '+' && DigitChar(63, Standard) == '/' && DigitChar(60, Standard) == '8';
    assert DigitChar(62, UrlSafe) == '-' && DigitChar(63, UrlSafe) == '_' && DigitChar(60, UrlSafe) == '8';
    assert Digits(s, Standard) == "+/8";
    assert Digits(s, UrlSafe) == "-_8";
    assert Padding(2) == "=";
  }

  /** A full 3-byte quantum: "Man" (4D 61 6E) encodes to "TWFu" in both alphabets. */
  lemma FullQuantumVector()
    ensures Base64EncodedString([0x4D, 0x61, 0x6E]) == "TWFu"
    ensures Base64URLEncodedString([0x4D, 0x61, 0x6E]) == "TWFu"
  {
    var b: seq<Byte> := [0x4D, 0x61, 0x6E];
    assert b[3..] == [];
    var s := ToSextets(b);
    assert s == EncodeQuantum(0x4D, 0x61, 0x6E) + ToSextets([]);
    assert EncodeQuantum(0x4D, 0x61, 0x6E) == [19, 22, 5, 46];
    assert s == [19, 22, 5, 46];
    assert DigitChar(19, Standard) == 'T' && DigitChar(22, Standard) == 'W';
    assert DigitChar(5, Standard) == 'F' && DigitChar(46, Standard) == 'u';
    assert DigitChar(19, UrlSafe) == 'T' && DigitChar(22, UrlSafe) == 'W';
    assert DigitChar(5, UrlSafe) == 'F' && DigitChar(46, UrlSafe) == 'u';
    assert Digits(s, Standard) == "TWFu";
    assert Digits(s, UrlSafe) == "TWFu";
    assert Padding(3) == "";
  }
}
