/** auth/tokens.py, _b64url_encode and _b64url_decode: base64url as in section 5
    of RFC 4648, printed without padding (appendix C of RFC 7515). The decoder is
    the lenient one of Python's standard library: it skips characters outside
    the alphabet and stops at a complete padding. */
module Base64 {
  import opened Basics

  type Byte = b: nat | b < 256
  type Sextet = v: nat | v < 64

  function CharOf(v: Sextet): (c: char)
    ensures c != '=' && c != '.' && c < 128 as char && ValueOf(c) == Some(v)
  {
    if v < 26 then (v + 'A' as int) as char
    else if v < 52 then (v - 26 + 'a' as int) as char
    else if v < 62 then (v - 52 + '0' as int) as char
    else if v == 62 then '-'
    else '_'
  }

  /** '-' and '_' are translated to '+' and '/' before decoding, so both spellings are read. */
  function ValueOf(c: char): (r: Option<nat>)
    ensures r.Some? ==> r.value < 64
  {
    if 'A' <= c <= 'Z' then Some(c as int - 'A' as int)
    else if 'a' <= c <= 'z' then Some(c as int - 'a' as int + 26)
    else if '0' <= c <= '9' then Some(c as int - '0' as int + 52)
    else if c == '-' || c == '+' then Some(62)
    else if c == '_' || c == '/' then Some(63)
    else None
  }

  // ---- printing ------------------------------------------------------------

  function Triple(a: Byte, b: Byte, c: Byte): string
  {
    [CharOf(a / 4), CharOf(a % 4 * 16 + b / 16), CharOf(b % 16 * 4 + c / 64), CharOf(c % 64)]
  }

  /** urlsafe_b64encode, with its padding. */
  function Padded(raw: seq<Byte>): string
  {
    if |raw| == 0 then ""
    else if |raw| == 1 then [CharOf(raw[0] / 4), CharOf(raw[0] % 4 * 16), '=', '=']
    else if |raw| == 2 then
      [CharOf(raw[0] / 4), CharOf(raw[0] % 4 * 16 + raw[1] / 16), CharOf(raw[1] % 16 * 4), '=']
    else Triple(raw[0], raw[1], raw[2]) + Padded(raw[3..])
  }

  /** rstrip("="). */
  function StripPadding(s: string): string
  {
    if s != "" && s[|s| - 1] == '=' then StripPadding(s[..|s| - 1]) else s
  }

  function Encode(raw: seq<Byte>): string
  {
    StripPadding(Padded(raw))
  }

  // ---- reading -------------------------------------------------------------

  /** The scanner's loop: position in the quadruple, bits left over, padding seen. */
  function Scan(s: string, quad: nat, left: nat, pads: nat): Option<seq<Byte>>
    requires quad < 4
    requires (quad == 1 ==> left < 64) && (quad == 2 ==> left < 16) && (quad == 3 ==> left < 4)
  {
    if s == "" then (if quad == 0 then Some([]) else None)
    else if s[0] == '=' then
      if quad >= 2 && quad + pads + 1 >= 4 then Some([])
      else Scan(s[1..], quad, left, if quad >= 2 then pads + 1 else pads)
    else
      var v := ValueOf(s[0]);
      if v.None? then Scan(s[1..], quad, left, pads)
      else match quad
        case 0 => Scan(s[1..], 1, v.value, 0)
        case 1 => Emit(left * 4 + v.value / 16, Scan(s[1..], 2, v.value % 16, 0))
        case 2 => Emit(left * 16 + v.value / 4, Scan(s[1..], 3, v.value % 4, 0))
        case _ => Emit(left * 64 + v.value, Scan(s[1..], 0, 0, 0))
  }

  function Emit(b: Byte, rest: Option<seq<Byte>>): Option<seq<Byte>>
  {
    if rest.Some? then Some([b] + rest.value) else None
  }

  function Equals(n: nat): string
  {
    if n == 0 then "" else "=" + Equals(n - 1)
  }

  predicate IsAscii(s: string)
  {
    forall c :: c in s ==> c < 128 as char
  }

  /** Pads to a multiple of four, then scans; None stands for the ValueError. */
  function Decode(s: string): Option<seq<Byte>>
  {
    if IsAscii(s) then Scan(s + Equals((4 - |s| % 4) % 4), 0, 0, 0) else None
  }

  // ---- the round trip ---------------------------------------------------------

  /** The unpadded text, group by group. */
  function Digits(raw: seq<Byte>): string
  {
    if |raw| == 0 then ""
    else if |raw| == 1 then [CharOf(raw[0] / 4), CharOf(raw[0] % 4 * 16)]
    else if |raw| == 2 then
      [CharOf(raw[0] / 4), CharOf(raw[0] % 4 * 16 + raw[1] / 16), CharOf(raw[1] % 16 * 4)]
    else Triple(raw[0], raw[1], raw[2]) + Digits(raw[3..])
  }

  function PadLength(n: nat): nat
  {
    if n % 3 == 1 then 2 else if n % 3 == 2 then 1 else 0
  }

  lemma PadLengthRepeats(n: nat)
    ensures PadLength(n + 3) == PadLength(n)
  {
  }

  lemma SmallEquals()
    ensures Equals(0) == "" && Equals(1) == "=" && Equals(2) == "=="
  {
    assert Equals(1) == "=" + Equals(0);
    assert Equals(2) == "=" + Equals(1);
  }

  lemma {:induction false} PaddedIsDigits(raw: seq<Byte>)
    ensures Padded(raw) == Digits(raw) + Equals(PadLength(|raw|))
  {
    if |raw| <= 2 {
      SmallEquals();
    } else {
      PaddedIsDigits(raw[3..]);
      PadLengthRepeats(|raw[3..]|);
      Regroup(Triple(raw[0], raw[1], raw[2]), Digits(raw[3..]), Equals(PadLength(|raw|)));
    }
  }

  lemma Regroup(s: string, t: string, u: string)
    ensures s + (t + u) == (s + t) + u
  {
  }

  lemma FourMore(n: nat)
    ensures (4 + n) % 4 == n % 4
  {
  }

  /** The length alone says how much padding was stripped. */
  lemma {:induction false} LengthTellsPadding(raw: seq<Byte>)
    ensures (4 - |Digits(raw)| % 4) % 4 == PadLength(|raw|)
  {
    if |raw| > 2 {
      LengthTellsPadding(raw[3..]);
      PadLengthRepeats(|raw[3..]|);
      FourMore(|Digits(raw[3..])|);
    }
  }

  predicate IsPlain(s: string)
  {
    forall c :: c in s ==> c != '=' && c != '.' && c < 128 as char
  }

  lemma {:induction false} DigitsArePlain(raw: seq<Byte>)
    ensures IsPlain(Digits(raw))
  {
    if |raw| > 2 {
      DigitsArePlain(raw[3..]);
      var first, rest := Triple(raw[0], raw[1], raw[2]), Digits(raw[3..]);
      assert IsPlain(first);
      forall c | c in first + rest
        ensures c in first || c in rest
      {
      }
    }
  }

  lemma {:induction false} StripsItsPadding(s: string, n: nat)
    requires forall c :: c in s ==> c != '='
    ensures StripPadding(s + Equals(n)) == s
  {
    if n == 0 {
      assert s + Equals(0) == s;
      if s != "" { assert s[|s| - 1] in s; }
    } else {
      EqualsEndsInEquals(n);
      var t := s + Equals(n);
      assert t[..|t| - 1] == s + Equals(n - 1);
      StripsItsPadding(s, n - 1);
    }
  }

  lemma {:induction false} EqualsEndsInEquals(n: nat)
    requires n > 0
    ensures |Equals(n)| == n && Equals(n)[n - 1] == '=' && Equals(n)[..n - 1] == Equals(n - 1)
  {
    if n == 1 {
      assert Equals(1) == "=" + Equals(0);
    } else {
      EqualsEndsInEquals(n - 1);
      assert Equals(n) == "=" + Equals(n - 1);
      assert Equals(n)[..n - 1] == "=" + Equals(n - 1)[..n - 2];
    }
  }

  lemma EncodeIsDigits(raw: seq<Byte>)
    ensures Encode(raw) == Digits(raw)
  {
    PaddedIsDigits(raw);
    DigitsArePlain(raw);
    StripsItsPadding(Digits(raw), PadLength(|raw|));
  }

  lemma ScanDigit(v: Sextet, rest: string, quad: nat, left: nat, pads: nat)
    requires quad < 4
    requires (quad == 1 ==> left < 64) && (quad == 2 ==> left < 16) && (quad == 3 ==> left < 4)
    ensures Scan([CharOf(v)] + rest, quad, left, pads) ==
      match quad
      case 0 => Scan(rest, 1, v, 0)
      case 1 => Emit(left * 4 + v / 16, Scan(rest, 2, v % 16, 0))
      case 2 => Emit(left * 16 + v / 4, Scan(rest, 3, v % 4, 0))
      case _ => Emit(left * 64 + v, Scan(rest, 0, 0, 0))
  {
    assert ([CharOf(v)] + rest)[1..] == rest;
  }

  /** Eight bits cut in two and put together again, at each of the three places. */
  lemma BitsRejoin(a: Byte, b: Byte, c: Byte)
    ensures a / 4 * 4 + (a % 4 * 16 + b / 16) / 16 == a
    ensures (a % 4 * 16 + b / 16) % 16 * 16 + (b % 16 * 4 + c / 64) / 4 == b
    ensures (b % 16 * 4 + c / 64) % 4 * 64 + c % 64 == c
  {
    SplitAfterTwo(a % 4, b / 16);
    SplitAfterFour(b % 16, c / 64);
  }

  lemma SplitAfterTwo(high: nat, low: nat)
    requires low < 16
    ensures (high * 16 + low) / 16 == high && (high * 16 + low) % 16 == low
  {
  }

  lemma SplitAfterFour(high: nat, low: nat)
    requires low < 4
    ensures (high * 4 + low) / 4 == high && (high * 4 + low) % 4 == low
  {
  }

  lemma ScanFour(w: Sextet, x: Sextet, y: Sextet, z: Sextet, rest: string)
    ensures Scan([CharOf(w), CharOf(x), CharOf(y), CharOf(z)] + rest, 0, 0, 0) ==
      Emit(w * 4 + x / 16, Emit(x % 16 * 16 + y / 4, Emit(y % 4 * 64 + z, Scan(rest, 0, 0, 0))))
  {
    var s3 := [CharOf(z)] + rest;
    var s2 := [CharOf(y)] + s3;
    var s1 := [CharOf(x)] + s2;
    assert [CharOf(w), CharOf(x), CharOf(y), CharOf(z)] + rest == [CharOf(w)] + s1;
    ScanDigit(w, s1, 0, 0, 0);
    ScanDigit(x, s2, 1, w, 0);
    ScanDigit(y, s3, 2, x % 16, 0);
    ScanDigit(z, rest, 3, y % 4, 0);
  }

  lemma ScanTriple(a: Byte, b: Byte, c: Byte, rest: string)
    ensures Scan(Triple(a, b, c) + rest, 0, 0, 0) == Emit(a, Emit(b, Emit(c, Scan(rest, 0, 0, 0))))
  {
    BitsRejoin(a, b, c);
    ScanFour(a / 4, a % 4 * 16 + b / 16, b % 16 * 4 + c / 64, c % 64, rest);
  }

  /** A complete padding ends the text, whatever bits are left over. */
  lemma ScanPads(left: nat)
    ensures left < 16 ==> Scan("==", 2, left, 0) == Some([])
    ensures left < 4 ==> Scan("=", 3, left, 0) == Some([])
  {
    assert "=="[1..] == "=";
  }

  lemma ScanOne(a: Byte)
    ensures Scan([CharOf(a / 4), CharOf(a % 4 * 16)] + "==", 0, 0, 0) == Some([a])
  {
    var w: Sextet, x: Sextet := a / 4, a % 4 * 16;
    assert [CharOf(w), CharOf(x)] + "==" == [CharOf(w)] + ([CharOf(x)] + "==");
    ScanDigit(w, [CharOf(x)] + "==", 0, 0, 0);
    ScanDigit(x, "==", 1, w, 0);
    SplitAfterTwo(a % 4, 0);
    assert w * 4 + x / 16 == a;
    ScanPads(x % 16);
    assert [a] + [] == [a];
  }

  lemma ScanTwo(a: Byte, b: Byte)
    ensures Scan([CharOf(a / 4), CharOf(a % 4 * 16 + b / 16), CharOf(b % 16 * 4)] + "=", 0, 0, 0)
      == Some([a, b])
  {
    var w: Sextet, x: Sextet, y: Sextet := a / 4, a % 4 * 16 + b / 16, b % 16 * 4;
    var s1 := [CharOf(y)] + "=";
    assert [CharOf(w), CharOf(x), CharOf(y)] + "=" == [CharOf(w)] + ([CharOf(x)] + s1);
    ScanDigit(w, [CharOf(x)] + s1, 0, 0, 0);
    ScanDigit(x, s1, 1, w, 0);
    ScanDigit(y, "=", 2, x % 16, 0);
    SplitAfterTwo(a % 4, b / 16);
    SplitAfterFour(b % 16, 0);
    assert w * 4 + x / 16 == a && x % 16 * 16 + y / 4 == b;
    ScanPads(y % 4);
    assert [a] + ([b] + []) == [a, b];
  }

  lemma {:induction false} ScanReads(raw: seq<Byte>)
    ensures Scan(Digits(raw) + Equals(PadLength(|raw|)), 0, 0, 0) == Some(raw)
  {
    SmallEquals();
    if |raw| == 0 {
      assert Digits(raw) + Equals(0) == "";
    } else if |raw| == 1 {
      ScanOne(raw[0]);
      assert raw == [raw[0]];
    } else if |raw| == 2 {
      ScanTwo(raw[0], raw[1]);
      assert raw == [raw[0], raw[1]];
    } else {
      var rest := raw[3..];
      ScanReads(rest);
      PadLengthRepeats(|rest|);
      ScanGroup(raw[0], raw[1], raw[2], Digits(rest), Equals(PadLength(|rest|)), rest);
      assert raw == [raw[0], raw[1], raw[2]] + rest;
    }
  }

  lemma ScanGroup(a: Byte, b: Byte, c: Byte, digits: string, pads: string, rest: seq<Byte>)
    requires Scan(digits + pads, 0, 0, 0) == Some(rest)
    ensures Scan((Triple(a, b, c) + digits) + pads, 0, 0, 0) == Some([a, b, c] + rest)
  {
    Regroup(Triple(a, b, c), digits, pads);
    ScanTriple(a, b, c, digits + pads);
    assert [a] + ([b] + ([c] + rest)) == [a, b, c] + rest;
  }

  /** Decoding undoes encoding for every byte sequence, and what is printed has
      neither a dot, nor padding, nor a character outside ASCII. */
  lemma DecodeUndoesEncode(raw: seq<Byte>)
    ensures Decode(Encode(raw)) == Some(raw)
    ensures IsPlain(Encode(raw))
  {
    EncodeIsDigits(raw);
    DigitsArePlain(raw);
    LengthTellsPadding(raw);
    ScanReads(raw);
  }

  /** Hence different byte sequences print differently. */
  lemma EncodeIsInjective(a: seq<Byte>, b: seq<Byte>)
    requires Encode(a) == Encode(b)
    ensures a == b
  {
    DecodeUndoesEncode(a);
    DecodeUndoesEncode(b);
  }

  // ---- what the text spells -------------------------------------------------

  /** The big-endian number of the bytes, continued from `high`. */
  function NumberOfBytes(high: nat, raw: seq<Byte>): nat
    decreases |raw|
  {
    if raw == [] then high else NumberOfBytes(high * 256 + raw[0], raw[1..])
  }

  /** Six bits a character: its place in the alphabet of section 5 of RFC 4648. */
  function NumberOfText(high: nat, s: string): nat
    decreases |s|
  {
    if s == "" then high
    else NumberOfText(match ValueOf(s[0]) case Some(v) => high * 64 + v case None => high, s[1..])
  }

  lemma TextStep(high: nat, v: Sextet, rest: string)
    ensures NumberOfText(high, [CharOf(v)] + rest) == NumberOfText(high * 64 + v, rest)
  {
    assert ([CharOf(v)] + rest)[1..] == rest;
  }

  lemma TextOfFour(high: nat, w: Sextet, x: Sextet, y: Sextet, z: Sextet, rest: string)
    ensures NumberOfText(high, [CharOf(w), CharOf(x), CharOf(y), CharOf(z)] + rest)
      == NumberOfText((((high * 64 + w) * 64 + x) * 64 + y) * 64 + z, rest)
  {
    var s3 := [CharOf(z)] + rest;
    var s2 := [CharOf(y)] + s3;
    var s1 := [CharOf(x)] + s2;
    assert [CharOf(w), CharOf(x), CharOf(y), CharOf(z)] + rest == [CharOf(w)] + s1;
    TextStep(high, w, s1);
    TextStep(high * 64 + w, x, s2);
    TextStep((high * 64 + w) * 64 + x, y, s3);
    TextStep(((high * 64 + w) * 64 + x) * 64 + y, z, rest);
  }

  lemma ByteStep(high: nat, b: Byte, rest: seq<Byte>)
    ensures NumberOfBytes(high, [b] + rest) == NumberOfBytes(high * 256 + b, rest)
  {
    assert ([b] + rest)[1..] == rest;
  }

  lemma BytesOfThree(high: nat, raw: seq<Byte>)
    requires |raw| >= 3
    ensures NumberOfBytes(high, raw)
      == NumberOfBytes(((high * 256 + raw[0]) * 256 + raw[1]) * 256 + raw[2], raw[3..])
  {
    var u := [raw[2]] + raw[3..];
    var t := [raw[1]] + u;
    assert raw == [raw[0]] + t;
    ByteStep(high, raw[0], t);
    ByteStep(high * 256 + raw[0], raw[1], u);
    ByteStep((high * 256 + raw[0]) * 256 + raw[1], raw[2], raw[3..]);
  }

  lemma BytesOfTwo(high: nat, raw: seq<Byte>)
    requires |raw| == 2
    ensures NumberOfBytes(high, raw) == (high * 256 + raw[0]) * 256 + raw[1]
  {
    assert raw == [raw[0]] + ([raw[1]] + []);
    ByteStep(high, raw[0], [raw[1]] + []);
    ByteStep(high * 256 + raw[0], raw[1], []);
  }

  /** Three bytes and four sextets are the same twenty-four bits. */
  lemma GroupIsTheSame(a: Byte, b: Byte, c: Byte)
    ensures ((a / 4 * 64 + (a % 4 * 16 + b / 16)) * 64 + (b % 16 * 4 + c / 64)) * 64 + c % 64
      == (a * 256 + b) * 256 + c
  {
  }

  /** What stripping padding loses can be told from the length: four or two zero bits. */
  function Fill(n: nat): nat
  {
    if n % 3 == 1 then 16 else if n % 3 == 2 then 4 else 1
  }

  lemma FillRepeats(n: nat)
    ensures Fill(n + 3) == Fill(n)
  {
  }

  lemma {:induction false} DigitsSpell(high: nat, raw: seq<Byte>)
    ensures NumberOfText(high, Digits(raw)) == NumberOfBytes(high, raw) * Fill(|raw|)
    decreases |raw|
  {
    if |raw| <= 2 {
      ShortSpells(high, raw);
    } else {
      GroupSpells(high, raw);
      BytesOfThree(high, raw);
      DigitsSpell(((high * 256 + raw[0]) * 256 + raw[1]) * 256 + raw[2], raw[3..]);
      FillRepeats(|raw[3..]|);
    }
  }

  lemma ShortSpells(high: nat, raw: seq<Byte>)
    requires |raw| <= 2
    ensures NumberOfText(high, Digits(raw)) == NumberOfBytes(high, raw) * Fill(|raw|)
  {
    if |raw| == 1 {
      OneByteSpells(high, raw);
    } else if |raw| == 2 {
      TwoBytesSpell(high, raw);
    }
  }

  lemma OneByteSpells(high: nat, raw: seq<Byte>)
    requires |raw| == 1
    ensures NumberOfText(high, Digits(raw)) == NumberOfBytes(high, raw) * 16
  {
    TailSpells(high, raw[0], 0);
    assert raw == [raw[0]] + [];
    ByteStep(high, raw[0], []);
  }

  lemma TwoBytesSpell(high: nat, raw: seq<Byte>)
    requires |raw| == 2
    ensures NumberOfText(high, Digits(raw)) == NumberOfBytes(high, raw) * 4
  {
    TailSpells(high, raw[0], raw[1]);
    BytesOfTwo(high, raw);
  }

  lemma TripleIsFour(a: Byte, b: Byte, c: Byte) returns (w: Sextet, x: Sextet, y: Sextet, z: Sextet)
    ensures Triple(a, b, c) == [CharOf(w), CharOf(x), CharOf(y), CharOf(z)]
    ensures ((w * 64 + x) * 64 + y) * 64 + z == (a * 256 + b) * 256 + c
  {
    w, x, y, z := a / 4, a % 4 * 16 + b / 16, b % 16 * 4 + c / 64, c % 64;
    GroupIsTheSame(a, b, c);
  }

  lemma TripleSpells(high: nat, a: Byte, b: Byte, c: Byte, rest: string)
    ensures NumberOfText(high, Triple(a, b, c) + rest) == NumberOfText(((high * 256 + a) * 256 + b) * 256 + c, rest)
  {
    var w, x, y, z := TripleIsFour(a, b, c);
    TextOfFour(high, w, x, y, z, rest);
  }

  lemma GroupSpells(high: nat, raw: seq<Byte>)
    requires |raw| >= 3
    ensures NumberOfText(high, Digits(raw))
      == NumberOfText(((high * 256 + raw[0]) * 256 + raw[1]) * 256 + raw[2], Digits(raw[3..]))
  {
    TripleSpells(high, raw[0], raw[1], raw[2], Digits(raw[3..]));
  }

  lemma TailSpells(high: nat, a: Byte, b: Byte)
    ensures NumberOfText(high, [CharOf(a / 4), CharOf(a % 4 * 16)]) == (high * 256 + a) * 16
    ensures NumberOfText(high, [CharOf(a / 4), CharOf(a % 4 * 16 + b / 16), CharOf(b % 16 * 4)])
      == ((high * 256 + a) * 256 + b) * 4
  {
    var w, x, y := [CharOf(a / 4)], [CharOf(a % 4 * 16 + b / 16)], [CharOf(b % 16 * 4)];
    assert [CharOf(a / 4), CharOf(a % 4 * 16)] == w + ([CharOf(a % 4 * 16)] + "");
    TextStep(high, a / 4, [CharOf(a % 4 * 16)] + "");
    TextStep(high * 64 + a / 4, a % 4 * 16, "");
    assert [CharOf(a / 4), CharOf(a % 4 * 16 + b / 16), CharOf(b % 16 * 4)] == w + (x + (y + ""));
    TextStep(high, a / 4, x + (y + ""));
    TextStep(high * 64 + a / 4, a % 4 * 16 + b / 16, y + "");
    TextStep((high * 64 + a / 4) * 64 + (a % 4 * 16 + b / 16), b % 16 * 4, "");
  }

  /** What section 4 of RFC 4648 asks of an encoder: the characters spell the number
      of the bytes, filled up with zero bits to a whole number of sextets, and there
      are no more of them than that takes. */
  lemma EncodeSpellsTheBytes(raw: seq<Byte>)
    ensures NumberOfText(0, Encode(raw)) == NumberOfBytes(0, raw) * Fill(|raw|)
    ensures |Encode(raw)| == (8 * |raw| + 5) / 6
  {
    EncodeIsDigits(raw);
    DigitsSpell(0, raw);
    DigitsLength(raw);
  }

  lemma {:induction false} DigitsLength(raw: seq<Byte>)
    ensures |Digits(raw)| == (8 * |raw| + 5) / 6
  {
    if |raw| > 2 {
      DigitsLength(raw[3..]);
      assert |Digits(raw)| == 4 + |Digits(raw[3..])|;
    }
  }

  // ---- the alphabet, and what the reader tolerates ---------------------------------

  /** Table 2 of RFC 4648: upper case, lower case, digits, minus, underscore. */
  lemma AlphabetIsUrlSafe(v: Sextet)
    ensures CharOf(v) as int ==
      if v < 26 then 65 + v else if v < 52 then 97 + (v - 26) else if v < 62 then 48 + (v - 52)
      else if v == 62 then 45 else 95
  {
  }

  /** A character stands for the sextet it is printed for; plus and slash for the last
      two as well; nothing else stands for anything. */
  lemma BothSpellingsAreRead(c: char)
    ensures ValueOf(c).Some? ==> (var v: Sextet := ValueOf(c).value;
              c == CharOf(v) || (v == 62 && c == '+') || (v == 63 && c == '/'))
    ensures ValueOf('+') == Some(62) && ValueOf('/') == Some(63)
    ensures forall v: Sextet :: ValueOf(CharOf(v)) == Some(v)
  {
  }

  /** A character that stands for nothing is passed over, wherever it is. */
  lemma {:induction false} JunkIsSkipped(a: string, c: char, b: string, quad: nat, left: nat, pads: nat)
    requires quad < 4
    requires (quad == 1 ==> left < 64) && (quad == 2 ==> left < 16) && (quad == 3 ==> left < 4)
    requires ValueOf(c).None? && c != '='
    ensures Scan(a + [c] + b, quad, left, pads) == Scan(a + b, quad, left, pads)
    decreases |a|
  {
    if a == "" {
      assert (a + [c] + b)[1..] == a + b;
    } else {
      var rest := a[1..];
      assert (a + [c] + b)[1..] == rest + [c] + b && (a + b)[1..] == rest + b;
      var v := ValueOf(a[0]);
      if a[0] == '=' {
        JunkIsSkipped(rest, c, b, quad, left, if quad >= 2 then pads + 1 else pads);
      } else if v.None? {
        JunkIsSkipped(rest, c, b, quad, left, pads);
      } else {
        match quad
        case 0 => JunkIsSkipped(rest, c, b, 1, v.value, 0);
        case 1 => JunkIsSkipped(rest, c, b, 2, v.value % 16, 0);
        case 2 => JunkIsSkipped(rest, c, b, 3, v.value % 4, 0);
        case _ => JunkIsSkipped(rest, c, b, 0, 0, 0);
      }
    }
  }

  /** Text outside ASCII is not read at all. */
  lemma OnlyAsciiIsRead(s: string, i: nat)
    requires i < |s| && s[i] as int >= 128
    ensures Decode(s).None?
  {
    assert s[i] in s;
  }

  lemma TripleVectors()
    ensures Encode([102, 111, 111]) == "Zm9v" && Encode([251, 255, 254]) == "-__-"
  {
    EncodeIsDigits([102, 111, 111]);
    EncodeIsDigits([251, 255, 254]);
    assert Digits([]) == "";
    assert Triple(102, 111, 111) + "" == "Zm9v" && Triple(251, 255, 254) + "" == "-__-";
    assert [102, 111, 111][3..] == [] && [251, 255, 254][3..] == [];
  }

  /** Vectors of section 10 of RFC 4648, unpadded, and one with the last two characters. */
  lemma StandardVectors()
    ensures Encode([]) == "" && Encode([102]) == "Zg" && Encode([102, 111]) == "Zm8"
    ensures Encode([102, 111, 111]) == "Zm9v" && Encode([251, 255, 254]) == "-__-"
  {
    EncodeIsDigits([]);
    EncodeIsDigits([102]);
    EncodeIsDigits([102, 111]);
    TripleVectors();
  }
}
