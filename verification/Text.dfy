/**
 * The textual forms that stored records are printed in and parsed from: decimal
 * numbers, hexadecimal and base64 with padding (section 4 of RFC 4648), lines and
 * key=value pairs. Each printer comes with the parser that undoes it.
 */
module Text {
  import opened Options

  type Byte = b: int | 0 <= b < 256
  type Bytes = seq<Byte>

  // ---- decimal -----------------------------------------------------------------------

  function Digit(d: nat): char
    requires d < 10
  {
    ('0' as int + d) as char
  }

  function DigitValue(c: char): (d: Option<nat>)
    ensures d.Some? ==> d.value < 10
  {
    if '0' <= c <= '9' then Some(c as int - '0' as int) else None
  }

  lemma DigitRoundTrip(d: nat)
    requires d < 10
    ensures DigitValue(Digit(d)) == Some(d) && Digit(d) != '+'
  {
  }

  function Decimal(n: nat): (s: string)
    ensures s != []
  {
    if n < 10 then [Digit(n)] else Decimal(n / 10) + [Digit(n % 10)]
  }

  /** The value of a nonempty run of digits. */
  function Digits(s: string): Option<nat> {
    if s == [] then None
    else
      match DigitValue(s[|s| - 1])
      case None => None
      case Some(d) =>
        if |s| == 1 then Some(d)
        else
          match Digits(s[..|s| - 1])
          case None => None
          case Some(n) => Some(10 * n + d)
  }

  /** An unsigned number below `limit`; one leading plus sign is allowed. */
  function ParseUnsigned(s: string, limit: nat): (r: Option<nat>)
    ensures r.Some? ==> r.value < limit
  {
    var digits := if s != [] && s[0] == '+' then s[1..] else s;
    match Digits(digits)
    case None => None
    case Some(n) => if n < limit then Some(n) else None
  }

  lemma {:induction false} DecimalDigits(n: nat)
    ensures Digits(Decimal(n)) == Some(n) && Decimal(n)[0] != '+'
  {
    if n < 10 {
      DigitRoundTrip(n);
    } else {
      DigitRoundTrip(n % 10);
      DecimalDigits(n / 10);
      assert Decimal(n)[..|Decimal(n)| - 1] == Decimal(n / 10);
    }
  }

  lemma DecimalRoundTrip(n: nat, limit: nat)
    requires n < limit
    ensures ParseUnsigned(Decimal(n), limit) == Some(n)
  {
    DecimalDigits(n);
  }

  // ---- hexadecimal ---------------------------------------------------------------------

  function HexDigit(d: nat): char
    requires d < 16
  {
    if d < 10 then ('0' as int + d) as char else ('a' as int + d - 10) as char
  }

  function HexValue(c: char): (d: Option<nat>)
    ensures d.Some? ==> d.value < 16
  {
    if '0' <= c <= '9' then Some(c as int - '0' as int)
    else if 'a' <= c <= 'f' then Some(c as int - 'a' as int + 10)
    else if 'A' <= c <= 'F' then Some(c as int - 'A' as int + 10)
    else None
  }

  lemma HexDigitRoundTrip(d: nat)
    requires d < 16
    ensures HexValue(HexDigit(d)) == Some(d)
  {
  }

  function Hex(b: Bytes): (s: string)
    ensures |s| == 2 * |b|
  {
    if b == [] then [] else [HexDigit(b[0] / 16), HexDigit(b[0] % 16)] + Hex(b[1..])
  }

  function Unhex(s: string): Option<Bytes> {
    if s == [] then Some([])
    else if |s| == 1 then None
    else
      match (HexValue(s[0]), HexValue(s[1]), Unhex(s[2..]))
      case (Some(h), Some(l), Some(rest)) => Some([16 * h + l] + rest)
      case _ => None
  }

  lemma {:induction false} HexRoundTrip(b: Bytes)
    ensures Unhex(Hex(b)) == Some(b)
  {
    if b != [] {
      HexDigitRoundTrip(b[0] / 16);
      HexDigitRoundTrip(b[0] % 16);
      HexRoundTrip(b[1..]);
      assert Hex(b)[2..] == Hex(b[1..]);
      assert 16 * (b[0] / 16) + b[0] % 16 == b[0];
      assert [b[0]] + b[1..] == b;
    }
  }

  // ---- base64 -----------------------------------------------------------------------------

  function Letter(v: nat): char
    requires v < 64
  {
    if v < 26 then ('A' as int + v) as char
    else if v < 52 then ('a' as int + v - 26) as char
    else if v < 62 then ('0' as int + v - 52) as char
    else if v == 62 then '+' else '/'
  }

  function LetterValue(c: char): (v: Option<nat>)
    ensures v.Some? ==> v.value < 64 && Letter(v.value) == c
  {
    if 'A' <= c <= 'Z' then Some(c as int - 'A' as int)
    else if 'a' <= c <= 'z' then Some(c as int - 'a' as int + 26)
    else if '0' <= c <= '9' then Some(c as int - '0' as int + 52)
    else if c == '+' then Some(62)
    else if c == '/' then Some(63)
    else None
  }

  lemma LetterRoundTrip(v: nat)
    requires v < 64
    ensures LetterValue(Letter(v)) == Some(v)
  {
  }

  // Three bytes as four six-bit values.

  function First(a: Byte): (r: nat)
    ensures r < 64
  {
    a / 4
  }

  function Second(a: Byte, b: Byte): (r: nat)
    ensures r < 64
  {
    a % 4 * 16 + b / 16
  }

  function Third(b: Byte, c: Byte): (r: nat)
    ensures r < 64
  {
    b % 16 * 4 + c / 64
  }

  function Fourth(c: Byte): (r: nat)
    ensures r < 64
  {
    c % 64
  }

  function Encode64(b: Bytes): string {
    if b == [] then []
    else if |b| == 1 then [Letter(First(b[0])), Letter(Second(b[0], 0)), '=', '=']
    else if |b| == 2 then [Letter(First(b[0])), Letter(Second(b[0], b[1])), Letter(Third(b[1], 0)), '=']
    else
      [Letter(First(b[0])), Letter(Second(b[0], b[1])), Letter(Third(b[1], b[2])), Letter(Fourth(b[2]))] + Encode64(b[3..])
  }

  function ThreeBytes(v: nat, w: nat, x: nat, y: nat): Bytes
    requires v < 64 && w < 64 && x < 64 && y < 64
  {
    [v * 4 + w / 16, w % 16 * 16 + x / 4, x % 4 * 64 + y]
  }

  /** Groups of four; padding only in the last one, and unused bits must be zero. */
  function Decode64(s: string): Option<Bytes> {
    if s == [] then Some([])
    else if |s| < 4 then None
    else
      match (LetterValue(s[0]), LetterValue(s[1]))
      case (Some(v), Some(w)) =>
        if |s| == 4 && s[2] == '=' && s[3] == '=' then
          (if w % 16 == 0 then Some([v * 4 + w / 16]) else None)
        else (
          match LetterValue(s[2])
          case None => None
          case Some(x) =>
            if |s| == 4 && s[3] == '=' then
              (if x % 4 == 0 then Some([v * 4 + w / 16, w % 16 * 16 + x / 4]) else None)
            else
              match (LetterValue(s[3]), Decode64(s[4..]))
              case (Some(y), Some(rest)) => Some(ThreeBytes(v, w, x, y) + rest)
              case _ => None
        )
      case _ => None
  }

  lemma Split3(a: Byte, b: Byte, c: Byte)
    ensures ThreeBytes(First(a), Second(a, b), Third(b, c), Fourth(c)) == [a, b, c]
  {
    hide First, Second, Third, Fourth;
    FirstPair(a, b);
    SecondPair(a, b, c);
    ThirdPair(b, c);
  }

  lemma ThirdPair(b: Byte, c: Byte)
    ensures Third(b, c) % 4 * 64 + Fourth(c) == c
  {
    hide Third, Fourth;
    ThirdParts(b, c);
    ThirdByte(c);
  }

  lemma Sixteens(q: nat, r: nat)
    requires r < 16
    ensures (q * 16 + r) / 16 == q && (q * 16 + r) % 16 == r
  {
  }

  lemma Fours(q: nat, r: nat)
    requires r < 4
    ensures (q * 4 + r) / 4 == q && (q * 4 + r) % 4 == r
  {
  }

  lemma SecondParts(a: Byte, b: Byte)
    ensures Second(a, b) / 16 == a % 4 && Second(a, b) % 16 == b / 16
  {
    Sixteens(a % 4, b / 16);
  }

  lemma ThirdParts(b: Byte, c: Byte)
    ensures Third(b, c) / 4 == b % 16 && Third(b, c) % 4 == c / 64
  {
    Fours(b % 16, c / 64);
  }

  lemma FirstByte(a: Byte)
    ensures First(a) * 4 + a % 4 == a
  {
  }

  lemma SecondByte(b: Byte)
    ensures b / 16 * 16 + b % 16 == b
  {
  }

  lemma ThirdByte(c: Byte)
    ensures c / 64 * 64 + Fourth(c) == c
  {
  }

  lemma {:induction false} Base64RoundTrip(b: Bytes)
    ensures Decode64(Encode64(b)) == Some(b)
    decreases |b|
  {
    hide Letter, LetterValue;
    if b == [] {
    } else if |b| == 1 {
      OneByte(b[0]);
      assert b == [b[0]];
    } else if |b| == 2 {
      TwoBytes(b[0], b[1]);
      assert b == [b[0], b[1]];
    } else {
      Base64RoundTrip(b[3..]);
      WholeGroup(b);
    }
  }

  lemma TwoLetters(v: nat, w: nat)
    requires v < 64 && w < 64 && w % 16 == 0
    ensures Decode64([Letter(v), Letter(w), '=', '=']) == Some([v * 4 + w / 16])
  {
    hide Letter, LetterValue;
    LetterRoundTrip(v);
    LetterRoundTrip(w);
  }

  lemma ThreeLetters(v: nat, w: nat, x: nat)
    requires v < 64 && w < 64 && x < 64 && x % 4 == 0
    ensures Decode64([Letter(v), Letter(w), Letter(x), '=']) == Some([v * 4 + w / 16, w % 16 * 16 + x / 4])
  {
    hide Letter, LetterValue;
    LetterRoundTrip(v);
    LetterRoundTrip(w);
    LetterRoundTrip(x);
    LettersAreNotPadding(x);
  }

  lemma FirstPair(a: Byte, b: Byte)
    ensures First(a) * 4 + Second(a, b) / 16 == a
  {
    hide First, Second;
    SecondParts(a, b);
    FirstByte(a);
  }

  lemma SecondPair(a: Byte, b: Byte, c: Byte)
    ensures Second(a, b) % 16 * 16 + Third(b, c) / 4 == b
  {
    hide Second, Third;
    SecondParts(a, b);
    ThirdParts(b, c);
    SecondByte(b);
  }

  lemma NoRest(a: Byte)
    ensures Second(a, 0) % 16 == 0 && Third(a, 0) % 4 == 0
  {
    hide Second, Third;
    SecondParts(a, 0);
    ThirdParts(a, 0);
  }

  lemma OneByte(a: Byte)
    ensures Decode64([Letter(First(a)), Letter(Second(a, 0)), '=', '=']) == Some([a])
  {
    hide Letter, LetterValue, First, Second, Decode64;
    NoRest(a);
    TwoLetters(First(a), Second(a, 0));
    FirstPair(a, 0);
  }

  lemma TwoBytes(a: Byte, b: Byte)
    ensures Decode64([Letter(First(a)), Letter(Second(a, b)), Letter(Third(b, 0)), '=']) == Some([a, b])
  {
    hide Letter, LetterValue, First, Second, Third, Decode64;
    NoRest(b);
    ThreeLetters(First(a), Second(a, b), Third(b, 0));
    FirstPair(a, b);
    SecondPair(a, b, 0);
  }

  lemma LettersAreNotPadding(v: nat)
    requires v < 64
    ensures Letter(v) != '=' && Letter(v) != '\n' && Letter(v) != '\r'
  {
  }

  lemma FourLetters(v: nat, w: nat, x: nat, y: nat, t: string, rest: Bytes)
    requires v < 64 && w < 64 && x < 64 && y < 64 && Decode64(t) == Some(rest)
    ensures Decode64([Letter(v), Letter(w), Letter(x), Letter(y)] + t) == Some(ThreeBytes(v, w, x, y) + rest)
  {
    hide Letter, LetterValue, ThreeBytes;
    LetterRoundTrip(v);
    LetterRoundTrip(w);
    LetterRoundTrip(x);
    LetterRoundTrip(y);
    LettersAreNotPadding(x);
    LettersAreNotPadding(y);
    assert ([Letter(v), Letter(w), Letter(x), Letter(y)] + t)[4..] == t;
  }

  lemma EncodeGroup(b: Bytes)
    requires |b| >= 3
    ensures Encode64(b) ==
            [Letter(First(b[0])), Letter(Second(b[0], b[1])), Letter(Third(b[1], b[2])), Letter(Fourth(b[2]))] + Encode64(b[3..])
  {
    hide Letter, First, Second, Third, Fourth;
  }

  lemma WholeGroup(b: Bytes)
    requires |b| >= 3 && Decode64(Encode64(b[3..])) == Some(b[3..])
    ensures Decode64(Encode64(b)) == Some(b)
  {
    hide Letter, LetterValue, ThreeBytes, Decode64, Encode64, First, Second, Third, Fourth;
    EncodeGroup(b);
    FourLetters(First(b[0]), Second(b[0], b[1]), Third(b[1], b[2]), Fourth(b[2]), Encode64(b[3..]), b[3..]);
    Split3(b[0], b[1], b[2]);
    assert [b[0], b[1], b[2]] + b[3..] == b;
  }

  /** Nothing printed here breaks a line. */
  predicate OneLine(s: string) {
    forall i :: 0 <= i < |s| ==> s[i] != '\n' && s[i] != '\r'
  }

  lemma {:induction false} Base64OneLine(b: Bytes)
    ensures OneLine(Encode64(b))
    decreases |b|
  {
    hide Letter, First, Second, Third, Fourth;
    if b != [] {
      LettersAreNotPadding(First(b[0]));
      LettersAreNotPadding(Second(b[0], 0));
      if |b| > 1 {
        LettersAreNotPadding(Second(b[0], b[1]));
        LettersAreNotPadding(Third(b[1], 0));
      }
      if |b| > 2 {
        LettersAreNotPadding(Third(b[1], b[2]));
        LettersAreNotPadding(Fourth(b[2]));
        Base64OneLine(b[3..]);
      }
    }
  }

  lemma {:induction false} DecimalOneLine(n: nat)
    ensures OneLine(Decimal(n))
  {
    if n >= 10 {
      DecimalOneLine(n / 10);
    }
  }

  lemma {:induction false} HexOneLine(b: Bytes)
    ensures OneLine(Hex(b))
  {
    if b != [] {
      HexOneLine(b[1..]);
    }
  }

  // ---- lines and pairs -----------------------------------------------------------------------

  /** Where a character first occurs, or the length. */
  function Find(s: string, c: char): (i: nat)
    ensures i <= |s| && (i < |s| ==> s[i] == c)
    ensures forall j :: 0 <= j < i ==> s[j] != c
  {
    if s == [] || s[0] == c then 0 else 1 + Find(s[1..], c)
  }

  lemma {:induction false} FindAt(s: string, c: char, i: nat)
    requires i <= |s| && (i < |s| ==> s[i] == c) && forall j :: 0 <= j < i ==> s[j] != c
    ensures Find(s, c) == i
  {
    if i > 0 {
      FindAt(s[1..], c, i - 1);
    }
  }

  function StripReturn(line: string): string {
    if line != [] && line[|line| - 1] == '\r' then line[..|line| - 1] else line
  }

  /** Lines end in a newline, or a return and a newline; the last one may lack it. */
  function Lines(text: string): seq<string>
    decreases |text|
  {
    if text == [] then []
    else
      var i := Find(text, '\n');
      if i == |text| then [text] else [StripReturn(text[..i])] + Lines(text[i + 1..])
  }

  lemma LinesCons(line: string, rest: string)
    requires OneLine(line)
    ensures Lines(line + "\n" + rest) == [line] + Lines(rest)
  {
    var text := line + "\n" + rest;
    FindAt(text, '\n', |line|);
    assert text[..|line|] == line && text[|line| + 1..] == rest;
  }

  /** The parts before and after the first separator. */
  function SplitOnce(s: string, c: char): Option<(string, string)> {
    var i := Find(s, c);
    if i == |s| then None else Some((s[..i], s[i + 1..]))
  }

  lemma SplitPair(k: string, v: string, c: char)
    requires forall i :: 0 <= i < |k| ==> k[i] != c
    ensures SplitOnce(k + [c] + v, c) == Some((k, v))
  {
    var s := k + [c] + v;
    FindAt(s, c, |k|);
    assert s[..|k|] == k && s[|k| + 1..] == v;
  }

  /** Test vectors of section 10 of RFC 4648, and one with the last two letters. */
  lemma KnownEncodings()
    ensures Encode64([0x66]) == "Zg==" && Encode64([0x66, 0x6F]) == "Zm8=" && Encode64([0xFB, 0xFF]) == "+/8="
  {
  }

  lemma KnownGroups()
    ensures Encode64([0x66, 0x6F, 0x6F, 0x62, 0x61, 0x72]) == "Zm9vYmFy"
  {
    assert [0x66, 0x6F, 0x6F, 0x62, 0x61, 0x72][3..] == [0x62, 0x61, 0x72];
    assert [0x62, 0x61, 0x72][3..] == [];
  }

  lemma KnownNumbers()
    ensures Hex([0xDE, 0xAD]) == "dead" && Decimal(1048576) == "1048576" && Decimal(0) == "0"
  {
    assert [0xDE, 0xAD][1..] == [0xAD] && [0xAD][1..] == [];
    assert Decimal(104) == "104" && Decimal(10485) == "10485";
  }
}
