/**
 * The resume sidecar of a partial download: nine key=value lines, printed from and
 * parsed back into the download's identity, geometry and bitmap. Which byte strings
 * are valid UTF-8 is a parameter; paths are byte strings, as on Unix.
 */
module Sidecar {
  import opened Options
  import opened Text
  import Chunks

  type U64 = i: int | 0 <= i < 0x1_0000_0000_0000_0000
  type Id = b: Bytes | |b| == 16 witness seq(16, _ => 0)
  type Digest = b: Bytes | |b| == 32 witness seq(32, _ => 0)
  type Utf8 = Bytes -> bool

  datatype Sidecar = Sidecar(
    server: Bytes, remote: Bytes, destination: Bytes, id: Id,
    size: U64, chunkSize: Chunks.U32, sha256: Digest, bitmap: Bytes)

  const SIDECAR_VERSION := "3"
  const SIDECAR_FIELDS := 9

  /** A valid transfer whose bitmap fits its chunk count. */
  predicate Consistent(s: Sidecar) {
    var total := Chunks.TotalChunks(s.size, s.chunkSize);
    && Chunks.MIN_CHUNK_SIZE <= s.chunkSize <= Chunks.MAX_CHUNK_SIZE
    && s.size <= Chunks.MAX_TRANSFER_SIZE
    && total <= Chunks.MAX_TOTAL_CHUNKS
    && |s.bitmap| == Chunks.BitmapBytes(total)
  }

  // ---- the transfer id --------------------------------------------------------------

  /** Eight, four, four, four and twelve digits. */
  function Hyphenated(b: Id): (s: string)
    ensures |s| == 36
  {
    Hex(b[..4]) + "-" + Hex(b[4..6]) + "-" + Hex(b[6..8]) + "-" + Hex(b[8..10]) + "-" + Hex(b[10..])
  }

  function Unhyphenated(s: string): Option<string> {
    if |s| == 36 && s[8] == '-' && s[13] == '-' && s[18] == '-' && s[23] == '-'
    then Some(s[..8] + s[9..13] + s[14..18] + s[19..23] + s[24..]) else None
  }

  function SimpleId(s: string): (r: Option<Id>) {
    match Unhex(s)
    case Some(b) => if |b| == 16 then Some(b) else None
    case None => None
  }

  /** Plain digits, hyphenated, in braces, or as a URN. */
  function ParseId(s: string): Option<Id> {
    var inner :=
      if |s| == 38 && s[0] == '{' && s[37] == '}' then Unhyphenated(s[1..37])
      else if |s| == 45 && s[..9] == "urn:uuid:" then Unhyphenated(s[9..])
      else if |s| == 32 then Some(s)
      else Unhyphenated(s);
    match inner
    case Some(digits) => SimpleId(digits)
    case None => None
  }

  lemma {:induction false} HexConcat(a: Bytes, b: Bytes)
    ensures Hex(a + b) == Hex(a) + Hex(b)
    decreases |a|
  {
    if a == [] {
      assert a + b == b;
    } else {
      assert (a + b)[1..] == a[1..] + b;
      HexConcat(a[1..], b);
    }
  }

  lemma IdDigits(b: Id)
    ensures Unhyphenated(Hyphenated(b)) == Some(Hex(b))
  {
    hide Hex;
    var s := Hyphenated(b);
    assert s[..8] == Hex(b[..4]);
    assert s[9..13] == Hex(b[4..6]);
    assert s[14..18] == Hex(b[6..8]);
    assert s[19..23] == Hex(b[8..10]);
    assert s[24..] == Hex(b[10..]);
    assert b[..6] == b[..4] + b[4..6];
    HexConcat(b[..4], b[4..6]);
    assert b[..8] == b[..6] + b[6..8];
    HexConcat(b[..6], b[6..8]);
    assert b[..10] == b[..8] + b[8..10];
    HexConcat(b[..8], b[8..10]);
    assert b == b[..10] + b[10..];
    HexConcat(b[..10], b[10..]);
  }

  lemma IdRoundTrip(b: Id)
    ensures ParseId(Hyphenated(b)) == Some(b)
  {
    hide Hyphenated;
    IdDigits(b);
    HexRoundTrip(b);
  }

  lemma IdOneLine(b: Id)
    ensures OneLine(Hyphenated(b))
  {
    HexOneLine(b[..4]);
    HexOneLine(b[4..6]);
    HexOneLine(b[6..8]);
    HexOneLine(b[8..10]);
    HexOneLine(b[10..]);
  }

  // ---- printing -------------------------------------------------------------------------

  datatype Pair = Pair(key: string, value: string)

  function Pairs(s: Sidecar): (ps: seq<Pair>)
    ensures |ps| == SIDECAR_FIELDS
  {
    [Pair("version", SIDECAR_VERSION),
     Pair("server", Encode64(s.server)),
     Pair("remote", Encode64(s.remote)),
     Pair("destination", Encode64(s.destination)),
     Pair("id", Hyphenated(s.id)),
     Pair("size", Decimal(s.size)),
     Pair("chunk_size", Decimal(s.chunkSize)),
     Pair("sha256", Encode64(s.sha256)),
     Pair("bitmap", Encode64(s.bitmap))]
  }

  function Print(ps: seq<Pair>): string {
    if ps == [] then [] else ps[0].key + "=" + ps[0].value + "\n" + Print(ps[1..])
  }

  function Encode(s: Sidecar): string {
    Print(Pairs(s))
  }

  // ---- parsing --------------------------------------------------------------------------

  type Fields = map<string, string>

  /** The pairs of the lines, if each has one and no key comes twice. */
  function Collect(lines: seq<string>, fields: Fields): Option<Fields>
    decreases |lines|
  {
    if lines == [] then Some(fields)
    else
      match SplitOnce(lines[0], '=')
      case None => None
      case Some((k, v)) => if k in fields then None else Collect(lines[1..], fields[k := v])
  }

  method ReadFields(text: string) returns (r: Option<Fields>)
    ensures r == Collect(Lines(text), map[])
  {
    var lines := Lines(text);
    var fields: Fields := map[];
    for i := 0 to |lines|
      invariant Collect(lines, map[]) == Collect(lines[i..], fields)
    {
      assert lines[i..][0] == lines[i] && lines[i..][1..] == lines[i + 1..];
      match SplitOnce(lines[i], '=')
      case None => return None;
      case Some((k, v)) =>
        if k in fields {
          return None;
        }
        fields := fields[k := v];
    }
    return Some(fields);
  }

  function Get(f: Fields, k: string): Option<string> {
    if k in f then Some(f[k]) else None
  }

  function Bytes64(f: Fields, k: string): Option<Bytes> {
    match Get(f, k)
    case Some(v) => Decode64(v)
    case None => None
  }

  function Number(f: Fields, k: string, limit: nat): (r: Option<nat>)
    ensures r.Some? ==> r.value < limit
  {
    match Get(f, k)
    case Some(v) => ParseUnsigned(v, limit)
    case None => None
  }

  function IdField(f: Fields): Option<Id> {
    match Get(f, "id")
    case Some(v) => ParseId(v)
    case None => None
  }

  /** The sidecar the fields describe, before the geometry is judged. */
  function Assemble(utf8: Utf8, f: Fields): Option<Sidecar> {
    match (Bytes64(f, "server"), Bytes64(f, "remote"), Bytes64(f, "destination"), IdField(f))
    case (Some(server), Some(remote), Some(destination), Some(id)) => (
      match (Number(f, "size", 0x1_0000_0000_0000_0000), Number(f, "chunk_size", 0x1_0000_0000), Bytes64(f, "sha256"), Bytes64(f, "bitmap"))
      case (Some(size), Some(chunkSize), Some(sha256), Some(bitmap)) =>
        if utf8(server) && utf8(remote) && |sha256| == 32
        then Some(Sidecar(server, remote, destination, id, size, chunkSize, sha256, bitmap)) else None
      case _ => None
    )
    case _ => None
  }

  function Decode(utf8: Utf8, text: string): Option<Sidecar> {
    match Collect(Lines(text), map[])
    case None => None
    case Some(f) =>
      if |f| != SIDECAR_FIELDS || Get(f, "version") != Some(SIDECAR_VERSION) then None
      else
        match Assemble(utf8, f)
        case None => None
        case Some(s) => if Consistent(s) then Some(s) else None
  }

  // ---- the round trip ------------------------------------------------------------------------

  predicate Plain(p: Pair) {
    PlainKey(p.key) && OneLine(p.value)
  }

  predicate PlainKey(key: string) {
    OneLine(key) && forall i :: 0 <= i < |key| ==> key[i] != '='
  }

  predicate DistinctKeys(ps: seq<Pair>) {
    forall i, j :: 0 <= i < j < |ps| ==> ps[i].key != ps[j].key
  }

  /** Printed pairs come back as fields, one for each. */
  lemma {:induction false} PrintedFields(ps: seq<Pair>, acc: Fields)
    requires forall i :: 0 <= i < |ps| ==> Plain(ps[i]) && ps[i].key !in acc
    requires DistinctKeys(ps)
    ensures var r := Collect(Lines(Print(ps)), acc);
            && r.Some? && |r.value| == |acc| + |ps|
            && (forall i :: 0 <= i < |ps| ==> ps[i].key in r.value && r.value[ps[i].key] == ps[i].value)
            && (forall k :: k in acc ==> k in r.value && r.value[k] == acc[k])
    decreases |ps|
  {
    if ps != [] {
      var line := ps[0].key + "=" + ps[0].value;
      var rest := Print(ps[1..]);
      assert Plain(ps[0]);
      assert OneLine(line);
      LinesCons(line, rest);
      SplitPair(ps[0].key, ps[0].value, '=');
      var more := acc[ps[0].key := ps[0].value];
      assert |more| == |acc| + 1;
      assert ([line] + Lines(rest))[1..] == Lines(rest);
      forall i | 0 <= i < |ps[1..]| ensures Plain(ps[1..][i]) && ps[1..][i].key !in more {
        assert ps[1..][i] == ps[i + 1];
      }
      PrintedFields(ps[1..], more);
      var r := Collect(Lines(rest), more).value;
      forall i | 0 <= i < |ps| ensures ps[i].key in r && r[ps[i].key] == ps[i].value {
        if i > 0 {
          assert ps[i] == ps[1..][i - 1];
        }
      }
    }
  }

  /** The nine keys differ in length or in one of their first two letters. */
  lemma KeysDistinct(s: Sidecar)
    ensures DistinctKeys(Pairs(s))
  {
    hide Encode64, Decimal, Hyphenated;
    var ps := Pairs(s);
    assert |ps[0].key| == 7 && |ps[3].key| == 11 && |ps[4].key| == 2 && |ps[5].key| == 4 && |ps[6].key| == 10;
    assert |ps[1].key| == |ps[2].key| == |ps[7].key| == |ps[8].key| == 6;
    assert ps[1].key[0] == 's' && ps[2].key[0] == 'r' && ps[7].key[0] == 's' && ps[8].key[0] == 'b';
    assert ps[1].key[1] == 'e' && ps[7].key[1] == 'h';
  }

  lemma KeysPlain()
    ensures PlainKey("version") && PlainKey("server") && PlainKey("remote") && PlainKey("destination") && PlainKey("id")
    ensures PlainKey("size") && PlainKey("chunk_size") && PlainKey("sha256") && PlainKey("bitmap")
  {
  }

  lemma PairsPlain(s: Sidecar)
    ensures forall i :: 0 <= i < SIDECAR_FIELDS ==> Plain(Pairs(s)[i])
  {
    hide Encode64, Decimal, Hyphenated, OneLine, PlainKey;
    KeysPlain();
    VersionOneLine();
    Base64OneLine(s.server);
    Base64OneLine(s.remote);
    Base64OneLine(s.destination);
    Base64OneLine(s.sha256);
    Base64OneLine(s.bitmap);
    IdOneLine(s.id);
    DecimalOneLine(s.size);
    DecimalOneLine(s.chunkSize);
  }

  lemma VersionOneLine()
    ensures OneLine(SIDECAR_VERSION)
  {
  }

  lemma AssembledBack(utf8: Utf8, s: Sidecar, f: Fields)
    requires utf8(s.server) && utf8(s.remote)
    requires forall i :: 0 <= i < SIDECAR_FIELDS ==> Get(f, Pairs(s)[i].key) == Some(Pairs(s)[i].value)
    ensures Assemble(utf8, f) == Some(s) && Get(f, "version") == Some(SIDECAR_VERSION)
  {
    hide Encode64, Decode64, Decimal, Hyphenated, ParseId, ParseUnsigned;
    var ps := Pairs(s);
    assert Get(f, ps[0].key) == Some(ps[0].value);
    assert Get(f, ps[1].key) == Some(ps[1].value);
    assert Get(f, ps[2].key) == Some(ps[2].value);
    assert Get(f, ps[3].key) == Some(ps[3].value);
    assert Get(f, ps[4].key) == Some(ps[4].value);
    assert Get(f, ps[5].key) == Some(ps[5].value);
    assert Get(f, ps[6].key) == Some(ps[6].value);
    assert Get(f, ps[7].key) == Some(ps[7].value);
    assert Get(f, ps[8].key) == Some(ps[8].value);
    Base64RoundTrip(s.server);
    Base64RoundTrip(s.remote);
    Base64RoundTrip(s.destination);
    Base64RoundTrip(s.sha256);
    Base64RoundTrip(s.bitmap);
    IdRoundTrip(s.id);
    DecimalRoundTrip(s.size, 0x1_0000_0000_0000_0000);
    DecimalRoundTrip(s.chunkSize, 0x1_0000_0000);
  }

  /** Every consistent sidecar is read back exactly as it was written; an inconsistent
      one is not read back at all. */
  lemma SidecarRoundTrip(utf8: Utf8, s: Sidecar)
    requires utf8(s.server) && utf8(s.remote)
    ensures Decode(utf8, Encode(s)) == if Consistent(s) then Some(s) else None
  {
    hide Pairs, Lines, Print, Assemble, Consistent;
    KeysDistinct(s);
    PairsPlain(s);
    PrintedFields(Pairs(s), map[]);
    AssembledBack(utf8, s, Collect(Lines(Encode(s)), map[]).value);
  }

  /** Whatever text is on disk: what is accepted describes a transfer within the geometry
      bounds, with a bitmap of exactly one bit for each chunk, rounded up to bytes. */
  lemma AcceptedSidecarIsUsable(utf8: Utf8, text: string)
    requires Decode(utf8, text).Some?
    ensures var s := Decode(utf8, text).value; var total := Chunks.TotalChunks(s.size, s.chunkSize);
            && Chunks.Geometry(s.size, s.chunkSize, total)
            && total <= 8 * |s.bitmap| < total + 8
            && utf8(s.server) && utf8(s.remote)
  {
    hide Chunks.TotalChunks, Lines, Collect;
  }

  // ---- what is refused ---------------------------------------------------------------------------

  predicate IsPair(line: string) {
    SplitOnce(line, '=').Some?
  }

  function KeyOf(line: string): string
    requires IsPair(line)
  {
    SplitOnce(line, '=').value.0
  }

  function ValueOf(line: string): string
    requires IsPair(line)
  {
    SplitOnce(line, '=').value.1
  }

  /** Every line is a pair, and no key comes twice or is taken already. */
  predicate Clean(lines: seq<string>, fields: Fields) {
    && (forall i :: 0 <= i < |lines| ==> IsPair(lines[i]) && KeyOf(lines[i]) !in fields)
    && (forall i, j :: 0 <= i < j < |lines| ==> KeyOf(lines[i]) != KeyOf(lines[j]))
  }

  /** Lines are collected exactly if they are clean, and then each gives one field. */
  lemma {:induction false} CollectedIff(lines: seq<string>, fields: Fields)
    ensures Collect(lines, fields).Some? <==> Clean(lines, fields)
    ensures Collect(lines, fields).Some? ==>
              var f := Collect(lines, fields).value;
              && |f| == |fields| + |lines|
              && (forall k :: k in fields ==> k in f && f[k] == fields[k])
              && (forall i :: 0 <= i < |lines| ==> KeyOf(lines[i]) in f && f[KeyOf(lines[i])] == ValueOf(lines[i]))
    decreases |lines|
  {
    hide SplitOnce;
    if lines != [] {
      if IsPair(lines[0]) {
        var more := fields[KeyOf(lines[0]) := ValueOf(lines[0])];
        CollectedIff(lines[1..], more);
        if Clean(lines, fields) {
          CleanRest(lines, fields, more);
        }
        if Clean(lines[1..], more) && KeyOf(lines[0]) !in fields {
          CleanAgain(lines, fields, more);
        }
      }
    }
  }

  lemma CleanRest(lines: seq<string>, fields: Fields, more: Fields)
    requires lines != [] && Clean(lines, fields) && more == fields[KeyOf(lines[0]) := ValueOf(lines[0])]
    ensures Clean(lines[1..], more)
  {
    hide SplitOnce, KeyOf, ValueOf, IsPair;
    forall i | 0 <= i < |lines[1..]| ensures IsPair(lines[1..][i]) && KeyOf(lines[1..][i]) !in more {
      assert lines[1..][i] == lines[i + 1];
    }
  }

  lemma CleanAgain(lines: seq<string>, fields: Fields, more: Fields)
    requires lines != [] && IsPair(lines[0]) && more == fields[KeyOf(lines[0]) := ValueOf(lines[0])]
    requires Clean(lines[1..], more) && KeyOf(lines[0]) !in fields
    ensures Clean(lines, fields)
  {
    hide SplitOnce, KeyOf, ValueOf, IsPair;
    forall i | 0 <= i < |lines| ensures IsPair(lines[i]) && KeyOf(lines[i]) !in fields && (i > 0 ==> KeyOf(lines[i]) != KeyOf(lines[0])) {
      if i > 0 {
        assert lines[i] == lines[1..][i - 1];
      }
    }
    forall i, j | 0 <= i < j < |lines| ensures KeyOf(lines[i]) != KeyOf(lines[j]) {
      if i > 0 {
        assert lines[i] == lines[1..][i - 1] && lines[j] == lines[1..][j - 1];
      }
    }
  }

  /** Only nine distinct pairs of this version are read, with text that is valid UTF-8. */
  lemma AcceptedTextIsComplete(utf8: Utf8, text: string)
    requires Decode(utf8, text).Some?
    ensures var lines := Lines(text); var s := Decode(utf8, text).value;
            && |lines| == 9 && Clean(lines, map[])
            && (exists i :: 0 <= i < 9 && KeyOf(lines[i]) == "version" && ValueOf(lines[i]) == "3")
            && utf8(s.server) && utf8(s.remote) && Consistent(s)
  {
    hide Consistent, Lines, SplitOnce, Bytes64, Number, IdField;
    var lines := Lines(text);
    CollectedIff(lines, map[]);
    var f := Collect(lines, map[]).value;
    EveryKeyFromALine(lines, map[], "version");
  }

  lemma {:induction false} EveryKeyFromALine(lines: seq<string>, fields: Fields, k: string)
    requires Collect(lines, fields).Some?
    ensures k in Collect(lines, fields).value ==>
              (k in fields && Collect(lines, fields).value[k] == fields[k]) ||
              exists i :: 0 <= i < |lines| && IsPair(lines[i]) && KeyOf(lines[i]) == k && ValueOf(lines[i]) == Collect(lines, fields).value[k]
    decreases |lines|
  {
    hide SplitOnce;
    if lines != [] {
      var more := fields[KeyOf(lines[0]) := ValueOf(lines[0])];
      EveryKeyFromALine(lines[1..], more, k);
      var f := Collect(lines, fields).value;
      if k in f && !(k in fields && f[k] == fields[k]) {
        if k != KeyOf(lines[0]) || f[k] != ValueOf(lines[0]) {
          var i :| 0 <= i < |lines[1..]| && IsPair(lines[1..][i]) && KeyOf(lines[1..][i]) == k && ValueOf(lines[1..][i]) == f[k];
          assert lines[i + 1] == lines[1..][i];
        }
      }
    }
  }
}
