/**
 * The stored form of a credential: seven fields between dollar signs, with the cost
 * parameters as three comma-separated assignments in any order and the binary
 * fields in hexadecimal.
 */
module CredentialText {
  import opened Options
  import opened Text
  import Scram

  const SCHEME := "kdx-scram-sha256"
  const VERSION := "v=1"
  const MAX_SALT_LEN := 64
  const U32_LIMIT := 0x1_0000_0000

  // ---- splitting ------------------------------------------------------------------------

  predicate Free(s: string, c: char) {
    forall i :: 0 <= i < |s| ==> s[i] != c
  }

  /** The parts between separators; always one more than there are separators. */
  function SplitOn(s: string, c: char): (parts: seq<string>)
    ensures |parts| > 0
    decreases |s|
  {
    var i := Find(s, c);
    if i == |s| then [s] else [s[..i]] + SplitOn(s[i + 1..], c)
  }

  lemma SplitStep(part: string, rest: string, c: char)
    requires Free(part, c)
    ensures SplitOn(part + [c] + rest, c) == [part] + SplitOn(rest, c)
  {
    var s := part + [c] + rest;
    FindAt(s, c, |part|);
    assert s[..|part|] == part && s[|part| + 1..] == rest;
  }

  lemma SplitEnd(part: string, c: char)
    requires Free(part, c)
    ensures SplitOn(part, c) == [part]
  {
    FindAt(part, c, |part|);
  }

  /** Digits and lower-case letters. */
  predicate Word(s: string) {
    forall i :: 0 <= i < |s| ==> '0' <= s[i] <= '9' || 'a' <= s[i] <= 'z'
  }

  lemma {:induction false} DecimalWord(n: nat)
    ensures Word(Decimal(n))
  {
    if n >= 10 {
      DecimalWord(n / 10);
    }
  }

  lemma {:induction false} HexWord(b: Bytes)
    ensures Word(Hex(b))
  {
    if b != [] {
      HexWord(b[1..]);
    }
  }

  // ---- the cost parameters -------------------------------------------------------------------

  datatype Slots = Slots(m: Option<nat>, t: Option<nat>, p: Option<nat>)

  function SetSlot(s: Slots, key: string, value: nat): Option<Slots> {
    if key == "m" then (if s.m == None then Some(s.(m := Some(value))) else None)
    else if key == "t" then (if s.t == None then Some(s.(t := Some(value))) else None)
    else if key == "p" then (if s.p == None then Some(s.(p := Some(value))) else None)
    else None
  }

  function Assign(s: Slots, kv: string): Option<Slots> {
    match SplitOnce(kv, '=')
    case None => None
    case Some((k, v)) =>
      match ParseUnsigned(v, U32_LIMIT)
      case None => None
      case Some(n) => SetSlot(s, k, n)
  }

  function Fill(kvs: seq<string>, s: Slots): Option<Slots>
    decreases |kvs|
  {
    if kvs == [] then Some(s)
    else
      match Assign(s, kvs[0])
      case None => None
      case Some(t) => Fill(kvs[1..], t)
  }

  method ReadParams(text: string) returns (r: Option<Slots>)
    ensures r == Fill(SplitOn(text, ','), Slots(None, None, None))
  {
    var kvs := SplitOn(text, ',');
    var slots := Slots(None, None, None);
    for i := 0 to |kvs|
      invariant Fill(kvs, Slots(None, None, None)) == Fill(kvs[i..], slots)
    {
      assert kvs[i..][0] == kvs[i] && kvs[i..][1..] == kvs[i + 1..];
      var next := Assign(slots, kvs[i]);
      if next == None {
        return None;
      }
      slots := next.value;
    }
    return Some(slots);
  }

  function Setting(key: string, n: nat): string {
    key + "=" + Decimal(n)
  }

  function PrintParams(p: Scram.Params): string {
    Setting("m", p.m) + "," + (Setting("t", p.t) + "," + Setting("p", p.p))
  }

  lemma SettingFree(key: string, n: nat)
    requires Word(key)
    ensures Free(Setting(key, n), ',') && Free(Setting(key, n), '$')
  {
    DecimalWord(n);
  }

  lemma SettingAssigns(s: Slots, key: string, n: nat)
    requires Word(key) && n < U32_LIMIT
    ensures Assign(s, Setting(key, n)) == SetSlot(s, key, n)
  {
    SplitPair(key, Decimal(n), '=');
    DecimalRoundTrip(n, U32_LIMIT);
  }

  lemma FillStep(kvs: seq<string>, s: Slots, t: Slots, rest: seq<string>)
    requires kvs != [] && kvs[1..] == rest && Assign(s, kvs[0]) == Some(t)
    ensures Fill(kvs, s) == Fill(rest, t)
  {
  }

  lemma ParamsRoundTrip(p: Scram.Params)
    ensures Fill(SplitOn(PrintParams(p), ','), Slots(None, None, None)) == Some(Slots(Some(p.m), Some(p.t), Some(p.p)))
    ensures Free(PrintParams(p), '$')
  {
    hide Setting, Assign, SplitOn;
    assert Word("m") && Word("t") && Word("p");
    SettingFree("m", p.m);
    SettingFree("t", p.t);
    SettingFree("p", p.p);
    var m, t, q := Setting("m", p.m), Setting("t", p.t), Setting("p", p.p);
    SplitStep(m, t + "," + q, ',');
    SplitStep(t, q, ',');
    SplitEnd(q, ',');
    var none := Slots(None, None, None);
    SettingAssigns(none, "m", p.m);
    SettingAssigns(none.(m := Some(p.m)), "t", p.t);
    SettingAssigns(none.(m := Some(p.m), t := Some(p.t)), "p", p.p);
    var kvs := SplitOn(PrintParams(p), ',');
    assert kvs == [m, t, q];
    FillStep(kvs, none, none.(m := Some(p.m)), [t, q]);
    FillStep([t, q], none.(m := Some(p.m)), none.(m := Some(p.m), t := Some(p.t)), [q]);
    FillStep([q], none.(m := Some(p.m), t := Some(p.t)), Slots(Some(p.m), Some(p.t), Some(p.p)), []);
  }

  // ---- the whole record ------------------------------------------------------------------------

  function Encode(c: Scram.Credential): string {
    "" + "$" + (SCHEME + "$" + (VERSION + "$" + (PrintParams(c.params) + "$" +
    (Hex(c.salt) + "$" + (Hex(c.storedKey) + "$" + Hex(c.serverKey))))))
  }

  function KeyField(s: string): (r: Option<Bytes>)
    ensures r.Some? ==> |r.value| == 32
  {
    match Unhex(s)
    case Some(b) => if |b| == 32 then Some(b) else None
    case None => None
  }

  function SaltField(s: string): Option<Bytes> {
    match Unhex(s)
    case Some(b) => if 0 < |b| <= MAX_SALT_LEN then Some(b) else None
    case None => None
  }

  function ParamsField(s: string): Option<Scram.Params> {
    match Fill(SplitOn(s, ','), Slots(None, None, None))
    case Some(Slots(Some(m), Some(t), Some(p))) =>
      if m < U32_LIMIT && t < U32_LIMIT && p < U32_LIMIT then Some(Scram.Params(m, t, p)) else None
    case _ => None
  }

  function Decode(text: string): Option<Scram.Credential> {
    var parts := SplitOn(text, '$');
    if |parts| != 7 || parts[0] != "" || parts[1] != SCHEME || parts[2] != VERSION then None
    else
      match (ParamsField(parts[3]), SaltField(parts[4]), KeyField(parts[5]), KeyField(parts[6]))
      case (Some(params), Some(salt), Some(stored), Some(server)) => Some(Scram.Credential(salt, params, stored, server))
      case _ => None
  }

  lemma EncodedParts(c: Scram.Credential)
    ensures SplitOn(Encode(c), '$') == ["", SCHEME, VERSION, PrintParams(c.params), Hex(c.salt), Hex(c.storedKey), Hex(c.serverKey)]
  {
    hide SplitOn, PrintParams, Hex, Word;
    var params, salt, stored, server := PrintParams(c.params), Hex(c.salt), Hex(c.storedKey), Hex(c.serverKey);
    ParamsRoundTrip(c.params);
    HexFree(c.salt);
    HexFree(c.storedKey);
    HexFree(c.serverKey);
    LiteralsFree();
    var r5 := stored + "$" + server;
    var r4 := salt + "$" + r5;
    var r3 := params + "$" + r4;
    var r2 := VERSION + "$" + r3;
    var r1 := SCHEME + "$" + r2;
    SplitStep("", r1, '$');
    SplitStep(SCHEME, r2, '$');
    SplitStep(VERSION, r3, '$');
    SplitStep(params, r4, '$');
    SplitStep(salt, r5, '$');
    SplitStep(stored, server, '$');
    SplitEnd(server, '$');
  }

  lemma HexFree(b: Bytes)
    ensures Free(Hex(b), '$')
  {
    HexWord(b);
  }

  lemma LiteralsFree()
    ensures Free("", '$') && Free(SCHEME, '$') && Free(VERSION, '$')
  {
  }

  /** A credential is read back exactly as stored, for every salt length the parser
      accepts; for any other it is not read back at all. */
  lemma CredentialRoundTrip(c: Scram.Credential)
    ensures Decode(Encode(c)) == if 0 < |c.salt| <= MAX_SALT_LEN then Some(c) else None
  {
    hide SplitOn, PrintParams, Hex, Unhex, Encode, Fill;
    EncodedParts(c);
    ParamsRoundTrip(c.params);
    HexRoundTrip(c.salt);
    HexRoundTrip(c.storedKey);
    HexRoundTrip(c.serverKey);
  }

  // ---- what is refused ---------------------------------------------------------------------------

  /** The text assigns a number that fits to one of the three. */
  predicate Assigns(kv: string, key: string) {
    && SplitOnce(kv, '=').Some? && SplitOnce(kv, '=').value.0 == key
    && ParseUnsigned(SplitOnce(kv, '=').value.1, U32_LIMIT).Some?
  }

  function SlotOf(s: Slots, key: string): Option<nat> {
    if key == "m" then s.m else if key == "t" then s.t else s.p
  }

  /** An assignment is taken exactly if it names one of the three that is still empty, and fills only that. */
  lemma AssignedIff(s: Slots, kv: string)
    ensures Assign(s, kv).Some? <==> exists key :: key in ["m", "t", "p"] && Assigns(kv, key) && SlotOf(s, key) == None
    ensures forall key :: key in ["m", "t", "p"] && Assign(s, kv).Some? ==>
              SlotOf(Assign(s, kv).value, key) ==
              if Assigns(kv, key) then ParseUnsigned(SplitOnce(kv, '=').value.1, U32_LIMIT) else SlotOf(s, key)
  {
    hide SplitOnce, ParseUnsigned;
    assert "m"[0] == 'm' && "t"[0] == 't' && "p"[0] == 'p';
    var keys := ["m", "t", "p"];
    assert keys[0] == "m" && keys[1] == "t" && keys[2] == "p";
    if Assign(s, kv).Some? {
      var k := SplitOnce(kv, '=').value.0;
      assert k in keys && Assigns(kv, k) && SlotOf(s, k) == None;
    }
    if key :| key in keys && Assigns(kv, key) && SlotOf(s, key) == None {
      assert SplitOnce(kv, '=').value.0 == key;
    }
  }

  /** A slot once filled is never assigned again. */
  lemma {:induction false} FilledOnce(kvs: seq<string>, s: Slots, key: string, i: nat)
    requires key in ["m", "t", "p"] && SlotOf(s, key).Some? && i < |kvs| && Assigns(kvs[i], key)
    ensures Fill(kvs, s) == None
    decreases |kvs|
  {
    hide SplitOnce, ParseUnsigned, Assign, Assigns, SlotOf;
    AssignedIff(s, kvs[0]);
    if i == 0 {
      OneKey(kvs[0], key);
    } else if Assign(s, kvs[0]).Some? {
      FilledStays(s, kvs[0], key);
      FilledOnce(kvs[1..], Assign(s, kvs[0]).value, key, i - 1);
    }
  }

  lemma FilledStays(s: Slots, kv: string, key: string)
    requires key in ["m", "t", "p"] && SlotOf(s, key).Some? && Assign(s, kv).Some?
    ensures SlotOf(Assign(s, kv).value, key).Some?
  {
    AssignedIff(s, kv);
  }

  lemma OneKey(kv: string, key: string)
    requires Assigns(kv, key)
    ensures forall other :: Assigns(kv, other) ==> other == key
  {
    hide SplitOnce, ParseUnsigned;
  }

  /** No parameter may be given twice, wherever the two stand. */
  lemma {:induction false} RepeatIsRefused(kvs: seq<string>, s: Slots, key: string, i: nat, j: nat)
    requires key in ["m", "t", "p"] && i < j < |kvs| && Assigns(kvs[i], key) && Assigns(kvs[j], key)
    ensures Fill(kvs, s) == None
    decreases |kvs|
  {
    hide SplitOnce, ParseUnsigned, Assign, Assigns, SlotOf;
    if Assign(s, kvs[0]).Some? {
      var t := Assign(s, kvs[0]).value;
      if i == 0 {
        AssignedIff(s, kvs[0]);
        Filled(s, kvs[0], key);
        FilledOnce(kvs[1..], t, key, j - 1);
      } else {
        RepeatIsRefused(kvs[1..], t, key, i - 1, j - 1);
      }
    }
  }

  lemma Filled(s: Slots, kv: string, key: string)
    requires key in ["m", "t", "p"] && Assigns(kv, key) && Assign(s, kv).Some?
    ensures SlotOf(Assign(s, kv).value, key).Some?
  {
    hide SplitOnce, ParseUnsigned;
    AssignedIff(s, kv);
  }

  /** A record is read only with its scheme and version, a salt of 1 to 64 bytes and two keys of 32. */
  lemma AcceptedRecord(text: string)
    requires Decode(text).Some?
    ensures var parts := SplitOn(text, '$'); var c := Decode(text).value;
            && |parts| == 7 && parts[0] == "" && parts[1] == SCHEME && parts[2] == VERSION
            && 1 <= |c.salt| <= 64 && Unhex(parts[4]) == Some(c.salt)
            && Unhex(parts[5]) == Some(c.storedKey) && Unhex(parts[6]) == Some(c.serverKey)
            && ParamsField(parts[3]) == Some(c.params)
  {
    hide SplitOn, Unhex, ParamsField;
  }
}
