/**
 * The password proofs of logins and password changes: SCRAM as in section 3 of
 * RFC 5802, with Argon2id deriving the salted password. HMAC, SHA-256 and Argon2id
 * are parameters; every statement holds for any functions in their place.
 */
module Scram {
  import opened Options
  import opened Wire

  /** The 32 bytes of a key, a challenge, a signature or a channel binding. */
  type Key = k: Bytes | |k| == 32 witness Zeros(32)

  function Zeros(n: nat): (z: Bytes)
    ensures |z| == n
  {
    seq(n, _ => 0)
  }

  datatype Params = Params(m: U32, t: U32, p: U32)

  /** The cryptographic functions: hmac(key, message), sha256(data), argon2id(password, salt, params). */
  datatype Crypto = Crypto(hmac: (Bytes, Bytes) -> Key, sha: Bytes -> Key, argon: (Bytes, Bytes, Params) -> Key)

  datatype Context = Context(username: Bytes, challenge: Key, salt: Bytes, params: Params, binding: Key)

  datatype Credential = Credential(salt: Bytes, params: Params, storedKey: Key, serverKey: Key)

  datatype Proof = Proof(proof: Key, serverSignature: Key)

  datatype CryptoError = UnacceptableMemory | UnacceptableTime | UnacceptableParallelism | UnacceptableSalt | ZeroKey

  datatype Outcome<T> = Fine(value: T) | Bad(error: CryptoError)

  // "KDX-AUTH-v2" and "KDX-PWCHANGE-v1", each with a zero byte after it
  const AUTH_MESSAGE_LABEL: Bytes := [0x4B, 0x44, 0x58, 0x2D, 0x41, 0x55, 0x54, 0x48, 0x2D, 0x76, 0x32, 0x00]
  const PASSWORD_CHANGE_LABEL: Bytes :=
    [0x4B, 0x44, 0x58, 0x2D, 0x50, 0x57, 0x43, 0x48, 0x41, 0x4E, 0x47, 0x45, 0x2D, 0x76, 0x31, 0x00]

  // "Client Key" and "Server Key"
  const CLIENT_KEY: Bytes := [0x43, 0x6C, 0x69, 0x65, 0x6E, 0x74, 0x20, 0x4B, 0x65, 0x79]
  const SERVER_KEY: Bytes := [0x53, 0x65, 0x72, 0x76, 0x65, 0x72, 0x20, 0x4B, 0x65, 0x79]

  // ---- messages -----------------------------------------------------------------------

  /** The length is cast to 32 bits. */
  function Prefixed(b: Bytes): Bytes {
    Be32(|b| % 0x1_0000_0000) + b
  }

  function ParamBytes(p: Params): (b: Bytes)
    ensures |b| == 12
  {
    Be32(p.m) + Be32(p.t) + Be32(p.p)
  }

  function Labelled(tag: Bytes, c: Context): Bytes {
    tag + (Prefixed(c.username) + (c.challenge + (Prefixed(c.salt) + (ParamBytes(c.params) + c.binding))))
  }

  function AuthMessage(c: Context): Bytes {
    Labelled(AUTH_MESSAGE_LABEL, c)
  }

  function CredentialBytes(n: Credential): Bytes {
    Prefixed(n.salt) + (ParamBytes(n.params) + (n.storedKey + n.serverKey))
  }

  function ChangeMessage(c: Context, n: Credential): Bytes {
    Labelled(PASSWORD_CHANGE_LABEL, c) + CredentialBytes(n)
  }

  method PutBytes(message: Bytes, b: Bytes) returns (r: Bytes)
    ensures r == message + Prefixed(b)
  {
    r := message + Be32(|b| % 0x1_0000_0000);
    r := r + b;
  }

  method MessageWithLabel(tag: Bytes, c: Context) returns (m: Bytes)
    ensures m == Labelled(tag, c)
  {
    hide Prefixed, ParamBytes;
    m := tag;
    m := PutBytes(m, c.username);
    m := m + c.challenge;
    m := PutBytes(m, c.salt);
    m := m + ParamBytes(c.params);
    m := m + c.binding;
  }

  method BuildChangeMessage(c: Context, n: Credential) returns (m: Bytes)
    ensures m == ChangeMessage(c, n)
  {
    hide Prefixed, ParamBytes, Labelled;
    m := MessageWithLabel(PASSWORD_CHANGE_LABEL, c);
    m := PutBytes(m, n.salt);
    m := m + ParamBytes(n.params);
    m := m + n.storedKey;
    m := m + n.serverKey;
  }

  // ---- injectivity ------------------------------------------------------------------------

  predicate Sized(b: Bytes) {
    |b| < 0x1_0000_0000
  }

  lemma FixedSplit(x: Bytes, y: Bytes, r: Bytes, s: Bytes)
    requires |x| == |y| && x + r == y + s
    ensures x == y && r == s
  {
    assert x == (x + r)[..|x|] && y == (y + s)[..|y|];
    assert r == (x + r)[|x|..] && s == (y + s)[|y|..];
  }

  lemma PrefixedSplit(a: Bytes, b: Bytes, r: Bytes, s: Bytes)
    requires Sized(a) && Sized(b) && Prefixed(a) + r == Prefixed(b) + s
    ensures a == b && r == s
  {
    hide Be32, FromBe32;
    assert Prefixed(a) + r == Be32(|a|) + (a + r);
    assert Prefixed(b) + s == Be32(|b|) + (b + s);
    FixedSplit(Be32(|a|), Be32(|b|), a + r, b + s);
    Be32RoundTrip(|a|);
    Be32RoundTrip(|b|);
    FixedSplit(a, b, r, s);
  }

  lemma ParamSplit(p: Params, q: Params, r: Bytes, s: Bytes)
    requires ParamBytes(p) + r == ParamBytes(q) + s
    ensures p == q && r == s
  {
    hide Be32, FromBe32;
    FixedSplit(ParamBytes(p), ParamBytes(q), r, s);
    FixedSplit(Be32(p.m) + Be32(p.t), Be32(q.m) + Be32(q.t), Be32(p.p), Be32(q.p));
    FixedSplit(Be32(p.m), Be32(q.m), Be32(p.t), Be32(q.t));
    Be32RoundTrip(p.m);
    Be32RoundTrip(p.t);
    Be32RoundTrip(p.p);
    Be32RoundTrip(q.m);
    Be32RoundTrip(q.t);
    Be32RoundTrip(q.p);
  }

  lemma LabelledSplit(tag: Bytes, c: Context, d: Context, r: Bytes, s: Bytes)
    requires Sized(c.username) && Sized(c.salt) && Sized(d.username) && Sized(d.salt)
    requires Labelled(tag, c) + r == Labelled(tag, d) + s
    ensures c == d && r == s
  {
    hide Prefixed, ParamBytes;
    assert Labelled(tag, c) + r == tag + (Prefixed(c.username) + (c.challenge + (Prefixed(c.salt) + (ParamBytes(c.params) + (c.binding + r)))));
    assert Labelled(tag, d) + s == tag + (Prefixed(d.username) + (d.challenge + (Prefixed(d.salt) + (ParamBytes(d.params) + (d.binding + s)))));
    var c4, d4 := ParamBytes(c.params) + (c.binding + r), ParamBytes(d.params) + (d.binding + s);
    var c3, d3 := Prefixed(c.salt) + c4, Prefixed(d.salt) + d4;
    var c2, d2 := c.challenge + c3, d.challenge + d3;
    FixedSplit(tag, tag, Prefixed(c.username) + c2, Prefixed(d.username) + d2);
    PrefixedSplit(c.username, d.username, c2, d2);
    FixedSplit(c.challenge, d.challenge, c3, d3);
    PrefixedSplit(c.salt, d.salt, c4, d4);
    ParamSplit(c.params, d.params, c.binding + r, d.binding + s);
    FixedSplit(c.binding, d.binding, r, s);
  }

  /** A login message determines every field it was built from. */
  lemma AuthMessageInjective(c: Context, d: Context)
    requires Sized(c.username) && Sized(c.salt) && Sized(d.username) && Sized(d.salt)
    ensures AuthMessage(c) == AuthMessage(d) <==> c == d
  {
    hide Labelled;
    if AuthMessage(c) == AuthMessage(d) {
      LabelledSplit(AUTH_MESSAGE_LABEL, c, d, [], []);
    }
  }

  /** So does a change message, the new credential included. */
  lemma ChangeMessageInjective(c: Context, d: Context, m: Credential, n: Credential)
    requires Sized(c.username) && Sized(c.salt) && Sized(d.username) && Sized(d.salt) && Sized(m.salt) && Sized(n.salt)
    ensures ChangeMessage(c, m) == ChangeMessage(d, n) <==> c == d && m == n
  {
    hide Labelled, Prefixed, ParamBytes;
    if ChangeMessage(c, m) == ChangeMessage(d, n) {
      LabelledSplit(PASSWORD_CHANGE_LABEL, c, d, CredentialBytes(m), CredentialBytes(n));
      PrefixedSplit(m.salt, n.salt, ParamBytes(m.params) + (m.storedKey + m.serverKey), ParamBytes(n.params) + (n.storedKey + n.serverKey));
      ParamSplit(m.params, n.params, m.storedKey + m.serverKey, n.storedKey + n.serverKey);
      FixedSplit(m.storedKey, n.storedKey, m.serverKey, n.serverKey);
    }
  }

  /** No login message is ever a change message. */
  lemma LoginIsNotChange(c: Context, d: Context, n: Credential)
    ensures AuthMessage(c) != ChangeMessage(d, n)
  {
    assert AuthMessage(c)[4] == 0x41;
    assert ChangeMessage(d, n)[4] == Labelled(PASSWORD_CHANGE_LABEL, d)[4] == 0x50;
  }

  // ---- exclusive or ----------------------------------------------------------------------------

  function Bound(k: nat): (r: nat)
    ensures r > 0
  {
    if k == 0 then 1 else 2 * Bound(k - 1)
  }

  /** Bit by bit, on the lowest k bits. */
  function XorBits(a: nat, b: nat, k: nat): (r: nat)
    ensures r < Bound(k)
  {
    if k == 0 then 0 else 2 * XorBits(a / 2, b / 2, k - 1) + (a + b) % 2
  }

  lemma {:induction false} XorTwice(a: nat, b: nat, k: nat)
    requires a < Bound(k)
    ensures XorBits(XorBits(a, b, k), b, k) == a
  {
    if k > 0 {
      var x := XorBits(a / 2, b / 2, k - 1);
      assert (2 * x + (a + b) % 2) / 2 == x;
      XorTwice(a / 2, b / 2, k - 1);
      ParityTwice(a, b, x);
    }
  }

  lemma ParityTwice(a: nat, b: nat, x: nat)
    ensures (2 * x + (a + b) % 2 + b) % 2 == a % 2
  {
    var c := (a + b) % 2;
    assert (a + b) == 2 * ((a + b) / 2) + c;
    assert 2 * x + c + b == a + 2 * (x + b - (a + b) / 2);
    EvenShift(a, x + b - (a + b) / 2);
  }

  lemma EvenShift(a: nat, z: int)
    requires a + 2 * z >= 0
    ensures (a + 2 * z) % 2 == a % 2
  {
  }

  lemma BoundEight()
    ensures Bound(8) == 0x100
  {
    assert Bound(4) == 16;
    assert Bound(8) == 2 * (2 * (2 * (2 * Bound(4))));
  }

  function XorByte(a: U8, b: U8): U8 {
    BoundEight();
    XorBits(a, b, 8)
  }

  function XorKey(a: Key, b: Key): (r: Key)
    ensures forall i :: 0 <= i < 32 ==> r[i] == XorByte(a[i], b[i])
  {
    seq(32, i requires 0 <= i < 32 => XorByte(a[i], b[i]))
  }

  lemma XorKeyTwice(a: Key, b: Key)
    ensures XorKey(XorKey(a, b), b) == a
  {
    hide XorBits;
    BoundEight();
    forall i | 0 <= i < 32
      ensures XorKey(XorKey(a, b), b)[i] == a[i]
    {
      XorTwice(a[i], b[i], 8);
    }
  }

  method XorInto(a: Key, b: Key) returns (r: Key)
    ensures r == XorKey(a, b)
  {
    var out: array<U8> := new U8[32](_ => 0);
    for i := 0 to 32
      invariant forall j :: 0 <= j < i ==> out[j] == XorByte(a[j], b[j])
    {
      out[i] := XorByte(a[i], b[i]);
    }
    r := out[..];
  }

  // ---- keys, proofs and their verification --------------------------------------------------------

  const MIN_M_COST := 19456
  const MAX_M_COST := 262144

  function CheckBounds(p: Params, saltLen: nat): Outcome<()> {
    if !(MIN_M_COST <= p.m <= MAX_M_COST) then Bad(UnacceptableMemory)
    else if !(2 <= p.t <= 10) then Bad(UnacceptableTime)
    else if !(1 <= p.p <= 4) then Bad(UnacceptableParallelism)
    else if !(16 <= saltLen <= 64) then Bad(UnacceptableSalt)
    else Fine(())
  }

  function ClientKey(k: Crypto, salted: Key): Key {
    k.hmac(salted, CLIENT_KEY)
  }

  /** What a server stores for a password. */
  function Derive(k: Crypto, password: Bytes, salt: Bytes, params: Params): Credential {
    var salted := k.argon(password, salt, params);
    Credential(salt, params, k.sha(ClientKey(k, salted)), k.hmac(salted, SERVER_KEY))
  }

  method Prove(k: Crypto, password: Bytes, salt: Bytes, params: Params, message: Bytes) returns (r: Outcome<Proof>)
    ensures r == Proven(k, password, salt, params, message)
  {
    var bounds := CheckBounds(params, |salt|);
    if bounds.Bad? {
      return Bad(bounds.error);
    }
    var salted := k.argon(password, salt, params);
    var clientKey := k.hmac(salted, CLIENT_KEY);
    var storedKey := k.sha(clientKey);
    var proof := XorInto(clientKey, k.hmac(storedKey, message));
    return Fine(Proof(proof, k.hmac(k.hmac(salted, SERVER_KEY), message)));
  }

  /** The client's answer: bounds first, then its key masked by the signature of the message. */
  function Proven(k: Crypto, password: Bytes, salt: Bytes, params: Params, message: Bytes): Outcome<Proof> {
    if CheckBounds(params, |salt|).Bad? then Bad(CheckBounds(params, |salt|).error)
    else
      var c := Derive(k, password, salt, params);
      var key := ClientKey(k, k.argon(password, salt, params));
      Fine(Proof(XorKey(key, k.hmac(c.storedKey, message)), k.hmac(c.serverKey, message)))
  }

  method Verify(k: Crypto, c: Credential, message: Bytes, proof: Key) returns (r: Option<Key>)
    ensures r == Verified(k, c, message, proof)
  {
    var clientKey := XorInto(proof, k.hmac(c.storedKey, message));
    if k.sha(clientKey) == c.storedKey {
      return Some(k.hmac(c.serverKey, message));
    }
    return None;
  }

  function Verified(k: Crypto, c: Credential, message: Bytes, proof: Key): Option<Key> {
    if k.sha(XorKey(proof, k.hmac(c.storedKey, message))) == c.storedKey then Some(k.hmac(c.serverKey, message)) else None
  }

  /** For every password and in-bounds parameters, over any message: the server accepts the
      client's proof, and answers with the signature the client expects. */
  lemma HonestProofVerifies(k: Crypto, password: Bytes, salt: Bytes, params: Params, message: Bytes)
    ensures CheckBounds(params, |salt|).Fine? <==> Proven(k, password, salt, params, message).Fine?
    ensures CheckBounds(params, |salt|).Fine? ==>
              var p := Proven(k, password, salt, params, message).value;
              Verified(k, Derive(k, password, salt, params), message, p.proof) == Some(p.serverSignature)
  {
    if CheckBounds(params, |salt|).Fine? {
      XorKeyTwice(ClientKey(k, k.argon(password, salt, params)), k.hmac(Derive(k, password, salt, params).storedKey, message));
    }
  }

  /** What acceptance amounts to: exactly the proofs that mask some preimage of the stored
      key with this message's signature are accepted. */
  lemma AcceptedIffKeyKnown(k: Crypto, c: Credential, message: Bytes, proof: Key)
    ensures Verified(k, c, message, proof).Some? <==>
            exists key: Key :: k.sha(key) == c.storedKey && proof == XorKey(key, k.hmac(c.storedKey, message))
  {
    var sig := k.hmac(c.storedKey, message);
    XorKeyTwice(proof, sig);
    if Verified(k, c, message, proof).Some? {
      var key := XorKey(proof, sig);
      assert k.sha(key) == c.storedKey && proof == XorKey(key, sig);
    }
    if key: Key :| k.sha(key) == c.storedKey && proof == XorKey(key, sig) {
      XorKeyTwice(key, sig);
    }
  }

  /** A whole login: both ends build the message from their own copy of the fields. */
  lemma HonestLogin(k: Crypto, password: Bytes, c: Context)
    requires CheckBounds(c.params, |c.salt|).Fine?
    ensures var stored := Derive(k, password, c.salt, c.params);
            var sent := Proven(k, password, c.salt, c.params, AuthMessage(c));
            && sent.Fine?
            && Verified(k, stored, AuthMessage(Context(c.username, c.challenge, stored.salt, stored.params, c.binding)), sent.value.proof)
               == Some(sent.value.serverSignature)
  {
    hide AuthMessage, Verified, Proven;
    HonestProofVerifies(k, password, c.salt, c.params, AuthMessage(c));
  }

  /** A credential fit to store. */
  function CheckAcceptable(c: Credential): Outcome<()> {
    var bounds := CheckBounds(c.params, |c.salt|);
    if bounds.Bad? then bounds
    else if c.storedKey == Zeros(32) || c.serverKey == Zeros(32) then Bad(ZeroKey)
    else Fine(())
  }

  function ProvenChange(k: Crypto, password: Bytes, c: Context, n: Credential): Outcome<Proof> {
    if CheckAcceptable(n).Bad? then Bad(CheckAcceptable(n).error)
    else Proven(k, password, c.salt, c.params, ChangeMessage(c, n))
  }

  /** A whole password change, authorised by the current password and answered with the
      current server key's signature. */
  lemma HonestChange(k: Crypto, password: Bytes, c: Context, n: Credential)
    requires CheckBounds(c.params, |c.salt|).Fine? && CheckAcceptable(n).Fine?
    ensures var stored := Derive(k, password, c.salt, c.params);
            var sent := ProvenChange(k, password, c, n);
            && sent.Fine?
            && Verified(k, stored, ChangeMessage(Context(c.username, c.challenge, stored.salt, stored.params, c.binding), n), sent.value.proof)
               == Some(sent.value.serverSignature)
  {
    hide ChangeMessage, Verified, Proven;
    HonestProofVerifies(k, password, c.salt, c.params, ChangeMessage(c, n));
  }

  // ---- what the numbers are --------------------------------------------------------------------

  function BitAt(a: nat, i: nat): nat {
    if i == 0 then a % 2 else BitAt(a / 2, i - 1)
  }

  /** Each bit of the result is set exactly where the two differ. */
  lemma {:induction false} XorIsBitwise(a: nat, b: nat, k: nat, i: nat)
    requires i < k
    ensures BitAt(XorBits(a, b, k), i) == 1 <==> BitAt(a, i) != BitAt(b, i)
    decreases k
  {
    var x := XorBits(a / 2, b / 2, k - 1);
    assert (2 * x + (a + b) % 2) / 2 == x && (2 * x + (a + b) % 2) % 2 == (a + b) % 2;
    if i > 0 {
      XorIsBitwise(a / 2, b / 2, k - 1, i - 1);
    } else {
      SumParity(a, b);
    }
  }

  lemma SumParity(a: nat, b: nat)
    ensures (a + b) % 2 == 1 <==> a % 2 != b % 2
  {
    assert a + b == 2 * (a / 2 + b / 2) + (a % 2 + b % 2);
  }

  lemma {:induction false} XorComm(a: nat, b: nat, k: nat)
    ensures XorBits(a, b, k) == XorBits(b, a, k)
  {
    if k > 0 {
      XorComm(a / 2, b / 2, k - 1);
    }
  }

  /** A masked key and its mask determine each other. */
  lemma MaskDetermined(a: Key, b: Key, c: Key)
    ensures XorKey(a, b) == XorKey(a, c) <==> b == c
  {
    hide XorBits;
    BoundEight();
    if XorKey(a, b) == XorKey(a, c) {
      forall i | 0 <= i < 32 ensures b[i] == c[i] {
        assert XorByte(a[i], b[i]) == XorByte(a[i], c[i]);
        XorComm(a[i], b[i], 8);
        XorComm(a[i], c[i], 8);
        XorTwice(b[i], a[i], 8);
        XorTwice(c[i], a[i], 8);
      }
      assert b == c;
    }
  }

  /** A proof is good for one message only: accepted for a second one as well, it shows two messages
      with one signature, or two different keys with the stored hash. */
  lemma ProofIsForOneMessage(k: Crypto, c: Credential, m: Bytes, n: Bytes, proof: Key)
    requires Verified(k, c, m, proof).Some? && Verified(k, c, n, proof).Some?
    ensures var x, y := XorKey(proof, k.hmac(c.storedKey, m)), XorKey(proof, k.hmac(c.storedKey, n));
            k.hmac(c.storedKey, m) == k.hmac(c.storedKey, n) || (x != y && k.sha(x) == k.sha(y) == c.storedKey)
  {
    MaskDetermined(proof, k.hmac(c.storedKey, m), k.hmac(c.storedKey, n));
  }

  /** What is sent and expected back, as section 3 of RFC 5802 defines it: the client key under the signature
      of the message, and the server's own signature. */
  lemma ProofAsDefined(k: Crypto, password: Bytes, salt: Bytes, params: Params, message: Bytes)
    requires Proven(k, password, salt, params, message).Fine?
    ensures var p := Proven(k, password, salt, params, message).value;
            var salted := k.argon(password, salt, params);
            var clientKey := k.hmac(salted, [0x43, 0x6C, 0x69, 0x65, 0x6E, 0x74, 0x20, 0x4B, 0x65, 0x79]);
            var serverKey := k.hmac(salted, [0x53, 0x65, 0x72, 0x76, 0x65, 0x72, 0x20, 0x4B, 0x65, 0x79]);
            && XorKey(p.proof, clientKey) == k.hmac(k.sha(clientKey), message)
            && p.serverSignature == k.hmac(serverKey, message)
  {
    var salted := k.argon(password, salt, params);
    MaskBack(ClientKey(k, salted), k.hmac(k.sha(ClientKey(k, salted)), message));
  }

  lemma MaskBack(a: Key, b: Key)
    ensures XorKey(XorKey(a, b), a) == b
  {
    hide XorBits;
    BoundEight();
    forall i | 0 <= i < 32 ensures XorKey(XorKey(a, b), a)[i] == b[i] {
      XorComm(a[i], b[i], 8);
      XorTwice(b[i], a[i], 8);
    }
  }

  /** Which parameters and credentials are refused, and why. */
  lemma BoundsExactly(p: Params, saltLen: nat, c: Credential)
    ensures CheckBounds(p, saltLen).Fine? <==>
              19_456 <= p.m as int <= 262_144 && 2 <= p.t as int <= 10 && 1 <= p.p as int <= 4 && 16 <= saltLen <= 64
    ensures CheckAcceptable(c).Fine? <==>
              CheckBounds(c.params, |c.salt|).Fine? && (exists i :: 0 <= i < 32 && c.storedKey[i] != 0) && (exists i :: 0 <= i < 32 && c.serverKey[i] != 0)
  {
    ZeroOrNot(c.storedKey);
    ZeroOrNot(c.serverKey);
  }

  lemma ZeroOrNot(key: Key)
    ensures key == Zeros(32) <==> forall i :: 0 <= i < 32 ==> key[i] == 0
  {
  }
}
