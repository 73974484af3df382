/** Key agreement, confirmation tags, record nonces and the sealed transport. The
    primitives of the cryptographic library are parameters: functions, of which a
    theorem assumes only what it says. */
module Crypto {
  import opened Options
  import opened Bytes
  import opened Wire

  type Wide = s: seq<Byte> | |s| == 64 witness Zeros(64)
  type Nonce = s: seq<Byte> | |s| == 12 witness Zeros(12)

  /** X25519, BLAKE2b keyed with its first argument, Ed25519, ChaCha20-Poly1305. */
  datatype Suite = Suite(
    publicOf: Key -> Key,
    agree: (Key, Key) -> Option<Key>,
    hash32: (seq<Byte>, seq<Byte>) -> Key,
    hash64: (seq<Byte>, seq<Byte>) -> Wide,
    idOf: Key -> Id,
    sign: (seq<Byte>, Wide) -> Signature,
    verify: (seq<Byte>, Signature, Key) -> bool,
    seal: (Key, Nonce, seq<Byte>) -> seq<Byte>,
    open: (Key, Nonce, seq<Byte>) -> Option<seq<Byte>>)

  /** The shared secret does not depend on the side that computes it. */
  ghost predicate Agrees(s: Suite) {
    forall a: Key, b: Key :: s.agree(a, s.publicOf(b)) == s.agree(b, s.publicOf(a))
  }

  /** Sealing adds a tag, and opening under the same key and nonce undoes it. */
  ghost predicate Seals(s: Suite) {
    forall k: Key, n: Nonce, p: seq<Byte> ::
      |s.seal(k, n, p)| == |p| + AEAD_TAG && s.open(k, n, s.seal(k, n, p)) == Some(p)
  }

  function Text(t: string): seq<Byte> {
    seq(|t|, i requires 0 <= i < |t| => t[i] as int % 256)
  }

  // ------------------------------------------------------------------
  // Key agreement
  // ------------------------------------------------------------------

  datatype Keypair = Keypair(pk: Key, sk: Key)
  datatype Agreement = Agreement(txKey: Key, rxKey: Key, myTag: Key, expectedTag: Key)

  /** do_handshake: directional keys and confirmation tags from our ephemeral pair, the
      peer's ephemeral key and the group's secret. */
  function Handshake(s: Suite, mine: Keypair, peerPk: Key, groupKey: Key, groupName: seq<Byte>): Option<Agreement> {
    var dh :- s.agree(mine.sk, peerPk);
    var iAmLo := LexLess(mine.pk, peerPk);
    var lo, hi := if iAmLo then mine.pk else peerPk, if iAmLo then peerPk else mine.pk;
    var master := s.hash64(groupKey, dh + lo + hi + groupName);
    var session := s.hash64(master, Text("mm-session-keys-v1"));
    var kA: Key, kB: Key := session[..32], session[32..];
    var confirmBase := s.hash32(master, Text("mm-confirm-v1"));
    Some(Agreement(
           if iAmLo then kA else kB,
           if iAmLo then kB else kA,
           s.hash32(confirmBase, mine.pk),
           s.hash32(confirmBase, peerPk)))
  }

  /** What each end sends the other can read, and vice versa. */
  predicate Mirrored(a: Agreement, b: Agreement) {
    a.txKey == b.rxKey && a.rxKey == b.txKey
  }

  predicate TagsMatch(a: Agreement, b: Agreement) {
    a.myTag == b.expectedTag && b.myTag == a.expectedTag
  }

  /** Two ends of one group agree or fail together; the tags match; and the directional
      keys mirror unless both ends happened on the same ephemeral key. */
  lemma EndsAgree(s: Suite, a: Keypair, b: Keypair, groupKey: Key, groupName: seq<Byte>)
    requires Agrees(s) && a.pk == s.publicOf(a.sk) && b.pk == s.publicOf(b.sk)
    ensures var atA, atB := Handshake(s, a, b.pk, groupKey, groupName), Handshake(s, b, a.pk, groupKey, groupName);
            && (atA.Some? <==> atB.Some?)
            && (atA.Some? ==> TagsMatch(atA.value, atB.value))
            && (atA.Some? ==> (Mirrored(atA.value, atB.value) <==> a.pk != b.pk || atA.value.txKey == atA.value.rxKey))
  {
    LexTotal(a.pk, b.pk);
    assert s.agree(a.sk, s.publicOf(b.sk)) == s.agree(b.sk, s.publicOf(a.sk));
  }

  /** What an end hashes under the group's secret: the shared secret, the two ephemeral
      keys with the smaller one first, the group's name. */
  function Material(dh: Key, x: Key, y: Key, name: seq<Byte>): seq<Byte> {
    dh + (if LexLess(x, y) then x + y else y + x) + name
  }

  /** Of the hashes that two ends compute and compare, from group keys kA and kB, materials
      x and y and public keys p and q, none collide. */
  ghost predicate NoCollision(s: Suite, kA: Key, x: seq<Byte>, p: Key, kB: Key, y: seq<Byte>, q: Key) {
    var mA, mB := s.hash64(kA, x), s.hash64(kB, y);
    var cA, cB := s.hash32(mA, Text("mm-confirm-v1")), s.hash32(mB, Text("mm-confirm-v1"));
    && (mA == mB ==> kA == kB && x == y)
    && (cA == cB ==> mA == mB)
    && (s.hash32(cA, p) == s.hash32(cB, q) ==> cA == cB && p == q)
    && (s.hash64(mA, Text("mm-session-keys-v1")) == s.hash64(mB, Text("mm-session-keys-v1")) ==> mA == mB)
  }

  lemma MaterialTells(dh: Key, x: Key, y: Key, name: seq<Byte>, dh': Key, x': Key, y': Key, name': seq<Byte>)
    ensures Material(dh, x, y, name) == Material(dh', x', y', name')
       <==> dh == dh' && name == name' && ((x == x' && y == y') || (x == y' && y == x'))
  {
    LexTotal(x, y);
    LexTotal(x', y');
    var m, m' := Material(dh, x, y, name), Material(dh', x', y', name');
    assert m[..32] == dh && m'[..32] == dh';
    assert m[96..] == name && m'[96..] == name';
    assert m[32..64] == (if LexLess(x, y) then x else y) && m'[32..64] == (if LexLess(x', y') then x' else y');
    assert m[64..96] == (if LexLess(x, y) then y else x) && m'[64..96] == (if LexLess(x', y') then y' else x');
  }

  /** The tag a sends is the one b expects if and only if they share the group's secret and
      name and the agreed secret, and each has heard the other's own key: not with another
      passphrase, nor through one in the middle who puts keys of its own in their place. */
  lemma TagsMatchIff(s: Suite, a: Keypair, heardByA: Key, kA: Key, nA: seq<Byte>, b: Keypair, heardByB: Key, kB: Key, nB: seq<Byte>)
    requires s.agree(a.sk, heardByA).Some? && s.agree(b.sk, heardByB).Some?
    requires var dhA, dhB := s.agree(a.sk, heardByA).value, s.agree(b.sk, heardByB).value;
             NoCollision(s, kA, Material(dhA, a.pk, heardByA, nA), a.pk, kB, Material(dhB, b.pk, heardByB, nB), heardByB)
    ensures Handshake(s, a, heardByA, kA, nA).value.myTag == Handshake(s, b, heardByB, kB, nB).value.expectedTag
       <==> kA == kB && nA == nB && s.agree(a.sk, heardByA) == s.agree(b.sk, heardByB)
            && a.pk == heardByB && heardByA == b.pk
  {
    var dhA, dhB := s.agree(a.sk, heardByA).value, s.agree(b.sk, heardByB).value;
    MaterialTells(dhA, a.pk, heardByA, nA, dhB, b.pk, heardByB, nB);
    HandshakeUses(s, a, heardByA, kA, nA);
    HandshakeUses(s, b, heardByB, kB, nB);
  }

  /** Tags and keys, from the material. */
  lemma HandshakeUses(s: Suite, mine: Keypair, peerPk: Key, groupKey: Key, groupName: seq<Byte>)
    requires s.agree(mine.sk, peerPk).Some?
    ensures var h := Handshake(s, mine, peerPk, groupKey, groupName).value;
            var master := s.hash64(groupKey, Material(s.agree(mine.sk, peerPk).value, mine.pk, peerPk, groupName));
            var base := s.hash32(master, Text("mm-confirm-v1"));
            && h.myTag == s.hash32(base, mine.pk) && h.expectedTag == s.hash32(base, peerPk)
            && (if LexLess(mine.pk, peerPk) then h.txKey + h.rxKey else h.rxKey + h.txKey)
               == s.hash64(master, Text("mm-session-keys-v1"))
  {
    var dh := s.agree(mine.sk, peerPk).value;
    var lo, hi := if LexLess(mine.pk, peerPk) then mine.pk else peerPk, if LexLess(mine.pk, peerPk) then peerPk else mine.pk;
    assert dh + (lo + hi) + groupName == dh + lo + hi + groupName;
    var session := s.hash64(s.hash64(groupKey, dh + lo + hi + groupName), Text("mm-session-keys-v1"));
    assert session == session[..32] + session[32..];
  }

  /** Two ends that have heard each other's keys can read each other if and only if they
      share the group's secret and name. */
  lemma KeysMirrorIff(s: Suite, a: Keypair, kA: Key, nA: seq<Byte>, b: Keypair, kB: Key, nB: seq<Byte>)
    requires Agrees(s) && a.pk == s.publicOf(a.sk) && b.pk == s.publicOf(b.sk) && a.pk != b.pk && s.agree(a.sk, b.pk).Some?
    requires var dh := s.agree(a.sk, b.pk).value;
             NoCollision(s, kA, Material(dh, a.pk, b.pk, nA), a.pk, kB, Material(dh, b.pk, a.pk, nB), a.pk)
    ensures Handshake(s, b, a.pk, kB, nB).Some?
    ensures Mirrored(Handshake(s, a, b.pk, kA, nA).value, Handshake(s, b, a.pk, kB, nB).value) <==> kA == kB && nA == nB
  {
    assert s.agree(a.sk, s.publicOf(b.sk)) == s.agree(b.sk, s.publicOf(a.sk));
    var dh := s.agree(a.sk, b.pk).value;
    LexTotal(a.pk, b.pk);
    MaterialTells(dh, a.pk, b.pk, nA, dh, b.pk, a.pk, nB);
    HandshakeUses(s, a, b.pk, kA, nA);
    HandshakeUses(s, b, a.pk, kB, nB);
    var x, y := Handshake(s, a, b.pk, kA, nA).value, Handshake(s, b, a.pk, kB, nB).value;
    HalvesTell(x.txKey, x.rxKey, y.rxKey, y.txKey);
    HalvesTell(x.rxKey, x.txKey, y.txKey, y.rxKey);
  }

  lemma HalvesTell(x: Key, y: Key, x': Key, y': Key)
    ensures x + y == x' + y' <==> x == x' && y == y'
  {
    assert (x + y)[..32] == x && (x + y)[32..] == y && (x' + y')[..32] == x' && (x' + y')[32..] == y';
  }

  // ------------------------------------------------------------------
  // Nonces
  // ------------------------------------------------------------------

  /** Four zero bytes and the counter, big-endian. */
  function NonceOf(ctr: U64): Nonce {
    Zeros(4) + BigEndian(ctr, 8)
  }

  method NonceFromCounter(ctr: U64) returns (nonce: Nonce)
    ensures nonce == NonceOf(ctr) && nonce[..4] == [0, 0, 0, 0] && Value(nonce[4..]) == ctr
  {
    var n: seq<Byte> := Zeros(12);
    var rest: nat := ctr;
    for i := 0 to 8
      invariant |n| == 12 && n[..12 - i] == Zeros(12 - i)
      invariant BigEndian(ctr, 8) == BigEndian(rest, 8 - i) + n[12 - i..]
    {
      ghost var n0 := n;
      n := n[11 - i := rest % 256];
      assert n[11 - i..] == [rest % 256] + n0[12 - i..];
      assert BigEndian(rest, 8 - i) == BigEndian(rest / 256, 7 - i) + [rest % 256];
      rest := rest / 256;
    }
    assert n == n[..4] + n[4..];
    nonce := n;
    ValueOfBigEndian(ctr, 8);
  }

  /** No two records of a direction use the same nonce, until the counter wraps. */
  lemma NoncesDiffer(a: U64, b: U64)
    requires NonceOf(a) == NonceOf(b)
    ensures a == b
  {
    assert NonceOf(a)[4..] == BigEndian(a, 8) && NonceOf(b)[4..] == BigEndian(b, 8);
    ValueOfBigEndian(a, 8);
    ValueOfBigEndian(b, 8);
  }

  // ------------------------------------------------------------------
  // The sealed transport
  // ------------------------------------------------------------------

  function Next(ctr: U64): U64 {
    (ctr + 1) % 0x1_0000_0000_0000_0000
  }

  /** A record on the wire: its length, and the sealed frame. */
  function Record(s: Suite, key: Key, ctr: U64, plain: seq<Byte>): seq<Byte> {
    var ct := s.seal(key, NonceOf(ctr), plain);
    BigEndian(|plain| + AEAD_TAG, 4) + ct
  }

  class SecureSession {
    const s: Suite
    var txKey: Key
    var rxKey: Key
    var txCtr: U64
    var rxCtr: U64

    constructor (s: Suite)
      ensures this.s == s && txCtr == 0 && rxCtr == 0
    {
      this.s, txKey, rxKey, txCtr, rxCtr := s, Zeros(32), Zeros(32), 0, 0;
    }

    /** The keys of a completed agreement. */
    method Adopt(a: Agreement)
      modifies `txKey, `rxKey
      ensures txKey == a.txKey && rxKey == a.rxKey
    {
      txKey, rxKey := a.txKey, a.rxKey;
    }

    method Seal(plain: seq<Byte>) returns (record: seq<Byte>)
      modifies `txCtr
      ensures record == Record(s, txKey, old(txCtr), plain) && txCtr == Next(old(txCtr))
    {
      var nonce := NonceFromCounter(txCtr);
      txCtr := Next(txCtr);
      record := BigEndian(|plain| + AEAD_TAG, 4) + s.seal(txKey, nonce, plain);
    }

    /** A record that does not open leaves the counter where it is. */
    method Open(ct: seq<Byte>) returns (plain: Option<seq<Byte>>)
      modifies `rxCtr
      ensures plain == (if |ct| < AEAD_TAG then None else s.open(rxKey, NonceOf(old(rxCtr)), ct))
      ensures rxCtr == if plain.Some? then Next(old(rxCtr)) else old(rxCtr)
    {
      if |ct| < AEAD_TAG { return None; }
      var nonce := NonceFromCounter(rxCtr);
      plain := s.open(rxKey, nonce, ct);
      if plain.Some? { rxCtr := Next(rxCtr); }
    }
  }
}
