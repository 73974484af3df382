/** The frame format of the TCP links: what each encoder writes and what
    `try_decode_frame` accepts, as functions on byte strings, with the round-trip,
    prefix and relay laws. `WireCodec` proves the mutating code against them. */
module Wire {
  import opened Bytes
  import opened Options

  // ------------------------------------------------------------------
  // Frames
  // ------------------------------------------------------------------

  type Id = s: seq<Byte> | |s| == 16 witness Zeros(16)
  type Key = s: seq<Byte> | |s| == 32 witness Zeros(32)
  type Signature = s: seq<Byte> | |s| == 64 witness Zeros(64)
  type U16 = v: nat | v < 0x1_0000
  type U64 = v: nat | v < 0x1_0000_0000_0000_0000

  const U32_LIMIT: nat := 0x1_0000_0000
  const MAX_STRING: nat := 255
  const MAX_NEIGHBORS: nat := 0xFFFF

  datatype Credential = Credential(idPubKey: Key, nodeName: seq<Byte>)

  /** `secure` is `ephPubKey.Some?` and `hasIdentity` is `identity.Some?`. */
  datatype Hello = Hello(
    nodeId: Id, protocolVersion: Byte, tcpListenPort: U16, groupName: seq<Byte>,
    nonce: U64, ephPubKey: Option<Key>, identity: Option<Credential>)

  datatype Frame =
    | HelloFrame(ack: bool, hello: Hello)
    | Heartbeat
    | Data(src: Id, dst: Id, msgId: Id, ttl: Byte, payload: seq<Byte>)
    | Goodbye
    | Membership(origin: Id, version: U64, neighbors: seq<Id>)
    | AuthConfirm(tag: Key, sig: Option<Signature>)
    | IdentityRecord(idPubKey: Key, idVersion: U64, signature: Signature, name: seq<Byte>)

  // ------------------------------------------------------------------
  // Encoding
  // ------------------------------------------------------------------

  function Cut<T>(s: seq<T>, n: nat): (r: seq<T>)
    ensures |r| <= n && r <= s
    ensures |s| <= n ==> r == s
  {
    if |s| > n then s[..n] else s
  }

  function PutStr(s: seq<Byte>): (b: seq<Byte>)
    ensures |b| == 1 + |Cut(s, MAX_STRING)|
  {
    [|Cut(s, MAX_STRING)|] + Cut(s, MAX_STRING)
  }

  function PutIds(ids: seq<Id>): (b: seq<Byte>)
    ensures |b| == 16 * |ids|
  {
    if ids == [] then [] else ids[0] + PutIds(ids[1..])
  }

  function PutOptional(o: Option<seq<Byte>>): seq<Byte> {
    match o
    case None => [0]
    case Some(b) => [1] + b
  }

  function PutCredential(o: Option<Credential>): seq<Byte> {
    match o
    case None => [0]
    case Some(c) => [1] + (c.idPubKey + PutStr(c.nodeName))
  }

  /** Frame type byte followed by the fields; integers are big-endian. */
  function Body(f: Frame): (b: seq<Byte>)
    ensures |b| >= 1
  {
    match f
    case HelloFrame(ack, h) =>
      [if ack then 2 else 1] + (h.nodeId + ([h.protocolVersion] + (BigEndian(h.tcpListenPort, 2)
      + (PutStr(h.groupName) + (BigEndian(h.nonce, 8)
      + (PutOptional(h.ephPubKey) + PutCredential(h.identity)))))))
    case Heartbeat => [3]
    case Data(src, dst, msgId, ttl, payload) =>
      [4] + (src + (dst + (msgId + ([ttl] + (BigEndian(|payload|, 4) + payload)))))
    case Goodbye => [5]
    case Membership(origin, version, neighbors) =>
      var ns := Cut(neighbors, MAX_NEIGHBORS);
      [6] + (origin + (BigEndian(version, 8) + (BigEndian(|ns|, 2) + PutIds(ns))))
    case AuthConfirm(tag, sig) => [7] + (tag + PutOptional(sig))
    case IdentityRecord(pk, version, signature, name) =>
      [8] + (pk + (BigEndian(version, 8) + (signature + PutStr(name))))
  }

  /** A complete length-prefixed frame. */
  function Encode(f: Frame): (b: seq<Byte>)
    ensures |b| == 4 + |Body(f)|
  {
    BigEndian(|Body(f)|, 4) + Body(f)
  }

  /** Where the parts of a frame lie: the length of the rest, and the kind of frame. */
  lemma FrameLayout(f: Frame)
    ensures var e := Encode(f);
            && e[..4] == BigEndian(|e| - 4, 4)
            && e[4] == match f
                       case HelloFrame(ack, _) => if ack then 2 else 1
                       case Heartbeat => 3
                       case Data(_, _, _, _, _) => 4
                       case Goodbye => 5
                       case Membership(_, _, _) => 6
                       case AuthConfirm(_, _) => 7
                       case IdentityRecord(_, _, _, _) => 8
  {
    HeadAt(BigEndian(|Body(f)|, 4), Body(f));
  }

  lemma HeadAt(h: seq<Byte>, b: seq<Byte>)
    requires |h| == 4 && |b| >= 1
    ensures (h + b)[..4] == h && (h + b)[4] == b[0]
  {}

  lemma PartAt(e: seq<Byte>, k: nat, x: seq<Byte>, y: seq<Byte>)
    requires k <= |e| && e[k..] == x + y
    ensures k + |x| <= |e| && e[k..k + |x|] == x && e[k + |x|..] == y
  {
    assert e[k..k + |x|] == e[k..][..|x|] && e[k + |x|..] == e[k..][|x|..];
  }

  /** A message: source, destination, id, ttl, length and payload. */
  lemma DataLayout(src: Id, dst: Id, msgId: Id, ttl: Byte, payload: seq<Byte>)
    ensures var e := Encode(Data(src, dst, msgId, ttl, payload));
            && e[5..21] == src && e[21..37] == dst && e[37..53] == msgId && e[53..54] == [ttl]
            && e[54..58] == BigEndian(|payload|, 4) && e[58..] == payload
  {
    var n := BigEndian(|payload|, 4);
    DataParts(BigEndian(|Body(Data(src, dst, msgId, ttl, payload))|, 4), src, dst, msgId, ttl, n, payload);
  }

  lemma DataParts(h: seq<Byte>, src: Id, dst: Id, msgId: Id, ttl: Byte, n: seq<Byte>, payload: seq<Byte>)
    requires |h| == 4 && |n| == 4
    ensures var e := h + ([4] + (src + (dst + (msgId + ([ttl] + (n + payload))))));
            && e[5..21] == src && e[21..37] == dst && e[37..53] == msgId && e[53..54] == [ttl] && e[54..58] == n && e[58..] == payload
  {
    var r4 := n + payload;
    var r3 := [ttl] + r4;
    var r2 := msgId + r3;
    var r1 := dst + r2;
    var e := h + ([4] + (src + r1));
    TailAt(h, 4, src + r1);
    PartsFrom(e, src, dst, msgId, ttl, n, payload, r1, r2, r3, r4);
  }

  lemma PartsFrom(e: seq<Byte>, src: Id, dst: Id, msgId: Id, ttl: Byte, n: seq<Byte>, payload: seq<Byte>,
                  r1: seq<Byte>, r2: seq<Byte>, r3: seq<Byte>, r4: seq<Byte>)
    requires |e| >= 5 && |n| == 4
    requires e[5..] == src + r1 && r1 == dst + r2 && r2 == msgId + r3 && r3 == [ttl] + r4 && r4 == n + payload
    ensures |e| == 58 + |payload| && e[5..21] == src && e[21..37] == dst && e[37..53] == msgId
    ensures e[53..54] == [ttl] && e[54..58] == n && e[58..] == payload
  {
    PartAt(e, 5, src, r1);
    PartAt(e, 21, dst, r2);
    PartAt(e, 37, msgId, r3);
    PartAt(e, 53, [ttl], r4);
    PartAt(e, 54, n, payload);
  }

  lemma TailAt(h: seq<Byte>, code: Byte, r: seq<Byte>)
    requires |h| == 4
    ensures (h + ([code] + r))[5..] == r
  {}

  /** What the encoders keep of a frame: long strings and lists are truncated. */
  function Canonical(f: Frame): Frame {
    match f
    case HelloFrame(ack, h) =>
      HelloFrame(ack, h.(groupName := Cut(h.groupName, MAX_STRING),
        identity := match h.identity
                    case None => None
                    case Some(c) => Some(c.(nodeName := Cut(c.nodeName, MAX_STRING)))))
    case Membership(origin, version, neighbors) => f.(neighbors := Cut(neighbors, MAX_NEIGHBORS))
    case IdentityRecord(_, _, _, name) => f.(name := Cut(name, MAX_STRING))
    case _ => f
  }

  // ------------------------------------------------------------------
  // Decoding
  // ------------------------------------------------------------------

  function Take(s: seq<Byte>, n: nat): (r: Option<(seq<Byte>, seq<Byte>)>)
    ensures r.Some? ==> |r.value.0| == n && s == r.value.0 + r.value.1
  {
    if |s| < n then None else Some((s[..n], s[n..]))
  }

  function TakeInt(s: seq<Byte>, n: nat): (r: Option<(nat, seq<Byte>)>)
    ensures r.Some? ==> r.value.0 < Pow256(n)
  {
    var (b, rest) :- Take(s, n);
    Some((Value(b), rest))
  }

  function TakeU8(s: seq<Byte>): Option<(Byte, seq<Byte>)> {
    if s == [] then None else Some((s[0], s[1..]))
  }

  function TakeStr(s: seq<Byte>): Option<(seq<Byte>, seq<Byte>)> {
    var (n, rest) :- TakeU8(s);
    Take(rest, n)
  }

  function TakeIds(s: seq<Byte>, count: nat): (r: Option<(seq<Id>, seq<Byte>)>)
    ensures r.Some? ==> |r.value.0| == count
    decreases count
  {
    if count == 0 then Some(([], s)) else
    var (first, rest) :- Take(s, 16);
    var (ids, rest') :- TakeIds(rest, count - 1);
    var id: Id := first;
    Some(([id] + ids, rest'))
  }

  /** A flag byte and, when it is not zero, n bytes. */
  function TakeOptional(s: seq<Byte>, n: nat): (r: Option<(Option<seq<Byte>>, seq<Byte>)>)
    ensures r.Some? && r.value.0.Some? ==> |r.value.0.value| == n
  {
    var (flag, rest) :- TakeU8(s);
    if flag == 0 then Some((None, rest)) else
    var (b, rest') :- Take(rest, n);
    Some((Some(b), rest'))
  }

  function TakeCredential(s: seq<Byte>): Option<(Option<Credential>, seq<Byte>)> {
    var (flag, rest) :- TakeU8(s);
    if flag == 0 then Some((None, rest)) else
    var (pk, rest') :- Take(rest, 32);
    var (name, rest'') :- TakeStr(rest');
    Some((Some(Credential(pk, name)), rest''))
  }

  /** The part of a Hello that is always there. */
  function TakeGreeting(s: seq<Byte>): Option<(Hello, seq<Byte>)> {
    var (nodeId, s1) :- Take(s, 16);
    var (version, s2) :- TakeU8(s1);
    var (port, s3) :- TakeInt(s2, 2);
    var (group, s4) :- TakeStr(s3);
    var (nonce, s5) :- TakeInt(s4, 8);
    Some((Hello(nodeId, version, port, group, nonce, None, None), s5))
  }

  function ParseHello(ack: bool, s: seq<Byte>): (r: Option<Frame>)
    ensures r.Some? ==> r.value.HelloFrame?
  {
    var (h, s1) :- TakeGreeting(s);
    var (eph, s2) :- TakeOptional(s1, 32);
    var (identity, s3) :- TakeCredential(s2);
    var key: Option<Key> := if eph.Some? then Some(eph.value) else None;
    Some(HelloFrame(ack, h.(ephPubKey := key, identity := identity)))
  }

  function ParseAuthConfirm(s: seq<Byte>): (r: Option<Frame>)
    ensures r.Some? ==> r.value.AuthConfirm?
  {
    var (tag, s1) :- Take(s, 32);
    var (sig, s2) :- TakeOptional(s1, 64);
    var signature: Option<Signature> := if sig.Some? then Some(sig.value) else None;
    Some(AuthConfirm(tag, signature))
  }

  function ParseData(s: seq<Byte>): (r: Option<Frame>)
    ensures r.Some? ==> r.value.Data?
  {
    var (src, s1) :- Take(s, 16);
    var (dst, s2) :- Take(s1, 16);
    var (msgId, s3) :- Take(s2, 16);
    var (ttl, s4) :- TakeU8(s3);
    var (plen, s5) :- TakeInt(s4, 4);
    var (payload, s6) :- Take(s5, plen);
    Some(Data(src, dst, msgId, ttl, payload))
  }

  function ParseMembership(s: seq<Byte>): (r: Option<Frame>)
    ensures r.Some? ==> r.value.Membership?
  {
    var (origin, s1) :- Take(s, 16);
    var (version, s2) :- TakeInt(s1, 8);
    var (count, s3) :- TakeInt(s2, 2);
    var (ids, s4) :- TakeIds(s3, count);
    Some(Membership(origin, version, ids))
  }

  function ParseIdentity(s: seq<Byte>): (r: Option<Frame>)
    ensures r.Some? ==> r.value.IdentityRecord?
  {
    var (pk, s1) :- Take(s, 32);
    var (version, s2) :- TakeInt(s1, 8);
    var (sig, s3) :- Take(s2, 64);
    var (name, s4) :- TakeStr(s3);
    Some(IdentityRecord(pk, version, sig, name))
  }

  /** Bytes left over after the last field are ignored, as in the source. */
  function ParseBody(body: seq<Byte>): Option<Frame> {
    var (kind, s) :- TakeU8(body);
    match kind
    case 1 => ParseHello(false, s)
    case 2 => ParseHello(true, s)
    case 3 => Some(Heartbeat)
    case 4 => ParseData(s)
    case 5 => Some(Goodbye)
    case 6 => ParseMembership(s)
    case 7 => ParseAuthConfirm(s)
    case 8 => ParseIdentity(s)
    case _ => None
  }

  datatype Decoded = NeedMore | Error | Ok(frame: Frame, consumed: nat)

  function Decode(input: seq<Byte>, maxMessageBytes: nat): (r: Decoded)
    ensures r.Ok? ==> 5 <= r.consumed <= |input| && r.consumed <= 4 + maxMessageBytes
  {
    if |input| < 4 then NeedMore else
    var len := Value(input[..4]);
    if len < 1 || len > maxMessageBytes then Error
    else if |input| < 4 + len then NeedMore
    else match ParseBody(input[4..4 + len])
         case None => Error
         case Some(f) => Ok(f, 4 + len)
  }

  // ------------------------------------------------------------------
  // Reading back one field
  // ------------------------------------------------------------------

  lemma TakeBack(a: seq<Byte>, b: seq<Byte>)
    ensures Take(a + b, |a|) == Some((a, b))
  {
    assert (a + b)[..|a|] == a && (a + b)[|a|..] == b;
  }

  lemma TakeIntBack(v: nat, n: nat, b: seq<Byte>)
    requires v < Pow256(n)
    ensures TakeInt(BigEndian(v, n) + b, n) == Some((v, b))
  {
    TakeBack(BigEndian(v, n), b);
    ValueOfBigEndian(v, n);
  }

  lemma TakeU8Back(v: Byte, b: seq<Byte>)
    ensures TakeU8([v] + b) == Some((v, b))
  {
    assert ([v] + b)[1..] == b;
  }

  lemma TakeStrBack(s: seq<Byte>, b: seq<Byte>)
    ensures TakeStr(PutStr(s) + b) == Some((Cut(s, MAX_STRING), b))
  {
    var c := Cut(s, MAX_STRING);
    assert PutStr(s) + b == [|c|] + (c + b);
    TakeU8Back(|c|, c + b);
    TakeBack(c, b);
  }

  lemma {:induction false} TakeIdsBack(ids: seq<Id>, b: seq<Byte>)
    ensures TakeIds(PutIds(ids) + b, |ids|) == Some((ids, b))
  {
    if ids == [] {
      assert PutIds(ids) + b == b;
    } else {
      assert PutIds(ids) + b == ids[0] + (PutIds(ids[1..]) + b);
      TakeBack(ids[0], PutIds(ids[1..]) + b);
      TakeIdsBack(ids[1..], b);
      assert [ids[0]] + ids[1..] == ids;
    }
  }

  lemma TakeOptionalBack(o: Option<seq<Byte>>, n: nat, b: seq<Byte>)
    requires o.Some? ==> |o.value| == n
    ensures TakeOptional(PutOptional(o) + b, n) == Some((o, b))
  {
    match o
    case None =>
      TakeU8Back(0, b);
    case Some(x) =>
      assert PutOptional(o) + b == [1] + (x + b);
      TakeU8Back(1, x + b);
      TakeBack(x, b);
  }

  lemma TakeCredentialBack(o: Option<Credential>)
    ensures TakeCredential(PutCredential(o)) ==
            Some((match o case None => None
                          case Some(c) => Some(c.(nodeName := Cut(c.nodeName, MAX_STRING))), []))
  {
    match o
    case None =>
      assert PutCredential(o) == [0] && [0][1..] == [];
    case Some(c) =>
      var rest := c.idPubKey + PutStr(c.nodeName);
      TakeU8Back(1, rest);
      TakeBack(c.idPubKey, PutStr(c.nodeName));
      TakeStrBack(c.nodeName, []);
      assert PutStr(c.nodeName) + [] == PutStr(c.nodeName);
  }

  // ------------------------------------------------------------------
  // Round trip
  // ------------------------------------------------------------------

  lemma GreetingBack(h: Hello, rest: seq<Byte>)
    ensures TakeGreeting(h.nodeId + ([h.protocolVersion] + (BigEndian(h.tcpListenPort, 2)
              + (PutStr(h.groupName) + (BigEndian(h.nonce, 8) + rest)))))
         == Some((h.(groupName := Cut(h.groupName, MAX_STRING), ephPubKey := None, identity := None), rest))
  {
    var s4 := BigEndian(h.nonce, 8) + rest;
    var s3 := PutStr(h.groupName) + s4;
    var s2 := BigEndian(h.tcpListenPort, 2) + s3;
    TakeBack(h.nodeId, [h.protocolVersion] + s2);
    TakeU8Back(h.protocolVersion, s2);
    TakeIntBack(h.tcpListenPort, 2, s3);
    TakeStrBack(h.groupName, s4);
    TakeIntBack(h.nonce, 8, rest);
  }

  lemma HelloBack(ack: bool, h: Hello)
    ensures ParseBody(Body(HelloFrame(ack, h))) == Some(Canonical(HelloFrame(ack, h)))
  {
    var s2 := PutCredential(h.identity);
    var s1 := PutOptional(h.ephPubKey) + s2;
    TakeU8Back(if ack then 2 else 1, h.nodeId + ([h.protocolVersion] + (BigEndian(h.tcpListenPort, 2)
      + (PutStr(h.groupName) + (BigEndian(h.nonce, 8) + s1)))));
    GreetingBack(h, s1);
    TakeOptionalBack(h.ephPubKey, 32, s2);
    TakeCredentialBack(h.identity);
  }

  lemma DataBack(src: Id, dst: Id, msgId: Id, ttl: Byte, payload: seq<Byte>)
    requires |payload| < U32_LIMIT
    ensures ParseBody(Body(Data(src, dst, msgId, ttl, payload))) == Some(Data(src, dst, msgId, ttl, payload))
  {
    var s4 := BigEndian(|payload|, 4) + payload;
    var s3 := [ttl] + s4;
    var s2 := msgId + s3;
    var s1 := dst + s2;
    TakeU8Back(4, src + s1);
    TakeBack(src, s1);
    TakeBack(dst, s2);
    TakeBack(msgId, s3);
    TakeU8Back(ttl, s4);
    TakeIntBack(|payload|, 4, payload);
    TakeBack(payload, []);
    assert payload + [] == payload;
  }

  /** The neighbor list with its count. */
  lemma NeighborsBack(ns: seq<Id>)
    requires |ns| <= MAX_NEIGHBORS
    ensures TakeInt(BigEndian(|ns|, 2) + PutIds(ns), 2) == Some((|ns|, PutIds(ns)))
    ensures TakeIds(PutIds(ns), |ns|) == Some((ns, []))
  {
    assert |ns| < Pow256(2);
    TakeIntBack(|ns|, 2, PutIds(ns));
    TakeIdsBack(ns, []);
    assert PutIds(ns) + [] == PutIds(ns);
  }

  lemma ParseMembershipBack(origin: Id, version: U64, ns: seq<Id>)
    requires |ns| <= MAX_NEIGHBORS
    ensures ParseMembership(origin + (BigEndian(version, 8) + (BigEndian(|ns|, 2) + PutIds(ns))))
         == Some(Membership(origin, version, ns))
  {
    var s1 := BigEndian(|ns|, 2) + PutIds(ns);
    TakeBack(origin, BigEndian(version, 8) + s1);
    TakeIntBack(version, 8, s1);
    NeighborsBack(ns);
  }

  lemma MembershipBack(origin: Id, version: U64, neighbors: seq<Id>)
    ensures ParseBody(Body(Membership(origin, version, neighbors)))
         == Some(Membership(origin, version, Cut(neighbors, MAX_NEIGHBORS)))
  {
    var ns := Cut(neighbors, MAX_NEIGHBORS);
    ParseMembershipBack(origin, version, ns);
    TakeU8Back(6, origin + (BigEndian(version, 8) + (BigEndian(|ns|, 2) + PutIds(ns))));
  }

  lemma AuthConfirmBack(tag: Key, sig: Option<Signature>)
    ensures ParseBody(Body(AuthConfirm(tag, sig))) == Some(AuthConfirm(tag, sig))
  {
    var s1 := PutOptional(sig);
    TakeU8Back(7, tag + s1);
    TakeBack(tag, s1);
    TakeOptionalBack(sig, 64, []);
    assert s1 + [] == s1;
  }

  lemma IdentityBack(pk: Key, version: U64, sig: Signature, name: seq<Byte>)
    ensures ParseBody(Body(IdentityRecord(pk, version, sig, name)))
         == Some(IdentityRecord(pk, version, sig, Cut(name, MAX_STRING)))
  {
    var s3 := PutStr(name);
    var s2 := sig + s3;
    var s1 := BigEndian(version, 8) + s2;
    TakeU8Back(8, pk + s1);
    TakeBack(pk, s1);
    TakeIntBack(version, 8, s2);
    TakeBack(sig, s3);
    TakeStrBack(name, []);
    assert s3 + [] == s3;
  }

  lemma BodyBack(f: Frame)
    requires |Body(f)| < U32_LIMIT
    ensures ParseBody(Body(f)) == Some(Canonical(f))
  {
    match f
    case HelloFrame(ack, h) => HelloBack(ack, h);
    case Heartbeat =>
    case Data(src, dst, msgId, ttl, payload) => DataBack(src, dst, msgId, ttl, payload);
    case Goodbye =>
    case Membership(origin, version, neighbors) => MembershipBack(origin, version, neighbors);
    case AuthConfirm(tag, sig) => AuthConfirmBack(tag, sig);
    case IdentityRecord(pk, version, sig, name) => IdentityBack(pk, version, sig, name);
  }

  lemma LengthBack(f: Frame, rest: seq<Byte>)
    requires |Body(f)| < U32_LIMIT
    ensures Value((Encode(f) + rest)[..4]) == |Body(f)|
    ensures (Encode(f) + rest)[4..4 + |Body(f)|] == Body(f)
  {
    var len := BigEndian(|Body(f)|, 4);
    assert Encode(f) + rest == len + (Body(f) + rest);
    TakeBack(len, Body(f) + rest);
    TakeBack(Body(f), rest);
    ValueOfBigEndian(|Body(f)|, 4);
    assert (Encode(f) + rest)[4..4 + |Body(f)|] == (Encode(f) + rest)[4..][..|Body(f)|];
  }

  /** Decoding what was encoded, followed by anything, gives the frame back with
      its exact length, unless the receiver's size limit refuses it. */
  lemma RoundTrip(f: Frame, maxMessageBytes: nat, rest: seq<Byte>)
    requires |Body(f)| < U32_LIMIT
    ensures Decode(Encode(f) + rest, maxMessageBytes) ==
            if |Body(f)| <= maxMessageBytes then Ok(Canonical(f), |Encode(f)|) else Error
  {
    LengthBack(f, rest);
    BodyBack(f);
  }

  /** Every strict prefix of an acceptable frame waits for more bytes. */
  lemma StrictPrefixNeedsMore(f: Frame, maxMessageBytes: nat, k: nat)
    requires |Body(f)| < U32_LIMIT && |Body(f)| <= maxMessageBytes
    requires k < |Encode(f)|
    ensures Decode(Encode(f)[..k], maxMessageBytes) == NeedMore
  {
    if k >= 4 {
      LengthBack(f, []);
      assert Encode(f) + [] == Encode(f);
      assert Encode(f)[..k][..4] == Encode(f)[..4];
    }
  }

  /** A verdict never changes when more bytes arrive. */
  lemma DecodeIsStable(input: seq<Byte>, more: seq<Byte>, maxMessageBytes: nat)
    requires Decode(input, maxMessageBytes) != NeedMore
    ensures Decode(input + more, maxMessageBytes) == Decode(input, maxMessageBytes)
  {
    assert (input + more)[..4] == input[..4];
    var len := Value(input[..4]);
    if 1 <= len <= maxMessageBytes {
      assert (input + more)[4..4 + len] == input[4..4 + len];
    }
  }

  // ------------------------------------------------------------------
  // Relaying: decode, then encode again
  // ------------------------------------------------------------------

  lemma FieldInt(s: seq<Byte>, n: nat)
    requires TakeInt(s, n).Some?
    ensures s == BigEndian(TakeInt(s, n).value.0, n) + TakeInt(s, n).value.1
  {
    BigEndianOfValue(Take(s, n).value.0);
  }

  lemma FieldStr(s: seq<Byte>)
    requires TakeStr(s).Some?
    ensures |TakeStr(s).value.0| <= MAX_STRING
    ensures s == PutStr(TakeStr(s).value.0) + TakeStr(s).value.1
  {
    assert s == [s[0]] + s[1..];
  }

  lemma {:induction false} FieldIds(s: seq<Byte>, count: nat)
    requires TakeIds(s, count).Some?
    ensures s == PutIds(TakeIds(s, count).value.0) + TakeIds(s, count).value.1
    decreases count
  {
    if count > 0 {
      var (first, rest) := Take(s, 16).value;
      FieldIds(rest, count - 1);
      var ids := TakeIds(s, count).value.0;
      assert ids[1..] == TakeIds(rest, count - 1).value.0;
    }
  }

  lemma PrefixAfter(a: seq<Byte>, b: seq<Byte>, s: seq<Byte>)
    requires b <= s
    ensures a + b <= a + s
  {
    assert a + s == (a + b) + s[|b|..];
  }

  predicate IsGossip(f: Frame) {
    f.Data? || f.Membership? || f.IdentityRecord?
  }

  lemma DataFields(s: seq<Byte>)
    requires ParseData(s).Some?
    ensures Body(ParseData(s).value) <= [4] + s
  {
    var (src, s1) := Take(s, 16).value;
    var (dst, s2) := Take(s1, 16).value;
    var (msgId, s3) := Take(s2, 16).value;
    var (ttl, s4) := TakeU8(s3).value;
    var (plen, s5) := TakeInt(s4, 4).value;
    var (payload, s6) := Take(s5, plen).value;
    var t5 := BigEndian(plen, 4) + payload;
    FieldInt(s4, 4);
    PrefixAfter(BigEndian(plen, 4), payload, s5);
    PrefixAfter([ttl], t5, s4);
    PrefixAfter(msgId, [ttl] + t5, s3);
    PrefixAfter(dst, msgId + ([ttl] + t5), s2);
    PrefixAfter(src, dst + (msgId + ([ttl] + t5)), s1);
    PrefixAfter([4], src + (dst + (msgId + ([ttl] + t5))), s);
  }

  lemma MembershipFields(s: seq<Byte>)
    requires ParseMembership(s).Some?
    ensures |ParseMembership(s).value.neighbors| <= MAX_NEIGHBORS
    ensures Body(ParseMembership(s).value) <= [6] + s
  {
    var (origin, s1) := Take(s, 16).value;
    var (version, s2) := TakeInt(s1, 8).value;
    var (count, s3) := TakeInt(s2, 2).value;
    var (ids, s4) := TakeIds(s3, count).value;
    FieldInt(s1, 8);
    FieldInt(s2, 2);
    FieldIds(s3, count);
    var t3 := BigEndian(count, 2) + PutIds(ids);
    PrefixAfter(BigEndian(count, 2), PutIds(ids), s3);
    PrefixAfter(BigEndian(version, 8), t3, s2);
    PrefixAfter(origin, BigEndian(version, 8) + t3, s1);
    PrefixAfter([6], origin + (BigEndian(version, 8) + t3), s);
  }

  lemma IdentityFields(s: seq<Byte>)
    requires ParseIdentity(s).Some?
    ensures |ParseIdentity(s).value.name| <= MAX_STRING
    ensures Body(ParseIdentity(s).value) <= [8] + s
  {
    var (pk, s1) := Take(s, 32).value;
    var (version, s2) := TakeInt(s1, 8).value;
    var (sig, s3) := Take(s2, 64).value;
    var (name, s4) := TakeStr(s3).value;
    FieldInt(s1, 8);
    FieldStr(s3);
    PrefixAfter(sig, PutStr(name), s3);
    PrefixAfter(BigEndian(version, 8), sig + PutStr(name), s2);
    PrefixAfter(pk, BigEndian(version, 8) + (sig + PutStr(name)), s1);
    PrefixAfter([8], pk + (BigEndian(version, 8) + (sig + PutStr(name))), s);
  }

  /** Re-encoding an accepted gossip frame reproduces the bytes it was parsed
      from, minus any bytes after its last field; nothing is truncated. */
  lemma ReencodedBodyIsPrefix(body: seq<Byte>)
    requires ParseBody(body).Some? && IsGossip(ParseBody(body).value)
    ensures Body(ParseBody(body).value) <= body
    ensures Canonical(ParseBody(body).value) == ParseBody(body).value
  {
    assert body == [body[0]] + body[1..];
    if body[0] == 4 {
      DataFields(body[1..]);
    } else if body[0] == 6 {
      MembershipFields(body[1..]);
    } else if body[0] == 8 {
      IdentityFields(body[1..]);
    }
  }

  /** The frame a relay sends on for an accepted gossip frame: a Data frame loses
      one hop of its ttl, the others go on unchanged. */
  function Relayed(f: Frame): Frame
    requires IsGossip(f) && (f.Data? ==> f.ttl > 1)
  {
    if f.Data? then f.(ttl := f.ttl - 1) else f
  }

  const RECORD_MIN: nat := 16
  const RECORD_SLACK: nat := 64
  const AEAD_TAG: nat := 16

  /** The window `drain_records` allows for the length of an encrypted record. */
  predicate RecordLengthOk(clen: nat, maxMessageBytes: nat) {
    RECORD_MIN <= clen <= maxMessageBytes + RECORD_SLACK
  }

  /** Whatever gossip frame a node accepts, the frame it relays is no longer, the
      next hop with the same limit decodes it (followed by anything) to the relayed
      content, and the record sealing it passes the next hop's length window. */
  lemma RelayIsAcceptable(input: seq<Byte>, maxMessageBytes: nat, rest: seq<Byte>)
    requires Decode(input, maxMessageBytes).Ok?
    requires IsGossip(Decode(input, maxMessageBytes).frame)
    requires var f := Decode(input, maxMessageBytes).frame; f.Data? ==> f.ttl > 1
    ensures var d := Decode(input, maxMessageBytes);
            var sent := Encode(Relayed(d.frame));
            && |sent| <= d.consumed
            && Decode(sent + rest, maxMessageBytes) == Ok(Relayed(d.frame), |sent|)
            && RecordLengthOk(|sent| + AEAD_TAG, maxMessageBytes)
  {
    var d := Decode(input, maxMessageBytes);
    var len := Value(input[..4]);
    var body := input[4..4 + len];
    ReencodedBodyIsPrefix(body);
    var g := Relayed(d.frame);
    assert |Body(g)| == |Body(d.frame)| <= |body|;
    assert Canonical(g) == g;
    RoundTrip(g, maxMessageBytes, rest);
  }

  // ------------------------------------------------------------------
  // Discovery datagrams
  // ------------------------------------------------------------------

  const ANNOUNCE_MAGIC: nat := 0x4D4D4341

  datatype Announce = Announce(protocolVersion: Byte, flags: Byte, tcpListenPort: U16, nodeId: Id, groupName: seq<Byte>)

  function PutAnnounce(a: Announce): seq<Byte> {
    BigEndian(ANNOUNCE_MAGIC, 4) + ([a.protocolVersion] + ([a.flags] + (BigEndian(a.tcpListenPort, 2)
    + (a.nodeId + PutStr(a.groupName)))))
  }

  function ParseAnnounce(s: seq<Byte>): Option<Announce> {
    var (magic, s1) :- TakeInt(s, 4);
    if magic != ANNOUNCE_MAGIC then None else
    var (version, s2) :- TakeU8(s1);
    var (flags, s3) :- TakeU8(s2);
    var (port, s4) :- TakeInt(s3, 2);
    var (nodeId, s5) :- Take(s4, 16);
    var (group, s6) :- TakeStr(s5);
    Some(Announce(version, flags, port, nodeId, group))
  }

  lemma AnnounceRoundTrip(a: Announce)
    ensures ParseAnnounce(PutAnnounce(a)) == Some(a.(groupName := Cut(a.groupName, MAX_STRING)))
  {
    var s5 := PutStr(a.groupName);
    var s4 := a.nodeId + s5;
    var s3 := BigEndian(a.tcpListenPort, 2) + s4;
    var s2 := [a.flags] + s3;
    var s1 := [a.protocolVersion] + s2;
    TakeIntBack(ANNOUNCE_MAGIC, 4, s1);
    TakeU8Back(a.protocolVersion, s2);
    TakeU8Back(a.flags, s3);
    TakeIntBack(a.tcpListenPort, 2, s4);
    TakeBack(a.nodeId, s5);
    TakeStrBack(a.groupName, []);
    assert s5 + [] == s5;
  }
}
