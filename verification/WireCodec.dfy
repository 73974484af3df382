/** The mutating codec of src/wire.cpp: encoders that push into a byte vector and
    patch its length in place, a cursor whose `bad` flag is sticky, and the frame
    decoder built on it. Each is proved to compute the function of `Wire`. */
module WireCodec {
  import opened Bytes
  import opened Options
  import opened Wire

  // ------------------------------------------------------------------
  // Encoding
  // ------------------------------------------------------------------

  class Writer {
    var b: seq<Byte>

    constructor ()
      ensures b == []
    {
      b := [];
    }

    method PutU8(v: Byte)
      modifies this
      ensures b == old(b) + [v]
    {
      b := b + [v];
    }

    /** put_u16, put_u32 and put_u64: the bytes of v from the top one down. */
    method PutInt(v: nat, n: nat)
      modifies this
      ensures b == old(b) + BigEndian(v, n)
    {
      var i := n;
      var rest := v;
      var tail: seq<Byte> := [];
      while i > 0
        invariant 0 <= i <= n
        invariant b == old(b)
        invariant BigEndian(v, n) == BigEndian(rest, i) + tail
        decreases i
      {
        tail := [rest % 256] + tail;
        rest := rest / 256;
        i := i - 1;
      }
      b := b + tail;
    }

    method PutBytes(p: seq<Byte>)
      modifies this
      ensures b == old(b) + p
    {
      b := b + p;
    }

    method PutStr(s: seq<Byte>)
      modifies this
      ensures b == old(b) + Wire.PutStr(s)
    {
      var n := if |s| > MAX_STRING then MAX_STRING else |s|;
      PutU8(n);
      b := b + s[..n];
      assert s[..n] == Cut(s, MAX_STRING);
    }

    /** Overwrite the length placeholder at offset 0. */
    method PatchLength()
      requires |b| >= 4
      modifies this
      ensures b == BigEndian(|old(b)| - 4, 4) + old(b)[4..]
    {
      var len := |b| - 4;
      var be := BigEndian(len, 4);
      b := b[0 := be[0]];
      b := b[1 := be[1]];
      b := b[2 := be[2]];
      b := b[3 := be[3]];
    }

    /** The placeholder and the frame type. */
    method Begin(kind: Byte)
      modifies this
      requires b == []
      ensures |b| == 5 && b == b[..4] + [kind]
    {
      PutInt(0, 4);
      PutU8(kind);
    }
  }

  lemma Assoc(a: seq<Byte>, b: seq<Byte>, c: seq<Byte>)
    ensures (a + b) + c == a + (b + c)
  {
  }

  /** The pushes of an encoder, regrouped as its body is written in `Wire`. */
  lemma Regroup4(z: seq<Byte>, a: seq<Byte>, b: seq<Byte>, c: seq<Byte>, d: seq<Byte>)
    ensures (((z + a) + b) + c) + d == z + (a + (b + (c + d)))
  {
    Assoc((z + a) + b, c, d);
    Assoc(z + a, b, c + d);
    Assoc(z, a, b + (c + d));
  }

  lemma Regroup6(z: seq<Byte>, a: seq<Byte>, b: seq<Byte>, c: seq<Byte>, d: seq<Byte>, e: seq<Byte>, f: seq<Byte>)
    ensures (((((z + a) + b) + c) + d) + e) + f == z + (a + (b + (c + (d + (e + f)))))
  {
    Assoc((((z + a) + b) + c) + d, e, f);
    Assoc(((z + a) + b) + c, d, e + f);
    Regroup4(z, a, b, c, d + (e + f));
  }

  lemma Regroup8(z: seq<Byte>, a: seq<Byte>, b: seq<Byte>, c: seq<Byte>, d: seq<Byte>, e: seq<Byte>, f: seq<Byte>,
                 g: seq<Byte>, h: seq<Byte>)
    ensures (((((((z + a) + b) + c) + d) + e) + f) + g) + h == z + (a + (b + (c + (d + (e + (f + (g + h)))))))
  {
    Assoc((((((z + a) + b) + c) + d) + e) + f, g, h);
    Assoc(((((z + a) + b) + c) + d) + e, f, g + h);
    Regroup6(z, a, b, c, d, e, f + (g + h));
  }

  lemma Patched(z: seq<Byte>, body: seq<Byte>, b: seq<Byte>)
    requires |z| == 4 && b == z + body
    ensures |b| >= 4 && BigEndian(|b| - 4, 4) + b[4..] == BigEndian(|body|, 4) + body
  {
    assert b[4..] == body;
  }

  // What has been pushed when the length is patched in, frame by frame.

  lemma HelloPushed(z: seq<Byte>, ack: bool, h: Hello)
    ensures ((((((((z + [if ack then 2 else 1]) + h.nodeId) + [h.protocolVersion]) + BigEndian(h.tcpListenPort, 2))
              + PutStr(h.groupName)) + BigEndian(h.nonce, 8)) + PutOptional(h.ephPubKey)) + PutCredential(h.identity))
         == z + Body(HelloFrame(ack, h))
  {
    Regroup8(z, [if ack then 2 else 1], h.nodeId, [h.protocolVersion], BigEndian(h.tcpListenPort, 2),
      PutStr(h.groupName), BigEndian(h.nonce, 8), PutOptional(h.ephPubKey), PutCredential(h.identity));
  }

  lemma AuthConfirmPushed(z: seq<Byte>, tag: Key, sig: Option<Signature>)
    ensures ((z + [7]) + tag) + PutOptional(sig) == z + Body(AuthConfirm(tag, sig))
  {
    Assoc(z + [7], tag, PutOptional(sig));
    Assoc(z, [7], tag + PutOptional(sig));
  }

  lemma DataPushed(z: seq<Byte>, src: Id, dst: Id, msgId: Id, ttl: Byte, payload: seq<Byte>)
    ensures ((((((z + [4]) + src) + dst) + msgId) + [ttl]) + BigEndian(|payload|, 4)) + payload
         == z + Body(Data(src, dst, msgId, ttl, payload))
  {
    Assoc(z + [4], src, dst);
    Regroup6(z, [4], src + dst, msgId, [ttl], BigEndian(|payload|, 4), payload);
    Assoc(src, dst, msgId + ([ttl] + (BigEndian(|payload|, 4) + payload)));
  }

  lemma MembershipPushed(z: seq<Byte>, origin: Id, version: U64, neighbors: seq<Id>, ns: seq<Id>)
    requires ns == Cut(neighbors, MAX_NEIGHBORS)
    ensures ((((z + [6]) + origin) + BigEndian(version, 8)) + BigEndian(|ns|, 2)) + PutIds(ns)
         == z + Body(Membership(origin, version, neighbors))
  {
    Assoc(((z + [6]) + origin) + BigEndian(version, 8), BigEndian(|ns|, 2), PutIds(ns));
    Regroup4(z, [6], origin, BigEndian(version, 8), BigEndian(|ns|, 2) + PutIds(ns));
  }

  lemma IdentityPushed(z: seq<Byte>, pk: Key, version: U64, sig: Signature, name: seq<Byte>)
    ensures ((((z + [8]) + pk) + BigEndian(version, 8)) + sig) + PutStr(name)
         == z + Body(IdentityRecord(pk, version, sig, name))
  {
    Assoc(((z + [8]) + pk) + BigEndian(version, 8), sig, PutStr(name));
    Regroup4(z, [8], pk, BigEndian(version, 8), sig + PutStr(name));
  }

  method PutOptionalBytes(w: Writer, o: Option<seq<Byte>>)
    modifies w
    ensures w.b == old(w.b) + PutOptional(o)
  {
    w.PutU8(if o.Some? then 1 else 0);
    if o.Some? {
      w.PutBytes(o.value);
      Assoc(old(w.b), [1], o.value);
    }
  }

  method PutIdentity(w: Writer, o: Option<Credential>)
    modifies w
    ensures w.b == old(w.b) + PutCredential(o)
  {
    w.PutU8(if o.Some? then 1 else 0);
    if o.Some? {
      w.PutBytes(o.value.idPubKey);
      w.PutStr(o.value.nodeName);
      Assoc(old(w.b) + [1], o.value.idPubKey, Wire.PutStr(o.value.nodeName));
      Assoc(old(w.b), [1], o.value.idPubKey + Wire.PutStr(o.value.nodeName));
    }
  }

  method EncodeHello(ack: bool, h: Hello) returns (r: seq<Byte>)
    ensures r == Encode(HelloFrame(ack, h))
  {
    var w := new Writer();
    w.Begin(if ack then 2 else 1);
    ghost var z := w.b[..4];
    w.PutBytes(h.nodeId);
    w.PutU8(h.protocolVersion);
    w.PutInt(h.tcpListenPort, 2);
    w.PutStr(h.groupName);
    w.PutInt(h.nonce, 8);
    PutOptionalBytes(w, h.ephPubKey);
    PutIdentity(w, h.identity);
    HelloPushed(z, ack, h);
    Patched(z, Body(HelloFrame(ack, h)), w.b);
    w.PatchLength();
    r := w.b;
  }

  method EncodeAuthConfirm(tag: Key, sig: Option<Signature>) returns (r: seq<Byte>)
    ensures r == Encode(AuthConfirm(tag, sig))
  {
    var w := new Writer();
    w.Begin(7);
    ghost var z := w.b[..4];
    w.PutBytes(tag);
    PutOptionalBytes(w, sig);
    AuthConfirmPushed(z, tag, sig);
    Patched(z, Body(AuthConfirm(tag, sig)), w.b);
    w.PatchLength();
    r := w.b;
  }

  /** encode_heartbeat (3) and encode_goodbye (5). */
  method EncodeEmpty(bye: bool) returns (r: seq<Byte>)
    ensures r == Encode(if bye then Goodbye else Heartbeat)
  {
    var w := new Writer();
    w.Begin(if bye then 5 else 3);
    ghost var z := w.b[..4];
    Patched(z, Body(if bye then Goodbye else Heartbeat), w.b);
    w.PatchLength();
    r := w.b;
  }

  method EncodeData(src: Id, dst: Id, msgId: Id, ttl: Byte, payload: seq<Byte>) returns (r: seq<Byte>)
    ensures r == Encode(Data(src, dst, msgId, ttl, payload))
  {
    var w := new Writer();
    w.Begin(4);
    ghost var z := w.b[..4];
    w.PutBytes(src);
    w.PutBytes(dst);
    w.PutBytes(msgId);
    w.PutU8(ttl);
    w.PutInt(|payload|, 4);
    w.PutBytes(payload);
    DataPushed(z, src, dst, msgId, ttl, payload);
    Patched(z, Body(Data(src, dst, msgId, ttl, payload)), w.b);
    w.PatchLength();
    r := w.b;
  }

  lemma {:induction false} PutIdsAppend(ids: seq<Id>, id: Id)
    ensures PutIds(ids + [id]) == PutIds(ids) + id
  {
    if ids == [] {
      assert [id][1..] == [];
    } else {
      assert (ids + [id])[1..] == ids[1..] + [id];
      PutIdsAppend(ids[1..], id);
    }
  }

  method PushIds(w: Writer, ids: seq<Id>)
    modifies w
    ensures w.b == old(w.b) + PutIds(ids)
  {
    for i := 0 to |ids|
      invariant w.b == old(w.b) + PutIds(ids[..i])
    {
      w.PutBytes(ids[i]);
      assert ids[..i + 1] == ids[..i] + [ids[i]];
      PutIdsAppend(ids[..i], ids[i]);
    }
    assert ids[..|ids|] == ids;
  }

  method EncodeMembership(origin: Id, version: U64, neighbors: seq<Id>) returns (r: seq<Byte>)
    ensures r == Encode(Membership(origin, version, neighbors))
  {
    var w := new Writer();
    var n := if |neighbors| > MAX_NEIGHBORS then MAX_NEIGHBORS else |neighbors|;
    w.Begin(6);
    ghost var z := w.b[..4];
    w.PutBytes(origin);
    w.PutInt(version, 8);
    w.PutInt(n, 2);
    var ns := neighbors[..n];
    PushIds(w, ns);
    MembershipPushed(z, origin, version, neighbors, ns);
    Patched(z, Body(Membership(origin, version, neighbors)), w.b);
    w.PatchLength();
    r := w.b;
  }

  method EncodeIdentity(pk: Key, version: U64, sig: Signature, name: seq<Byte>) returns (r: seq<Byte>)
    ensures r == Encode(IdentityRecord(pk, version, sig, name))
  {
    var w := new Writer();
    w.Begin(8);
    ghost var z := w.b[..4];
    w.PutBytes(pk);
    w.PutInt(version, 8);
    w.PutBytes(sig);
    w.PutStr(name);
    IdentityPushed(z, pk, version, sig, name);
    Patched(z, Body(IdentityRecord(pk, version, sig, name)), w.b);
    w.PatchLength();
    r := w.b;
  }

  // ------------------------------------------------------------------
  // Decoding
  // ------------------------------------------------------------------

  /** `p` and `remaining` are `rest`. After an overrun the fields read are
      meaningless, later reads may still move the cursor, and `bad` stays set. */
  class Reader {
    var rest: seq<Byte>
    var bad: bool

    constructor (s: seq<Byte>)
      ensures rest == s && !bad
    {
      rest := s;
      bad := false;
    }

    method U8() returns (v: Byte)
      modifies this
      ensures bad <==> old(bad) || TakeU8(old(rest)).None?
      ensures !bad ==> (v, rest) == TakeU8(old(rest)).value
      ensures rest == if old(rest) == [] then [] else old(rest)[1..]
    {
      if |rest| < 1 {
        bad := true;
        return 0;
      }
      v := rest[0];
      rest := rest[1..];
    }

    /** u16, u32 and u64: shift in n bytes, one overrun spoiling the whole. */
    method Int(n: nat) returns (v: nat)
      modifies this
      ensures bad <==> old(bad) || TakeInt(old(rest), n).None?
      ensures !bad ==> (v, rest) == TakeInt(old(rest), n).value
    {
      v := 0;
      for i := 0 to n
        invariant bad <==> old(bad) || |old(rest)| < i
        invariant rest == if |old(rest)| < i then [] else old(rest)[i..]
        invariant !bad ==> v == Value(old(rest)[..i])
      {
        var x := U8();
        if !bad {
          assert old(rest)[..i + 1] == old(rest)[..i] + [x];
          assert old(rest)[..i + 1][..i] == old(rest)[..i];
        }
        v := v * 256 + x;
      }
    }

    method TakeBytes(n: nat) returns (s: seq<Byte>)
      modifies this
      ensures bad <==> old(bad) || Take(old(rest), n).None?
      ensures !bad ==> (s, rest) == Take(old(rest), n).value
      ensures !bad ==> |s| == n
    {
      if |rest| < n {
        bad := true;
        return [];
      }
      s := rest[..n];
      rest := rest[n..];
    }

    /** id and msg_id leave their argument zero when they overrun. */
    method Id() returns (id: Wire.Id)
      modifies this
      ensures bad <==> old(bad) || Take(old(rest), 16).None?
      ensures !bad ==> (id, rest) == Take(old(rest), 16).value
    {
      if |rest| < 16 {
        bad := true;
        return Zeros(16);
      }
      id := rest[..16];
      rest := rest[16..];
    }

    method Str() returns (s: seq<Byte>)
      modifies this
      ensures bad <==> old(bad) || TakeStr(old(rest)).None?
      ensures !bad ==> (s, rest) == TakeStr(old(rest)).value
    {
      var n := U8();
      if bad || |rest| < n {
        bad := true;
        return [];
      }
      s := rest[..n];
      rest := rest[n..];
    }
  }

  /** The flag `secure` and, if set, the ephemeral key. */
  method DecodeEphemeral(r: Reader) returns (eph: Option<Key>)
    modifies r
    ensures r.bad <==> old(r.bad) || TakeOptional(old(r.rest), 32).None?
    ensures !r.bad ==> (eph, r.rest) == TakeOptional(old(r.rest), 32).value
  {
    eph := None;
    var secure := r.U8();
    if secure != 0 {
      var pk := r.TakeBytes(32);
      if !r.bad { eph := Some(pk); }
    }
  }

  /** The flag `hasIdentity` and, if set, the identity key and the name. */
  method DecodeCredential(r: Reader) returns (identity: Option<Credential>)
    modifies r
    ensures r.bad <==> old(r.bad) || TakeCredential(old(r.rest)).None?
    ensures !r.bad ==> (identity, r.rest) == TakeCredential(old(r.rest)).value
  {
    identity := None;
    var hasIdentity := r.U8();
    if hasIdentity != 0 {
      var pk := r.TakeBytes(32);
      var name := r.Str();
      if !r.bad { identity := Some(Credential(pk, name)); }
    }
  }

  /** The fields of a Hello up to the nonce. */
  method DecodeGreeting(r: Reader) returns (h: Hello)
    requires !r.bad
    modifies r
    ensures r.bad <==> TakeGreeting(old(r.rest)).None?
    ensures !r.bad ==> (h, r.rest) == TakeGreeting(old(r.rest)).value
  {
    var nodeId := r.Id();
    var version := r.U8();
    var port := r.Int(2);
    var group := r.Str();
    var nonce := r.Int(8);
    h := if r.bad then Hello(Zeros(16), 0, 0, [], 0, None, None)
         else Hello(nodeId, version, port, group, nonce, None, None);
  }

  method DecodeHello(r: Reader, ack: bool) returns (f: Frame)
    requires !r.bad
    modifies r
    ensures r.bad <==> ParseHello(ack, old(r.rest)).None?
    ensures !r.bad ==> Some(f) == ParseHello(ack, old(r.rest))
  {
    var h := DecodeGreeting(r);
    var eph := DecodeEphemeral(r);
    var identity := DecodeCredential(r);
    f := Heartbeat;
    if !r.bad { f := HelloFrame(ack, h.(ephPubKey := eph, identity := identity)); }
  }

  method DecodeAuthConfirm(r: Reader) returns (f: Frame)
    requires !r.bad
    modifies r
    ensures r.bad <==> ParseAuthConfirm(old(r.rest)).None?
    ensures !r.bad ==> Some(f) == ParseAuthConfirm(old(r.rest))
  {
    var tag := r.TakeBytes(32);
    var hasSig := r.U8();
    var sig: Option<Signature> := None;
    if hasSig != 0 {
      var s := r.TakeBytes(64);
      if !r.bad { sig := Some(s); }
    }
    f := Heartbeat;
    if !r.bad { f := AuthConfirm(tag, sig); }
  }

  method DecodeData(r: Reader) returns (f: Frame)
    requires !r.bad
    modifies r
    ensures r.bad <==> ParseData(old(r.rest)).None?
    ensures !r.bad ==> Some(f) == ParseData(old(r.rest))
  {
    var src := r.Id();
    var dst := r.Id();
    var msgId := r.Id();
    var ttl := r.U8();
    var plen := r.Int(4);
    var payload := r.TakeBytes(plen);
    f := Data(src, dst, msgId, ttl, payload);
  }

  /** Reading the neighbor list one id at a time while the cursor is good. */
  lemma {:induction false} TakeIdsStep(s: seq<Byte>, i: nat, n: nat)
    requires i < n
    requires TakeIds(s, i).Some?
    ensures var (ids, rest) := TakeIds(s, i).value;
            && (Take(rest, 16).None? ==> TakeIds(s, n).None?)
            && (Take(rest, 16).Some? ==>
                  TakeIds(s, i + 1) == Some((ids + [Take(rest, 16).value.0], Take(rest, 16).value.1)))
    decreases i
  {
    if i > 0 {
      var (first, tail) := Take(s, 16).value;
      TakeIdsStep(tail, i - 1, n - 1);
      var (ids, rest) := TakeIds(tail, i - 1).value;
      if Take(rest, 16).Some? {
        assert [first] + (ids + [Take(rest, 16).value.0]) == ([first] + ids) + [Take(rest, 16).value.0];
      }
    } else if Take(s, 16).Some? {
      var (first, tail) := Take(s, 16).value;
      assert TakeIds(tail, 0) == Some(([], tail));
      assert [first] + [] == [] + [first];
    }
  }

  method DecodeMembership(r: Reader) returns (f: Frame)
    requires !r.bad
    modifies r
    ensures r.bad <==> ParseMembership(old(r.rest)).None?
    ensures !r.bad ==> Some(f) == ParseMembership(old(r.rest))
  {
    var origin := r.Id();
    var version := r.Int(8);
    var count := r.Int(2);
    var ids: seq<Wire.Id> := [];
    ghost var s := r.rest;
    ghost var good := !r.bad;
    var i := 0;
    while i < count && !r.bad
      invariant 0 <= i && (good ==> i <= count)
      invariant !good ==> r.bad
      invariant !r.bad ==> TakeIds(s, i) == Some((ids, r.rest))
      invariant good && r.bad ==> TakeIds(s, count).None?
    {
      if good && !r.bad { TakeIdsStep(s, i, count); }
      var id := r.Id();
      ids := ids + [id];
      i := i + 1;
    }
    f := Heartbeat;
    if !r.bad { f := Membership(origin, version, ids); }
  }

  method DecodeIdentity(r: Reader) returns (f: Frame)
    requires !r.bad
    modifies r
    ensures r.bad <==> ParseIdentity(old(r.rest)).None?
    ensures !r.bad ==> Some(f) == ParseIdentity(old(r.rest))
  {
    var pk := r.TakeBytes(32);
    var version := r.Int(8);
    var sig := r.TakeBytes(64);
    var name := r.Str();
    f := Heartbeat;
    if !r.bad { f := IdentityRecord(pk, version, sig, name); }
  }

  method TryDecodeFrame(input: seq<Byte>, maxMessageBytes: nat) returns (d: Decoded)
    ensures d == Decode(input, maxMessageBytes)
  {
    if |input| < 4 { return NeedMore; }
    var prefix := new Reader(input[..4]);
    var len := prefix.Int(4);
    assert input[..4][..4] == input[..4];
    if len < 1 { return Error; }
    if len > maxMessageBytes { return Error; }
    if |input| < 4 + len { return NeedMore; }
    var r := new Reader(input[4..4 + len]);
    var kind := r.U8();
    var f := Heartbeat;
    match kind {
      case 1 => f := DecodeHello(r, false);
      case 2 => f := DecodeHello(r, true);
      case 3 =>
      case 4 => f := DecodeData(r);
      case 5 => f := Goodbye;
      case 6 => f := DecodeMembership(r);
      case 7 => f := DecodeAuthConfirm(r);
      case 8 => f := DecodeIdentity(r);
      case _ => return Error;
    }
    if r.bad { return Error; }
    d := Ok(f, 4 + len);
  }

  method DecodeAnnounce(input: seq<Byte>) returns (a: Option<Announce>)
    ensures a == ParseAnnounce(input)
  {
    var r := new Reader(input);
    var magic := r.Int(4);
    if r.bad || magic != ANNOUNCE_MAGIC { return None; }
    var version := r.U8();
    var flags := r.U8();
    var port := r.Int(2);
    var nodeId := r.Id();
    var group := r.Str();
    if r.bad { return None; }
    a := Some(Announce(version, flags, port, nodeId, group));
  }
}
