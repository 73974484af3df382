/** The byte buffer of a connection: a vector with a consumed prefix that is dropped
    lazily. It is a queue, and moving bytes costs no more than consuming them. */
module Buffer {
  import opened Bytes

  const COMPACT_AT: nat := 4096

  function Larger(a: nat, b: nat): nat {
    if a < b then b else a
  }

  /** Is the live part moved to the front, with the head at this place? */
  predicate Compacts(head: nat, size: nat) {
    head != size && head > COMPACT_AT && head * 2 > size
  }

  class Buffer {
    var data: seq<Byte>
    var head: nat
    ghost var spare: nat      // reserved at the tail and not yet committed
    ghost var consumed: nat   // bytes consumed so far
    ghost var moved: nat      // bytes moved by compaction so far

    /** The dead prefix is at most 4096 bytes or as long as the live part; every byte of
        it, and every byte ever moved, is paid for by a byte consumed. */
    ghost predicate Valid()
      reads this
    {
      && head + spare <= |data|
      && head <= Larger(COMPACT_AT, |data| - head - spare)
      && moved + head <= consumed
    }

    /** The readable bytes. */
    function Contents(): seq<Byte>
      requires head <= |data|
      reads this
    {
      data[head..]
    }

    constructor ()
      ensures Valid() && Contents() == [] && spare == 0 && consumed == 0 && moved == 0
    {
      data, head, spare, consumed, moved := [], 0, 0, 0, 0;
    }

    function Size(): (n: nat)
      requires head <= |data|
      reads this
      ensures n == |Contents()|
    {
      |data| - head
    }

    method Append(bytes: seq<Byte>)
      requires Valid() && spare == 0
      modifies `data
      ensures Valid() && Contents() == old(Contents()) + bytes
    {
      data := data + bytes;
    }

    /** Returns where the reserved tail begins. */
    method ReserveTail(n: nat) returns (end: nat)
      requires Valid() && spare == 0
      modifies `data, `spare
      ensures end == |old(data)|
      ensures Valid() && spare == n && |data| == |old(data)| + n && data[..|old(data)|] == old(data)
    {
      end := |data|;
      data := data + Zeros(n);
      spare := n;
    }

    /** recv writes into the reserved tail. */
    method Fill(end: nat, bytes: seq<Byte>)
      requires Valid() && |bytes| <= spare && end == |data| - spare
      modifies `data, `spare
      ensures Valid() && spare == old(spare) - |bytes| && |data| == |old(data)|
      ensures data[..|data| - spare] == old(data[..|data| - spare]) + bytes
    {
      data := data[..end] + bytes + data[end + |bytes|..];
      spare := spare - |bytes|;
    }

    method Uncommit(unused: nat)
      requires Valid() && unused == spare
      modifies `data, `spare
      ensures Valid() && spare == 0 && data == old(data[..|data| - unused])
    {
      data := data[..|data| - unused];
      spare := 0;
    }

    /** One read of do_read: reserve, receive, give back what was not filled. */
    method Receive(bytes: seq<Byte>, reserve: nat)
      requires Valid() && spare == 0 && |bytes| <= reserve
      modifies `data, `spare
      ensures Valid() && spare == 0 && Contents() == old(Contents()) + bytes
    {
      ghost var before := data;
      var end := ReserveTail(reserve);
      Fill(end, bytes);
      Uncommit(reserve - |bytes|);
      assert data == before + bytes;
    }

    method Consume(n: nat)
      requires Valid() && spare == 0 && n <= |data| - head
      modifies `data, `head, `consumed, `moved
      ensures Valid() && Contents() == old(Contents())[n..]
      ensures consumed == old(consumed) + n
      ensures if Compacts(old(head) + n, |old(data)|)
              then head == 0 && moved == old(moved) + |Contents()| else moved == old(moved)
      ensures head == if old(head) + n == |old(data)| || Compacts(old(head) + n, |old(data)|) then 0 else old(head) + n
    {
      head := head + n;
      consumed := consumed + n;
      if head == |data| {
        data := [];
        head := 0;
      } else if head > COMPACT_AT && head * 2 > |data| {
        moved := moved + (|data| - head);
        data := data[head..];
        head := 0;
      }
    }
  }

  // ------------------------------------------------------------------
  // Any use of a buffer
  // ------------------------------------------------------------------

  datatype Op = Add(bytes: seq<Byte>) | Get(bytes: seq<Byte>, reserve: nat) | Drop(n: nat)

  /** The same on a plain queue; what a caller may not ask for is passed over. */
  function Apply(q: seq<Byte>, op: Op): seq<Byte> {
    match op
    case Add(bytes) => q + bytes
    case Get(bytes, reserve) => if |bytes| <= reserve then q + bytes else q
    case Drop(n) => if n <= |q| then q[n..] else q
  }

  /** The bytes that an operation takes off the queue. */
  function Taken(q: seq<Byte>, op: Op): nat {
    if op.Drop? && op.n <= |q| then op.n else 0
  }

  function TakenByAll(q: seq<Byte>, ops: seq<Op>): nat
    decreases |ops|
  {
    if ops == [] then 0 else Taken(q, ops[0]) + TakenByAll(Apply(q, ops[0]), ops[1..])
  }

  function ApplyAll(q: seq<Byte>, ops: seq<Op>): seq<Byte>
    decreases |ops|
  {
    if ops == [] then q else ApplyAll(Apply(q, ops[0]), ops[1..])
  }

  lemma {:induction false} ApplyOneMore(q: seq<Byte>, ops: seq<Op>, op: Op)
    ensures ApplyAll(q, ops + [op]) == Apply(ApplyAll(q, ops), op)
    ensures TakenByAll(q, ops + [op]) == TakenByAll(q, ops) + Taken(ApplyAll(q, ops), op)
    decreases |ops|
  {
    if ops == [] {
      assert (ops + [op])[1..] == [];
    } else {
      assert (ops + [op])[1..] == ops[1..] + [op];
      ApplyOneMore(Apply(q, ops[0]), ops[1..], op);
    }
  }

  /** Every sequence of operations: the contents are the queue's, compaction has moved no
      more bytes than were taken off the queue, and the dead prefix is bounded. */
  method Use(ops: seq<Op>) returns (b: Buffer)
    ensures b.Valid() && b.spare == 0 && b.Contents() == ApplyAll([], ops)
    ensures b.consumed == TakenByAll([], ops) && b.moved <= TakenByAll([], ops) && b.head <= Larger(COMPACT_AT, b.Size())
  {
    b := new Buffer();
    for i := 0 to |ops|
      invariant b.Valid() && b.spare == 0 && b.Contents() == ApplyAll([], ops[..i])
      invariant b.consumed == TakenByAll([], ops[..i])
    {
      ApplyOneMore([], ops[..i], ops[i]);
      assert ops[..i] + [ops[i]] == ops[..i + 1];
      match ops[i]
      case Add(bytes) => b.Append(bytes);
      case Get(bytes, reserve) => if |bytes| <= reserve { b.Receive(bytes, reserve); }
      case Drop(n) => if n <= b.Size() { b.Consume(n); }
    }
    assert ops[..|ops|] == ops;
  }
}
