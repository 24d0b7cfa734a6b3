/** The bounded message queue between API callers and the audio task: a ring addressed by
    the index of its oldest message and its length (Audio.c). */
module MessageQueue {
  import opened Arithmetic
  import opened Common

  /** Slot of the i-th pending message. */
  function Slot(top: nat, i: nat, n: nat): (k: nat)
    requires top < n && i <= n
    ensures k < n
  {
    (top + i) % n
  }

  lemma WrappedSlot(top: nat, i: nat, n: nat)
    requires top < n && i <= n
    ensures Slot(top, i, n) == if top + i < n then top + i else top + i - n
  {
    var x := top + i;
    if n <= x {
      ModWraps(x, n);
    }
  }

  class MsgQueue<T(0)> {
    const ring: array<T>
    var top: nat
    var len: nat

    ghost predicate Valid()
      reads this
    {
      top < ring.Length && len <= ring.Length
    }

    /** The pending messages, oldest first. */
    ghost function Pending(): (s: seq<T>)
      requires Valid()
      reads this, ring
    {
      seq(len, i requires 0 <= i < len && Valid() reads this, ring => ring[Slot(top, i, ring.Length)])
    }

    constructor (capacity: nat, initialTop: nat)
      requires initialTop < capacity
      ensures Valid() && Pending() == [] && ring.Length == capacity && fresh(ring)
    {
      ring := new T[capacity];
      top, len := initialTop, 0;
    }

    /** InitMessaging: forgets everything and starts at the first slot. */
    method Reset()
      requires ring.Length > 0
      modifies this
      ensures Valid() && Pending() == [] && top == 0
    {
      len := 0;
      top := 0;
    }

    /** Audio_end only empties the queue; the oldest slot stays where it was. */
    method Discard()
      requires Valid()
      modifies this`len
      ensures Valid() && Pending() == []
    {
      len := 0;
    }

    method Get() returns (m: Option<T>)
      requires Valid()
      modifies this
      ensures Valid()
      ensures if old(Pending()) == [] then m == None && Pending() == []
              else m == Some(old(Pending())[0]) && Pending() == old(Pending())[1..]
    {
      if len < 1 {
        return None;
      }
      m := Some(ring[top]);
      SlotsAfterGet();
      top := (top + 1) % ring.Length;
      if len > 0 {
        len := len - 1;
      }
    }

    /** Accepts a message exactly when there is room, and otherwise changes nothing. No
        pending message is overwritten: they all stay, in order, before the new one. */
    method Send(m: T) returns (accepted: bool)
      requires Valid()
      modifies this, ring
      ensures Valid()
      ensures accepted <==> |old(Pending())| < ring.Length
      ensures Pending() == if accepted then old(Pending()) + [m] else old(Pending())
      ensures !accepted ==> ring[..] == old(ring[..]) && top == old(top)
    {
      if len < ring.Length {
        SlotsDiffer();
        var writeIndex := (top + len) % ring.Length;
        ring[writeIndex] := m;
        len := len + 1;
        accepted := true;
      } else {
        accepted := false;
      }
    }

    lemma SlotsAfterGet()
      requires Valid() && len >= 1
      ensures Slot(top, 0, ring.Length) == top
      ensures var t := (top + 1) % ring.Length;
              && t < ring.Length
              && (forall i | 0 <= i < len - 1 :: Slot(t, i, ring.Length) == Slot(top, i + 1, ring.Length))
    {
      var n := ring.Length;
      WrappedSlot(top, 0, n);
      WrappedSlot(top, 1, n);
      var t := (top + 1) % n;
      forall i | 0 <= i < len - 1 ensures Slot(t, i, n) == Slot(top, i + 1, n) {
        WrappedSlot(t, i, n);
        WrappedSlot(top, i + 1, n);
      }
    }

    /** The slot written next is none of the pending ones. */
    lemma SlotsDiffer()
      requires Valid() && len < ring.Length
      ensures forall i | 0 <= i < len :: Slot(top, i, ring.Length) != Slot(top, len, ring.Length)
    {
      var n := ring.Length;
      WrappedSlot(top, len, n);
      forall i | 0 <= i < len ensures Slot(top, i, n) != Slot(top, len, n) {
        WrappedSlot(top, i, n);
      }
    }
  }

  // ---- Whole runs of sends and gets ----

  datatype Op<T> = SendOp(m: T) | GetOp

  /** History of a bounded FIFO: what it accepted and gave out, what is pending, and how
      many sends it refused. */
  datatype Fifo<T> = Fifo(accepted: seq<T>, taken: seq<T>, pending: seq<T>, refused: nat)

  function FifoStep<T>(n: nat, f: Fifo<T>, op: Op<T>): Fifo<T> {
    match op
    case SendOp(m) =>
      if |f.pending| < n then f.(accepted := f.accepted + [m], pending := f.pending + [m])
      else f.(refused := f.refused + 1)
    case GetOp =>
      if f.pending == [] then f
      else f.(taken := f.taken + [f.pending[0]], pending := f.pending[1..])
  }

  function FifoRun<T>(n: nat, ops: seq<Op<T>>): Fifo<T> {
    if ops == [] then Fifo([], [], [], 0) else FifoStep(n, FifoRun(n, ops[..|ops| - 1]), ops[|ops| - 1])
  }

  /** In every interleaving, what was accepted is what was taken followed by what is
      pending, and never more than the capacity is pending. */
  lemma {:induction false} FifoConserves<T>(n: nat, ops: seq<Op<T>>)
    ensures var f := FifoRun(n, ops); f.accepted == f.taken + f.pending && |f.pending| <= n
  {
    if ops == [] {
    } else {
      FifoConserves(n, ops[..|ops| - 1]);
    }
  }

  /** Nothing is lost but the refused sends. */
  lemma {:induction false} FifoCountsSends<T>(n: nat, ops: seq<Op<T>>)
    ensures var f := FifoRun(n, ops); |f.accepted| + f.refused == Sends(ops)
  {
    if ops == [] {
    } else {
      FifoCountsSends(n, ops[..|ops| - 1]);
    }
  }

  function Sends<T>(ops: seq<Op<T>>): nat {
    if ops == [] then 0
    else Sends(ops[..|ops| - 1]) + if ops[|ops| - 1].SendOp? then 1 else 0
  }

  /** The ring refines the bounded FIFO: driving it with any operations from any starting
      slot gives the FIFO's results. */
  method Drive<T(0)>(capacity: nat, initialTop: nat, ops: seq<Op<T>>)
    returns (accepted: seq<T>, taken: seq<T>, refused: nat, pendingLength: nat)
    requires initialTop < capacity
    ensures var f := FifoRun(capacity, ops);
            accepted == f.accepted && taken == f.taken && refused == f.refused && pendingLength == |f.pending|
  {
    var q := new MsgQueue<T>(capacity, initialTop);
    accepted, taken, refused := [], [], 0;
    for k := 0 to |ops|
      invariant fresh(q) && fresh(q.ring) && q.Valid() && q.ring.Length == capacity
      invariant FifoRun(capacity, ops[..k]) == Fifo(accepted, taken, q.Pending(), refused)
    {
      assert ops[..k + 1][..k] == ops[..k];
      match ops[k]
      case SendOp(m) =>
        var ok := q.Send(m);
        if ok { accepted := accepted + [m]; } else { refused := refused + 1; }
      case GetOp =>
        var m := q.Get();
        if m.Some? { taken := taken + [m.value]; }
    }
    assert ops[..|ops|] == ops;
    pendingLength := q.len;
  }
}
