/** The shared-memory ring (net/pdes-communicator.c): the circular array as a class, and its use by one
    producer and one consumer thread, step by step, as a refinement of a bounded FIFO. */
module Ring {
  import opened Messages

  // ----- The occupied part of a circular array

  function NextIdx(i: nat, n: nat): (k: nat)
    requires i < n
    ensures k == if i + 1 == n then 0 else i + 1
  {
    NextIdxIs(i, n);
    (i + 1) % n
  }

  lemma NextIdxIs(i: nat, n: nat)
    requires i < n
    ensures (i + 1) % n == if i + 1 == n then 0 else i + 1
  {
  }

  /** The slots from the read index up to the write index, going round. */
  function Window<T>(slots: seq<T>, r: nat, w: nat): seq<T>
    requires r < |slots| && w < |slots|
  {
    if r <= w then slots[r..w] else slots[r..] + slots[..w]
  }

  lemma WindowEmpty<T>(slots: seq<T>, r: nat, w: nat)
    requires r < |slots| && w < |slots|
    ensures Window(slots, r, w) == [] <==> r == w
    ensures |Window(slots, r, w)| <= |slots| - 1
    ensures |Window(slots, r, w)| == |slots| - 1 <==> NextIdx(w, |slots|) == r
  {
  }

  /** The slot at the write index is not occupied. */
  lemma WindowWrite<T>(slots: seq<T>, r: nat, w: nat, m: T)
    requires r < |slots| && w < |slots|
    ensures Window(slots[w := m], r, w) == Window(slots, r, w)
  {
  }

  lemma WindowPublish<T>(slots: seq<T>, r: nat, w: nat)
    requires r < |slots| && w < |slots| && NextIdx(w, |slots|) != r
    ensures Window(slots, r, NextIdx(w, |slots|)) == Window(slots, r, w) + [slots[w]]
  {
  }

  lemma WindowAdvance<T>(slots: seq<T>, r: nat, w: nat)
    requires r < |slots| && w < |slots| && r != w
    ensures Window(slots, r, w)[0] == slots[r]
    ensures Window(slots, NextIdx(r, |slots|), w) == Window(slots, r, w)[1..]
  {
  }

  // ----- The ring as an object

  class ShmRing<T(0)> {
    const messages: array<T>
    var writeIdx: nat
    var readIdx: nat
    ghost var sent: seq<T>
    ghost var taken: nat

    ghost predicate Valid()
      reads this, messages
    {
      && 2 <= messages.Length
      && writeIdx < messages.Length && readIdx < messages.Length
      && taken <= |sent|
      && Window(messages[..], readIdx, writeIdx) == sent[taken..]
    }

    constructor (size: nat)
      requires 2 <= size
      ensures Valid() && messages.Length == size && fresh(messages)
      ensures sent == [] && taken == 0
    {
      messages := new T[size];
      writeIdx, readIdx := 0, 0;
      sent, taken := [], 0;
    }

    /** `pdes_comm_send` with nobody reading meanwhile: it waits for ever exactly on a full ring, and
        otherwise appends the message. */
    method Send(m: T) returns (blocked: bool)
      requires Valid()
      modifies this`writeIdx, this`sent, messages
      ensures Valid() && taken == old(taken)
      ensures blocked <==> |old(sent)| - taken == messages.Length - 1
      ensures sent == if blocked then old(sent) else old(sent) + [m]
    {
      WindowEmpty(messages[..], readIdx, writeIdx);
      var nextWrite := NextIdx(writeIdx, messages.Length);
      if nextWrite == readIdx {
        return true;
      }
      WindowWrite(messages[..], readIdx, writeIdx, m);
      WindowPublish(messages[..][writeIdx := m], readIdx, writeIdx);
      messages[writeIdx] := m;
      writeIdx := nextWrite;
      sent := sent + [m];
      blocked := false;
    }

    /** `pdes_comm_recv`: the oldest message not taken yet, or none. */
    method Recv() returns (m: Option<T>)
      requires Valid()
      modifies this`readIdx, this`taken
      ensures Valid() && sent == old(sent)
      ensures old(taken) == |sent| ==> m == None && taken == old(taken)
      ensures old(taken) < |sent| ==> m == Some(sent[old(taken)]) && taken == old(taken) + 1
    {
      WindowEmpty(messages[..], readIdx, writeIdx);
      if readIdx == writeIdx {
        return None;
      }
      WindowAdvance(messages[..], readIdx, writeIdx);
      m := Some(messages[readIdx]);
      readIdx := NextIdx(readIdx, messages.Length);
      taken := taken + 1;
    }
  }

  // ----- One producer and one consumer, access by access

  datatype Producer<T> =
    | Calm
    | Checking(m: T)    // about to compare the next write index with the read index
    | Writing(m: T)     // space was seen; about to fill the slot
    | Publishing(m: T)  // the slot is filled; about to move the write index

  datatype Consumer<T> =
    | Watching
    | Copying           // a message was seen; about to copy it
    | Moving(m: T)      // the message is copied; about to move the read index

  /** `sent` are the published messages, `got` those handed to the receiver. */
  datatype Spsc<T> =
    Spsc(slots: seq<T>, w: nat, r: nat, prod: Producer<T>, cons: Consumer<T>, sent: seq<T>, got: seq<T>)

  datatype Access<T> = Begin(m: T) | CheckSpace | WriteSlot | Publish | Look | CopySlot | MoveRead

  predicate Possible<T>(s: Spsc<T>, a: Access<T>) {
    match a
    case Begin(_) => s.prod.Calm?
    case CheckSpace => s.prod.Checking?
    case WriteSlot => s.prod.Writing?
    case Publish => s.prod.Publishing?
    case Look => s.cons.Watching?
    case CopySlot => s.cons.Copying?
    case MoveRead => s.cons.Moving?
  }

  predicate InRange<T>(s: Spsc<T>) {
    2 <= |s.slots| && s.w < |s.slots| && s.r < |s.slots|
  }

  function After<T>(s: Spsc<T>, a: Access<T>): Spsc<T>
    requires InRange(s) && Possible(s, a)
  {
    match a
    case Begin(m) => s.(prod := Checking(m))
    case CheckSpace => if NextIdx(s.w, |s.slots|) == s.r then s else s.(prod := Writing(s.prod.m))
    case WriteSlot => s.(slots := s.slots[s.w := s.prod.m], prod := Publishing(s.prod.m))
    case Publish => s.(w := NextIdx(s.w, |s.slots|), prod := Calm, sent := s.sent + [s.prod.m])
    case Look => if s.r == s.w then s else s.(cons := Copying)
    case CopySlot => s.(cons := Moving(s.slots[s.r]))
    case MoveRead => s.(r := NextIdx(s.r, |s.slots|), cons := Watching, got := s.got + [s.cons.m])
  }

  predicate Consistent<T(==)>(s: Spsc<T>) {
    && InRange(s)
    && s.sent == s.got + Window(s.slots, s.r, s.w)
    && (s.prod.Writing? || s.prod.Publishing? ==> NextIdx(s.w, |s.slots|) != s.r)
    && (s.prod.Publishing? ==> s.slots[s.w] == s.prod.m)
    && (s.cons.Copying? || s.cons.Moving? ==> s.r != s.w)
    && (s.cons.Moving? ==> s.slots[s.r] == s.cons.m)
  }

  /** The bounded FIFO the ring stands for: what is published and not yet handed over. */
  function Queue<T>(s: Spsc<T>): seq<T>
    requires |s.got| <= |s.sent|
  {
    s.sent[|s.got|..]
  }

  /** What one access may do to the FIFO: nothing, append where there is room, or remove the front. */
  predicate FifoStep<T(==)>(a: Access<T>, capacity: nat, before: seq<T>, after: seq<T>, got: seq<T>, got': seq<T>) {
    match a
    case Publish => |before| < capacity && |after| == |before| + 1 && after[..|before|] == before && got' == got
    case MoveRead => before != [] && after == before[1..] && got' == got + [before[0]]
    case _ => after == before && got' == got
  }

  lemma QueueIsWindow<T>(s: Spsc<T>)
    requires Consistent(s)
    ensures |s.got| <= |s.sent| && Queue(s) == Window(s.slots, s.r, s.w) && |Queue(s)| <= |s.slots| - 1
  {
    WindowEmpty(s.slots, s.r, s.w);
  }

  lemma WriteRefines<T>(s: Spsc<T>)
    requires Consistent(s) && s.prod.Writing?
    ensures Consistent(After(s, WriteSlot)) && |After(s, WriteSlot).slots| == |s.slots|
  {
    hide Window;
    WindowWrite(s.slots, s.r, s.w, s.prod.m);
    if s.cons.Moving? { assert s.r != s.w; }
  }

  lemma PublishRefines<T>(s: Spsc<T>)
    requires Consistent(s) && s.prod.Publishing?
    ensures Consistent(After(s, Publish)) && |After(s, Publish).slots| == |s.slots|
    ensures |s.got| <= |s.sent| && |Queue(s)| < |s.slots| - 1 && Queue(After(s, Publish)) == Queue(s) + [s.prod.m]
  {
    hide Window;
    QueueIsWindow(s);
    WindowEmpty(s.slots, s.r, s.w);
    WindowPublish(s.slots, s.r, s.w);
    WindowEmpty(s.slots, s.r, NextIdx(s.w, |s.slots|));
  }

  lemma MoveRefines<T>(s: Spsc<T>)
    requires Consistent(s) && s.cons.Moving?
    ensures Consistent(After(s, MoveRead)) && |After(s, MoveRead).slots| == |s.slots|
    ensures |s.got| <= |s.sent| && Queue(s) != [] && s.cons.m == Queue(s)[0]
    ensures |After(s, MoveRead).got| <= |s.sent| && Queue(After(s, MoveRead)) == Queue(s)[1..]
  {
    hide Window;
    QueueIsWindow(s);
    WindowEmpty(s.slots, s.r, s.w);
    WindowAdvance(s.slots, s.r, s.w);
    WindowEmpty(s.slots, NextIdx(s.r, |s.slots|), s.w);
  }

  lemma QuietRefines<T>(s: Spsc<T>, a: Access<T>)
    requires Consistent(s) && Possible(s, a) && (a.Begin? || a.CheckSpace? || a.Look? || a.CopySlot?)
    ensures Consistent(After(s, a)) && |After(s, a).slots| == |s.slots|
    ensures After(s, a).got == s.got && After(s, a).sent == s.sent
  {
    hide Window;
  }

  /** Every access of either thread keeps the ring consistent and is a step of the bounded FIFO. */
  lemma AccessRefinesFifo<T>(s: Spsc<T>, a: Access<T>)
    requires Consistent(s) && Possible(s, a)
    ensures Consistent(After(s, a)) && |After(s, a).slots| == |s.slots|
    ensures |s.got| <= |s.sent| && |After(s, a).got| <= |After(s, a).sent|
    ensures |Queue(After(s, a))| <= |s.slots| - 1
    ensures FifoStep(a, |s.slots| - 1, Queue(s), Queue(After(s, a)), s.got, After(s, a).got)
    ensures a.Publish? ==> Queue(After(s, a)) == Queue(s) + [s.prod.m]
  {
    hide Window;
    match a {
      case WriteSlot => WriteRefines(s);
      case Publish => PublishRefines(s);
      case MoveRead => MoveRefines(s);
      case _ => QuietRefines(s, a);
    }
    QueueIsWindow(s);
    QueueIsWindow(After(s, a));
  }

  // ----- What the accesses get done

  /** The producer gets past its space check exactly when the FIFO has room; otherwise it spins. */
  lemma SpaceExactly<T>(s: Spsc<T>)
    requires Consistent(s) && s.prod.Checking?
    ensures |s.got| <= |s.sent|
    ensures After(s, CheckSpace)
         == if |Queue(s)| < |s.slots| - 1 then s.(prod := Writing(s.prod.m)) else s
  {
    hide Window;
    QueueIsWindow(s);
    WindowEmpty(s.slots, s.r, s.w);
  }

  /** The consumer sees a message exactly when the FIFO is not empty. */
  lemma SightExactly<T>(s: Spsc<T>)
    requires Consistent(s) && s.cons.Watching?
    ensures |s.got| <= |s.sent|
    ensures After(s, Look) == if Queue(s) != [] then s.(cons := Copying) else s
  {
    hide Window;
    QueueIsWindow(s);
    WindowEmpty(s.slots, s.r, s.w);
  }

  /** An access of the consumer. */
  predicate Reads<T>(a: Access<T>) {
    a.Look? || a.CopySlot? || a.MoveRead?
  }

  lemma ReadKeepsProducer<T>(s: Spsc<T>, a: Access<T>)
    requires Consistent(s) && Possible(s, a) && Reads(a)
    ensures Consistent(After(s, a)) && After(s, a).prod == s.prod && After(s, a).sent == s.sent
    ensures |s.got| <= |s.sent| && |After(s, a).got| <= |s.sent| && |After(s, a).slots| == |s.slots|
    ensures |Queue(After(s, a))| <= |Queue(s)|
  {
    AccessRefinesFifo(s, a);
  }

  /** Room once seen is never lost: whatever the consumer does meanwhile, a producer before its space check
      with room in the FIFO gets past it. */
  lemma {:induction false} RoomStays<T>(s: Spsc<T>, accesses: seq<Access<T>>)
    requires Consistent(s) && s.prod.Checking? && forall i :: 0 <= i < |accesses| ==> Reads(accesses[i])
    requires |s.got| <= |s.sent| && |Queue(s)| < |s.slots| - 1
    ensures var t := Run(s, accesses);
            Consistent(t) && t.prod == s.prod && After(t, CheckSpace) == t.(prod := Writing(s.prod.m))
    decreases |accesses|
  {
    if accesses == [] || !Possible(s, accesses[0]) {
      SpaceExactly(s);
    } else {
      hide Consistent, After;
      ReadKeepsProducer(s, accesses[0]);
      RoomStays(After(s, accesses[0]), accesses[1..]);
    }
  }

  /** With room in the FIFO a send goes through: its accesses append exactly the message. */
  lemma SendGoesThrough<T>(s: Spsc<T>, m: T)
    requires Consistent(s) && s.prod.Calm? && |s.got| <= |s.sent| && |Queue(s)| < |s.slots| - 1
    ensures var t := Run(s, [Begin(m), CheckSpace, WriteSlot, Publish]);
            && Consistent(t) && t.prod.Calm? && t.cons == s.cons && t.got == s.got
            && t.sent == s.sent + [m] && Queue(t) == Queue(s) + [m]
  {
    assert InRange(s);
    hide Consistent, Window;
    AccessRefinesFifo(s, Begin(m));
    var s1 := After(s, Begin(m));
    RunStep(s, Begin(m), [CheckSpace, WriteSlot, Publish]);
    SpaceExactly(s1);
    RunStep(s1, CheckSpace, [WriteSlot, Publish]);
    AccessRefinesFifo(s1, CheckSpace);
    var s2 := After(s1, CheckSpace);
    RunStep(s2, WriteSlot, [Publish]);
    AccessRefinesFifo(s2, WriteSlot);
    var s3 := After(s2, WriteSlot);
    RunStep(s3, Publish, []);
    AccessRefinesFifo(s3, Publish);
  }

  /** With a message in the FIFO a receive goes through: its accesses hand over exactly the front. */
  lemma ReceiveGoesThrough<T>(s: Spsc<T>)
    requires Consistent(s) && s.cons.Watching? && |s.got| <= |s.sent| && Queue(s) != []
    ensures var t := Run(s, [Look, CopySlot, MoveRead]);
            && Consistent(t) && t.cons.Watching? && t.prod == s.prod && t.sent == s.sent
            && t.got == s.got + [Queue(s)[0]] && |t.got| <= |t.sent| && Queue(t) == Queue(s)[1..]
  {
    hide Consistent, Window;
    SightExactly(s);
    RunStep(s, Look, [CopySlot, MoveRead]);
    AccessRefinesFifo(s, Look);
    var s1 := After(s, Look);
    RunStep(s1, CopySlot, [MoveRead]);
    AccessRefinesFifo(s1, CopySlot);
    var s2 := After(s1, CopySlot);
    RunStep(s2, MoveRead, []);
    AccessRefinesFifo(s2, MoveRead);
  }

  lemma RunStep<T>(s: Spsc<T>, a: Access<T>, more: seq<Access<T>>)
    requires Consistent(s) && Possible(s, a)
    ensures Run(s, [a] + more) == Run(After(s, a), more)
  {
    assert ([a] + more)[1..] == more;
  }

  // ----- Over every interleaving

  /** No slot is overwritten before it has been read: the producer writes outside the occupied slots. */
  lemma NoOverwriteBeforeRead<T>(s: Spsc<T>, k: nat)
    requires Consistent(s) && s.prod.Writing? && k < |Window(s.slots, s.r, s.w)|
    ensures (if s.r + k < |s.slots| then s.r + k else s.r + k - |s.slots|) != s.w
    ensures Window(s.slots, s.r, s.w)[k] == s.slots[if s.r + k < |s.slots| then s.r + k else s.r + k - |s.slots|]
  {
  }

  function Run<T>(s: Spsc<T>, accesses: seq<Access<T>>): Spsc<T>
    decreases |accesses|
  {
    if accesses == [] || !InRange(s) || !Possible(s, accesses[0]) then s
    else Run(After(s, accesses[0]), accesses[1..])
  }

  /** Over any interleaving of the two threads the receiver gets exactly what was sent, in order. */
  lemma {:induction false} RunDelivers<T>(s: Spsc<T>, accesses: seq<Access<T>>)
    requires Consistent(s)
    ensures Consistent(Run(s, accesses))
    ensures Run(s, accesses).got <= Run(s, accesses).sent
    ensures |Run(s, accesses).sent| - |Run(s, accesses).got| <= |s.slots| - 1
    decreases |accesses|
  {
    if accesses == [] || !Possible(s, accesses[0]) {
      WindowEmpty(s.slots, s.r, s.w);
    } else {
      AccessRefinesFifo(s, accesses[0]);
      RunDelivers(After(s, accesses[0]), accesses[1..]);
    }
  }
}
