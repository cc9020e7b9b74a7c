/** Two threads of one node sending at the same time, access by access, as `can_stop` and the main thread
    may: the ring is made for one producer.  With both threads taken through `pdes_comm_send` in any
    interleaving, exactly one message is lost if and only if both have read the same write index. */
module TwoSenders {
  import opened Ring

  /** Where a sender stands: before it has read the write index, with its index read, with its slot filled
      and done. */
  datatype Phase = Before | Claimed | Filled | Sent

  /** `next` is where the sender will leave the write index. */
  datatype Sender<T> = Sender(m: T, phase: Phase, next: nat)

  datatype Race<T> = Race(slots: seq<T>, r: nat, w: nat, a: Sender<T>, b: Sender<T>)

  predicate InBounds<T>(s: Race<T>) {
    s.r < |s.slots| && s.w < |s.slots|
      && (s.a.phase.Filled? ==> s.a.next < |s.slots|) && (s.b.phase.Filled? ==> s.b.next < |s.slots|)
  }

  function BothAtOnce<T>(slots: seq<T>, r: nat, w: nat, x: T, y: T): Race<T> {
    Race(slots, r, w, Sender(x, Before, 0), Sender(y, Before, 0))
  }

  function Swapped<T>(s: Race<T>): Race<T> {
    s.(a := s.b, b := s.a)
  }

  /** The next access of the first sender; it reads the write index twice, for the index to come and for
      the slot to fill. */
  function FirstMoves<T>(s: Race<T>): Race<T>
    requires InBounds(s)
  {
    match s.a.phase
    case Before =>
      var next := NextIdx(s.w, |s.slots|);
      if next == s.r then s else s.(a := s.a.(phase := Claimed, next := next))
    case Claimed => s.(slots := s.slots[s.w := s.a.m], a := s.a.(phase := Filled))
    case Filled => s.(w := s.a.next, a := s.a.(phase := Sent))
    case Sent => s
  }

  function Moved<T>(s: Race<T>, first: bool): Race<T>
    requires InBounds(s)
  {
    if first then FirstMoves(s) else Swapped(FirstMoves(Swapped(s)))
  }

  function Played<T>(s: Race<T>, turns: seq<bool>): Race<T>
    decreases |turns|
  {
    if turns == [] || !InBounds(s) then s else Played(Moved(s, turns[0]), turns[1..])
  }

  /** A sender gets past its space check exactly if the ring is not full; otherwise it spins. */
  lemma SpinsExactly<T>(s: Race<T>)
    requires InBounds(s) && s.a.phase == Before
    ensures if |Window(s.slots, s.r, s.w)| == |s.slots| - 1 then FirstMoves(s) == s
            else FirstMoves(s).a.phase == Claimed && FirstMoves(s) == s.(a := FirstMoves(s).a)
  {
    WindowEmpty(s.slots, s.r, s.w);
  }

  // ----- The invariant

  /** Nothing is published yet; at most one sender has started. */
  predicate Early<T(==)>(s: Race<T>, w: nat, one: Sender<T>, other: Sender<T>)
    requires w < |s.slots|
  {
    && s.w == w && other.phase == Before && one.phase != Sent
    && (one.phase != Before ==> one.next == NextIdx(w, |s.slots|))
    && (one.phase == Filled ==> s.slots[w] == one.m)
  }

  /** One sender is done and the other starts from where it left the write index. */
  predicate InOrder<T(==)>(s: Race<T>, w: nat, one: Sender<T>, other: Sender<T>)
    requires w < |s.slots|
  {
    var n1 := NextIdx(w, |s.slots|);
    && one.phase == Sent && one.next == n1 && s.slots[w] == one.m
    && s.w == (if other.phase == Sent then NextIdx(n1, |s.slots|) else n1)
    && (other.phase != Before ==> other.next == NextIdx(n1, |s.slots|))
    && (other.phase in {Filled, Sent} ==> s.slots[n1] == other.m)
  }

  /** Both have read the same write index. */
  predicate Together<T(==)>(s: Race<T>, w: nat)
    requires w < |s.slots|
  {
    && s.a.phase != Before && s.b.phase != Before
    && s.a.next == s.b.next == NextIdx(w, |s.slots|)
    && s.w == (if s.a.phase == Sent || s.b.phase == Sent then NextIdx(w, |s.slots|) else w)
    && (s.a.phase in {Filled, Sent} || s.b.phase in {Filled, Sent} ==> s.slots[w] in {s.a.m, s.b.m})
  }

  ghost predicate RaceFits<T>(s: Race<T>, w: nat, was: seq<T>) {
    && s.r < |s.slots| && w < |s.slots|
    && NextIdx(w, |s.slots|) != s.r && NextIdx(NextIdx(w, |s.slots|), |s.slots|) != s.r
    && Window(s.slots, s.r, w) == was
    && (|| Early(s, w, s.a, s.b) || Early(s, w, s.b, s.a)
        || InOrder(s, w, s.a, s.b) || InOrder(s, w, s.b, s.a)
        || Together(s, w))
  }

  lemma FitsBounds<T>(s: Race<T>, w: nat, was: seq<T>)
    requires RaceFits(s, w, was)
    ensures InBounds(s)
  {
    hide Window;
  }

  /** Neither of the two slots behind the old messages is one of theirs. */
  lemma WriteLeaves<T>(slots: seq<T>, r: nat, w: nat, m: T)
    requires r < |slots| && w < |slots| && NextIdx(w, |slots|) != r
    ensures Window(slots[w := m], r, w) == Window(slots, r, w)
    ensures Window(slots[NextIdx(w, |slots|) := m], r, w) == Window(slots, r, w)
  {
  }

  lemma FirstKeeps<T>(s: Race<T>, w: nat, was: seq<T>)
    requires RaceFits(s, w, was) && InBounds(s)
    ensures RaceFits(FirstMoves(s), w, was)
  {
    hide Window;
    if s.a.phase == Claimed { WriteLeaves(s.slots, s.r, w, s.a.m); }
  }

  lemma SwappedFits<T>(s: Race<T>, w: nat, was: seq<T>)
    requires RaceFits(s, w, was)
    ensures RaceFits(Swapped(s), w, was)
  {
    hide Window;
  }

  lemma {:induction false} PlayedFits<T>(s: Race<T>, turns: seq<bool>, w: nat, was: seq<T>)
    requires RaceFits(s, w, was)
    ensures RaceFits(Played(s, turns), w, was) && |Played(s, turns).slots| == |s.slots| && Played(s, turns).r == s.r
    ensures Played(s, turns).a.m == s.a.m && Played(s, turns).b.m == s.b.m
    decreases |turns|
  {
    hide RaceFits, FirstMoves;
    if turns != [] {
      FitsBounds(s, w, was);
      if turns[0] {
        FirstKeeps(s, w, was);
        FirstTouches(s);
      } else {
        SwappedFits(s, w, was);
        FitsBounds(Swapped(s), w, was);
        FirstKeeps(Swapped(s), w, was);
        FirstTouches(Swapped(s));
        SwappedFits(FirstMoves(Swapped(s)), w, was);
      }
      PlayedFits(Moved(s, turns[0]), turns[1..], w, was);
    }
  }

  lemma FirstTouches<T>(s: Race<T>)
    requires InBounds(s)
    ensures var t := FirstMoves(s); |t.slots| == |s.slots| && t.r == s.r && t.a.m == s.a.m && t.b == s.b
  {
  }

  /** Two sends into a ring with room for both and nobody reading, in any interleaving of their accesses:
      both messages stand in the ring behind the old ones if the senders have read different write indices,
      and only one of them if they have read the same. */
  lemma LostExactly<T>(slots: seq<T>, r: nat, w: nat, x: T, y: T, turns: seq<bool>)
    requires r < |slots| && w < |slots| && |Window(slots, r, w)| + 3 <= |slots|
    requires var e := Played(BothAtOnce(slots, r, w, x, y), turns); e.a.phase == Sent && e.b.phase == Sent
    ensures var was, e := Window(slots, r, w), Played(BothAtOnce(slots, r, w, x, y), turns);
            && InBounds(e) && e.r == r
            && (e.a.next != e.b.next <==> Window(e.slots, e.r, e.w) in {was + [x, y], was + [y, x]})
            && (e.a.next == e.b.next <==> Window(e.slots, e.r, e.w) in {was + [x], was + [y]})
  {
    hide Played;
    var was, s := Window(slots, r, w), BothAtOnce(slots, r, w, x, y);
    RoomForTwo(slots, r, w);
    PlayedFits(s, turns, w, was);
    var e := Played(s, turns);
    FitsBounds(e, w, was);
    EndIs(e, w, was);
    if e.a.next == e.b.next {
      assert |Window(e.slots, e.r, e.w)| == |was| + 1;
    } else {
      assert |Window(e.slots, e.r, e.w)| == |was| + 2;
    }
  }

  lemma RoomForTwo<T>(slots: seq<T>, r: nat, w: nat)
    requires r < |slots| && w < |slots| && |Window(slots, r, w)| + 3 <= |slots|
    ensures NextIdx(w, |slots|) != r && NextIdx(NextIdx(w, |slots|), |slots|) != r
  {
  }

  lemma EndIs<T>(e: Race<T>, w: nat, was: seq<T>)
    requires RaceFits(e, w, was) && InBounds(e) && e.a.phase == Sent && e.b.phase == Sent
    ensures e.a.next != e.b.next ==> Window(e.slots, e.r, e.w) in {was + [e.a.m, e.b.m], was + [e.b.m, e.a.m]}
    ensures e.a.next == e.b.next ==> Window(e.slots, e.r, e.w) in {was + [e.a.m], was + [e.b.m]}
  {
    hide Window;
    var n1 := NextIdx(w, |e.slots|);
    WindowPublish(e.slots, e.r, w);
    WindowPublish(e.slots, e.r, n1);
    assert was + [e.slots[w]] + [e.slots[n1]] == was + [e.slots[w], e.slots[n1]];
  }

  /** And it does happen: both read the index, one fills the slot, the other overwrites it. */
  lemma OneIsLost()
    ensures var e := Played(BothAtOnce([0, 0, 0, 0], 0, 0, 7, 8), [true, false, true, false, true, false]);
            e.a.phase == Sent && e.b.phase == Sent && e.a.next == e.b.next && Window(e.slots, e.r, e.w) == [8]
  {
    var s0 := BothAtOnce([0, 0, 0, 0], 0, 0, 7, 8);
    var s1 := Moved(s0, true);
    var s2 := Moved(s1, false);
    var s3 := Moved(s2, true);
    var s4 := Moved(s3, false);
    var s5 := Moved(s4, true);
    var s6 := Moved(s5, false);
    assert s6 == Race([8, 0, 0, 0], 0, 1, Sender(7, Sent, 1), Sender(8, Sent, 1));
    PlayedOn(s0, true, [false, true, false, true, false]);
    PlayedOn(s1, false, [true, false, true, false]);
    PlayedOn(s2, true, [false, true, false]);
    PlayedOn(s3, false, [true, false]);
    PlayedOn(s4, true, [false]);
    PlayedOn(s5, false, []);
    assert [true, false, true, false, true, false] == [true] + [false, true, false, true, false];
  }

  lemma PlayedOn<T>(s: Race<T>, first: bool, turns: seq<bool>)
    requires InBounds(s)
    ensures Played(s, [first] + turns) == Played(Moved(s, first), turns)
  {
    assert ([first] + turns)[1..] == turns;
  }
}
