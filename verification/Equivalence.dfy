/** Sequential equivalence: deterministic guests under the barrier, however the two nodes interleave,
    live through exactly the history of a one-clock simulation with a fixed packet latency. */
module Equivalence {
  import opened Messages
  import opened Machine
  import opened Barrier

  // ----- The reference: one clock for both nodes

  type Data = seq<Byte>

  /** A deterministic guest: the packets it sends in tick n are a function of the packets delivered
      to it in ticks 0..n. */
  type Program = seq<seq<Data>> -> seq<Data>

  datatype Programs = Programs(m: Program, f: Program)

  /** Tick by tick, the packets delivered to a node and the packets it sent. */
  datatype Hist = Hist(inputs: seq<seq<Data>>, outputs: seq<seq<Data>>)

  datatype World = World(m: Hist, f: Hist)

  /** What reaches a node in tick n: what its peer sent exactly q ticks earlier. */
  function Arriving(peer: Hist, q: nat, n: nat): seq<Data>
    requires 0 < q && n <= |peer.outputs|
  {
    if n < q then [] else peer.outputs[n - q]
  }

  function LiveTick(p: Program, h: Hist, arriving: seq<Data>): Hist {
    Hist(h.inputs + [arriving], h.outputs + [p(h.inputs + [arriving])])
  }

  /** Both nodes after n ticks of the single clock. */
  function OneClock(p: Programs, q: nat, n: nat): (w: World)
    requires 0 < q
    ensures |w.m.inputs| == |w.m.outputs| == |w.f.inputs| == |w.f.outputs| == n
  {
    if n == 0 then World(Hist([], []), Hist([], []))
    else
      var w := OneClock(p, q, n - 1);
      World(LiveTick(p.m, w.m, Arriving(w.f, q, n - 1)), LiveTick(p.f, w.f, Arriving(w.m, q, n - 1)))
  }

  function HistOf(w: World, who: Who): Hist {
    if who == Master then w.m else w.f
  }

  function ProgramOf(p: Programs, who: Who): Program {
    if who == Master then p.m else p.f
  }

  lemma OneClockStep(p: Programs, q: nat, n: nat, who: Who)
    requires 0 < q
    ensures HistOf(OneClock(p, q, n + 1), who)
         == LiveTick(ProgramOf(p, who), HistOf(OneClock(p, q, n), who),
                     Arriving(HistOf(OneClock(p, q, n), Other(who)), q, n))
  {
  }

  /** The reference only ever adds to its history. */
  lemma {:induction false} OneClockPrefix(p: Programs, q: nat, n: nat, k: nat, who: Who)
    requires 0 < q && n <= k
    ensures HistOf(OneClock(p, q, k), who).inputs[..n] == HistOf(OneClock(p, q, n), who).inputs
    ensures HistOf(OneClock(p, q, k), who).outputs[..n] == HistOf(OneClock(p, q, n), who).outputs
    decreases k - n
  {
    if n < k {
      OneClockPrefix(p, q, n, k - 1, who);
      OneClockStep(p, q, k - 1, who);
    }
  }

  // ----- A guest on a node of the machine

  /** `inputs` and `outputs` cover the finished ticks, and the current one once its packets are
      computed; `inbox` collects this tick's deliveries; `outbox` is what is still to be sent. */
  datatype Guest = Guest(hist: Hist, inbox: seq<Data>, computed: bool, outbox: seq<Data>)

  datatype GuestNode = GuestNode(side: Side, guest: Guest)

  datatype GuestAction =
    | Deliver              // a delivery timer of this tick fires
    | Compute              // the guest runs the tick
    | Emit                 // wwt_send of the next packet
    | Pass                 // the clock moves to the next tick
    | Protocol(a: Action)  // any step of the node itself

  /** Quanta are half open: tick k * q runs after barrier k. */
  predicate Running(b: Bar) {
    !b.finished && b.clock < b.deadline
  }

  function ActionOf(n: GuestNode, a: GuestAction): Option<Action> {
    match a
    case Deliver => Some(FireDelivery)
    case Compute => None
    case Emit => if n.guest.outbox == [] then None else Some(SendPacket(n.guest.outbox[0]))
    case Pass => Some(Run(1))
    case Protocol(act) => Some(act)
  }

  predicate GuestMay(n: GuestNode, a: GuestAction) {
    match a
    case Deliver => Running(n.side.bar) && !n.guest.computed
    case Compute =>
      Live(n.side) && Running(n.side.bar) && !n.guest.computed && NoneDueNow(n.side.bar)
    case Emit => n.guest.computed && n.guest.outbox != []
    case Pass => n.guest.computed && n.guest.outbox == []
    case Protocol(act) => !act.Run? && !act.FireDelivery? && !act.SendPacket?
  }

  predicate NodeEnabled(n: GuestNode, peerSent: Log, a: GuestAction) {
    && GuestMay(n, a)
    && (ActionOf(n, a).Some? ==> Enabled(n.side, peerSent, ActionOf(n, a).value))
  }

  function NextGuest(p: Program, n: GuestNode, a: GuestAction): Guest
    requires GuestMay(n, a)
    requires a.Deliver? ==> FirstDue(n.side.bar.deliveries, n.side.bar.clock) < |n.side.bar.deliveries|
  {
    var g := n.guest;
    match a
    case Deliver =>
      var d := n.side.bar.deliveries[FirstDue(n.side.bar.deliveries, n.side.bar.clock)];
      if d.data == [] then g else g.(inbox := g.inbox + [d.data])
    case Compute =>
      var h := LiveTick(p, g.hist, g.inbox);
      Guest(h, [], true, p(h.inputs))
    case Emit => g.(outbox := g.outbox[1..])
    case Pass => g.(computed := false)
    case Protocol(_) => g
  }

  function NextNode(q: nat, p: Program, n: GuestNode, peerSent: Log, a: GuestAction): GuestNode
    requires NodeEnabled(n, peerSent, a)
  {
    var side := if ActionOf(n, a).Some? then Next(q, n.side, peerSent, ActionOf(n, a).value) else n.side;
    GuestNode(side, NextGuest(p, n, a))
  }

  // ----- Packets by time

  /** The packets stamped t among the first n of a log, in order. */
  function AtTime(log: Log, n: nat, t: int): seq<Data>
    requires n <= |log|
  {
    if n == 0 then []
    else if log[n - 1].body.Packet? && log[n - 1].ts == t then AtTime(log, n - 1, t) + [log[n - 1].body.data]
    else AtTime(log, n - 1, t)
  }

  lemma {:induction false} AtTimeExtend(log: Log, more: Log, n: nat, t: int)
    requires n <= |log|
    ensures AtTime(log + more, n, t) == AtTime(log, n, t)
  {
    if n > 0 { AtTimeExtend(log, more, n - 1, t); }
  }

  /** Messages that are not packets stamped t do not matter for t. */
  lemma {:induction false} AtTimeSkip(log: Log, i: nat, n: nat, t: int)
    requires i <= n <= |log|
    requires forall j :: i <= j < n ==> !(log[j].body.Packet? && log[j].ts == t)
    ensures AtTime(log, n, t) == AtTime(log, i, t)
    decreases n - i
  {
    if i < n { AtTimeSkip(log, i, n - 1, t); }
  }

  /** The scheduled deliveries due at a local time, in arrival order. */
  function DueAt(ds: seq<Delivery>, at: int): seq<Data> {
    if ds == [] then []
    else (if ds[0].at == at then [ds[0].data] else []) + DueAt(ds[1..], at)
  }

  lemma {:induction false} DueAtAppend(ds: seq<Delivery>, d: Delivery, at: int)
    ensures DueAt(ds + [d], at) == DueAt(ds, at) + if d.at == at then [d.data] else []
  {
    if ds == [] {
      assert ds + [d] == [d];
    } else {
      assert (ds + [d])[1..] == ds[1..] + [d];
      DueAtAppend(ds[1..], d, at);
    }
  }

  lemma {:induction false} DueAtFire(ds: seq<Delivery>, now: int, at: int)
    requires FirstDue(ds, now) < |ds|
    ensures var i := FirstDue(ds, now);
            DueAt(ds, at) == (if at == now then [ds[i].data] else []) + DueAt(ds[..i] + ds[i + 1..], at)
  {
    var i := FirstDue(ds, now);
    if ds[0].at == now {
      assert ds[..i] + ds[i + 1..] == ds[1..];
    } else {
      DueAtFire(ds[1..], now, at);
      assert (ds[..i] + ds[i + 1..])[1..] == ds[1..][..i - 1] + ds[1..][i..];
    }
  }

  lemma {:induction false} DueAtNone(ds: seq<Delivery>, at: int)
    requires forall i :: 0 <= i < |ds| ==> ds[i].at != at
    ensures DueAt(ds, at) == []
  {
    if ds != [] { DueAtNone(ds[1..], at); }
  }

  // ----- The invariant

  /** What the guest has actually put on the wire of its tick t. */
  function Emitted(g: Guest, t: int): seq<Data> {
    if 0 <= t < |g.hist.outputs| then
      if g.computed && t == |g.hist.outputs| - 1 && |g.outbox| <= |g.hist.outputs[t]|
      then g.hist.outputs[t][..|g.hist.outputs[t]| - |g.outbox|]
      else g.hist.outputs[t]
    else []
  }

  /** What the guest still has to send of the current tick is the rest of its output. */
  predicate OutboxFits(g: Guest) {
    g.computed ==>
      && 0 < |g.hist.outputs|
      && var out := g.hist.outputs[|g.hist.outputs| - 1];
         |g.outbox| <= |out| && g.outbox == out[|out| - |g.outbox|..]
  }

  ghost predicate SentFits(q: nat, sent: Log, g: Guest) {
    forall t :: AtTime(sent, |sent|, t) == Emitted(g, t - q)
  }

  predicate Pending(b: Bar, g: Guest, t: int) {
    t > Universal(b) || (t == Universal(b) && !g.computed)
  }

  /** What the guest has been given of time t, and what is scheduled for it. */
  function Held(b: Bar, g: Guest, t: int): seq<Data> {
    (if t == Universal(b) then g.inbox else []) + DueAt(b.deliveries, t + b.firstSync)
  }

  /** What was received for a time still ahead is either delivered in this tick or scheduled. */
  ghost predicate ReceivedFits(log: Log, recv: nat, b: Bar, g: Guest)
    requires recv <= |log|
  {
    forall t :: Pending(b, g, t) ==> AtTime(log, recv, t) == Held(b, g, t)
  }

  /** No delivery is left for the present tick. */
  predicate NoneDueNow(b: Bar) {
    FirstDue(b.deliveries, b.clock) == |b.deliveries|
  }

  predicate TickFits(n: GuestNode) {
    && |n.guest.hist.inputs| == |n.guest.hist.outputs| == Universal(n.side.bar) + (if n.guest.computed then 1 else 0)
    && (n.guest.computed ==> n.guest.inbox == [] && NoneDueNow(n.side.bar))
    && (!Running(n.side.bar) ==> n.guest.inbox == [] && !n.guest.computed)
    && OutboxFits(n.guest)
  }

  ghost predicate Agrees(p: Programs, q: nat, g: Guest, who: Who)
    requires 0 < q
  {
    g.hist == HistOf(OneClock(p, q, |g.hist.inputs|), who)
  }

  ghost predicate NodeInv(p: Programs, q: nat, n: GuestNode, peer: GuestNode, who: Who)
    requires 0 < q
  {
    && Half(q, n.side, peer.side)
    && TickFits(n)
    && SentFits(q, n.side.sent, n.guest)
    && ReceivedFits(peer.side.sent, n.side.recv, n.side.bar, n.guest)
    && Agrees(p, q, n.guest, who)
  }

  // ----- The heart: a running guest has all its packets of the tick, and no others

  lemma RunningBounds(q: nat, me: Side, peer: Side)
    requires Half(q, me, peer) && Half(q, peer, me) && Running(me.bar)
    ensures Universal(me.bar) < RoundEnd(q, SyncsSeen(me, peer))
    ensures Universal(me.bar) < Universal(peer.bar) + q
  {
    RoundEndMono(q, me.bar.round, SyncsSeen(me, peer));
    CountMono(peer.sent, me.recv, |peer.sent|, KSync);
    if me.bar.round <= peer.bar.round {
      RoundEndMono(q, me.bar.round, peer.bar.round);
    } else {
      assert peer.bar.checkArmed;
      assert RoundEnd(q, peer.bar.round + 1) == RoundEnd(q, peer.bar.round) + q;
    }
  }

  /** Nothing for the current tick is still on its way. */
  lemma NothingUnderWay(q: nat, me: Side, peer: Side)
    requires Half(q, me, peer) && Half(q, peer, me) && Running(me.bar)
    ensures AtTime(peer.sent, |peer.sent|, Universal(me.bar)) == AtTime(peer.sent, me.recv, Universal(me.bar))
  {
    RunningBounds(q, me, peer);
    forall j | me.recv <= j < |peer.sent|
      ensures !(peer.sent[j].body.Packet? && peer.sent[j].ts == Universal(me.bar))
    {
      assert WellSent(q, peer.sent, j);
      CountMono(peer.sent, me.recv, j, KSync);
      RoundEndMono(q, SyncsSeen(me, peer), Count(peer.sent, j, KSync));
    }
    AtTimeSkip(peer.sent, me.recv, |peer.sent|, Universal(me.bar));
  }

  /** Before the tick is run, the inbox is all the peer ever emitted for it. */
  lemma InboxIsEmitted(q: nat, n: GuestNode, peer: GuestNode)
    requires Half(q, n.side, peer.side) && Half(q, peer.side, n.side)
    requires SentFits(q, peer.side.sent, peer.guest) && ReceivedFits(peer.side.sent, n.side.recv, n.side.bar, n.guest)
    requires NodeEnabled(n, peer.side.sent, Compute)
    ensures n.guest.inbox == Emitted(peer.guest, Universal(n.side.bar) - q)
  {
    DueAtNone(n.side.bar.deliveries, n.side.bar.clock);
    assert Pending(n.side.bar, n.guest, Universal(n.side.bar));
    NothingUnderWay(q, n.side, peer.side);
  }

  /** A tick the peer has completed is in the reference, and completely on the wire. */
  lemma EmittedIsReference(p: Programs, q: nat, g: Guest, who: Who, t: nat, n: nat)
    requires 0 < q && Agrees(p, q, g, who) && t < n
    requires t < |g.hist.outputs| && (g.computed ==> t < |g.hist.outputs| - 1)
    ensures Emitted(g, t) == HistOf(OneClock(p, q, n), who).outputs[t]
  {
    OneClockPrefix(p, q, t + 1, n, who);
    OneClockPrefix(p, q, t + 1, |g.hist.inputs|, who);
    assert HistOf(OneClock(p, q, n), who).outputs[..t + 1][t]
        == HistOf(OneClock(p, q, |g.hist.inputs|), who).outputs[..t + 1][t];
  }

  lemma InboxIsArriving(p: Programs, q: nat, n: GuestNode, peer: GuestNode, who: Who)
    requires 0 < q && Half(q, n.side, peer.side) && Half(q, peer.side, n.side) && TickFits(n) && TickFits(peer)
    requires SentFits(q, peer.side.sent, peer.guest) && ReceivedFits(peer.side.sent, n.side.recv, n.side.bar, n.guest)
    requires Agrees(p, q, peer.guest, Other(who))
    requires NodeEnabled(n, peer.side.sent, Compute)
    ensures var ticks := |n.guest.hist.inputs|;
            n.guest.inbox == Arriving(HistOf(OneClock(p, q, ticks), Other(who)), q, ticks)
  {
    hide LogFits, TableFits, ClockFits, NoneLate, SentFits, ReceivedFits, OneClock;
    InboxIsEmitted(q, n, peer);
    RunningBounds(q, n.side, peer.side);
    var u := Universal(n.side.bar);
    if q <= u {
      EmittedIsReference(p, q, peer.guest, Other(who), u - q, u);
    }
  }

  // ----- Every step keeps the invariant

  ghost predicate Both(p: Programs, q: nat, n: GuestNode, peer: GuestNode, who: Who)
    requires 0 < q
  {
    NodeInv(p, q, n, peer, who) && NodeInv(p, q, peer, n, Other(who))
  }

  predicate SlotsFit(n: GuestNode, peer: GuestNode) {
    n.side.bar.round < KEY_SPAN && peer.side.bar.round < KEY_SPAN
  }

  lemma ComputeSent(q: nat, sent: Log, g: Guest, p: Program)
    requires SentFits(q, sent, g) && !g.computed && |g.hist.inputs| == |g.hist.outputs|
    ensures var h := LiveTick(p, g.hist, g.inbox); SentFits(q, sent, Guest(h, [], true, p(h.inputs)))
  {
    var h := LiveTick(p, g.hist, g.inbox);
    var g' := Guest(h, [], true, p(h.inputs));
    forall t ensures AtTime(sent, |sent|, t) == Emitted(g', t - q) {
      assert AtTime(sent, |sent|, t) == Emitted(g, t - q);
    }
  }

  lemma ComputeKeeps(p: Programs, q: nat, n: GuestNode, peer: GuestNode, who: Who)
    requires 0 < q && Both(p, q, n, peer, who) && NodeEnabled(n, peer.side.sent, Compute)
    ensures Both(p, q, NextNode(q, ProgramOf(p, who), n, peer.side.sent, Compute), peer, who)
  {
    InboxIsArriving(p, q, n, peer, who);
    OneClockStep(p, q, |n.guest.hist.inputs|, who);
    ComputeSent(q, n.side.sent, n.guest, ProgramOf(p, who));
    var next := NextNode(q, ProgramOf(p, who), n, peer.side.sent, Compute);
    forall t | Pending(next.side.bar, next.guest, t)
      ensures AtTime(peer.side.sent, n.side.recv, t) == Held(next.side.bar, next.guest, t)
    {
      assert Pending(n.side.bar, n.guest, t);
    }
  }

  lemma DeliverReceived(log: Log, n: GuestNode)
    requires n.side.recv <= |log| && ReceivedFits(log, n.side.recv, n.side.bar, n.guest) && NodeEnabled(n, log, Deliver)
    ensures ReceivedFits(log, n.side.recv, Fire(n.side).bar, NextGuest(x => [], n, Deliver))
  {
    hide AtTime, Held;
    var b := n.side.bar;
    var b', g' := Fire(n.side).bar, NextGuest(x => [], n, Deliver);
    if b.deliveries[FirstDue(b.deliveries, b.clock)].data != [] {
      forall t | Pending(b', g', t) ensures AtTime(log, n.side.recv, t) == Held(b', g', t) {
        assert Pending(b, n.guest, t);
        DeliverHeld(b, b', n.guest, t);
      }
    }
  }

  /** Firing moves one packet from the schedule to the inbox. */
  lemma DeliverHeld(b: Bar, b': Bar, g: Guest, t: int)
    requires FirstDue(b.deliveries, b.clock) < |b.deliveries|
    requires b'.clock == b.clock && b'.firstSync == b.firstSync
    requires var i := FirstDue(b.deliveries, b.clock); b'.deliveries == b.deliveries[..i] + b.deliveries[i + 1..]
    ensures var d := b.deliveries[FirstDue(b.deliveries, b.clock)];
            Held(b', g.(inbox := g.inbox + [d.data]), t) == Held(b, g, t)
  {
    DueAtFire(b.deliveries, b.clock, t + b.firstSync);
  }

  lemma DeliverKeeps(p: Programs, q: nat, n: GuestNode, peer: GuestNode, who: Who)
    requires 0 < q && Both(p, q, n, peer, who) && NodeEnabled(n, peer.side.sent, Deliver)
    ensures Both(p, q, NextNode(q, ProgramOf(p, who), n, peer.side.sent, Deliver), peer, who)
  {
    FireKeeps(q, n.side, peer.side);
    FireLeaves(n.side);
    DeliverReceived(peer.side.sent, n);
  }

  lemma EmitSent(q: nat, u: nat, sent: Log, g: Guest)
    requires SentFits(q, sent, g) && OutboxFits(g) && g.computed && g.outbox != [] && |g.hist.outputs| == u + 1
    ensures SentFits(q, sent + [Message(u + q, Packet(g.outbox[0]))], g.(outbox := g.outbox[1..]))
    ensures OutboxFits(g.(outbox := g.outbox[1..]))
  {
    var m, g' := Message(u + q, Packet(g.outbox[0])), g.(outbox := g.outbox[1..]);
    forall t ensures AtTime(sent + [m], |sent + [m]|, t) == Emitted(g', t - q) {
      AtTimeExtend(sent, [m], |sent|, t);
      assert AtTime(sent, |sent|, t) == Emitted(g, t - q);
      if t == u + q {
        var out := g.hist.outputs[u];
        assert out[..|out| - |g'.outbox|] == out[..|out| - |g.outbox|] + [g.outbox[0]];
      }
    }
  }

  /** A longer log does not change what the peer has received of it. */
  lemma PeerUnmoved(log: Log, tail: Log, recv: nat, b: Bar, g: Guest)
    requires recv <= |log| && ReceivedFits(log, recv, b, g)
    ensures ReceivedFits(log + tail, recv, b, g)
  {
    forall t | Pending(b, g, t) ensures AtTime(log + tail, recv, t) == Held(b, g, t) {
      AtTimeExtend(log, tail, recv, t);
    }
  }

  lemma SameInboxReceived(log: Log, recv: nat, b: Bar, g: Guest, g': Guest)
    requires recv <= |log| && ReceivedFits(log, recv, b, g) && g'.inbox == g.inbox && g'.computed == g.computed
    ensures ReceivedFits(log, recv, b, g')
  {
    forall t | Pending(b, g', t) ensures AtTime(log, recv, t) == Held(b, g', t) {
      assert Pending(b, g, t);
    }
  }

  lemma EmitKeeps(p: Programs, q: nat, n: GuestNode, peer: GuestNode, who: Who)
    requires 0 < q && Both(p, q, n, peer, who) && NodeEnabled(n, peer.side.sent, Emit)
    ensures Both(p, q, NextNode(q, ProgramOf(p, who), n, peer.side.sent, Emit), peer, who)
  {
    hide LogFits, TableFits, ClockFits, OneClock, Emitted, AtTime, SentFits, ReceivedFits;
    SendPacketKeeps(q, n.side, peer.side, n.guest.outbox[0]);
    EmitSent(q, Universal(n.side.bar), n.side.sent, n.guest);
    PeerUnmoved(n.side.sent, [Message(Universal(n.side.bar) + q, Packet(n.guest.outbox[0]))], peer.side.recv,
        peer.side.bar, peer.guest);
    SameInboxReceived(peer.side.sent, n.side.recv, n.side.bar, n.guest, n.guest.(outbox := n.guest.outbox[1..]));
  }

  lemma PassSent(q: nat, sent: Log, g: Guest)
    requires SentFits(q, sent, g) && OutboxFits(g) && g.outbox == []
    ensures SentFits(q, sent, g.(computed := false))
  {
    forall t ensures AtTime(sent, |sent|, t) == Emitted(g.(computed := false), t - q) {
      assert AtTime(sent, |sent|, t) == Emitted(g, t - q);
    }
  }

  lemma PassKeeps(p: Programs, q: nat, n: GuestNode, peer: GuestNode, who: Who)
    requires 0 < q && Both(p, q, n, peer, who) && NodeEnabled(n, peer.side.sent, Pass)
    ensures Both(p, q, NextNode(q, ProgramOf(p, who), n, peer.side.sent, Pass), peer, who)
  {
    hide LogFits, TableFits, OneClock, Emitted, AtTime, SentFits, DueAt;
    TimerKeeps(q, n.side, peer.side, Run(1));
    PassSent(q, n.side.sent, n.guest);
    var next := NextNode(q, ProgramOf(p, who), n, peer.side.sent, Pass);
    forall t | Pending(next.side.bar, next.guest, t)
      ensures AtTime(peer.side.sent, n.side.recv, t) == Held(next.side.bar, next.guest, t)
    {
      assert Pending(n.side.bar, n.guest, t);
    }
  }

  predicate NoPackets(tail: Log) {
    forall i :: 0 <= i < |tail| ==> !tail[i].body.Packet?
  }

  /** What a step of the node itself can do to time, to the guest's packets and to its log. */
  lemma ProtocolEffect(q: nat, me: Side, peer: Side, a: Action)
    requires Half(q, me, peer) && Enabled(me, peer.sent, a) && !a.Run? && !a.FireDelivery? && !a.SendPacket?
    ensures NoPackets(Tail(q, me, a))
    ensures var next := Next(q, me, peer.sent, a);
            && next.bar.clock == me.bar.clock && next.bar.firstSync == me.bar.firstSync
            && (Running(me.bar) ==> Running(next.bar))
            && (a.Poll? || (next.recv == me.recv && next.bar.deliveries == me.bar.deliveries))
  {
    hide LogFits, TableFits, NoneLate, Receive, ThreadStep;
    if IsQuiet(me, a) {
      hide Next;
      QuietSteps(q, me, peer.sent, a);
    } else {
      match a {
        case Poll => ReceiptLeavesTime(me, peer.sent[me.recv]);
        case SendSync => if me.ck.needs {} else {}
        case Check => if me.ck.needs {} else {}
        case Step(t) => AdvanceLeavesTime(q, me, t);
        case _ =>
      }
    }
  }

  lemma ReceiptLeavesTime(me: Side, m: Message)
    ensures var b := Receive(me, m).bar;
            b.clock == me.bar.clock && b.firstSync == me.bar.firstSync && (Running(me.bar) ==> Running(b))
  {
    match m.body
    case Sync(_) =>
    case Packet(_) =>
    case _ =>
  }

  lemma AdvanceLeavesTime(q: nat, me: Side, t: Thread)
    requires PcOf(me, t).at == Advance
    ensures var next := ThreadStep(q, me, t);
            && next.bar.clock == me.bar.clock && next.bar.firstSync == me.bar.firstSync
            && next.recv == me.recv && next.bar.deliveries == me.bar.deliveries
  {
  }

  lemma PollFits(log: Log, me: Side, g: Guest)
    requires me.recv < |log| && ReceivedFits(log, me.recv, me.bar, g)
    requires log[me.recv].body.Packet? ==> Universal(me.bar) <= log[me.recv].ts
    ensures ReceivedFits(log, me.recv + 1, Receive(me, log[me.recv]).bar, g)
  {
    hide Receive, DueAt, ReceivedFits;
    var m := log[me.recv];
    var b' := Receive(me, m).bar;
    ReceiptSchedules(me, m);
    assert me.bar.deliveries + [] == me.bar.deliveries;
    forall t | Pending(b', g, t) ensures AtTime(log, me.recv + 1, t) == Held(b', g, t) {
      HeldAt(log, me.recv, me.bar, g, t);
      if m.body.Packet? {
        DueAtAppend(me.bar.deliveries, Delivery(m.ts + me.bar.firstSync, m.body.data), t + me.bar.firstSync);
      }
    }
    HeldAlways(log, me.recv + 1, b', g);
  }

  lemma ReceiptSchedules(me: Side, m: Message)
    requires m.body.Packet? ==> Universal(me.bar) <= m.ts
    ensures var b := Receive(me, m).bar;
            && b.clock == me.bar.clock && b.firstSync == me.bar.firstSync
            && b.deliveries == me.bar.deliveries
                 + if m.body.Packet? then [Delivery(m.ts + me.bar.firstSync, m.body.data)] else []
  {
    match m.body
    case Sync(_) =>
    case Packet(_) =>
    case _ =>
  }

  lemma HeldAt(log: Log, recv: nat, b: Bar, g: Guest, t: int)
    requires recv <= |log| && ReceivedFits(log, recv, b, g) && Pending(b, g, t)
    ensures AtTime(log, recv, t) == Held(b, g, t)
  {
  }

  lemma HeldAlways(log: Log, recv: nat, b: Bar, g: Guest)
    requires recv <= |log| && forall t :: Pending(b, g, t) ==> AtTime(log, recv, t) == Held(b, g, t)
    ensures ReceivedFits(log, recv, b, g)
  {
  }

  lemma QuietTail(q: nat, sent: Log, tail: Log, g: Guest)
    requires SentFits(q, sent, g) && NoPackets(tail)
    ensures SentFits(q, sent + tail, g)
  {
    forall t ensures AtTime(sent + tail, |sent + tail|, t) == Emitted(g, t - q) {
      AtTimeExtend(sent, tail, |sent|, t);
      AtTimeSkip(sent + tail, |sent|, |sent + tail|, t);
      assert AtTime(sent, |sent|, t) == Emitted(g, t - q);
    }
  }

  lemma SameBarReceived(log: Log, recv: nat, b: Bar, b': Bar, g: Guest)
    requires recv <= |log| && ReceivedFits(log, recv, b, g)
    requires b'.clock == b.clock && b'.firstSync == b.firstSync && b'.deliveries == b.deliveries
    ensures ReceivedFits(log, recv, b', g)
  {
    forall t | Pending(b', g, t) ensures AtTime(log, recv, t) == Held(b', g, t) {
      assert Pending(b, g, t);
    }
  }

  /** A step of the node itself that leaves time and the guest's packets in order keeps the invariant. */
  lemma GuestUntouched(p: Programs, q: nat, n: GuestNode, next: Side, peer: GuestNode, who: Who, tail: Log)
    requires 0 < q && Both(p, q, n, peer, who)
    requires Half(q, next, peer.side) && Half(q, peer.side, next)
    requires next.sent == n.side.sent + tail && NoPackets(tail)
    requires next.bar.clock == n.side.bar.clock && next.bar.firstSync == n.side.bar.firstSync
    requires Running(n.side.bar) ==> Running(next.bar)
    requires n.guest.computed ==> NoneDueNow(next.bar)
    requires ReceivedFits(peer.side.sent, next.recv, next.bar, n.guest)
    ensures Both(p, q, GuestNode(next, n.guest), peer, who)
  {
    QuietTail(q, n.side.sent, tail, n.guest);
    PeerUnmoved(n.side.sent, tail, peer.side.recv, peer.side.bar, peer.guest);
  }

  lemma ProtocolKeeps(p: Programs, q: nat, n: GuestNode, peer: GuestNode, who: Who, a: Action)
    requires 0 < q && Both(p, q, n, peer, who) && NodeEnabled(n, peer.side.sent, Protocol(a)) && SlotsFit(n, peer)
    ensures Both(p, q, NextNode(q, ProgramOf(p, who), n, peer.side.sent, Protocol(a)), peer, who)
  {
    hide LogFits, TableFits, ClockFits, NoneLate, SentFits, ReceivedFits, Agrees, TickFits, AtTime;
    var next := Next(q, n.side, peer.side.sent, a);
    assert Half(q, next, peer.side) && Half(q, peer.side, next) by {
      StepKeepsHalves(q, n.side, peer.side, a);
    }
    ProtocolEffect(q, n.side, peer.side, a);
    LogGrows(q, n.side, peer.side.sent, a);
    assert ReceivedFits(peer.side.sent, next.recv, next.bar, n.guest) by {
      ProtocolReceived(q, n, peer, a);
    }
    if n.guest.computed {
      assert TickFits(n);
      ComputedNeeds(n);
      StillNoneDue(q, n.side, peer.side, a);
    }
    GuestUntouched(p, q, n, next, peer, who, Tail(q, n.side, a));
  }

  lemma ComputedNeeds(n: GuestNode)
    requires TickFits(n) && n.guest.computed
    ensures Running(n.side.bar) && NoneDueNow(n.side.bar)
  {
  }

  /** What arrives while a tick is running is for a later one. */
  lemma StillNoneDue(q: nat, me: Side, peer: Side, a: Action)
    requires Half(q, me, peer) && Half(q, peer, me) && Running(me.bar) && NoneDueNow(me.bar)
    requires Enabled(me, peer.sent, a) && !a.Run? && !a.FireDelivery? && !a.SendPacket?
    ensures NoneDueNow(Next(q, me, peer.sent, a).bar)
  {
    hide LogFits, TableFits, ClockFits, NoneLate, CountersFit, Running;
    ProtocolEffect(q, me, peer, a);
    if a.Poll? {
      hide Receive;
      PolledMessageIsFine(q, me, peer);
      ReceiptSchedules(me, peer.sent[me.recv]);
      if peer.sent[me.recv].body.Packet? { DueLater(q, me, peer); }
      assert me.bar.deliveries + [] == me.bar.deliveries;
    }
  }

  lemma DueLater(q: nat, me: Side, peer: Side)
    requires Half(q, me, peer) && Half(q, peer, me) && Running(me.bar)
    requires me.recv < |peer.sent| && peer.sent[me.recv].body.Packet?
    ensures Universal(me.bar) < peer.sent[me.recv].ts
  {
    RunningBounds(q, me, peer);
    assert WellSent(q, peer.sent, me.recv);
  }

  lemma ProtocolReceived(q: nat, n: GuestNode, peer: GuestNode, a: Action)
    requires Half(q, n.side, peer.side) && Half(q, peer.side, n.side) && NodeEnabled(n, peer.side.sent, Protocol(a))
    requires ReceivedFits(peer.side.sent, n.side.recv, n.side.bar, n.guest)
    ensures var next := Next(q, n.side, peer.side.sent, a);
            next.recv <= |peer.side.sent| && ReceivedFits(peer.side.sent, next.recv, next.bar, n.guest)
  {
    if a.Poll? {
      PolledMessageIsFine(q, n.side, peer.side);
      PollFits(peer.side.sent, n.side, n.guest);
    } else {
      ProtocolEffect(q, n.side, peer.side, a);
      SameBarReceived(peer.side.sent, n.side.recv, n.side.bar, Next(q, n.side, peer.side.sent, a).bar, n.guest);
    }
  }

  lemma NodeStepKeeps(p: Programs, q: nat, n: GuestNode, peer: GuestNode, who: Who, a: GuestAction)
    requires 0 < q && Both(p, q, n, peer, who) && NodeEnabled(n, peer.side.sent, a) && SlotsFit(n, peer)
    ensures Both(p, q, NextNode(q, ProgramOf(p, who), n, peer.side.sent, a), peer, who)
  {
    match a
    case Deliver => DeliverKeeps(p, q, n, peer, who);
    case Compute => ComputeKeeps(p, q, n, peer, who);
    case Emit => EmitKeeps(p, q, n, peer, who);
    case Pass => PassKeeps(p, q, n, peer, who);
    case Protocol(act) => ProtocolKeeps(p, q, n, peer, who, act);
  }

  // ----- Over every run

  datatype Pair = Pair(m: GuestNode, f: GuestNode)

  datatype GuestLabel = GuestLabel(who: Who, act: GuestAction)

  function NodeOf(s: Pair, who: Who): GuestNode {
    if who == Master then s.m else s.f
  }

  predicate PairCanStep(s: Pair, l: GuestLabel) {
    NodeEnabled(NodeOf(s, l.who), NodeOf(s, Other(l.who)).side.sent, l.act)
  }

  function NextPair(p: Programs, q: nat, s: Pair, l: GuestLabel): Pair
    requires PairCanStep(s, l)
  {
    var n := NextNode(q, ProgramOf(p, l.who), NodeOf(s, l.who), NodeOf(s, Other(l.who)).side.sent, l.act);
    if l.who == Master then Pair(n, s.f) else Pair(s.m, n)
  }

  ghost predicate PairInit(s: Pair) {
    && Init(Sys(s.m.side, s.f.side))
    && s.m.guest == s.f.guest == Guest(Hist([], []), [], false, [])
  }

  ghost predicate IsPairRun(p: Programs, q: nat, states: seq<Pair>, labels: seq<GuestLabel>) {
    && |states| == |labels| + 1
    && PairInit(states[0])
    && (forall i :: 0 <= i < |states| ==> SlotsFit(states[i].m, states[i].f))
    && forall i :: 0 <= i < |labels| ==>
         PairCanStep(states[i], labels[i]) && states[i + 1] == NextPair(p, q, states[i], labels[i])
  }

  lemma InitialNode(p: Programs, q: nat, n: GuestNode, peer: GuestNode, who: Who, warm: bool, c: int, d: int)
    requires 0 < q
    requires n.side == InitialSide(who == Master, warm, c) && peer.side == InitialSide(who != Master, warm, d)
    requires n.guest == peer.guest == Guest(Hist([], []), [], false, [])
    requires Half(q, n.side, peer.side)
    ensures NodeInv(p, q, n, peer, who)
  {
  }

  lemma {:induction false} PairRunInv(p: Programs, q: nat, states: seq<Pair>, labels: seq<GuestLabel>, i: nat)
    requires 0 < q && IsPairRun(p, q, states, labels) && i < |states|
    ensures Both(p, q, states[i].m, states[i].f, Master)
  {
    if i == 0 {
      InitialInv(q, Sys(states[0].m.side, states[0].f.side));
      var warm, c, d :| 0 <= c && 0 <= d && Sys(states[0].m.side, states[0].f.side) == Initial(warm, c, d);
      InitialNode(p, q, states[0].m, states[0].f, Master, warm, c, d);
      InitialNode(p, q, states[0].f, states[0].m, Follower, warm, d, c);
    } else {
      PairRunInv(p, q, states, labels, i - 1);
      var s, l := states[i - 1], labels[i - 1];
      assert PairCanStep(s, l) && SlotsFit(s.m, s.f);
      PairStepKeeps(p, q, s, l);
    }
  }

  lemma PairStepKeeps(p: Programs, q: nat, s: Pair, l: GuestLabel)
    requires 0 < q && Both(p, q, s.m, s.f, Master) && PairCanStep(s, l) && SlotsFit(s.m, s.f)
    ensures Both(p, q, NextPair(p, q, s, l).m, NextPair(p, q, s, l).f, Master)
  {
    hide Half, TickFits, SentFits, ReceivedFits, Agrees;
    NodeStepKeeps(p, q, NodeOf(s, l.who), NodeOf(s, Other(l.who)), l.who, l.act);
  }

  /** The guests are never stuck: a running guest always has its next action, up to a packet beyond the
      size of a message. */
  lemma GuestGoesOn(p: Programs, q: nat, states: seq<Pair>, labels: seq<GuestLabel>, i: nat, who: Who)
    requires 0 < q && IsPairRun(p, q, states, labels) && i < |states|
    requires var n := NodeOf(states[i], who);
             Live(n.side) && Running(n.side.bar) && (n.guest.outbox != [] ==> |n.guest.outbox[0]| <= 2048)
    ensures exists a :: a in {Deliver, Compute, Emit, Pass} && PairCanStep(states[i], GuestLabel(who, a))
  {
    hide SentFits, ReceivedFits, Agrees, LogFits, TableFits, CountersFit, IsPairRun;
    PairRunInv(p, q, states, labels, i);
    var n, peer := NodeOf(states[i], who), NodeOf(states[i], Other(who));
    var a := if n.guest.computed then (if n.guest.outbox != [] then Emit else Pass)
             else if NoneDueNow(n.side.bar) then Compute else Deliver;
    assert NodeEnabled(n, peer.side.sent, a) by { NextUp(q, n, peer); }
    assert PairCanStep(states[i], GuestLabel(who, a));
  }

  lemma NextUp(q: nat, n: GuestNode, peer: GuestNode)
    requires Half(q, n.side, peer.side) && TickFits(n) && Live(n.side) && Running(n.side.bar)
    requires n.guest.outbox != [] ==> |n.guest.outbox[0]| <= 2048
    ensures NodeEnabled(n, peer.side.sent, if n.guest.computed then (if n.guest.outbox != [] then Emit else Pass)
                                           else if NoneDueNow(n.side.bar) then Compute else Deliver)
  {
    hide LogFits, TableFits, CountersFit, ClockFits;
  }

  /** Sequential equivalence.  At every point of every interleaving, each guest has lived through
      exactly the reference's history up to its own universal time: tick by tick the same packets
      delivered, in the same order, and the same packets sent. */
  lemma SequentialEquivalence(p: Programs, q: nat, states: seq<Pair>, labels: seq<GuestLabel>, i: nat, who: Who)
    requires 0 < q && IsPairRun(p, q, states, labels) && i < |states|
    ensures var n, u := NodeOf(states[i], who), Universal(NodeOf(states[i], who).side.bar);
            && 0 <= u <= |n.guest.hist.inputs| <= u + 1
            && n.guest.hist == HistOf(OneClock(p, q, |n.guest.hist.inputs|), who)
  {
    PairRunInv(p, q, states, labels, i);
  }

  /** Hence the interleaving is unobservable: any two runs give a node the same history as far as
      both have come. */
  lemma InterleavingUnobservable(p: Programs, q: nat, s1: seq<Pair>, l1: seq<GuestLabel>, i: nat,
                                 s2: seq<Pair>, l2: seq<GuestLabel>, j: nat, who: Who)
    requires 0 < q && IsPairRun(p, q, s1, l1) && i < |s1| && IsPairRun(p, q, s2, l2) && j < |s2|
    ensures var a, b := NodeOf(s1[i], who).guest.hist, NodeOf(s2[j], who).guest.hist;
            (a.inputs <= b.inputs && a.outputs <= b.outputs) || (b.inputs <= a.inputs && b.outputs <= a.outputs)
  {
    hide Half, TickFits, SentFits, ReceivedFits, OneClock;
    PairRunInv(p, q, s1, l1, i);
    PairRunInv(p, q, s2, l2, j);
    var n, k := |NodeOf(s1[i], who).guest.hist.inputs|, |NodeOf(s2[j], who).guest.hist.inputs|;
    if n <= k { OneClockPrefix(p, q, n, k, who); } else { OneClockPrefix(p, q, k, n, who); }
  }
}
