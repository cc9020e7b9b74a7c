/** All parts together: in a run that keeps to four rules no assertion of the program ever fires, and a node
    is left without notice of its peer's end only by a master that ends behind its last snapshot. */
module Orderly {
  import opened Messages
  import opened Machine
  import opened Barrier
  import opened Conservation
  import opened Checkpoint
  import opened Exit

  /** What does not concern checkpoints: an uncut grant, a clean end, no empty frame. */
  predicate Lawful(me: Side, a: Action) {
    && GrantUncut(me, a)
    && EndsCleanly(me, a)
    && (a.SendPacket? ==> a.data != [])
  }

  /** The four rules: safe checkpoint requests, a grant not cut by a concurrent
      notification, a process that ends only outside the other thread's END code, no empty frame. */
  ghost predicate Keeps(me: Side, peer: Side, a: Action) {
    Paced(me, peer, a) && Lawful(me, a)
  }

  predicate FullFrame(m: Message) {
    m.body.Packet? ==> m.body.data != []
  }

  ghost predicate FullFrames(log: Log) {
    forall i :: 0 <= i < |log| ==> FullFrame(log[i])
  }

  /** The process ended behind the master's last snapshot, without the END: its PERMISSION was not out. */
  predicate EndedSilently(me: Side) {
    me.halted && Warmed(me) && Total(me.sent, KPermission) == 0
  }

  /** A process that has ended has its END out, except for exactly that. */
  predicate HaltFits(me: Side) {
    me.halted ==> me.fault.None? && Total(me.sent, KEnd) == if EndedSilently(me) then 0 else 1
  }

  ghost predicate SideFits(me: Side) {
    me.fault.None? && FullFrames(me.sent) && HaltFits(me)
  }

  ghost predicate AllInv(q: nat, s: Sys) {
    && Inv(q, s) && CkInv(s) && ExInv(s)
    && Conserved(s.m, s.f) && Conserved(s.f, s.m)
    && SideFits(s.m) && SideFits(s.f)
  }

  /** All but the checkpoints: what holds however they are asked for. */
  ghost predicate CoreSide(me: Side) {
    (me.fault.None? || me.fault == Some(CheckpointPassed)) && FullFrames(me.sent) && HaltFits(me)
  }

  ghost predicate CoreInv(q: nat, s: Sys) {
    && Inv(q, s) && ExInv(s)
    && Conserved(s.m, s.f) && Conserved(s.f, s.m)
    && CoreSide(s.m) && CoreSide(s.f)
  }

  lemma AllIsCore(q: nat, s: Sys)
    ensures AllInv(q, s) <==> CoreInv(q, s) && CkInv(s)
  {
    hide Inv, ExInv, Conserved, FullFrames, HaltFits, MasterFits, FollowerFits, SnapsFit;
  }

  /** A delivery timer asserts only on an empty frame. */
  lemma FireIsFine(me: Side, peer: Side)
    requires Conserved(me, peer) && FullFrames(peer.sent) && me.fault.None?
    requires FirstDue(me.bar.deliveries, me.bar.clock) < |me.bar.deliveries|
    ensures Fire(me).fault.None?
  {
    var d := me.bar.deliveries[FirstDue(me.bar.deliveries, me.bar.clock)];
    assert d in multiset(me.bar.deliveries) + multiset(me.bar.delivered);
    var j := TakenFrom(peer.sent, me.recv, me.bar.firstSync, d);
    assert FullFrame(peer.sent[j]);
  }

  predicate KnownFault(f: Option<Fault>) {
    f.None? || f == Some(PastPacket) || f == Some(WrongRound) || f == Some(CheckpointPassed) || f == Some(EndTooEarly)
  }

  lemma OnlyFireStarves(q: nat, me: Side, peerSent: Log, a: Action)
    requires Enabled(me, peerSent, a) && !a.FireDelivery?
    ensures KnownFault(Next(q, me, peerSent, a).fault)
  {
    match a
    case Poll => ReceiptFault(me, peerSent[me.recv]);
    case Step(t) => StepFault(q, me, t);
    case Check => if me.ck.needs {} else {}
    case CallCanStop => if me.master {} else {}
    case CallNotify(t) => if t == Main {} else {}
    case _ =>
  }

  lemma ReceiptFault(me: Side, m: Message)
    requires me.fault.None?
    ensures KnownFault(Receive(me, m).fault)
  {
    match m.body
    case Sync(_) =>
    case Packet(_) =>
    case EndOfEmulation =>
    case _ =>
  }

  lemma StepFault(q: nat, me: Side, t: Thread)
    requires me.fault.None? && PcOf(me, t).at != Idle
    ensures ThreadStep(q, me, t).fault.None?
  {
    match PcOf(me, t).at
    case EndRead => if me.ex.permitted {} else {}
    case EndSwap => if me.ex.endSent {} else {}
    case _ =>
  }

  lemma FullTail(q: nat, me: Side, next: Side, a: Action)
    requires FullFrames(me.sent) && Lawful(me, a) && next.sent == me.sent + Tail(q, me, a)
    ensures FullFrames(next.sent)
  {
    forall i | 0 <= i < |next.sent| ensures FullFrame(next.sent[i]) {
      if i < |me.sent| { assert FullFrame(me.sent[i]); }
    }
  }

  /** How a process ends. */
  lemma HaltStep(q: nat, me: Side, peerSent: Log, a: Action)
    requires Enabled(me, peerSent, a) && Lawful(me, a) && OwnExit(me)
    ensures HaltFits(Next(q, me, peerSent, a))
  {
    match a
    case Stop => StopHalts(me);
    case Step(t) => if PcOf(me, t).at == Quit { QuitEnd(me); } else { StepHalts(q, me, t); }
    case Poll => ReceiptHalts(me, peerSent[me.recv]);
    case _ =>
  }

  lemma StopHalts(me: Side)
    requires OwnExit(me) && me.ex.stopOk && me.flex.at == Idle && !InEndCode(me.main) && me.fault.None?
    ensures HaltFits(me.(halted := true))
  {
  }

  lemma ReceiptHalts(me: Side, m: Message)
    ensures Receive(me, m).halted == me.halted
  {
    match m.body
    case Sync(_) =>
    case _ =>
  }

  lemma StepHalts(q: nat, me: Side, t: Thread)
    requires PcOf(me, t).at != Idle && PcOf(me, t).at != Quit
    ensures ThreadStep(q, me, t).halted == me.halted
  {
    match PcOf(me, t).at
    case EndRead => if me.ex.permitted {} else {}
    case EndSwap => if me.ex.endSent {} else {}
    case _ =>
  }

  /** The invariants of one node against the other leave no fault possible but a passed checkpoint. */
  lemma NoFaultLeft(q: nat, me: Side, peer: Side)
    requires KnownFault(me.fault) && Half(q, me, peer) && OwnExit(me)
    ensures me.fault.None? || me.fault == Some(CheckpointPassed)
  {
  }

  lemma NextCoreSide(q: nat, me: Side, peer: Side, a: Action)
    requires Enabled(me, peer.sent, a) && Lawful(me, a) && ExFits(me, peer) && Conserved(me, peer)
    requires CoreSide(me) && CoreSide(peer)
    requires var next := Next(q, me, peer.sent, a); Half(q, next, peer) && ExFits(next, peer)
    ensures CoreSide(Next(q, me, peer.sent, a))
  {
    hide Half, OwnExit, Conserved;
    var next := Next(q, me, peer.sent, a);
    LogGrows(q, me, peer.sent, a);
    FullTail(q, me, next, a);
    HaltStep(q, me, peer.sent, a);
    if a.FireDelivery? {
      FireIsFine(me, peer);
    } else {
      OnlyFireStarves(q, me, peer.sent, a);
      NoFaultLeft(q, next, peer);
    }
  }

  /** However checkpoints are asked for, the barrier, the handshake and the packets are safe. */
  lemma StepKeepsCore(q: nat, s: Sys, l: Label)
    requires CoreInv(q, s) && RoundsFit(s) && CanStep(s, l) && Lawful(Mine(s, l.who), l.act)
    ensures CoreInv(q, NextSys(q, s, l))
  {
    hide Half, ExFits, CoreSide, Conserved, Next;
    var me, peer := Mine(s, l.who), Peers(s, l.who);
    var next := Next(q, me, peer.sent, l.act);
    NextSysIs(q, s, l, next);
    StepKeepsInv(q, s, l);
    StepKeepsExInv(q, s, l);
    StepConserves(q, me, peer, l.act);
    NextCoreSide(q, me, peer, l.act);
  }

  lemma StepKeepsAll(q: nat, s: Sys, l: Label)
    requires AllInv(q, s) && RoundsFit(s) && CanStep(s, l) && Keeps(Mine(s, l.who), Peers(s, l.who), l.act)
    ensures AllInv(q, NextSys(q, s, l))
  {
    hide Inv, CkInv, ExInv, Conserved, SideFits, CoreSide, CanStep, NextSys, Paced, Lawful;
    AllIsCore(q, s);
    StepKeepsCore(q, s, l);
    StepKeepsCkInv(q, s, l);
    AllIsCore(q, NextSys(q, s, l));
  }

  // ----- Over every orderly run

  ghost predicate OrderlyRun(q: nat, states: seq<Sys>, labels: seq<Label>) {
    && IsRun(q, states, labels) && AllFit(states)
    && forall i :: 0 <= i < |labels| ==>
         Keeps(Mine(states[i], labels[i].who), Peers(states[i], labels[i].who), labels[i].act)
  }

  ghost predicate OrderlyReachable(q: nat, s: Sys) {
    exists states, labels :: OrderlyRun(q, states, labels) && states[|states| - 1] == s
  }

  lemma InitialAll(q: nat, s: Sys)
    requires Init(s)
    ensures AllInv(q, s)
  {
    InitialInv(q, s);
    InitialExInv(s);
  }

  lemma {:induction false} OrderlyRunInv(q: nat, states: seq<Sys>, labels: seq<Label>, i: nat)
    requires OrderlyRun(q, states, labels) && i < |states|
    ensures AllInv(q, states[i])
  {
    hide AllInv, Keeps;
    if i == 0 {
      InitialAll(q, states[0]);
    } else {
      OrderlyRunInv(q, states, labels, i - 1);
      assert Keeps(Mine(states[i - 1], labels[i - 1].who), Peers(states[i - 1], labels[i - 1].who), labels[i - 1].act);
      StepKeepsAll(q, states[i - 1], labels[i - 1]);
    }
  }

  lemma OrderlyReachableInv(q: nat, s: Sys)
    requires OrderlyReachable(q, s)
    ensures AllInv(q, s) && RoundsFit(s)
  {
    hide AllInv;
    var states, labels :| OrderlyRun(q, states, labels) && states[|states| - 1] == s;
    OrderlyRunInv(q, states, labels, |states| - 1);
  }

  /** No assertion fires: not the past packet, the wrong round, the passed checkpoint, the early END,
      nor the empty delivery. */
  lemma NoAssertFires(q: nat, s: Sys)
    requires OrderlyReachable(q, s)
    ensures s.m.fault.None? && s.f.fault.None?
  {
    OrderlyReachableInv(q, s);
  }

  /** The node has its peer's END, or will poll it. */
  ghost predicate WillKnow(me: Side, peer: Side) {
    me.ex.pairFinished || exists p :: me.recv <= p < |peer.sent| && peer.sent[p].body.EndOfEmulation?
  }

  /** The peer of an ended node gets to know of it exactly if the END is out. */
  lemma EndOnItsWay(me: Side, peer: Side)
    requires FlagsFit(me, peer) && HaltFits(peer) && peer.halted
    ensures WillKnow(me, peer) <==> !EndedSilently(peer)
  {
    if EndedSilently(peer) {
      CountMono(peer.sent, me.recv, |peer.sent|, KEnd);
      forall p | me.recv <= p < |peer.sent| ensures !peer.sent[p].body.EndOfEmulation? {
        if peer.sent[p].body.EndOfEmulation? { CountSeen(peer.sent, p, KEnd); }
      }
    } else if Count(peer.sent, me.recv, KEnd) == 0 {
      var p := CountWitness(peer.sent, me.recv, |peer.sent|, KEnd);
    }
  }

  /** No stranded peer, exactly.  Once a node's process has ended, the other has its END or will poll it,
      unless the master ended behind its "init_warmed" snapshot before its PERMISSION was out: then the
      follower never gets to know.  Whoever gets to know can, as soon as its channel is empty, take the
      exit branch of its barrier wait. */
  lemma NoStrandedPeer(q: nat, s: Sys, w: Who)
    requires OrderlyReachable(q, s) && Peers(s, w).halted
    ensures var me, peer := Mine(s, w), Peers(s, w);
            && (WillKnow(me, peer) <==> !EndedSilently(peer))
            && (!EndedSilently(peer) && !me.halted && MainIdle(me) && me.bar.checkArmed && Waiting(me.bar) ==>
                  Enabled(me, peer.sent, Poll) || (Enabled(me, peer.sent, TakeExit) && me.ex.permitted))
  {
    hide Inv, CkInv, Conserved, Half, OwnExit, ExitLog, OrderlyReachable, Waiting, FullFrames, EndedSilently;
    OrderlyReachableInv(q, s);
    EndOnItsWay(Mine(s, w), Peers(s, w));
    KnowsWhenPermitted(Mine(s, w));
  }
}
