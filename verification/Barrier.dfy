/** The quantum barrier: one inductive invariant over counters, and what follows from it. */
module Barrier {
  import opened Messages
  import opened Machine

  // ----- The invariant, one node's half of it

  /** Universal time at which round k ends: k * q, written so that it grows by q a round. */
  function RoundEnd(q: nat, k: nat): nat {
    if k == 0 then 0 else RoundEnd(q, k - 1) + q
  }

  /** Rounds of the peer this node has seen closed. */
  function SyncsSeen(me: Side, peer: Side): nat
    requires me.recv <= |peer.sent|
  {
    Count(peer.sent, me.recv, KSync)
  }

  /** What message i of a log must look like: the i-th sync carries round i, and a packet standing
      behind s syncs was sent in round s, or in round s - 1 after its sync. */
  predicate WellSent(q: nat, log: Log, i: nat)
    requires i < |log|
  {
    match log[i].body
    case Sync(round) => round == Count(log, i, KSync)
    case Packet(_) => InTime(q, Count(log, i, KSync), log[i].ts)
    case _ => true
  }

  predicate InTime(q: nat, syncs: nat, ts: int) {
    RoundEnd(q, syncs) <= ts <= RoundEnd(q, syncs) + q
  }

  ghost predicate LogFits(q: nat, log: Log) {
    forall i :: 0 <= i < |log| ==> WellSent(q, log, i)
  }

  ghost predicate NoneLate(b: Bar) {
    forall i :: 0 <= i < |b.deliveries| ==> b.clock <= b.deliveries[i].at
  }

  predicate ClockFits(q: nat, b: Bar) {
    && 0 <= Universal(b) <= RoundEnd(q, b.round)
    && RoundEnd(q, b.round) <= Universal(b) + q
    && (b.checkArmed ==> b.finished)
    && (b.finished ==> Universal(b) == RoundEnd(q, b.round))
    && (!b.finished && b.round == 0 ==> b.deadline <= b.clock)
    && (!b.finished && b.round > 0 ==> b.deadline == RoundEnd(q, b.round) + b.firstSync)
  }

  ghost predicate TableFits(table: SyncTable, seen: nat) {
    forall k: nat :: k < KEY_SPAN ==> SyncCountGet(table, k) == if k < seen then 1 else 0
  }

  /** The main thread is on its way to the next round. */
  predicate Closing(me: Side) {
    me.main.at == Advance || me.main.after == Advance
  }

  predicate FlexusFits(me: Side) {
    me.flex.at != Advance && me.flex.after != Advance
  }

  predicate NoBarrierFault(f: Option<Fault>) {
    f != Some(PastPacket) && f != Some(WrongRound)
  }

  predicate CountersFit(me: Side, peer: Side) {
    && me.recv <= |peer.sent|
    && Total(me.sent, KSync) == me.bar.round + (if me.bar.checkArmed then 1 else 0)
    && me.bar.round <= SyncsSeen(me, peer)
    && (Closing(me) ==> me.bar.checkArmed && me.bar.round < SyncsSeen(me, peer))
  }

  ghost predicate Half(q: nat, me: Side, peer: Side) {
    && CountersFit(me, peer)
    && FlexusFits(me)
    && TableFits(me.bar.counts, SyncsSeen(me, peer))
    && LogFits(q, me.sent)
    && ClockFits(q, me.bar)
    && NoneLate(me.bar)
    && NoBarrierFault(me.fault)
  }

  ghost predicate Inv(q: nat, s: Sys) {
    Half(q, s.m, s.f) && Half(q, s.f, s.m)
  }

  lemma HalfRecv(q: nat, me: Side, peer: Side)
    requires Half(q, me, peer)
    ensures me.recv <= |peer.sent|
  {
  }

  /** No round has outgrown the 32-bit keys of the sync table. */
  predicate RoundsFit(s: Sys) {
    s.m.bar.round < KEY_SPAN && s.f.bar.round < KEY_SPAN
  }

  // ----- Arithmetic and logs

  lemma {:induction false} RoundEndIs(q: nat, k: nat)
    ensures RoundEnd(q, k) == k * q
  {
    if k > 0 { RoundEndIs(q, k - 1); }
  }

  lemma {:induction false} RoundEndMono(q: nat, a: nat, b: nat)
    requires a <= b
    ensures RoundEnd(q, a) <= RoundEnd(q, b)
    decreases b - a
  {
    if a < b { RoundEndMono(q, a, b - 1); }
  }

  /** The chain of counters: how far the two nodes can be apart. */
  lemma Chain(me: Side, peer: Side)
    requires CountersFit(me, peer) && CountersFit(peer, me)
    ensures SyncsSeen(me, peer) <= Total(peer.sent, KSync) <= me.bar.round + 1 + (if me.bar.checkArmed then 1 else 0)
    ensures me.bar.round <= peer.bar.round + 1 && peer.bar.round <= me.bar.round + 1
  {
    CountMono(peer.sent, me.recv, |peer.sent|, KSync);
    CountMono(me.sent, peer.recv, |me.sent|, KSync);
  }

  /** One well-sent message more in a log. */
  lemma AppendKeeps(q: nat, log: Log, m: Message, recv: nat)
    requires LogFits(q, log) && recv <= |log|
    requires m.body.Sync? ==> m.body.round == Total(log, KSync)
    requires m.body.Packet? ==> InTime(q, Total(log, KSync), m.ts)
    ensures LogFits(q, log + [m])
    ensures Total(log + [m], KSync) == Total(log, KSync) + if m.body.Sync? then 1 else 0
    ensures Count(log + [m], recv, KSync) == Count(log, recv, KSync)
  {
    forall i | 0 <= i < |log + [m]| ensures WellSent(q, log + [m], i) {
      CountExtend(log, [m], i, KSync);
      assert i < |log| ==> WellSent(q, log, i);
    }
    TotalAppend(log, m, KSync);
    CountExtend(log, [m], recv, KSync);
  }

  // ----- Steps that leave the barrier alone

  predicate IsControl(m: Option<Message>) {
    m.Some? ==> !m.value.body.Sync? && !m.value.body.Packet?
  }

  function WithMessage(log: Log, m: Option<Message>): Log {
    if m.None? then log else log + [m.value]
  }

  /** The barrier is untouched, and at most one control message is sent. */
  predicate Quiet(me: Side, next: Side, m: Option<Message>) {
    && next.bar == me.bar && next.recv == me.recv
    && next.sent == WithMessage(me.sent, m) && IsControl(m)
    && (Closing(next) ==> Closing(me))
    && FlexusFits(next)
    && NoBarrierFault(next.fault)
  }

  lemma QuietKeeps(q: nat, me: Side, next: Side, m: Option<Message>, peer: Side)
    requires Half(q, me, peer) && Half(q, peer, me) && Quiet(me, next, m)
    ensures Half(q, next, peer) && Half(q, peer, next)
  {
    if m.Some? {
      AppendKeeps(q, me.sent, m.value, peer.recv);
    }
  }

  predicate IsQuiet(me: Side, a: Action) {
    match a
    case SendNotice | CallCanStop | CallNotify(_) | TakeExit | Initiate | SnapshotNow => true
    case Step(t) => PcOf(me, t).at != Advance
    case _ => false
  }

  function ControlOf(me: Side, a: Action): Option<Message> {
    match a
    case SendNotice => Some(Message(Universal(me.bar), Notice))
    case Initiate => if me.master then None else Some(Message(Universal(me.bar), InitStep))
    case CallCanStop => if me.master || me.ex.intentSent then None else Some(Message(Universal(me.bar), Intent))
    case Step(t) =>
      (match PcOf(me, t).at
       case GrantSend => Some(Message(Universal(me.bar), Permission))
       case EndSend => Some(Message(Universal(me.bar), EndOfEmulation))
       case _ => None)
    case _ => None
  }

  lemma QuietTransmit(q: nat, me: Side, t: Thread)
    requires PcOf(me, t).at == GrantSend || PcOf(me, t).at == EndSend
    requires FlexusFits(me) && NoBarrierFault(me.fault)
    ensures Quiet(me, ThreadStep(q, me, t), ControlOf(me, Step(t)))
  {
  }

  lemma QuietGate(q: nat, me: Side, t: Thread)
    requires PcOf(me, t).at == EndRead || PcOf(me, t).at == EndSwap
    requires FlexusFits(me) && NoBarrierFault(me.fault)
    ensures Quiet(me, ThreadStep(q, me, t), None)
  {
    if PcOf(me, t).at == EndRead {
      if t == Main {
        if me.ex.permitted {} else {}
      }
    } else if t == Main {
      if me.ex.endSent {} else {}
    }
  }

  lemma QuietFlag(q: nat, me: Side, t: Thread)
    requires PcOf(me, t).at in {GrantSet, Ready, Return, Quit}
    requires FlexusFits(me) && NoBarrierFault(me.fault)
    ensures Quiet(me, ThreadStep(q, me, t), None)
  {
  }

  lemma QuietThreadStep(q: nat, me: Side, t: Thread)
    requires PcOf(me, t).at != Idle && PcOf(me, t).at != Advance
    requires FlexusFits(me) && NoBarrierFault(me.fault)
    ensures Quiet(me, ThreadStep(q, me, t), ControlOf(me, Step(t)))
  {
    match PcOf(me, t).at
    case GrantSend | EndSend => QuietTransmit(q, me, t);
    case EndRead | EndSwap => QuietGate(q, me, t);
    case _ => QuietFlag(q, me, t);
  }

  lemma QuietCalls(q: nat, me: Side, peerSent: Log, a: Action)
    requires Enabled(me, peerSent, a) && FlexusFits(me)
    requires a.CallCanStop? || a.CallNotify? || a.TakeExit?
    ensures Quiet(me, Next(q, me, peerSent, a), ControlOf(me, a))
  {
    match a
    case CallCanStop => if me.master {} else if me.ex.intentSent {} else {}
    case CallNotify(t) => if t == Main {} else {}
    case TakeExit => if me.ex.permitted {} else {}
  }

  lemma QuietSteps(q: nat, me: Side, peerSent: Log, a: Action)
    requires Enabled(me, peerSent, a) && IsQuiet(me, a)
    requires FlexusFits(me)
    ensures Quiet(me, Next(q, me, peerSent, a), ControlOf(me, a))
  {
    match a
    case Step(t) => QuietThreadStep(q, me, t);
    case CallCanStop | CallNotify(_) | TakeExit => QuietCalls(q, me, peerSent, a);
    case SendNotice =>
    case Initiate => if me.master {} else {}
    case SnapshotNow => if me.master && me.warm {} else {}
  }

  function NoticeOf(me: Side): Log {
    if me.ck.needs && !me.ck.notified then [Message(Universal(me.bar), DrainStart(me.bar.round))] else []
  }

  /** Everything a step appends to the node's log. */
  function Tail(q: nat, me: Side, a: Action): Log {
    match a
    case SendPacket(data) => [Message(Universal(me.bar) + q, Packet(data))]
    case SendSync => NoticeOf(me) + [Message(Universal(me.bar), Sync(me.bar.round))]
    case Check => NoticeOf(me)
    case _ => WithMessage([], ControlOf(me, a))
  }

  lemma LogGrows(q: nat, me: Side, peerSent: Log, a: Action)
    requires Enabled(me, peerSent, a)
    ensures Next(q, me, peerSent, a).sent == me.sent + Tail(q, me, a)
  {
    match a
    case Poll => ReceiveSendsNothing(me, peerSent[me.recv]);
    case FireDelivery =>
    case Step(t) => ThreadStepSends(q, me, t);
    case _ =>
  }

  lemma ReceiveSendsNothing(me: Side, m: Message)
    ensures Receive(me, m).sent == me.sent
  {
    match m.body
    case Sync(_) =>
    case _ =>
  }

  lemma ThreadStepSends(q: nat, me: Side, t: Thread)
    requires PcOf(me, t).at != Idle
    ensures ThreadStep(q, me, t).sent == me.sent + Tail(q, me, Step(t))
  {
    match PcOf(me, t).at
    case GrantSend | EndSend =>
    case _ =>
  }

  // ----- The other steps

  lemma SendPacketKeeps(q: nat, me: Side, peer: Side, data: seq<Byte>)
    requires Half(q, me, peer) && Half(q, peer, me) && Enabled(me, peer.sent, SendPacket(data))
    ensures Half(q, Next(q, me, peer.sent, SendPacket(data)), peer)
        && Half(q, peer, Next(q, me, peer.sent, SendPacket(data)))
  {
    AppendKeeps(q, me.sent, Message(Universal(me.bar) + q, Packet(data)), peer.recv);
  }

  function Noticed(me: Side): Side {
    if me.ck.needs && !me.ck.notified then NotifyDrain(me) else me
  }

  lemma NoticeKeeps(q: nat, me: Side, peer: Side)
    requires Half(q, me, peer) && Half(q, peer, me)
    ensures Half(q, Noticed(me), peer) && Half(q, peer, Noticed(me))
  {
    var m := if me.ck.needs && !me.ck.notified
             then Some(Message(Universal(me.bar), DrainStart(me.bar.round))) else None;
    QuietKeeps(q, me, Noticed(me), m, peer);
  }

  lemma SendSyncKeeps(q: nat, me: Side, peer: Side)
    requires Half(q, me, peer) && Half(q, peer, me) && Enabled(me, peer.sent, SendSync)
    ensures Half(q, Next(q, me, peer.sent, SendSync), peer) && Half(q, peer, Next(q, me, peer.sent, SendSync))
  {
    NoticeKeeps(q, me, peer);
    AppendKeeps(q, Noticed(me).sent, Message(Universal(me.bar), Sync(me.bar.round)), peer.recv);
  }

  lemma CheckKeeps(q: nat, me: Side, peer: Side)
    requires Half(q, me, peer) && Half(q, peer, me) && Enabled(me, peer.sent, Check)
    requires me.bar.round < KEY_SPAN
    ensures Half(q, Next(q, me, peer.sent, Check), peer) && Half(q, peer, Next(q, me, peer.sent, Check))
  {
    hide LogFits, ClockFits, NoneLate;
    NoticeKeeps(q, me, peer);
    assert SyncCountGet(me.bar.counts, me.bar.round) == 1;
  }

  lemma AdvanceKeeps(q: nat, me: Side, peer: Side)
    requires Half(q, me, peer) && Half(q, peer, me) && Enabled(me, peer.sent, Step(Main)) && me.main.at == Advance
    ensures Half(q, Next(q, me, peer.sent, Step(Main)), peer) && Half(q, peer, Next(q, me, peer.sent, Step(Main)))
  {
    RoundEndIs(q, me.bar.round + 1);
  }

  lemma TimerKeeps(q: nat, me: Side, peer: Side, a: Action)
    requires Half(q, me, peer) && Half(q, peer, me) && Enabled(me, peer.sent, a)
    requires a.Run? || a.QuantumTimer? || a.Stop?
    ensures Half(q, Next(q, me, peer.sent, a), peer) && Half(q, peer, Next(q, me, peer.sent, a))
  {
    match a
    case Run(_) =>
    case QuantumTimer =>
    case _ =>
  }

  /** Firing takes one delivery out and touches nothing else of the barrier. */
  lemma FireLeaves(me: Side)
    requires FirstDue(me.bar.deliveries, me.bar.clock) < |me.bar.deliveries| && NoneLate(me.bar)
    requires NoBarrierFault(me.fault)
    ensures NoneLate(Fire(me).bar) && NoBarrierFault(Fire(me).fault)
    ensures Fire(me) == me.(bar := me.bar.(deliveries := Fire(me).bar.deliveries, delivered := Fire(me).bar.delivered),
                            fault := Fire(me).fault)
  {
    var i := FirstDue(me.bar.deliveries, me.bar.clock);
    if me.bar.deliveries[i].data == [] {} else {
      var ds := me.bar.deliveries[..i] + me.bar.deliveries[i + 1..];
      forall j | 0 <= j < |ds| ensures me.bar.clock <= ds[j].at {
        assert ds[j] == me.bar.deliveries[if j < i then j else j + 1];
      }
    }
  }

  lemma FireKeeps(q: nat, me: Side, peer: Side)
    requires Half(q, me, peer) && Half(q, peer, me) && Enabled(me, peer.sent, FireDelivery)
    ensures Half(q, Next(q, me, peer.sent, FireDelivery), peer) && Half(q, peer, Next(q, me, peer.sent, FireDelivery))
  {
    FireLeaves(me);
  }

  /** The two asserts of the receive callback cannot fire: no packet arrives in the past, no sync
      arrives for a wrong round. */
  lemma PolledMessageIsFine(q: nat, me: Side, peer: Side)
    requires Half(q, me, peer) && Half(q, peer, me) && me.recv < |peer.sent|
    ensures var m := peer.sent[me.recv];
            && (m.body.Packet? ==> Universal(me.bar) <= m.ts)
            && (m.body.Sync? ==> m.body.round == SyncsSeen(me, peer) && ValidRound(me.bar, m.body.round))
  {
    var m := peer.sent[me.recv];
    assert WellSent(q, peer.sent, me.recv);
    if m.body.Packet? {
      RoundEndMono(q, me.bar.round, SyncsSeen(me, peer));
    } else if m.body.Sync? {
      CountSeen(peer.sent, me.recv, KSync);
      Chain(me, peer);
    }
  }

  lemma TableGrows(table: SyncTable, seen: nat)
    requires TableFits(table, seen) && seen < KEY_SPAN
    ensures TableFits(SyncCountIncrement(table, seen), seen + 1)
  {
    forall k: nat | k < KEY_SPAN
      ensures SyncCountGet(SyncCountIncrement(table, seen), k) == if k < seen + 1 then 1 else 0
    {
      assert SyncCountGet(table, k) == if k < seen then 1 else 0;
      assert SyncCountGet(table, seen) == 0;
    }
  }

  lemma PollSyncKeeps(q: nat, me: Side, peer: Side)
    requires Half(q, me, peer) && Half(q, peer, me) && Enabled(me, peer.sent, Poll)
    requires peer.bar.round < KEY_SPAN && peer.sent[me.recv].body.Sync?
    ensures Half(q, Next(q, me, peer.sent, Poll), peer) && Half(q, peer, Next(q, me, peer.sent, Poll))
  {
    PolledMessageIsFine(q, me, peer);
    CountSeen(peer.sent, me.recv, KSync);
    TableGrows(me.bar.counts, SyncsSeen(me, peer));
  }

  lemma PollPacketKeeps(q: nat, me: Side, peer: Side)
    requires Half(q, me, peer) && Half(q, peer, me) && Enabled(me, peer.sent, Poll)
    requires peer.sent[me.recv].body.Packet?
    ensures Half(q, Next(q, me, peer.sent, Poll), peer) && Half(q, peer, Next(q, me, peer.sent, Poll))
  {
    PolledMessageIsFine(q, me, peer);
  }

  lemma QuietReceipt(me: Side, m: Message)
    requires IsControl(Some(m)) && FlexusFits(me) && NoBarrierFault(me.fault)
    ensures Quiet(me, Receive(me, m), None)
  {
    match m.body
    case DrainStart(_) =>
    case Intent =>
    case Permission =>
    case EndOfEmulation =>
    case InitStep => if me.master {} else {}
    case Notice =>
    case _ =>
  }

  lemma PollControlKeeps(q: nat, me: Side, peer: Side)
    requires Half(q, me, peer) && Half(q, peer, me) && Enabled(me, peer.sent, Poll)
    requires IsControl(Some(peer.sent[me.recv]))
    ensures Half(q, Next(q, me, peer.sent, Poll), peer) && Half(q, peer, Next(q, me, peer.sent, Poll))
  {
    QuietReceipt(me, peer.sent[me.recv]);
    QuietKeeps(q, me, Receive(me, peer.sent[me.recv]), None, peer);
  }

  lemma StepKeepsHalves(q: nat, me: Side, peer: Side, a: Action)
    requires Half(q, me, peer) && Half(q, peer, me) && Enabled(me, peer.sent, a)
    requires me.bar.round < KEY_SPAN && peer.bar.round < KEY_SPAN
    ensures Half(q, Next(q, me, peer.sent, a), peer) && Half(q, peer, Next(q, me, peer.sent, a))
  {
    hide LogFits, TableFits, ClockFits, NoneLate;
    if IsQuiet(me, a) {
      QuietSteps(q, me, peer.sent, a);
      QuietKeeps(q, me, Next(q, me, peer.sent, a), ControlOf(me, a), peer);
    } else {
      match a {
        case SendPacket(data) => SendPacketKeeps(q, me, peer, data);
        case SendSync => SendSyncKeeps(q, me, peer);
        case Check => CheckKeeps(q, me, peer);
        case Poll =>
          if peer.sent[me.recv].body.Sync? { PollSyncKeeps(q, me, peer); }
          else if peer.sent[me.recv].body.Packet? { PollPacketKeeps(q, me, peer); }
          else { PollControlKeeps(q, me, peer); }
        case Step(t) => AdvanceKeeps(q, me, peer);
        case FireDelivery => FireKeeps(q, me, peer);
        case _ => TimerKeeps(q, me, peer, a);
      }
    }
  }

  lemma StepKeepsInv(q: nat, s: Sys, l: Label)
    requires Inv(q, s) && RoundsFit(s) && CanStep(s, l)
    ensures Inv(q, NextSys(q, s, l))
  {
    StepKeepsHalves(q, Mine(s, l.who), Peers(s, l.who), l.act);
  }

  lemma InitialInv(q: nat, s: Sys)
    requires Init(s)
    ensures Inv(q, s)
  {
  }

  lemma NextSysIs(q: nat, s: Sys, l: Label, next: Side)
    requires CanStep(s, l) && next == Next(q, Mine(s, l.who), Peers(s, l.who).sent, l.act)
    ensures NextSys(q, s, l) == if l.who == Master then Sys(next, s.f) else Sys(s.m, next)
  {
  }

  // ----- Over every run

  /** The states of all finite runs during which the rounds fit the sync table's keys. */
  ghost predicate Reachable(q: nat, s: Sys) {
    exists states, labels :: IsRun(q, states, labels) && AllFit(states) && states[|states| - 1] == s
  }

  ghost predicate AllFit(states: seq<Sys>) {
    forall i :: 0 <= i < |states| ==> RoundsFit(states[i])
  }

  lemma {:induction false} RunInv(q: nat, states: seq<Sys>, labels: seq<Label>, i: nat)
    requires IsRun(q, states, labels) && AllFit(states) && i < |states|
    ensures Inv(q, states[i])
  {
    hide Inv;
    if i == 0 {
      InitialInv(q, states[0]);
    } else {
      RunInv(q, states, labels, i - 1);
      StepKeepsInv(q, states[i - 1], labels[i - 1]);
    }
  }

  lemma ReachableInv(q: nat, s: Sys)
    requires Reachable(q, s)
    ensures Inv(q, s) && RoundsFit(s)
  {
    var states, labels :| IsRun(q, states, labels) && AllFit(states) && states[|states| - 1] == s;
    RunInv(q, states, labels, |states| - 1);
  }

  /** Causality and sync-round validity: whatever is polled next, in any reachable state, is neither
      a packet from the past nor a sync for a wrong round, and neither assert has fired before. */
  lemma Causality(q: nat, s: Sys, w: Who)
    requires Reachable(q, s)
    ensures NoBarrierFault(Mine(s, w).fault)
    ensures Mine(s, w).recv < |Peers(s, w).sent| ==>
              var m := Peers(s, w).sent[Mine(s, w).recv];
              && (m.body.Packet? ==> Universal(Mine(s, w).bar) <= m.ts)
              && (m.body.Sync? ==> ValidRound(Mine(s, w).bar, m.body.round)
                                   && SyncCountGet(Mine(s, w).bar.counts, m.body.round) == 0)
  {
    ReachableInv(q, s);
    if Mine(s, w).recv < |Peers(s, w).sent| {
      PolledMessageIsFine(q, Mine(s, w), Peers(s, w));
      if Peers(s, w).sent[Mine(s, w).recv].body.Sync? {
        CountSeen(Peers(s, w).sent, Mine(s, w).recv, KSync);
      }
    }
  }

  /** `quanta_sync` always finds the sync-check timer free: while a node runs none exists. */
  lemma SyncTimerIsFree(q: nat, s: Sys, w: Who)
    requires Reachable(q, s) && Enabled(Mine(s, w), Peers(s, w).sent, QuantumTimer)
    ensures !Mine(s, w).bar.checkArmed
  {
    hide CountersFit, LogFits, TableFits, NoneLate, Reachable;
    ReachableInv(q, s);
  }

  /** The clocks: a node in round k stands within the quantum that ends at k * q, exactly at its end
      when it has finished. */
  lemma ClockInQuantum(q: nat, s: Sys, w: Who)
    requires Reachable(q, s)
    ensures var me := Mine(s, w).bar;
            && (me.round == 0 ==> Universal(me) == 0)
            && (me.round > 0 ==> (me.round - 1) * q <= Universal(me) <= me.round * q)
            && (me.finished ==> Universal(me) == me.round * q)
  {
    hide CountersFit, LogFits, TableFits, NoneLate, Reachable;
    ReachableInv(q, s);
    var me := Mine(s, w);
    assert ClockFits(q, me.bar);
    RoundEndIs(q, me.bar.round);
    if me.bar.round > 0 { RoundEndIs(q, me.bar.round - 1); }
  }

  /** Rounds differ by at most one, and clocks by at most one quantum. */
  lemma ClockSkew(q: nat, s: Sys, w: Who)
    requires Reachable(q, s)
    ensures var me, peer := Mine(s, w).bar, Peers(s, w).bar;
            && me.round <= peer.round + 1
            && Universal(me) <= Universal(peer) + q && Universal(peer) <= Universal(me) + q
  {
    hide LogFits, TableFits, NoneLate, Reachable;
    ReachableInv(q, s);
    SkewOf(q, Mine(s, w), Peers(s, w));
    SkewOf(q, Peers(s, w), Mine(s, w));
  }

  lemma SkewOf(q: nat, me: Side, peer: Side)
    requires CountersFit(me, peer) && CountersFit(peer, me) && ClockFits(q, me.bar) && ClockFits(q, peer.bar)
    ensures me.bar.round <= peer.bar.round + 1 && Universal(me.bar) <= Universal(peer.bar) + q
  {
    Chain(me, peer);
    CountMono(peer.sent, me.recv, |peer.sent|, KSync);
    if me.bar.round <= peer.bar.round {
      RoundEndMono(q, me.bar.round, peer.bar.round);
    } else {
      assert peer.bar.checkArmed;
    }
  }

  /** A log prefix holding more than k syncs holds the sync of round k. */
  lemma {:induction false} NthSync(q: nat, log: Log, n: nat, k: nat) returns (p: nat)
    requires LogFits(q, log) && n <= |log| && k < Count(log, n, KSync)
    ensures p < n && log[p].body == Sync(k) && Count(log, p, KSync) == k
  {
    if Count(log, n - 1, KSync) == k {
      p := n - 1;
      assert WellSent(q, log, p);
    } else {
      p := NthSync(q, log, n - 1, k);
    }
  }

  /** The barrier opens exactly when the peer's sync for this very round has been taken: the table
      keyed by 32 bits never answers with an older round's count, and counts no round twice. */
  lemma BarrierOpensOnPeerOnly(q: nat, s: Sys, w: Who)
    requires Reachable(q, s)
    ensures Waiting(Mine(s, w).bar) <==>
              !exists p :: 0 <= p < Mine(s, w).recv && p < |Peers(s, w).sent|
                           && Peers(s, w).sent[p].body == Sync(Mine(s, w).bar.round)
    ensures forall k: nat :: k < KEY_SPAN ==> 0 <= SyncCountGet(Mine(s, w).bar.counts, k) <= 1
  {
    ReachableInv(q, s);
    var me, peer := Mine(s, w), Peers(s, w);
    assert SyncCountGet(me.bar.counts, me.bar.round) == if me.bar.round < SyncsSeen(me, peer) then 1 else 0;
    if !Waiting(me.bar) {
      var p := NthSync(q, peer.sent, me.recv, me.bar.round);
    } else {
      forall p | 0 <= p < me.recv ensures peer.sent[p].body != Sync(me.bar.round) {
        if peer.sent[p].body == Sync(me.bar.round) {
          assert WellSent(q, peer.sent, p);
          CountMono(peer.sent, p + 1, me.recv, KSync);
        }
      }
    }
  }
}
