/** Coordinated checkpoints: when the master asks in time and not too often, both nodes snapshot at
    exactly the requested rounds, hold the peer's sync of that round, and have lost no packet. */
module Checkpoint {
  import opened Messages
  import opened Machine
  import opened Barrier
  import opened Conservation

  // ----- What the master must keep to

  /** The request is visible before the sync of the current round goes out. */
  predicate Timely(me: Side) {
    !me.bar.checkArmed
  }

  /** The node has taken a snapshot of that round. */
  ghost predicate Snapped(me: Side, round: nat) {
    exists p :: 0 <= p < |me.ck.snaps| && me.ck.snaps[p].round == round
  }

  predicate Far(me: Side) {
    me.ck.requests == [] || me.ck.requests[|me.ck.requests| - 1] + 2 <= me.bar.round
  }

  predicate Close(me: Side) {
    me.ck.requests != [] && me.ck.requests[|me.ck.requests| - 1] + 1 == me.bar.round
  }

  /** A request now is safe: in time, and the previous one at least two rounds back, or one round
      back and already served by the peer, or still pending for this very round. */
  ghost predicate Safe(me: Side, peer: Side) {
    Timely(me) && (me.ck.needs || Far(me) || (Close(me) && Snapped(peer, me.bar.round - 1)))
  }

  /** Every request is made when it is safe. */
  ghost predicate Paced(me: Side, peer: Side, a: Action) {
    AsksNow(me, peer.sent, a) ==> Safe(me, peer)
  }

  /** What the master can check by itself: it already holds its peer's sync of this round when the
      previous request is only one round back. */
  predicate LocallySafe(me: Side) {
    Timely(me) && (me.ck.needs || Far(me) || (Close(me) && !Waiting(me.bar)))
  }

  // ----- The invariant

  /** The rounds named by the drain notices among the first n messages. */
  function Drains(log: Log, n: nat): seq<nat>
    requires n <= |log|
  {
    if n == 0 then []
    else if log[n - 1].body.DrainStart? then Drains(log, n - 1) + [log[n - 1].body.ckRound]
    else Drains(log, n - 1)
  }

  function SnapRounds(snaps: seq<Snapshot>): seq<nat> {
    if snaps == [] then [] else SnapRounds(snaps[..|snaps| - 1]) + [snaps[|snaps| - 1].round]
  }

  predicate Spread(rounds: seq<nat>) {
    forall i, j :: 0 <= i < j < |rounds| ==> rounds[i] < rounds[j]
  }

  /** A drain notice stands among the messages of the round it names, before that round's sync. */
  predicate WellDrained(log: Log, i: nat)
    requires i < |log|
  {
    log[i].body.DrainStart? ==> log[i].body.ckRound == Count(log, i, KSync)
  }

  ghost predicate AllDrained(log: Log) {
    forall i :: 0 <= i < |log| ==> WellDrained(log, i)
  }

  /** A snapshot of round c was taken holding the peer's sync of round c. */
  predicate SnapFits(s: Snapshot, me: Side, peer: Side) {
    s.received <= me.recv <= |peer.sent| && s.round < Count(peer.sent, s.received, KSync)
  }

  ghost predicate SnapsFit(me: Side, peer: Side) {
    forall i :: 0 <= i < |me.ck.snaps| ==> SnapFits(me.ck.snaps[i], me, peer)
  }

  predicate ScheduleFits(me: Side, peer: Side)
    requires me.recv <= |peer.sent|
  {
    && (me.main.at == Idle ==> me.main.after == Idle)
    && (me.ck.scheduled ==> me.ck.needs && me.ck.ckRound == me.bar.round && me.bar.checkArmed
                            && me.bar.round < SyncsSeen(me, peer))
    && me.fault != Some(CheckpointPassed)
  }

  /** The requests that are over: all, or all but the last. */
  function Served(ck: Ck): seq<nat> {
    if ck.needs && ck.requests != [] then ck.requests[..|ck.requests| - 1] else ck.requests
  }

  /** The requests the peer has been told of. */
  function Told(ck: Ck): seq<nat> {
    if ck.needs && !ck.notified && ck.requests != [] then ck.requests[..|ck.requests| - 1] else ck.requests
  }

  /** The master's part; a pending checkpoint is told of with the sync of its round, not before. */
  ghost predicate MasterFits(me: Side) {
    MasterRecord(me) && (me.ck.needs && !me.bar.checkArmed ==> !me.ck.notified)
  }

  ghost predicate MasterRecord(me: Side) {
    && me.master
    && Spread(me.ck.requests)
    && (forall i :: 0 <= i < |me.ck.requests| ==> me.ck.requests[i] <= me.bar.round)
    && (me.ck.needs ==> me.ck.requests != [] && me.ck.ckRound == me.bar.round == me.ck.requests[|me.ck.requests| - 1])
    && (me.ck.needs && me.bar.checkArmed ==> me.ck.notified)
    && (!me.ck.needs && !me.bar.checkArmed && me.ck.requests != [] ==>
          me.ck.requests[|me.ck.requests| - 1] < me.bar.round)
    && (Closing(me) ==> !me.ck.needs)
    && SnapRounds(me.ck.snaps) == Served(me.ck)
    && Drains(me.sent, |me.sent|) == Told(me.ck)
    && AllDrained(me.sent)
  }

  function Due(ck: Ck): seq<nat> {
    if ck.needs then [ck.ckRound] else []
  }

  /** Where a request follows the previous one by one round, that one has been served here. */
  ghost predicate CloseServed(snaps: seq<Snapshot>, requests: seq<nat>) {
    forall k :: 0 <= k < |requests| - 1 && CloseAt(requests, k) ==> k < |snaps|
  }

  predicate CloseAt(requests: seq<nat>, k: nat)
    requires k < |requests| - 1
  {
    requests[k] + 1 == requests[k + 1]
  }

  ghost predicate FollowerFits(me: Side, peer: Side)
    requires me.recv <= |peer.sent|
  {
    && !me.master
    && CloseServed(me.ck.snaps, peer.ck.requests)
    && (me.ck.needs ==> me.bar.round <= me.ck.ckRound)
    && (me.ck.needs && Closing(me) ==> me.bar.round < me.ck.ckRound)
    && SnapRounds(me.ck.snaps) + Due(me.ck) == Drains(peer.sent, me.recv)
  }

  // ----- Logs

  lemma {:induction false} DrainsExtend(log: Log, more: Log, n: nat)
    requires n <= |log|
    ensures Drains(log + more, n) == Drains(log, n)
  {
    if n > 0 { DrainsExtend(log, more, n - 1); }
  }

  /** The peer's log growing changes nothing this node has seen. */
  lemma PeerGrows(me: Side, peer: Side, next: Side, tail: Log)
    requires me.recv <= |peer.sent| && next.sent == peer.sent + tail
    requires ScheduleFits(me, peer) && SnapsFit(me, peer)
    ensures ScheduleFits(me, next) && SnapsFit(me, next)
    ensures Drains(next.sent, me.recv) == Drains(peer.sent, me.recv)
  {
    CountExtend(peer.sent, tail, me.recv, KSync);
    DrainsExtend(peer.sent, tail, me.recv);
    forall i | 0 <= i < |me.ck.snaps| ensures SnapFits(me.ck.snaps[i], me, next) {
      assert SnapFits(me.ck.snaps[i], me, peer);
      CountExtend(peer.sent, tail, me.ck.snaps[i].received, KSync);
    }
  }

  lemma OneMore(log: Log, m: Message)
    requires AllDrained(log) && (m.body.DrainStart? ==> m.body.ckRound == Total(log, KSync))
    ensures AllDrained(log + [m])
    ensures Drains(log + [m], |log + [m]|)
         == Drains(log, |log|) + if m.body.DrainStart? then [m.body.ckRound] else []
  {
    DrainsExtend(log, [m], |log|);
    forall i | 0 <= i < |log + [m]| ensures WellDrained(log + [m], i) {
      CountExtend(log, [m], i, KSync);
      assert i < |log| ==> WellDrained(log, i);
    }
  }

  /** Polling one message on: what a node has seen only grows. */
  lemma SeenGrows(me: Side, next: Side, peer: Side)
    requires me.recv < |peer.sent| && next.recv == me.recv + 1
    requires next.ck.snaps == me.ck.snaps && SnapsFit(me, peer)
    ensures SnapsFit(next, peer) && SyncsSeen(me, peer) <= SyncsSeen(next, peer)
  {
    forall i | 0 <= i < |next.ck.snaps| ensures SnapFits(next.ck.snaps[i], next, peer) {
      assert SnapFits(me.ck.snaps[i], me, peer);
    }
  }

  lemma TakenSnapshot(snaps: seq<Snapshot>, s: Snapshot)
    ensures SnapRounds(snaps + [s]) == SnapRounds(snaps) + [s.round]
  {
    assert (snaps + [s])[..|snaps|] == snaps;
  }

  // ----- Steps that do not concern checkpoints

  /** Nothing about checkpoints changes, and no drain notice is sent. */
  predicate CkQuiet(me: Side, next: Side, m: Option<Message>) {
    && next.ck == me.ck && next.recv == me.recv && next.master == me.master
    && next.bar.round == me.bar.round && next.bar.checkArmed == me.bar.checkArmed
    && (Closing(next) ==> Closing(me))
    && (next.main.at == Idle ==> next.main.after == Idle)
    && next.sent == WithMessage(me.sent, m) && (m.Some? ==> !m.value.body.DrainStart?)
    && next.fault != Some(CheckpointPassed)
  }

  predicate IsCkQuiet(me: Side, a: Action) {
    match a
    case SendSync | Check | Poll | SnapshotNow | Initiate => false
    case Step(t) => PcOf(me, t).at != Advance
    case _ => true
  }

  function CkMessage(q: nat, me: Side, a: Action): Option<Message> {
    match a
    case SendPacket(data) => Some(Message(Universal(me.bar) + q, Packet(data)))
    case _ => ControlOf(me, a)
  }

  lemma CkQuietThread(q: nat, me: Side, t: Thread)
    requires PcOf(me, t).at != Idle && PcOf(me, t).at != Advance
    requires FlexusFits(me) && me.fault.None? && (me.main.at == Idle ==> me.main.after == Idle)
    ensures CkQuiet(me, ThreadStep(q, me, t), ControlOf(me, Step(t)))
  {
    match PcOf(me, t).at
    case GrantSend | EndSend => CkQuietTransmit(q, me, t);
    case EndRead | EndSwap => CkQuietGate(q, me, t);
    case GrantSet => if t == Main {} else {}
    case Ready => if t == Main {} else {}
    case Return => if t == Main {} else {}
    case Quit =>
    case _ =>
  }

  lemma CkQuietTransmit(q: nat, me: Side, t: Thread)
    requires PcOf(me, t).at == GrantSend || PcOf(me, t).at == EndSend
    requires me.fault.None? && (me.main.at == Idle ==> me.main.after == Idle)
    ensures CkQuiet(me, ThreadStep(q, me, t), ControlOf(me, Step(t)))
  {
    if t == Main {} else {}
  }

  lemma CkQuietGate(q: nat, me: Side, t: Thread)
    requires PcOf(me, t).at == EndRead || PcOf(me, t).at == EndSwap
    requires me.fault.None? && (me.main.at == Idle ==> me.main.after == Idle)
    ensures CkQuiet(me, ThreadStep(q, me, t), None)
  {
    if PcOf(me, t).at == EndRead {
      if me.ex.permitted { if t == Main {} else {} } else { if t == Main {} else {} }
    } else {
      if me.ex.endSent { if t == Main {} else {} } else { if t == Main {} else {} }
    }
  }

  lemma CkQuietCalls(q: nat, me: Side, peerSent: Log, a: Action)
    requires Enabled(me, peerSent, a) && FlexusFits(me) && (me.main.at == Idle ==> me.main.after == Idle)
    requires a.CallCanStop? || a.CallNotify? || a.TakeExit?
    ensures CkQuiet(me, Next(q, me, peerSent, a), CkMessage(q, me, a))
  {
    hide CanStop, NotifyEnd;
    match a
    case CallCanStop => CkQuietAsk(me);
    case CallNotify(t) => CkQuietNotify(me, t, Idle);
    case TakeExit => if me.ex.permitted { CkQuietNotify(me, Main, Quit); } else {}
  }

  lemma CkQuietAsk(me: Side)
    requires me.fault.None? && (me.main.at == Idle ==> me.main.after == Idle)
    ensures CkQuiet(me, CanStop(me), ControlOf(me, CallCanStop))
  {
    if me.master {} else if me.ex.intentSent {} else {}
  }

  lemma CkQuietNotify(me: Side, t: Thread, after: Point)
    requires PcOf(me, t).at == Idle && after in {Idle, Quit} && me.fault.None?
    requires me.main.at == Idle ==> me.main.after == Idle
    ensures CkQuiet(me, NotifyEnd(me, t, after), None)
  {
    var next := NotifyEnd(me, t, after);
    NotifyMoves(me, t, after);
    assert WithMessage(me.sent, None) == me.sent;
  }

  /** A notification touches its flag and the calling thread alone. */
  lemma NotifyMoves(me: Side, t: Thread, after: Point)
    ensures var next := NotifyEnd(me, t, after);
            && next == me.(ex := me.ex.(notifiedExit := true), main := next.main, flex := next.flex)
            && (t == Flexus ==> next.main == me.main)
            && (t == Main ==> next.main in {Pc(after, Idle), Pc(EndRead, after)})
  {
    if t == Main {} else {}
  }

  lemma CkQuietSteps(q: nat, me: Side, peerSent: Log, a: Action)
    requires Enabled(me, peerSent, a) && IsCkQuiet(me, a) && FlexusFits(me)
    requires me.main.at == Idle ==> me.main.after == Idle
    ensures CkQuiet(me, Next(q, me, peerSent, a), CkMessage(q, me, a))
  {
    hide ThreadStep, CanStop, NotifyEnd, ExitBranch, FirstDue;
    match a
    case Step(t) => CkQuietThread(q, me, t);
    case CallCanStop | CallNotify(_) | TakeExit => CkQuietCalls(q, me, peerSent, a);
    case FireDelivery =>
    case Run(_) =>
    case QuantumTimer =>
    case SendPacket(_) | SendNotice =>
    case _ =>
  }

  lemma CkQuietOwn(me: Side, next: Side, m: Option<Message>, peer: Side)
    requires CkQuiet(me, next, m) && me.recv <= |peer.sent|
    requires ScheduleFits(me, peer) && SnapsFit(me, peer)
    ensures ScheduleFits(next, peer) && SnapsFit(next, peer)
    ensures MasterFits(me) ==> MasterFits(next)
    ensures FollowerFits(me, peer) ==> FollowerFits(next, peer)
  {
    forall i | 0 <= i < |next.ck.snaps| ensures SnapFits(next.ck.snaps[i], next, peer) {
      assert SnapFits(me.ck.snaps[i], me, peer);
    }
    if MasterFits(me) && m.Some? {
      OneMore(me.sent, m.value);
    }
  }

  // ----- The sync, and the notice before it

  lemma NoticeInTime(q: nat, me: Side, peer: Side)
    requires Half(q, me, peer) && MasterFits(me) && !me.bar.checkArmed
    ensures MasterRecord(Noticed(me)) && (me.ck.needs ==> Noticed(me).ck.notified)
  {
    if me.ck.needs && !me.ck.notified {
      OneMore(me.sent, Message(Universal(me.bar), DrainStart(me.bar.round)));
      assert Told(Noticed(me).ck) == me.ck.requests == Told(me.ck) + [me.bar.round];
    }
  }

  /** The notice of a request stands before the sync of the round it names if and only if the request
      was seen before that sync went out: a request first seen in the barrier check is told too late. */
  lemma NoticeBeforeSyncIffTimely(q: nat, me: Side, peer: Side)
    requires Half(q, me, peer) && me.ck.needs && !me.ck.notified
    ensures |Noticed(me).sent| == |me.sent| + 1 && Noticed(me).sent[|me.sent|].body == DrainStart(me.bar.round)
    ensures WellDrained(Noticed(me).sent, |me.sent|) <==> Timely(me)
  {
    hide LogFits, TableFits, ClockFits, NoneLate;
    CountExtend(me.sent, [Message(Universal(me.bar), DrainStart(me.bar.round))], |me.sent|, KSync);
  }

  lemma MasterSendSync(q: nat, me: Side, peer: Side)
    requires Half(q, me, peer) && MasterFits(me) && Enabled(me, peer.sent, SendSync)
    ensures MasterFits(Next(q, me, peer.sent, SendSync))
  {
    NoticeInTime(q, me, peer);
    var noticed := Noticed(me);
    OneMore(noticed.sent, Message(Universal(me.bar), Sync(me.bar.round)));
  }

  lemma SameSnaps(me: Side, next: Side, peer: Side)
    requires next.ck.snaps == me.ck.snaps && next.recv == me.recv && SnapsFit(me, peer)
    ensures SnapsFit(next, peer)
  {
    forall i | 0 <= i < |next.ck.snaps| ensures SnapFits(next.ck.snaps[i], next, peer) {
      assert SnapFits(me.ck.snaps[i], me, peer);
    }
  }

  // ----- The check

  lemma MasterCheck(q: nat, me: Side, peer: Side)
    requires Half(q, me, peer) && MasterFits(me) && Enabled(me, peer.sent, Check)
    requires ScheduleFits(me, peer) && me.bar.round < KEY_SPAN
    ensures MasterFits(Next(q, me, peer.sent, Check)) && ScheduleFits(Next(q, me, peer.sent, Check), peer)
  {
    assert SyncCountGet(me.bar.counts, me.bar.round) == if me.bar.round < SyncsSeen(me, peer) then 1 else 0;
    if me.ck.needs {} else {}
  }

  lemma FollowerCheck(q: nat, me: Side, peer: Side)
    requires Half(q, me, peer) && FollowerFits(me, peer) && Enabled(me, peer.sent, Check)
    requires ScheduleFits(me, peer) && me.bar.round < KEY_SPAN
    ensures FollowerFits(Next(q, me, peer.sent, Check), peer) && ScheduleFits(Next(q, me, peer.sent, Check), peer)
  {
    assert SyncCountGet(me.bar.counts, me.bar.round) == if me.bar.round < SyncsSeen(me, peer) then 1 else 0;
    if me.ck.needs {
      if me.bar.round < me.ck.ckRound {} else {}
    } else {}
  }

  // ----- Receiving a notice

  lemma {:induction false} DrainsAreTold(log: Log, n: nat)
    requires n <= |log|
    ensures Drains(log, n) <= Drains(log, |log|)
    decreases |log| - n
  {
    if n < |log| { DrainsAreTold(log, n + 1); }
  }

  /** A follower is never told of a checkpoint while one is still due: of two requests one round apart the
      first has been served, and further ahead than one round the master cannot be. */
  lemma NoOverwrite(q: nat, me: Side, peer: Side)
    requires Half(q, me, peer) && Half(q, peer, me) && MasterFits(peer) && FollowerFits(me, peer)
    requires me.recv < |peer.sent| && peer.sent[me.recv].body.DrainStart?
    ensures !me.ck.needs && me.bar.round <= peer.sent[me.recv].body.ckRound
  {
    assert WellDrained(peer.sent, me.recv);
    if me.ck.needs {
      var seen := Drains(peer.sent, me.recv);
      DrainsAreTold(peer.sent, me.recv + 1);
      assert seen[|seen| - 1] == me.ck.ckRound;
      var next := Drains(peer.sent, me.recv + 1);
      assert next[|seen| - 1] == me.ck.ckRound && next[|seen|] == peer.sent[me.recv].body.ckRound;
      assert peer.ck.requests[|seen| - 1] < peer.ck.requests[|seen|] <= peer.bar.round;
      SnapRoundsLength(me.ck.snaps);
      assert !CloseAt(peer.ck.requests, |seen| - 1);
      Chain(me, peer);
      assert false;
    }
  }

  lemma {:induction false} SnapRoundsLength(snaps: seq<Snapshot>)
    ensures |SnapRounds(snaps)| == |snaps|
  {
    if snaps != [] { SnapRoundsLength(snaps[..|snaps| - 1]); }
  }

  /** What receiving any message leaves of what matters here. */
  predicate Received(me: Side, m: Message, next: Side) {
    && next.sent == me.sent && next.master == me.master
    && next.bar.round == me.bar.round && next.bar.checkArmed == me.bar.checkArmed
    && (next.main == me.main || next.main == Pc(EndRead, Idle))
    && next.fault != Some(CheckpointPassed)
    && next.ck == CkAfter(me, m)
  }

  function CkAfter(me: Side, m: Message): Ck {
    match m.body
    case DrainStart(round) => if me.master then me.ck else me.ck.(needs := true, ckRound := round)
    case InitStep => CountInit(me).ck
    case _ => me.ck
  }

  lemma ReceiptEffect(me: Side, m: Message)
    requires me.fault.None?
    ensures Received(me, m, Receive(me, m))
  {
    hide CountInit, SyncCountIncrement, ValidRound, Universal;
    match m.body
    case DrainStart(_) =>
    case Intent =>
    case Sync(_) =>
    case Packet(_) =>
    case Permission =>
    case EndOfEmulation =>
    case InitStep => CountInitTouches(me);
    case _ =>
  }

  lemma CountInitTouches(me: Side)
    ensures CountInit(me) == me.(ck := CountInit(me).ck)
  {
    hide Repeats;
  }

  lemma FollowerPoll(q: nat, me: Side, next: Side, peer: Side)
    requires Half(q, me, peer) && Half(q, peer, me) && MasterFits(peer) && FollowerFits(me, peer)
    requires ScheduleFits(me, peer) && MainIdle(me) && me.recv < |peer.sent|
    requires Received(me, peer.sent[me.recv], next) && next.recv == me.recv + 1
    ensures FollowerFits(next, peer) && ScheduleFits(next, peer)
  {
    CountMono(peer.sent, me.recv, me.recv + 1, KSync);
    if peer.sent[me.recv].body.DrainStart? {
      NoOverwrite(q, me, peer);
    }
  }

  lemma MasterPoll(me: Side, next: Side, peer: Side)
    requires MasterFits(me) && me.recv < |peer.sent| && ScheduleFits(me, peer) && MainIdle(me)
    requires Received(me, peer.sent[me.recv], next) && next.recv == me.recv + 1
    requires Paced(me, peer, Poll)
    ensures MasterFits(next) && ScheduleFits(next, peer)
  {
    hide Spread, AllDrained, Drains, SnapRounds, Snapped, MasterRecord, ScheduleFits;
    assert me.master by { MasterIs(me); }
    MasterSchedule(me, next, peer);
    if AsksNow(me, peer.sent, Poll) {
      SafeWhenAsked(me, peer, Poll);
      RequestFits(me, next);
    } else {
      MasterUntouched(me, next);
    }
  }

  lemma MasterSchedule(me: Side, next: Side, peer: Side)
    requires me.recv < |peer.sent| && ScheduleFits(me, peer) && MainIdle(me) && me.master
    requires Received(me, peer.sent[me.recv], next) && next.recv == me.recv + 1
    ensures ScheduleFits(next, peer) && !Closing(me) && !Closing(next)
  {
    hide Repeats;
    CountMono(peer.sent, me.recv, me.recv + 1, KSync);
  }

  lemma MasterIs(me: Side)
    requires MasterFits(me)
    ensures me.master
  {
  }

  /** A receipt that makes no request leaves the master's part alone. */
  lemma MasterUntouched(me: Side, next: Side)
    requires MasterFits(me) && next.master && next.sent == me.sent && (Closing(next) ==> Closing(me))
    requires next.bar.round == me.bar.round && next.bar.checkArmed == me.bar.checkArmed
    requires next.ck == me.ck.(initFlag := next.ck.initFlag)
    ensures MasterFits(next)
  {
    hide Spread, AllDrained, Drains, SnapRounds;
  }

  // ----- Snapshots and requests

  /** Whether or not the node ends behind it, a snapshot puts the same on record. */
  lemma SnapshotTouches(me: Side)
    ensures var next := TakeSnapshot(me);
            && next.ck == Recorded(me).ck && next.bar == me.bar && next.recv == me.recv && next.sent == me.sent
            && next.master == me.master && next.fault == me.fault && next.halted == me.halted
            && (Closing(next) ==> Closing(me)) && (next.main.at == Idle ==> me.main.at == Idle && next.main == me.main)
  {
    if me.master && me.warm {} else {}
  }

  lemma SnapshotKeeps(me: Side, peer: Side)
    requires me.recv <= |peer.sent| && ScheduleFits(me, peer) && SnapsFit(me, peer)
    requires me.fault.None? && me.ck.scheduled
    ensures ScheduleFits(TakeSnapshot(me), peer) && SnapsFit(TakeSnapshot(me), peer)
  {
    hide TakeSnapshot;
    SnapshotTouches(me);
    var next := TakeSnapshot(me);
    forall i | 0 <= i < |next.ck.snaps| ensures SnapFits(next.ck.snaps[i], next, peer) {
      if i < |me.ck.snaps| { assert SnapFits(me.ck.snaps[i], me, peer); }
    }
  }

  lemma MasterSnapshot(me: Side, peer: Side)
    requires me.recv <= |peer.sent| && ScheduleFits(me, peer) && me.ck.scheduled && MasterFits(me)
    ensures MasterFits(TakeSnapshot(me))
  {
    hide AllDrained, Drains, TakeSnapshot;
    SnapshotTouches(me);
    TakenSnapshot(me.ck.snaps, Snapshot(me.bar.round, me.recv));
    assert Served(Recorded(me).ck) == Served(me.ck) + [me.bar.round];
  }

  lemma FollowerSnapshot(me: Side, peer: Side)
    requires me.recv <= |peer.sent| && ScheduleFits(me, peer) && me.ck.scheduled && FollowerFits(me, peer)
    ensures FollowerFits(TakeSnapshot(me), peer)
  {
    TakenSnapshot(me.ck.snaps, Snapshot(me.bar.round, me.recv));
  }

  /** The master's part after a safe request. */
  lemma RequestFits(me: Side, next: Side)
    requires MasterFits(me) && Timely(me) && (me.ck.needs || Far(me) || Close(me)) && !Closing(me)
    requires next.master && next.bar.round == me.bar.round && next.bar.checkArmed == me.bar.checkArmed
    requires next.sent == me.sent && (Closing(next) ==> Closing(me))
    requires next.ck == RequestCheckpoint(me).ck.(initFlag := next.ck.initFlag, masterInit := next.ck.masterInit)
    ensures MasterFits(next)
  {
    hide AllDrained, Drains, SnapRounds, Spread;
    if !me.ck.needs {
      assert next.ck.requests[..|me.ck.requests|] == me.ck.requests;
      SpreadGrows(me.ck.requests, me.bar.round);
    }
  }

  lemma MasterInitiate(q: nat, me: Side, peer: Side)
    requires MasterFits(me) && Enabled(me, peer.sent, Initiate) && Paced(me, peer, Initiate)
    requires Closing(me) ==> me.bar.checkArmed
    requires me.recv <= |peer.sent| && ScheduleFits(me, peer)
    ensures MasterFits(Next(q, me, peer.sent, Initiate)) && ScheduleFits(Next(q, me, peer.sent, Initiate), peer)
  {
    if me.ck.initFlag >= 1 {
      RequestFits(me, Next(q, me, peer.sent, Initiate));
    }
  }

  lemma FollowerInitiate(q: nat, me: Side, peer: Side)
    requires me.recv <= |peer.sent| && FollowerFits(me, peer) && Enabled(me, peer.sent, Initiate)
    requires ScheduleFits(me, peer)
    ensures FollowerFits(Next(q, me, peer.sent, Initiate), peer) && ScheduleFits(Next(q, me, peer.sent, Initiate), peer)
  {
  }

  lemma SameSnapsInitiate(q: nat, me: Side, peer: Side)
    requires Enabled(me, peer.sent, Initiate) && SnapsFit(me, peer)
    ensures SnapsFit(Next(q, me, peer.sent, Initiate), peer) && Next(q, me, peer.sent, Initiate).master == me.master
    ensures Next(q, me, peer.sent, Initiate).recv == me.recv
  {
    SameSnaps(me, Next(q, me, peer.sent, Initiate), peer);
  }

  lemma SpreadGrows(rounds: seq<nat>, r: nat)
    requires Spread(rounds) && (rounds == [] || rounds[|rounds| - 1] < r)
    ensures Spread(rounds + [r])
  {
    var all := rounds + [r];
    forall i, j | 0 <= i < j < |all| ensures all[i] < all[j] {
      if j == |rounds| && i < |rounds| - 1 { assert rounds[i] < rounds[|rounds| - 1]; }
    }
  }

  // ----- Every step keeps the invariant

  ghost predicate OwnFits(me: Side, peer: Side) {
    && me.recv <= |peer.sent|
    && ScheduleFits(me, peer) && SnapsFit(me, peer)
    && if me.master then MasterFits(me) else FollowerFits(me, peer)
  }

  lemma OwnQuiet(q: nat, me: Side, peer: Side, a: Action)
    requires OwnFits(me, peer) && FlexusFits(me) && Enabled(me, peer.sent, a) && IsCkQuiet(me, a)
    ensures OwnFits(Next(q, me, peer.sent, a), peer) && Next(q, me, peer.sent, a).master == me.master
  {
    hide MasterFits, FollowerFits, SnapsFit, Next, Enabled, IsCkQuiet;
    CkQuietSteps(q, me, peer.sent, a);
    CkQuietOwn(me, Next(q, me, peer.sent, a), CkMessage(q, me, a), peer);
  }

  lemma OwnSync(q: nat, me: Side, peer: Side)
    requires Half(q, me, peer) && OwnFits(me, peer) && Enabled(me, peer.sent, SendSync)
    ensures OwnFits(Next(q, me, peer.sent, SendSync), peer) && Next(q, me, peer.sent, SendSync).master == me.master
  {
    hide LogFits, TableFits, ClockFits, NoneLate, MasterFits, SnapsFit;
    SameSnaps(me, Next(q, me, peer.sent, SendSync), peer);
    if me.master { MasterSendSync(q, me, peer); }
  }

  lemma OwnCheck(q: nat, me: Side, peer: Side)
    requires Half(q, me, peer) && OwnFits(me, peer) && Enabled(me, peer.sent, Check) && me.bar.round < KEY_SPAN
    ensures OwnFits(Next(q, me, peer.sent, Check), peer) && Next(q, me, peer.sent, Check).master == me.master
  {
    hide Half, MasterFits, FollowerFits, SnapsFit, ScheduleFits;
    SameSnaps(me, Next(q, me, peer.sent, Check), peer);
    if me.master { MasterCheck(q, me, peer); } else { FollowerCheck(q, me, peer); }
  }

  lemma OwnSnapshot(me: Side, peer: Side)
    requires OwnFits(me, peer) && Enabled(me, peer.sent, SnapshotNow)
    ensures OwnFits(TakeSnapshot(me), peer) && TakeSnapshot(me).master == me.master
  {
    hide MasterFits, FollowerFits, SnapsFit, ScheduleFits, TakeSnapshot;
    SnapshotKeeps(me, peer);
    SnapshotTouches(me);
    if me.master { MasterSnapshot(me, peer); } else { FollowerSnapshot(me, peer); }
  }

  lemma OwnInitiate(q: nat, me: Side, peer: Side)
    requires Half(q, me, peer) && OwnFits(me, peer) && Enabled(me, peer.sent, Initiate) && Paced(me, peer, Initiate)
    ensures OwnFits(Next(q, me, peer.sent, Initiate), peer) && Next(q, me, peer.sent, Initiate).master == me.master
  {
    hide LogFits, TableFits, ClockFits, NoneLate, MasterFits, FollowerFits, SnapsFit, ScheduleFits;
    hide Next, Enabled, Paced;
    SameSnapsInitiate(q, me, peer);
    if me.master { MasterInitiate(q, me, peer); } else { FollowerInitiate(q, me, peer); }
  }

  /** The node that moves keeps its own part. */
  lemma OwnStep(q: nat, me: Side, peer: Side, a: Action)
    requires Half(q, me, peer) && Half(q, peer, me) && me.master != peer.master
    requires OwnFits(me, peer) && OwnFits(peer, me)
    requires Enabled(me, peer.sent, a) && Paced(me, peer, a) && me.bar.round < KEY_SPAN
    ensures OwnFits(Next(q, me, peer.sent, a), peer) && Next(q, me, peer.sent, a).master == me.master
  {
    hide LogFits, TableFits, ClockFits, NoneLate, OwnFits, Receive, ThreadStep, SyncOut, SyncCheck, TakeSnapshot;
    hide InitiateCheckpoint, Paced;
    if IsCkQuiet(me, a) {
      OwnQuiet(q, me, peer, a);
    } else {
      match a {
        case SendSync => OwnSync(q, me, peer);
        case Check => OwnCheck(q, me, peer);
        case Poll => OwnPoll(q, me, peer);
        case SnapshotNow => OwnSnapshot(me, peer);
        case Initiate => OwnInitiate(q, me, peer);
        case Step(t) =>
          OwnAdvance(q, me, peer);
          SameRole(q, me, peer.sent, a);
        case _ =>
      }
    }
  }

  lemma OwnPoll(q: nat, me: Side, peer: Side)
    requires Half(q, me, peer) && Half(q, peer, me) && me.master != peer.master
    requires OwnFits(me, peer) && OwnFits(peer, me) && Enabled(me, peer.sent, Poll) && Paced(me, peer, Poll)
    ensures OwnFits(Next(q, me, peer.sent, Poll), peer) && Next(q, me, peer.sent, Poll).master == me.master
  {
    hide Half, MasterFits, FollowerFits, SnapsFit, ScheduleFits, Receive, Paced;
    var next := Next(q, me, peer.sent, Poll);
    ReceiptEffect(me, peer.sent[me.recv]);
    SeenGrows(me, next, peer);
    if me.master { MasterPoll(me, next, peer); } else { FollowerPoll(q, me, next, peer); }
  }

  lemma OwnAdvance(q: nat, me: Side, peer: Side)
    requires Half(q, me, peer) && OwnFits(me, peer) && Enabled(me, peer.sent, Step(Main)) && me.main.at == Advance
    ensures OwnFits(Next(q, me, peer.sent, Step(Main)), peer)
  {
    SameSnaps(me, Next(q, me, peer.sent, Step(Main)), peer);
  }

  /** The node that does not move keeps its part: it only reads the log of the other. */
  lemma PeerStep(q: nat, me: Side, peer: Side, a: Action)
    requires OwnFits(peer, me) && Enabled(me, peer.sent, a) && me.master != peer.master
    requires OwnFits(me, peer) && Paced(me, peer, a)
    ensures OwnFits(peer, Next(q, me, peer.sent, a))
  {
    hide Next, Enabled, Tail, Paced, Safe, AsksNow, Spread, AllDrained, SnapsFit, ScheduleFits;
    var next := Next(q, me, peer.sent, a);
    LogGrows(q, me, peer.sent, a);
    PeerGrows(peer, me, next, Tail(q, me, a));
    SameRole(q, me, peer.sent, a);
    if me.master {
      RequestsGrow(q, me, peer.sent, a);
      if AsksNow(me, peer.sent, a) && !Repeats(me) {
        SafeWhenAsked(me, peer, a);
        StillServed(me, peer);
      } else {
        assert me.ck.requests + [] == me.ck.requests;
      }
    }
  }

  lemma SafeWhenAsked(me: Side, peer: Side, a: Action)
    requires Paced(me, peer, a) && AsksNow(me, peer.sent, a)
    ensures Safe(me, peer)
  {
  }

  lemma SameRole(q: nat, me: Side, peerSent: Log, a: Action)
    requires Enabled(me, peerSent, a)
    ensures Next(q, me, peerSent, a).master == me.master
  {
    hide FirstDue;
    match a
    case Poll => ReceiptRole(me, peerSent[me.recv]);
    case Step(t) => StepRole(q, me, t);
    case CallCanStop => if me.master {} else if me.ex.intentSent {} else {}
    case CallNotify(t) => if t == Main {} else {}
    case TakeExit => if me.ex.permitted {} else {}
    case Check => if me.ck.needs {} else {}
    case _ =>
  }

  lemma ReceiptRole(me: Side, m: Message)
    ensures Receive(me, m).master == me.master
  {
    match m.body
    case Sync(_) =>
    case _ =>
  }

  lemma StepRole(q: nat, me: Side, t: Thread)
    requires PcOf(me, t).at != Idle
    ensures ThreadStep(q, me, t).master == me.master
  {
    match PcOf(me, t).at
    case EndRead => if me.ex.permitted {} else {}
    case EndSwap => if me.ex.endSent {} else {}
    case _ =>
  }

  /** The record of requests grows with a request only. */
  lemma RequestsGrow(q: nat, me: Side, peerSent: Log, a: Action)
    requires Enabled(me, peerSent, a)
    ensures Next(q, me, peerSent, a).ck.requests
         == me.ck.requests + if AsksNow(me, peerSent, a) && !Repeats(me) then [me.bar.round] else []
  {
    hide ThreadStep, FirstDue, CanStop, NotifyEnd;
    match a
    case Poll => ReceiptRequests(me, peerSent[me.recv]);
    case Step(t) => ThreadRequests(q, me, t);
    case CallCanStop => CanStopRequests(me);
    case CallNotify(t) => NotifyRequests(me, t, Idle);
    case TakeExit => NotifyRequests(me, Main, Quit);
    case SnapshotNow => NotifyRequests(Recorded(me), Main, Quit);
    case Check => if me.ck.needs {} else {}
    case _ =>
  }

  lemma ReceiptRequests(me: Side, m: Message)
    ensures Receive(me, m).ck.requests == me.ck.requests
              + if me.master && m.body.InitStep? && me.ck.masterInit && me.ck.initFlag == 0 && !Repeats(me)
                then [me.bar.round] else []
  {
    match m.body
    case Sync(_) =>
    case Packet(_) =>
    case InitStep =>
    case _ =>
  }

  lemma ThreadRequests(q: nat, me: Side, t: Thread)
    requires PcOf(me, t).at != Idle
    ensures ThreadStep(q, me, t).ck == me.ck
  {
    match PcOf(me, t).at
    case EndRead => if me.ex.permitted {} else {}
    case EndSwap => if me.ex.endSent {} else {}
    case _ =>
  }

  lemma CanStopRequests(me: Side)
    ensures CanStop(me).ck == me.ck
  {
    if me.master {} else if me.ex.intentSent {} else {}
  }

  lemma NotifyRequests(me: Side, t: Thread, after: Point)
    ensures NotifyEnd(me, t, after).ck == me.ck
  {
    if t == Main {} else {}
  }

  /** A safe request leaves every close pair of requests served. */
  lemma StillServed(me: Side, peer: Side)
    requires MasterFits(me) && peer.recv <= |me.sent| && FollowerFits(peer, me) && Safe(me, peer) && !Repeats(me)
    ensures CloseServed(peer.ck.snaps, me.ck.requests + [me.bar.round])
  {
    var all := me.ck.requests + [me.bar.round];
    forall k | 0 <= k < |all| - 1 && CloseAt(all, k) ensures k < |peer.ck.snaps| {
      if k < |me.ck.requests| - 1 {
        assert CloseAt(me.ck.requests, k);
      } else {
        assert Close(me);
        LastServed(me, peer);
      }
    }
  }

  /** The follower holds the snapshot of the last request exactly when it has as many as there are requests. */
  lemma LastServed(me: Side, peer: Side)
    requires MasterFits(me) && peer.recv <= |me.sent| && FollowerFits(peer, me) && me.ck.requests != []
    ensures Snapped(peer, me.ck.requests[|me.ck.requests| - 1]) <==> |peer.ck.snaps| == |me.ck.requests|
    ensures |peer.ck.snaps| <= |me.ck.requests|
  {
    hide AllDrained, CloseServed;
    var last := |me.ck.requests| - 1;
    DrainsAreTold(me.sent, peer.recv);
    SnapRoundsLength(peer.ck.snaps);
    assert SnapRounds(peer.ck.snaps) <= me.ck.requests;
    if Snapped(peer, me.ck.requests[last]) {
      var p :| 0 <= p < |peer.ck.snaps| && peer.ck.snaps[p].round == me.ck.requests[last];
      SnapRoundsAt(peer.ck.snaps, p);
      assert me.ck.requests[p] == me.ck.requests[last];
    }
    if |peer.ck.snaps| == |me.ck.requests| {
      SnapRoundsAt(peer.ck.snaps, last);
      assert peer.ck.snaps[last].round == me.ck.requests[last];
    }
  }

  lemma {:induction false} SnapRoundsAt(snaps: seq<Snapshot>, p: nat)
    requires p < |snaps|
    ensures |SnapRounds(snaps)| == |snaps| && SnapRounds(snaps)[p] == snaps[p].round
  {
    if p < |snaps| - 1 {
      SnapRoundsAt(snaps[..|snaps| - 1], p);
    } else if p > 0 {
      SnapRoundsAt(snaps[..|snaps| - 1], p - 1);
    }
  }

  ghost predicate CkInv(s: Sys) {
    && s.m.master && !s.f.master
    && OwnFits(s.m, s.f) && OwnFits(s.f, s.m)
  }

  lemma StepKeepsCkInv(q: nat, s: Sys, l: Label)
    requires Inv(q, s) && RoundsFit(s) && CkInv(s) && CanStep(s, l) && Paced(Mine(s, l.who), Peers(s, l.who), l.act)
    ensures CkInv(NextSys(q, s, l))
  {
    OwnStep(q, Mine(s, l.who), Peers(s, l.who), l.act);
    PeerStep(q, Mine(s, l.who), Peers(s, l.who), l.act);
    NextSysIs(q, s, l, Next(q, Mine(s, l.who), Peers(s, l.who).sent, l.act));
  }

  /** The rule the master can check by itself is enough: the sync of this round tells it that its peer
      has left the round before, and has therefore served the request made there. */
  lemma LocalRuleSuffices(q: nat, s: Sys)
    requires Inv(q, s) && RoundsFit(s) && CkInv(s) && LocallySafe(s.m)
    ensures Safe(s.m, s.f)
  {
    hide LogFits, ClockFits, NoneLate, SnapsFit, ScheduleFits, AllDrained, Drains, CloseServed;
    var m, f := s.m, s.f;
    if Close(m) && !Far(m) {
      assert SyncCountGet(m.bar.counts, m.bar.round) == if m.bar.round < SyncsSeen(m, f) then 1 else 0;
      Chain(m, f);
      Chain(f, m);
      var last := |m.ck.requests| - 1;
      FollowerWasTold(q, f, m, last);
      SnapRoundsLength(f.ck.snaps);
      SnapRoundsAt(f.ck.snaps, last);
    }
  }

  // ----- Over every run with paced requests

  ghost predicate PacedRun(q: nat, states: seq<Sys>, labels: seq<Label>) {
    && IsRun(q, states, labels) && AllFit(states)
    && forall i :: 0 <= i < |labels| ==>
         Paced(Mine(states[i], labels[i].who), Peers(states[i], labels[i].who), labels[i].act)
  }

  ghost predicate PacedReachable(q: nat, s: Sys) {
    exists states, labels :: PacedRun(q, states, labels) && states[|states| - 1] == s
  }

  lemma {:induction false} PacedRunInv(q: nat, states: seq<Sys>, labels: seq<Label>, i: nat)
    requires PacedRun(q, states, labels) && i < |states|
    ensures CkInv(states[i])
  {
    if i > 0 {
      PacedRunInv(q, states, labels, i - 1);
      RunInv(q, states, labels, i - 1);
      assert Paced(Mine(states[i - 1], labels[i - 1].who), Peers(states[i - 1], labels[i - 1].who), labels[i - 1].act);
      StepKeepsCkInv(q, states[i - 1], labels[i - 1]);
    }
  }

  lemma PacedReachableInv(q: nat, s: Sys)
    requires PacedReachable(q, s)
    ensures Inv(q, s) && RoundsFit(s) && CkInv(s)
  {
    var states, labels :| PacedRun(q, states, labels) && states[|states| - 1] == s;
    PacedRunInv(q, states, labels, |states| - 1);
    RunInv(q, states, labels, |states| - 1);
  }

  /** A checkpoint already taken in this round is not due again in this round. */
  lemma NotDueAgain(me: Side, peer: Side)
    requires OwnFits(me, peer) && OwnFits(peer, me) && me.master != peer.master && Snapped(me, me.bar.round)
        && me.ck.needs
    ensures me.ck.ckRound != me.bar.round
  {
    hide AllDrained, SnapsFit, ScheduleFits, Drains;
    var p :| 0 <= p < |me.ck.snaps| && me.ck.snaps[p].round == me.bar.round;
    SnapRoundsAt(me.ck.snaps, p);
    if !me.master {
      DrainsAreTold(peer.sent, me.recv);
      var seen := Drains(peer.sent, me.recv);
      assert seen[p] == me.bar.round && seen[|seen| - 1] == me.ck.ckRound;
      assert peer.ck.requests[p] < peer.ck.requests[|seen| - 1];
    }
  }

  // ----- Agreement

  /** The k-th notice of a log prefix, and where it stands. */
  lemma {:induction false} NthDrain(log: Log, n: nat, k: nat) returns (p: nat)
    requires n <= |log| && k < |Drains(log, n)|
    ensures p < n && log[p].body == DrainStart(Drains(log, n)[k]) && |Drains(log, p)| == k
  {
    if log[n - 1].body.DrainStart? && |Drains(log, n - 1)| == k {
      p := n - 1;
    } else {
      p := NthDrain(log, n - 1, k);
    }
  }

  lemma {:induction false} DrainsMono(log: Log, i: nat, j: nat)
    requires i <= j <= |log|
    ensures Drains(log, i) <= Drains(log, j)
    decreases j - i
  {
    if i < j { DrainsMono(log, i, j - 1); }
  }

  /** A follower that has left round c behind has long taken the notice for round c. */
  lemma FollowerWasTold(q: nat, me: Side, peer: Side, k: nat)
    requires Half(q, me, peer) && Half(q, peer, me) && MasterFits(peer) && FollowerFits(me, peer)
    requires k < |peer.ck.requests| && peer.ck.requests[k] < me.bar.round
    ensures k < |SnapRounds(me.ck.snaps)| && SnapRounds(me.ck.snaps)[k] == peer.ck.requests[k]
  {
    hide LogFits, TableFits, ClockFits, NoneLate, Spread, CloseServed;
    var c := peer.ck.requests[k];
    CountMono(peer.sent, me.recv, |peer.sent|, KSync);
    assert k < |Told(peer.ck)| && Told(peer.ck)[k] == c by { ToldBehind(q, me, peer, k); }
    var p := NthDrain(peer.sent, |peer.sent|, k);
    assert WellDrained(peer.sent, p);
    if me.recv <= p {
      CountMono(peer.sent, me.recv, p, KSync);
      assert false;
    }
    DrainsMono(peer.sent, p + 1, me.recv);
    DrainsMono(peer.sent, me.recv, |peer.sent|);
    assert Drains(peer.sent, me.recv)[k] == c;
  }

  /** A request for a round that the follower has left has been told. */
  lemma ToldBehind(q: nat, me: Side, peer: Side, k: nat)
    requires Half(q, me, peer) && Half(q, peer, me) && MasterFits(peer)
    requires k < |peer.ck.requests| && peer.ck.requests[k] < me.bar.round
    ensures k < |Told(peer.ck)| && Told(peer.ck)[k] == peer.ck.requests[k]
  {
    hide LogFits, TableFits, ClockFits, NoneLate, AllDrained, Drains, SnapRounds;
    CountMono(peer.sent, me.recv, |peer.sent|, KSync);
  }

  /** The snapshots taken are the first of the requests, and all of those that lie behind. */
  predicate Agreed(taken: seq<nat>, requests: seq<nat>, round: nat) {
    && taken <= requests
    && forall k :: 0 <= k < |requests| && requests[k] < round ==> k < |taken|
  }

  lemma AgreedIs(taken: seq<nat>, requests: seq<nat>, round: nat)
    requires Agreed(taken, requests, round)
    ensures taken <= requests
    ensures forall k :: 0 <= k < |requests| && requests[k] < round ==> k < |taken| && taken[k] == requests[k]
  {
  }

  lemma MasterAgrees(me: Side)
    requires MasterFits(me)
    ensures Agreed(SnapRounds(me.ck.snaps), me.ck.requests, me.bar.round) && Spread(me.ck.requests)
  {
    hide AllDrained, Drains;
  }

  lemma FollowerAgrees(q: nat, me: Side, peer: Side)
    requires Half(q, me, peer) && Half(q, peer, me) && MasterFits(peer) && FollowerFits(me, peer)
    ensures Agreed(SnapRounds(me.ck.snaps), peer.ck.requests, me.bar.round)
  {
    hide LogFits, TableFits, ClockFits, NoneLate, AllDrained, Spread;
    DrainsAreTold(peer.sent, me.recv);
    forall k | 0 <= k < |peer.ck.requests| && peer.ck.requests[k] < me.bar.round
      ensures k < |SnapRounds(me.ck.snaps)|
    {
      FollowerWasTold(q, me, peer, k);
    }
  }

  /** Checkpoint agreement.  Both nodes snapshot the requested rounds in order, at no other round and
      never twice; whoever has left a requested round has its snapshot; and the check that a
      checkpoint round was not passed never fires. */
  lemma CheckpointAgreement(q: nat, s: Sys, w: Who)
    requires PacedReachable(q, s)
    ensures Mine(s, w).fault != Some(CheckpointPassed)
    ensures SnapRounds(Mine(s, w).ck.snaps) <= s.m.ck.requests && Spread(s.m.ck.requests)
    ensures forall k :: 0 <= k < |s.m.ck.requests| && s.m.ck.requests[k] < Mine(s, w).bar.round ==>
              k < |SnapRounds(Mine(s, w).ck.snaps)| && SnapRounds(Mine(s, w).ck.snaps)[k] == s.m.ck.requests[k]
  {
    hide Half, SnapsFit, MasterFits, FollowerFits, PacedReachable, SnapRounds, Spread, Agreed;
    PacedReachableInv(q, s);
    MasterAgrees(s.m);
    FollowerAgrees(q, s.f, s.m);
    AgreedIs(SnapRounds(Mine(s, w).ck.snaps), s.m.ck.requests, Mine(s, w).bar.round);
  }

  /** Packet j of the peer's log is scheduled or delivered. */
  predicate PacketIsIn(me: Side, peer: Side, j: nat)
    requires j < |peer.sent| && peer.sent[j].body.Packet?
  {
    Delivery(peer.sent[j].ts + me.bar.firstSync, peer.sent[j].body.data)
      in multiset(me.bar.deliveries) + multiset(me.bar.delivered)
  }

  /** Every packet the peer sent before its sync of this node's round is scheduled or delivered. */
  ghost predicate NothingLost(me: Side, peer: Side) {
    forall j :: 0 <= j < |peer.sent| && peer.sent[j].body.Packet? && Count(peer.sent, j, KSync) <= me.bar.round ==>
      PacketIsIn(me, peer, j)
  }

  lemma EarlierPacketsAreIn(me: Side, peer: Side)
    requires Conserved(me, peer) && me.bar.round < SyncsSeen(me, peer)
    ensures NothingLost(me, peer)
  {
    forall j | 0 <= j < |peer.sent| && peer.sent[j].body.Packet? && Count(peer.sent, j, KSync) <= me.bar.round
      ensures PacketIsIn(me, peer, j)
    {
      if me.recv <= j { CountMono(peer.sent, me.recv, j, KSync); }
      TakenHas(peer.sent, me.recv, me.bar.firstSync, j);
    }
  }

  /** The moment of a snapshot: the node has finished the round, holds the peer's sync of it, and has
      scheduled or delivered every packet the peer sent before that sync. */
  lemma CheckpointLosesNothing(q: nat, s: Sys, w: Who)
    requires PacedReachable(q, s) && Enabled(Mine(s, w), Peers(s, w).sent, SnapshotNow)
    ensures Mine(s, w).bar.finished && Mine(s, w).bar.round == Mine(s, w).ck.ckRound
    ensures !Waiting(Mine(s, w).bar)
    ensures NothingLost(Mine(s, w), Peers(s, w))
  {
    PacedReachableInv(q, s);
    PacedIsReachable(q, s);
    PacketsConserved(q, s, w);
    var me, peer := Mine(s, w), Peers(s, w);
    assert SyncCountGet(me.bar.counts, me.bar.round) == if me.bar.round < SyncsSeen(me, peer) then 1 else 0;
    EarlierPacketsAreIn(me, peer);
  }

  lemma PacedIsReachable(q: nat, s: Sys)
    requires PacedReachable(q, s)
    ensures Reachable(q, s)
  {
  }
}
