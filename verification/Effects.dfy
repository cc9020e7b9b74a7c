/** What each whole call gets done, said in messages and fields: which messages go out, in which order and
    with which stamp, which flags are set, which assertion fires, and that nothing else changes. */
module Effects {
  import opened Messages
  import opened Machine
  import opened Checkpoint
  import opened Exit
  import opened Node

  /** A control message as the node sends it now, stamped with its universal time. */
  function Stamped(me: Side, body: Body): Message {
    Message(me.bar.clock - me.bar.firstSync, body)
  }

  function When(b: bool, m: Message): Log {
    if b then [m] else []
  }

  lemma WhenAdds(log: Log, b: bool, m: Message)
    ensures log + When(b, m) == if b then log + [m] else log
  {
  }

  // ----- Before anything, and on its own

  /** A node starts at universal time 0, running, with its quantum due at once; nothing has been asked for,
      counted, scheduled or sent, and no flag of the handshake is set. */
  lemma FreshNode(master: bool, warm: bool, clock: nat)
    ensures var me := InitialSide(master, warm, clock);
            && me.bar.clock == me.bar.firstSync == clock && me.bar.round == 0 && me.bar.deadline <= me.bar.clock
            && !me.bar.finished && !me.bar.checkArmed && me.bar.deliveries == me.bar.delivered == []
            && (forall k: nat :: SyncCountGet(me.bar.counts, k) == 0)
            && !me.ck.needs && !me.ck.notified && !me.ck.scheduled && !me.ck.masterInit && me.ck.initFlag == 0
            && me.ck.requests == [] && me.ck.snaps == []
            && !me.ex.permitted && !me.ex.ready && !me.ex.endSent && !me.ex.intentSent && !me.ex.pairFinished
            && !me.ex.notifiedExit && !me.ex.asked && !me.ex.stopOk && me.ex.readyNeighbors == 0
            && me.fault.None? && !me.halted && me.sent == [] && me.recv == 0
  {
  }

  /** A delivery timer hands over the first packet due now, and asserts exactly if that is empty. */
  lemma FireEffect(me: Side)
    requires me.fault.None? && exists i :: 0 <= i < |me.bar.deliveries| && me.bar.deliveries[i].at == me.bar.clock
    ensures var ds := me.bar.deliveries;
            exists i :: 0 <= i < |ds| && ds[i].at == me.bar.clock
              && (forall j :: 0 <= j < i ==> ds[j].at != me.bar.clock)
              && FirstDue(ds, me.bar.clock) == i
              && Fire(me) == if ds[i].data == [] then me.(fault := Some(EmptyDelivery))
                             else me.(bar := me.bar.(deliveries := ds[..i] + ds[i + 1..],
                                                     delivered := me.bar.delivered + [ds[i]]))
  {
    var i := FirstDue(me.bar.deliveries, me.bar.clock);
    assert i < |me.bar.deliveries| && me.bar.deliveries[i].at == me.bar.clock;
  }

  /** Whatever else a live node is in the middle of, it may send a packet of up to 2048 bytes, send a
      DRAIN_END, initiate a checkpoint, and deliver what is due, paused or not. */
  lemma OpenWhileLive(me: Side, peerSent: Log)
    requires Live(me)
    ensures forall data: seq<Byte> :: Enabled(me, peerSent, SendPacket(data)) <==> |data| <= 2048
    ensures Enabled(me, peerSent, SendNotice) && Enabled(me, peerSent, Initiate)
    ensures Enabled(me, peerSent, FireDelivery)
       <==> exists i :: 0 <= i < |me.bar.deliveries| && me.bar.deliveries[i].at == me.bar.clock
  {
  }

  // ----- Receiving one message

  /** `process_message` asserts on a sync for a round that is neither the present one nor, while the node is
      paused, the next; on a packet from the past; on an END while not permitted; and on nothing else. */
  lemma AssertsExactly(me: Side, m: Message)
    requires me.fault.None?
    ensures Process(me, m).fault
         == match m.body
            case Sync(round) =>
              if round == me.bar.round || (me.bar.finished && round == me.bar.round + 1) then None
              else Some(WrongRound)
            case Packet(_) => if m.ts < me.bar.clock - me.bar.firstSync then Some(PastPacket) else None
            case EndOfEmulation => if me.ex.permitted then None else Some(EndTooEarly)
            case _ => None
  {
    hide SyncCountIncrement, Repeats;
    match m.body
    case Sync(_) =>
    case Packet(_) =>
    case Permission => if me.ex.endSent {} else {}
    case _ =>
  }

  /** A sync is counted for its round, at its low 32 bits, and does nothing else. */
  lemma SyncIsCounted(me: Side, m: Message, k: nat)
    requires m.body.Sync? && Process(me, m).fault.None? && k < 0x1_0000_0000
    ensures var r := Process(me, m);
            && r == me.(bar := me.bar.(counts := r.bar.counts))
            && SyncCountGet(r.bar.counts, k)
            == SyncCountGet(me.bar.counts, k) + if m.body.round % 0x1_0000_0000 == k then 1 else 0
  {
  }

  /** A packet is scheduled behind the others at its stamp plus the bias, and does nothing else. */
  lemma PacketIsScheduled(me: Side, m: Message)
    requires m.body.Packet? && Process(me, m).fault.None?
    ensures Process(me, m)
         == me.(bar := me.bar.(deliveries := me.bar.deliveries + [Delivery(m.ts + me.bar.firstSync, m.body.data)]))
  {
  }

  /** The exit handshake: INTENT counts at the master, PERMISSION permits and sends the node's END unless it
      is out, END marks the peer as finished. */
  lemma HandshakeIsTaken(me: Side, m: Message)
    requires me.fault.None?
    ensures m.body.Intent? ==>
              Process(me, m) == me.(ex := me.ex.(readyNeighbors := me.ex.readyNeighbors + if me.master then 1 else 0))
    ensures m.body.EndOfEmulation? && me.ex.permitted ==> Process(me, m) == me.(ex := me.ex.(pairFinished := true))
    ensures m.body.Permission? ==>
              var r := Process(me, m);
              && r.ex == me.ex.(permitted := true, endSent := true)
              && r.sent == me.sent + When(!me.ex.endSent, Stamped(me, EndOfEmulation))
              && r == me.(ex := r.ex, sent := r.sent)
  {
    match m.body
    case Permission => if me.ex.endSent {} else {}
    case _ =>
  }

  /** The messages of the checkpoint: a notice tells the follower its round and nothing to the master; the
      first CHECKPOINT_INIT_STEP makes a master that waits for it ask for the present round. */
  lemma CheckpointIsTaken(me: Side, m: Message)
    ensures m.body.DrainStart? ==>
              Process(me, m) == (if me.master then me else me.(ck := me.ck.(needs := true, ckRound := m.body.ckRound)))
    ensures m.body.Notice? ==> Process(me, m) == me
    ensures m.body.InitStep? ==>
              var r := Process(me, m);
              var asks := me.master && me.ck.masterInit && me.ck.initFlag == 0;
              r == me.(ck := r.ck) && r.ck.initFlag == me.ck.initFlag + 1 && Asked(me, r, asks)
  {
    match m.body
    case DrainStart(_) => if me.master {} else {}
    case _ =>
  }

  /** A request is for the present round and not told to the peer yet; it goes on record unless it repeats
      the one still pending.  Without a request nothing about the checkpoint changes but the two counts. */
  predicate Asked(me: Side, r: Side, asks: bool) {
    && r.ck.scheduled == me.ck.scheduled && r.ck.snaps == me.ck.snaps
    && if asks then
         && r.ck.needs && !r.ck.notified && r.ck.ckRound == me.bar.round
         && r.ck.requests != [] && r.ck.requests[|r.ck.requests| - 1] == me.bar.round
         && (r.ck.requests == me.ck.requests + [me.bar.round] || (me.ck.needs && r.ck.requests == me.ck.requests))
       else
         && r.ck.needs == me.ck.needs && r.ck.notified == me.ck.notified && r.ck.ckRound == me.ck.ckRound
         && r.ck.requests == me.ck.requests
  }

  /** `finish_initiate_checkpoint`: the follower tells the master, the master asks as soon as it was told. */
  lemma InitiateEffect(me: Side)
    ensures var r := InitiateCheckpoint(me);
            && r.sent == me.sent + When(!me.master, Stamped(me, InitStep))
            && r == me.(sent := r.sent, ck := r.ck) && r.ck.initFlag == me.ck.initFlag
            && (r.ck.masterInit <==> me.master || me.ck.masterInit)
            && Asked(me, r, me.master && me.ck.initFlag >= 1)
  {
  }

  // ----- Polling

  /** What polling leaves alone; what it sends is at most one END, and that when a PERMISSION came. */
  predicate PollLeaves(me: Side, r: Side) {
    && r.master == me.master && r.halted == me.halted && r.main == me.main && r.flex == me.flex
    && r.bar.round == me.bar.round && r.bar.finished == me.bar.finished && r.bar.checkArmed == me.bar.checkArmed
    && r.bar.clock == me.bar.clock && r.bar.firstSync == me.bar.firstSync && r.bar.deadline == me.bar.deadline
    && (r.sent == me.sent || (!me.ex.endSent && r.ex.endSent && r.sent == me.sent + [Stamped(me, EndOfEmulation)]))
    && (me.ex.endSent ==> r.ex.endSent)
  }

  lemma OneLeaves(me: Side, m: Message)
    ensures PollLeaves(me, Process(me, m))
  {
    hide SyncCountIncrement, CountInit, ValidRound, Receive;
    if m.body.Permission? {
      if me.ex.endSent {} else {}
    } else {
      ReceiptLeaves(me, m);
    }
  }

  lemma ReceiptLeaves(me: Side, m: Message)
    requires !m.body.Permission?
    ensures PollLeaves(me, Receive(me, m))
  {
    hide SyncCountIncrement, CountInit, ValidRound, Universal;
    match m.body
    case Sync(_) =>
    case Packet(_) =>
    case InitStep => CountInitTouches(me);
    case EndOfEmulation => if me.ex.permitted {} else {}
    case _ =>
  }

  lemma LeavesChain(a: Side, b: Side, c: Side)
    requires PollLeaves(a, b) && PollLeaves(b, c)
    ensures PollLeaves(a, c)
  {
  }

  lemma {:induction false} PollLeavesMuch(me: Side, log: Log)
    requires me.recv <= |log|
    ensures PollLeaves(me, PollAll(me, log))
    decreases |log| - me.recv
  {
    hide Process;
    if me.recv < |log| && me.fault.None? {
      var next := Process(me, log[me.recv]).(recv := me.recv + 1);
      OneLeaves(me, log[me.recv]);
      PollLeavesMuch(next, log);
      LeavesChain(me, next, PollAll(next, log));
    }
  }

  /** Polling in two stretches is polling at once: what matters is what has arrived, not when it is polled. */
  lemma {:induction false} PollTwice(me: Side, log: Log, more: Log)
    requires me.recv <= |log|
    ensures PollAll(PollAll(me, log), log + more) == PollAll(me, log + more)
    decreases |log| - me.recv
  {
    hide Process;
    if me.recv < |log| && me.fault.None? {
      assert (log + more)[me.recv] == log[me.recv];
      PollTwice(Process(me, log[me.recv]).(recv := me.recv + 1), log, more);
    }
  }

  /** Polling takes everything, or stops right behind the message that made it assert; each message is
      processed once, in order. */
  lemma {:induction false} PollStops(me: Side, log: Log)
    requires me.recv <= |log| && me.fault.None?
    ensures var r := PollAll(me, log);
            if r.fault.None? then r.recv == |log|
            else me.recv < r.recv && var before := PollAll(me, log[..r.recv - 1]);
                 && before.fault.None? && before.recv == r.recv - 1
                 && r == Process(before, log[r.recv - 1]).(recv := r.recv)
    decreases |log| - me.recv
  {
    hide Process;
    if me.recv < |log| {
      var next := Process(me, log[me.recv]).(recv := me.recv + 1);
      if next.fault.None? {
        PollStops(next, log);
        var r := PollAll(me, log);
        if r.fault.Some? { assert log[..r.recv - 1][me.recv] == log[me.recv]; }
      } else {
        assert PollAll(next, log) == next;
        assert PollAll(me, log[..me.recv]) == me;
      }
    }
  }

  /** One message more in the channel is one more message processed. */
  lemma PollOneMore(me: Side, log: Log, m: Message)
    requires me.recv <= |log| && PollAll(me, log).fault.None? && PollAll(me, log).recv == |log|
    ensures PollAll(me, log + [m]) == Process(PollAll(me, log), m).(recv := |log| + 1)
  {
    hide Process;
    PollTwice(me, log, [m]);
    var polled := PollAll(me, log);
    assert (log + [m])[|log|] == m;
    var next := Process(polled, m).(recv := |log| + 1);
    assert PollAll(next, log + [m]) == next;
  }

  // ----- quanta_sync

  /** The end of a quantum.  When the poll raises no assertion, everything has been taken, the node is paused
      with its sync-check timer armed, and behind what the poll sent stands the sync of the round, once,
      stamped with the present time; right before it the drain notice of the round, exactly if the poll
      leaves a checkpoint needed and not told of.  When the poll asserts, neither goes out. */
  lemma QuantaSyncEffect(me: Side, log: Log)
    requires me.recv <= |log| && me.fault.None?
    ensures var polled, r := PollAll(me.(bar := me.bar.(finished := true)), log), QuantaSyncAll(me, log);
            var tells := polled.ck.needs && !polled.ck.notified;
            if polled.fault.Some? then r == polled && Total(r.sent, KSync) == Total(me.sent, KSync)
            else
              && r.fault.None? && r.recv == |log| && r.bar.finished && r.bar.checkArmed && r.bar.round == me.bar.round
              && r.sent == polled.sent + When(tells, Stamped(me, DrainStart(me.bar.round)))
                                       + [Stamped(me, Sync(me.bar.round))]
              && Total(r.sent, KSync) == Total(me.sent, KSync) + 1
              && Total(r.sent, KDrain) == Total(me.sent, KDrain) + (if tells then 1 else 0)
              && r.ck == polled.ck.(notified := polled.ck.notified || tells)
              && r == polled.(bar := polled.bar.(checkArmed := true), ck := r.ck, sent := r.sent)
  {
    hide PollAll, SyncOut, PollLeaves, Total, Stamped;
    var paused := me.(bar := me.bar.(finished := true));
    var polled := PollAll(paused, log);
    PollLeavesMuch(paused, log);
    PollStops(paused, log);
    PollCounts(paused, polled);
    SameStamp(me, polled);
    if polled.fault.None? {
      SyncOutEffect(polled);
      SyncOutCounts(polled);
    }
  }

  lemma SameStamp(me: Side, polled: Side)
    requires PollLeaves(me.(bar := me.bar.(finished := true)), polled)
    ensures Stamped(polled, Sync(polled.bar.round)) == Stamped(me, Sync(me.bar.round))
    ensures Stamped(polled, DrainStart(polled.bar.round)) == Stamped(me, DrainStart(me.bar.round))
    ensures polled.bar.round == me.bar.round && polled.bar.finished
  {
  }

  lemma SyncOutEffect(me: Side)
    ensures var r, tells := SyncOut(me), me.ck.needs && !me.ck.notified;
            && r.sent == me.sent + When(tells, Stamped(me, DrainStart(me.bar.round)))
                                 + [Stamped(me, Sync(me.bar.round))]
            && r.ck == me.ck.(notified := me.ck.notified || tells)
            && r == me.(bar := me.bar.(checkArmed := true), ck := r.ck, sent := r.sent)
  {
    assert me.sent + [] == me.sent;
    if me.ck.needs && !me.ck.notified {} else {}
  }

  lemma SyncOutCounts(me: Side)
    ensures Total(SyncOut(me).sent, KSync) == Total(me.sent, KSync) + 1
    ensures Total(SyncOut(me).sent, KDrain) == Total(me.sent, KDrain) + if me.ck.needs && !me.ck.notified then 1 else 0
  {
    hide SyncOut;
    SyncOutEffect(me);
    var notice, sync := Stamped(me, DrainStart(me.bar.round)), Stamped(me, Sync(me.bar.round));
    if me.ck.needs && !me.ck.notified {
      TotalAppend(me.sent, notice, KSync);
      TotalAppend(me.sent, notice, KDrain);
      TotalAppend(me.sent + [notice], sync, KSync);
      TotalAppend(me.sent + [notice], sync, KDrain);
    } else {
      assert me.sent + [] == me.sent;
      TotalAppend(me.sent, sync, KSync);
      TotalAppend(me.sent, sync, KDrain);
    }
  }

  lemma PollCounts(me: Side, r: Side)
    requires PollLeaves(me, r)
    ensures Total(r.sent, KSync) == Total(me.sent, KSync) && Total(r.sent, KDrain) == Total(me.sent, KDrain)
  {
    if r.sent != me.sent {
      TotalAppend(me.sent, Stamped(me, EndOfEmulation), KSync);
      TotalAppend(me.sent, Stamped(me, EndOfEmulation), KDrain);
    }
  }

  // ----- wwt_sync_check

  /** The master's grant at the barrier. */
  predicate Grants(me: Side) {
    me.master && me.ex.readyNeighbors >= 1 && me.ex.ready && !me.ex.permitted
  }

  /** What the check comes to once the sync is here: the notice if one is due; then the assertion if the
      checkpoint's round is passed, the snapshot scheduled if this is its round, and otherwise the grant if
      one is due, PERMISSION before END, and the next round with its deadline. */
  predicate Checked(q: nat, me: Side, r: Side) {
    var tells := me.ck.needs && !me.ck.notified;
    var goes := !me.ck.needs || me.bar.round < me.ck.ckRound;
    var grants := goes && Grants(me);
    var ends := grants && !me.ex.endSent;
    && r.fault == (if me.ck.needs && me.ck.ckRound < me.bar.round then Some(CheckpointPassed) else None)
    && r.sent == me.sent + When(tells, Stamped(me, DrainStart(me.bar.round)))
                         + When(grants, Stamped(me, Permission)) + When(ends, Stamped(me, EndOfEmulation))
    && r.ck == me.ck.(notified := me.ck.notified || tells,
                      scheduled := me.ck.scheduled || (me.ck.needs && me.bar.round == me.ck.ckRound))
    && r.ex == me.ex.(permitted := me.ex.permitted || grants, endSent := me.ex.endSent || ends)
    && r.bar == (if goes
                 then me.bar.(round := me.bar.round + 1, finished := false, checkArmed := false,
                              deadline := (me.bar.round + 1) * q + me.bar.firstSync)
                 else me.bar)
    && r == me.(fault := r.fault, sent := r.sent, ck := r.ck, ex := r.ex, bar := r.bar)
  }

  lemma CompleteCheckEffect(q: nat, me: Side)
    requires me.fault.None?
    ensures Checked(q, me, CompleteCheck(q, me))
  {
    hide OpenRound;
    if !me.ck.needs || me.bar.round < me.ck.ckRound {
      var noticed := if !me.ck.needs || me.ck.notified then me else NotifyDrain(me);
      assert me.sent + [] == me.sent;
      OpenRoundEffect(q, noticed);
    } else {
      StopsHere(q, me);
    }
  }

  lemma StopsHere(q: nat, me: Side)
    requires me.fault.None? && me.ck.needs && me.ck.ckRound <= me.bar.round
    ensures Checked(q, me, CompleteCheck(q, me))
  {
    hide OpenRound, When, Stamped;
    var sent := me.sent + When(!me.ck.notified, Stamped(me, DrainStart(me.bar.round)));
    WhenAdds(me.sent, !me.ck.notified, Stamped(me, DrainStart(me.bar.round)));
    WhenAdds(sent, false, Stamped(me, Permission));
    WhenAdds(sent, false, Stamped(me, EndOfEmulation));
    NoticeIs(me);
    if me.ck.notified {} else {}
  }

  lemma NoticeIs(me: Side)
    ensures NotifyDrain(me) == me.(sent := me.sent + [Stamped(me, DrainStart(me.bar.round))],
                                   ck := me.ck.(notified := true))
  {
  }

  lemma OpenRoundEffect(q: nat, me: Side)
    ensures var r := OpenRound(q, me);
            && r.sent == me.sent + When(Grants(me), Stamped(me, Permission))
                                 + When(Grants(me) && !me.ex.endSent, Stamped(me, EndOfEmulation))
            && r.ex == me.ex.(permitted := me.ex.permitted || Grants(me), endSent := me.ex.endSent || Grants(me))
            && r.bar == me.bar.(round := me.bar.round + 1, finished := false, checkArmed := false,
                                deadline := (me.bar.round + 1) * q + me.bar.firstSync)
            && r == me.(sent := r.sent, ex := r.ex, bar := r.bar)
  {
    if Grants(me) {
      if me.ex.endSent {} else {}
    } else {
      assert me.sent + [] == me.sent && me.sent + [] + [] == me.sent;
    }
  }

  /** The exit branch: with permission the peer is notified, once, and the process ends; without it the
      assertion fires and nothing is sent. */
  predicate LeftWait(me: Side, r: Side) {
    if !me.ex.permitted then r == me.(fault := Some(EndTooEarly))
    else
      var ends := !me.ex.notifiedExit && !me.ex.endSent;
      r == me.(halted := true, ex := me.ex.(notifiedExit := true, endSent := me.ex.endSent || ends),
               sent := me.sent + When(ends, Stamped(me, EndOfEmulation)))
  }

  lemma LeaveWaitEffect(me: Side)
    ensures LeftWait(me, LeaveWait(me))
  {
    NotifyEffect(me);
    assert me.sent + [] == me.sent;
  }

  /** `notify_neighbours_of_end`: the first call sends END if the node is permitted and has not sent it. */
  lemma NotifyEffect(me: Side)
    ensures var ends := !me.ex.notifiedExit && me.ex.permitted && !me.ex.endSent;
            NotifyAll(me) == me.(ex := me.ex.(notifiedExit := true, endSent := me.ex.endSent || ends),
                                 sent := me.sent + When(ends, Stamped(me, EndOfEmulation)))
  {
    assert me.sent + [] == me.sent;
    if me.ex.notifiedExit {} else if !me.ex.permitted || me.ex.endSent {} else {}
  }

  // ----- The waiting loop

  /** All that has arrived when the k-th test for the sync is made. */
  function Heard(log: Log, turns: seq<Turn>, k: nat): Log
    requires k <= |turns|
    decreases k
  {
    if k == 0 then log else Heard(log, turns, k - 1) + turns[k - 1].first + turns[k - 1].second
  }

  lemma {:induction false} HeardMore(log: Log, turns: seq<Turn>, k: nat)
    requires 0 < k <= |turns|
    ensures Heard(log, turns, k) == Heard(log + turns[0].first + turns[0].second, turns[1..], k - 1)
    decreases k
  {
    if k > 1 { HeardMore(log, turns, k - 1); }
  }

  lemma {:induction false} HeardGrows(log: Log, turns: seq<Turn>, k: nat)
    requires k <= |turns|
    ensures log <= Heard(log, turns, k)
    decreases k
  {
    if k > 0 { HeardGrows(log, turns, k - 1); }
  }

  /** The test of turn k finds no sync, and the poll behind it no END: the loop goes on. */
  predicate GoesOn(me: Side, log: Log, turns: seq<Turn>, k: nat)
    requires k < |turns| && me.recv <= |log| && log <= Heard(log, turns, k)
  {
    var tested, again := PollAll(me, Heard(log, turns, k)), PollAll(me, Heard(log, turns, k) + turns[k].first);
    tested.fault.None? && Waiting(tested.bar) && again.fault.None? && !again.ex.pairFinished
  }

  ghost predicate GoesOnTo(me: Side, log: Log, turns: seq<Turn>, k: nat)
    requires k <= |turns| && me.recv <= |log|
  {
    forall j :: 0 <= j < k ==> log <= Heard(log, turns, j) && GoesOn(me, log, turns, j)
  }

  /** How the loop ends at a test: `heard` had arrived for the test of the sync, which left the node as
      `tested`, and `first` arrives before the poll behind it, if there is one. */
  predicate EndsWith(waited: Side, tested: Side, heard: Log, first: Option<Log>, log': Log, outcome: Wait) {
    match outcome
    case SyncHere => log' == heard && waited.fault.None? && !Waiting(waited.bar)
    case StillWaiting => first.None? && log' == heard && waited.fault.None? && Waiting(waited.bar)
    case PeerEnded =>
      && first.Some? && log' == heard + first.value && waited.fault.None? && waited.ex.pairFinished
      && tested.fault.None? && Waiting(tested.bar)
    case Asserted => waited.fault.Some? && (log' == heard || (first.Some? && log' == heard + first.value))
  }

  /** The loop ends with its k-th turn, against the log heard by then. */
  predicate EndsAt(me: Side, log: Log, turns: seq<Turn>, k: nat, log': Log, outcome: Wait)
    requires k <= |turns| && me.recv <= |log| && log <= log'
  {
    var heard := Heard(log, turns, k);
    && log <= heard
    && EndsWith(PollAll(me, log'), PollAll(me, heard), heard, FirstOf(turns, k), log', outcome)
  }

  function FirstOf(turns: seq<Turn>, k: nat): Option<Log> {
    if k < |turns| then Some(turns[k].first) else None
  }

  lemma FirstLater(turns: seq<Turn>, k: nat)
    requires turns != []
    ensures FirstOf(turns[1..], k) == FirstOf(turns, k + 1)
  {
  }

  /** The waiting loop, exactly.  Whatever it comes to, the node has polled all that arrived up to then; the
      loop goes on as long as neither the sync nor the peer's END has been taken, tests for them in turn, and
      ends at the first test that finds one, or at an assertion. */
  lemma {:induction false} WaitExactly(me: Side, log: Log, turns: seq<Turn>) returns (k: nat)
    requires me.recv <= |log| && me.fault.None?
    ensures var (waited, log', outcome) := WaitFor(me, log, turns);
            && log <= log' && waited == PollAll(me, log')
            && k <= |turns| && GoesOnTo(me, log, turns, k) && EndsAt(me, log, turns, k, log', outcome)
    decreases |turns|
  {
    hide PollAll, Waiting;
    k := 0;
    var polled := PollAll(me, log);
    if polled.fault.None? && Waiting(polled.bar) && turns != [] {
      var log1 := log + turns[0].first;
      PollTwice(me, log, turns[0].first);
      var again := PollAll(polled, log1);
      if again.fault.None? && !again.ex.pairFinished {
        var log2 := log1 + turns[0].second;
        var j := WaitExactly(again, log2, turns[1..]);
        k := j + 1;
        OneTurnOn(me, log, turns, again, j);
      }
    }
  }

  lemma OneTurnOn(me: Side, log: Log, turns: seq<Turn>, again: Side, j: nat)
    requires me.recv <= |log| && me.fault.None? && turns != [] && j < |turns|
    requires var log1 := log + turns[0].first;
             again == PollAll(me, log1) && GoesOn(me, log, turns, 0)
    requires var log2 := log + turns[0].first + turns[0].second;
             var (waited, log', outcome) := WaitFor(again, log2, turns[1..]);
             && log2 <= log' && waited == PollAll(again, log')
             && GoesOnTo(again, log2, turns[1..], j) && EndsAt(again, log2, turns[1..], j, log', outcome)
    ensures var log2 := log + turns[0].first + turns[0].second;
            var (waited, log', outcome) := WaitFor(again, log2, turns[1..]);
            && log <= log' && waited == PollAll(me, log')
            && GoesOnTo(me, log, turns, j + 1) && EndsAt(me, log, turns, j + 1, log', outcome)
  {
    hide PollAll, Waiting, WaitFor, EndsAt, Heard, GoesOn, GoesOnTo;
    var log1, log2 := log + turns[0].first, log + turns[0].first + turns[0].second;
    var (waited, log', outcome) := WaitFor(again, log2, turns[1..]);
    assert log <= log1 <= log2;
    PollOn(me, log1, log');
    HeardMore(log, turns, j + 1);
    LaterTurns(me, log, turns, again, j);
    EndsLater(me, again, log, log1, log2, turns, j, log', outcome);
  }

  lemma EndsLater(me: Side, again: Side, log: Log, log1: Log, log2: Log, turns: seq<Turn>, j: nat, log': Log,
      outcome: Wait)
    requires me.recv <= |log| && log <= log1 <= log2 <= log' && again == PollAll(me, log1)
    requires turns != [] && j < |turns| && Heard(log, turns, j + 1) == Heard(log2, turns[1..], j)
    requires EndsAt(again, log2, turns[1..], j, log', outcome)
    ensures EndsAt(me, log, turns, j + 1, log', outcome)
  {
    hide PollAll, EndsWith, Heard, FirstOf;
    FirstLater(turns, j);
    PollOn(me, log1, log');
    PollOn(me, log1, Heard(log, turns, j + 1));
  }

  lemma LaterTurns(me: Side, log: Log, turns: seq<Turn>, again: Side, j: nat)
    requires me.recv <= |log| && turns != [] && j < |turns|
    requires again == PollAll(me, log + turns[0].first) && GoesOn(me, log, turns, 0)
    requires GoesOnTo(again, log + turns[0].first + turns[0].second, turns[1..], j)
    ensures GoesOnTo(me, log, turns, j + 1)
  {
    hide PollAll, Waiting;
    var log1, log2 := log + turns[0].first, log + turns[0].first + turns[0].second;
    forall i | 0 <= i < j + 1 ensures log <= Heard(log, turns, i) && GoesOn(me, log, turns, i) {
      HeardGrows(log, turns, i);
      if i > 0 {
        HeardMore(log, turns, i);
        HeardGrows(log2, turns[1..], i - 1);
        assert GoesOn(again, log2, turns[1..], i - 1);
        PollOn(me, log1, Heard(log, turns, i));
        PollOn(me, log1, Heard(log, turns, i) + turns[i].first);
      }
    }
  }

  lemma PollOn(me: Side, log: Log, more: Log)
    requires me.recv <= |log| && log <= more
    ensures PollAll(PollAll(me, log), more) == PollAll(me, more)
  {
    PollTwice(me, log, more[|log|..]);
    assert log + more[|log|..] == more;
  }

  /** The whole of `wwt_sync_check`: after the wait, the check if the sync is here, the exit branch if the
      peer has ended, and nothing more otherwise. */
  lemma CheckAllEffect(q: nat, me: Side, log: Log, turns: seq<Turn>)
    requires me.recv <= |log| && me.fault.None?
    ensures var (r, log', outcome) := CheckAll(q, me, log, turns);
            && log <= log' && outcome == WaitFor(me, log, turns).2
            && var waited := PollAll(me, log');
            match outcome
            case SyncHere => Checked(q, waited, r)
            case PeerEnded => LeftWait(waited, r)
            case _ => r == waited
  {
    hide PollAll, WaitFor, CompleteCheck, LeaveWait, Checked, LeftWait;
    var k := WaitExactly(me, log, turns);
    var (waited, log', outcome) := WaitFor(me, log, turns);
    if outcome == SyncHere { CompleteCheckEffect(q, waited); }
    if outcome == PeerEnded { LeaveWaitEffect(waited); }
  }

  // ----- The grant

  /** A master that has taken an INTENT and is ready, but not permitted yet, grants at its barrier when no
      checkpoint is pending: it is permitted in the next round, with one more PERMISSION and its END out
      behind it. */
  lemma BarrierGrants(q: nat, me: Side, peer: Side)
    requires ExFits(me, peer) && me.fault.None? && me.master && me.ex.ready && !me.ex.permitted && !me.ck.needs
    requires exists p :: 0 <= p < me.recv && p < |peer.sent| && peer.sent[p].body.Intent?
    ensures var r := CompleteCheck(q, me);
            && r.ex.permitted && r.ex.endSent && r.bar.round == me.bar.round + 1
            && r.sent == me.sent + [Stamped(me, Permission), Stamped(me, EndOfEmulation)]
            && Total(r.sent, KPermission) == Total(me.sent, KPermission) + 1 && Total(r.sent, KEnd) == 1
  {
    hide ExitLog, PcsFit, FinishFits, MasterExit, FollowerExit, CompleteCheck;
    assert Grants(me) by {
      var p :| 0 <= p < me.recv && p < |peer.sent| && peer.sent[p].body.Intent?;
      CountMono(peer.sent, p + 1, me.recv, KIntent);
    }
    assert Total(me.sent, KEnd) == 0 && !me.ex.endSent;
    hide EndFits, FlagsFit, OwnExit;
    CompleteCheckEffect(q, me);
    GrantCounts(me);
    var permission, end := Stamped(me, Permission), Stamped(me, EndOfEmulation);
    assert me.sent + [] + [permission] + [end] == me.sent + [permission, end];
  }

  lemma GrantCounts(me: Side)
    ensures var sent := me.sent + [Stamped(me, Permission), Stamped(me, EndOfEmulation)];
            Total(sent, KPermission) == Total(me.sent, KPermission) + 1 && Total(sent, KEnd) == Total(me.sent, KEnd) + 1
  {
    var permission, end := Stamped(me, Permission), Stamped(me, EndOfEmulation);
    assert me.sent + [permission] + [end] == me.sent + [permission, end];
    TotalAppend(me.sent, permission, KPermission);
    TotalAppend(me.sent, permission, KEnd);
    TotalAppend(me.sent + [permission], end, KPermission);
    TotalAppend(me.sent + [permission], end, KEnd);
  }

  /** And it grants only then: not without an INTENT taken, not before it is ready, not twice, not with a
      checkpoint of this round pending; a follower never grants. */
  lemma NoOtherGrant(q: nat, me: Side, peer: Side)
    requires ExFits(me, peer) && me.fault.None?
    requires !me.master || !me.ex.ready || me.ex.permitted || (me.ck.needs && me.ck.ckRound <= me.bar.round)
          || forall p :: 0 <= p < me.recv && p < |peer.sent| ==> !peer.sent[p].body.Intent?
    ensures var r := CompleteCheck(q, me);
            r.ex == me.ex && Total(r.sent, KPermission) == Total(me.sent, KPermission)
  {
    hide ExitLog, PcsFit, FinishFits, OwnExit;
    CompleteCheckEffect(q, me);
    if me.master && me.ex.readyNeighbors >= 1 {
      var p := CountWitness(peer.sent, 0, me.recv, KIntent);
    }
    assert me.sent + [] + [] + [] == me.sent;
    var notice := Stamped(me, DrainStart(me.bar.round));
    assert me.sent + [notice] + [] + [] == me.sent + [notice];
    TotalAppend(me.sent, notice, KPermission);
  }

  // ----- can_stop

  /** PERMISSION, and END behind it unless it is out already. */
  lemma GrantEffect(me: Side)
    ensures Grant(me) == me.(ex := me.ex.(permitted := true, endSent := true),
                             sent := me.sent + [Stamped(me, Permission)]
                                             + When(!me.ex.endSent, Stamped(me, EndOfEmulation)))
  {
    var sent := me.sent + [Stamped(me, Permission)];
    assert sent + [] == sent;
    if me.ex.endSent {} else {}
  }

  /** What the node says before it is ready: the follower its INTENT, once; the master its grant, when it has an
      INTENT and is not permitted yet. */
  lemma AskEffect(me: Side)
    ensures var asks := !me.master && !me.ex.intentSent;
            var grants := me.master && me.ex.readyNeighbors >= 1 && !me.ex.permitted;
            var ends := grants && !me.ex.endSent;
            var sent := me.sent + When(asks, Stamped(me, Intent)) + When(grants, Stamped(me, Permission))
                                + When(ends, Stamped(me, EndOfEmulation));
            var ex := me.ex.(asked := true, permitted := me.ex.permitted || grants,
                             intentSent := me.ex.intentSent || asks, endSent := me.ex.endSent || grants);
            Ask(me) == me.(sent := sent, ex := ex)
  {
    hide Grant;
    assert me.sent + [] + [] + [] == me.sent;
    if !me.master {
      if !me.ex.intentSent {
        var sent := me.sent + [Stamped(me, Intent)];
        assert sent + [] + [] == sent;
      }
    } else if me.ex.readyNeighbors >= 1 && !me.ex.permitted {
      GrantEffect(me.(ex := me.ex.(asked := true)));
      assert me.sent + [] == me.sent;
    }
  }

  /** The follower sends INTENT once; the master grants when it has an INTENT and is not permitted yet,
      PERMISSION before END.  Either is ready afterwards, and may stop if it is permitted and its peer has
      finished. */
  lemma CanStopEffect(me: Side)
    ensures var asks := !me.master && !me.ex.intentSent;
            var grants := me.master && me.ex.readyNeighbors >= 1 && !me.ex.permitted;
            var ends := grants && !me.ex.endSent;
            var permitted := me.ex.permitted || grants;
            var sent := me.sent + When(asks, Stamped(me, Intent)) + When(grants, Stamped(me, Permission))
                                + When(ends, Stamped(me, EndOfEmulation));
            var ex := me.ex.(asked := true, ready := true, permitted := permitted,
                             intentSent := me.ex.intentSent || asks, endSent := me.ex.endSent || grants,
                             stopOk := me.ex.stopOk || (permitted && me.ex.pairFinished));
            CanStopAll(me) == me.(sent := sent, ex := ex)
  {
    hide Ask, When, Stamped;
    AskEffect(me);
  }

  // ----- create_checkpoint_bh

  /** A due snapshot is recorded with its round and with what was received by then, and the request is
      cleared; behind "init_warmed" the master notifies its peer, if it may, and ends.  Nothing happens
      when no checkpoint is due. */
  lemma SaveEffect(me: Side)
    ensures var last := me.master && me.warm;
            var ends := last && !me.ex.notifiedExit && me.ex.permitted && !me.ex.endSent;
            var ck := me.ck.(needs := false, notified := false, scheduled := false, ckRound := 0,
                             snaps := me.ck.snaps + [Snapshot(me.bar.round, me.recv)]);
            var ex := me.ex.(notifiedExit := me.ex.notifiedExit || last, endSent := me.ex.endSent || ends);
            var sent := me.sent + When(ends, Stamped(me, EndOfEmulation));
            var saved := me.(ck := ck, halted := me.halted || last, ex := ex, sent := sent);
            SaveAll(me) == if me.ck.needs then saved else me
  {
    hide NotifyAll;
    NotifyEffect(Recorded(me));
    assert me.sent + [] == me.sent;
  }
}
