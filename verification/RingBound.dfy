/** How full a channel can get, and hence why the blocking send never blocks. */
module RingBound {
  import opened Messages
  import opened Machine
  import opened Barrier

  /** If no sync stands between the two positions, at most `most` packets do. */
  predicate PacketGap(log: Log, i: nat, j: nat, most: nat)
    requires i <= j <= |log|
  {
    Count(log, i, KSync) == Count(log, j, KSync) ==> Count(log, j, KPacket) <= Count(log, i, KPacket) + most
  }

  /** At most `most` packets a round. */
  ghost predicate PacketsPerRound(log: Log, most: nat) {
    forall i, j :: 0 <= i <= j <= |log| ==> PacketGap(log, i, j, most)
  }

  function Controls(log: Log, n: nat): int
    requires n <= |log|
  {
    n - Count(log, n, KSync) - Count(log, n, KPacket)
  }

  /** If no more than two syncs stand between the two positions, at most `most` control messages do. */
  predicate ControlGap(log: Log, i: nat, j: nat, most: nat)
    requires i <= j <= |log|
  {
    Count(log, j, KSync) <= Count(log, i, KSync) + 2 ==> Controls(log, j) <= Controls(log, i) + most
  }

  /** At most `most` control messages in any two rounds. */
  ghost predicate ControlsPerWindow(log: Log, most: nat) {
    forall i, j :: 0 <= i <= j <= |log| ==> ControlGap(log, i, j, most)
  }

  /** A waiting node has sent no packet since its sync. */
  ghost predicate NoPacketsSinceSync(me: Side) {
    me.bar.checkArmed ==>
      forall i :: 0 <= i <= |me.sent| && Count(me.sent, i, KSync) == Total(me.sent, KSync) ==>
        Count(me.sent, i, KPacket) == Total(me.sent, KPacket)
  }

  /** Guests that do not send while paused. */
  predicate SendsRunning(me: Side, a: Action) {
    a.SendPacket? ==> !me.bar.finished
  }

  /** The packets between two positions with one sync between them. */
  lemma PacketsAcross(log: Log, i: nat, j: nat, most: nat)
    requires i <= j <= |log| && PacketsPerRound(log, most)
    requires Count(log, i, KSync) < Count(log, j, KSync) <= Count(log, i, KSync) + 1
    ensures Count(log, j, KPacket) <= Count(log, i, KPacket) + 2 * most
  {
    var p := CountWitness(log, i, j, KSync);
    assert PacketGap(log, i, p, most) && PacketGap(log, p + 1, j, most);
  }

  /** Just behind the last sync of a log. */
  lemma {:induction false} LastSync(log: Log, n: nat) returns (p: nat)
    requires n <= |log| && Count(log, n, KSync) > 0
    ensures p < n && KindOf(log[p]) == KSync && Count(log, p + 1, KSync) == Count(log, n, KSync)
  {
    if KindOf(log[n - 1]) == KSync {
      p := n - 1;
    } else {
      p := LastSync(log, n - 1);
    }
  }

  lemma ChannelOf(me: Side, peer: Side, packets: nat, controls: nat)
    requires CountersFit(me, peer) && CountersFit(peer, me) && NoPacketsSinceSync(peer)
    requires PacketsPerRound(peer.sent, packets) && ControlsPerWindow(peer.sent, controls)
    ensures |peer.sent| - me.recv <= 2 * (packets + 1) + controls
  {
    Chain(me, peer);
    CountMono(peer.sent, me.recv, |peer.sent|, KSync);
    var syncs := Total(peer.sent, KSync) - SyncsSeen(me, peer);
    assert ControlGap(peer.sent, me.recv, |peer.sent|, controls);
    assert PacketGap(peer.sent, me.recv, |peer.sent|, packets);
    if syncs == 2 {
      assert peer.bar.checkArmed;
      var p := LastSync(peer.sent, |peer.sent|);
      if p < me.recv { CountMono(peer.sent, p + 1, me.recv, KSync); }
      PacketsAcross(peer.sent, me.recv, p, packets);
      assert Count(peer.sent, p + 1, KPacket) == Total(peer.sent, KPacket);
    } else if syncs == 1 {
      PacketsAcross(peer.sent, me.recv, |peer.sent|, packets);
    }
  }

  // ----- The quiet tail is an invariant

  lemma TailStep(q: nat, me: Side, peerSent: Log, a: Action)
    requires Enabled(me, peerSent, a) && SendsRunning(me, a) && FlexusFits(me) && NoPacketsSinceSync(me)
    requires me.bar.checkArmed ==> me.bar.finished
    ensures NoPacketsSinceSync(Next(q, me, peerSent, a))
  {
    if a.SendSync? {
      SyncLast(Noticed(me).sent, Message(Universal(me.bar), Sync(me.bar.round)));
    } else {
      hide Enabled, Next, Tail;
      LogGrows(q, me, peerSent, a);
      if Next(q, me, peerSent, a).bar.checkArmed {
        ArmedBefore(q, me, peerSent, a);
        TailShape(q, me, peerSent, a);
        var tail := Tail(q, me, a);
        if tail == [] {
          assert me.sent + tail == me.sent;
        } else {
          assert tail == [tail[0]];
          NoPacketAdded(me.sent, tail[0]);
        }
      }
    }
  }

  /** A waiting node sends at most one message a step, and neither a sync nor a packet. */
  lemma TailShape(q: nat, me: Side, peerSent: Log, a: Action)
    requires Enabled(me, peerSent, a) && SendsRunning(me, a) && !a.SendSync? && me.bar.finished
    ensures |Tail(q, me, a)| <= 1
    ensures Tail(q, me, a) != [] ==> !Tail(q, me, a)[0].body.Packet? && !Tail(q, me, a)[0].body.Sync?
  {
    match a
    case Step(t) =>
      if PcOf(me, t).at == GrantSend {} else if PcOf(me, t).at == EndSend {} else {}
    case Check =>
    case _ =>
  }

  lemma ArmedBefore(q: nat, me: Side, peerSent: Log, a: Action)
    requires Enabled(me, peerSent, a) && !a.SendSync? && FlexusFits(me)
    requires Next(q, me, peerSent, a).bar.checkArmed
    ensures me.bar.checkArmed
  {
    if IsQuiet(me, a) {
      QuietSteps(q, me, peerSent, a);
    } else {
      match a {
        case Poll => ReceiptArms(me, peerSent[me.recv]);
        case Check =>
        case FireDelivery =>
        case _ =>
      }
    }
  }

  lemma ReceiptArms(me: Side, m: Message)
    ensures Receive(me, m).bar.checkArmed == me.bar.checkArmed
  {
    match m.body
    case Sync(_) =>
    case Packet(_) =>
    case _ =>
  }

  lemma SyncLast(log: Log, m: Message)
    requires m.body.Sync?
    ensures forall i :: 0 <= i <= |log + [m]| && Count(log + [m], i, KSync) == Total(log + [m], KSync) ==>
              Count(log + [m], i, KPacket) == Total(log + [m], KPacket)
  {
    TotalAppend(log, m, KSync);
    forall i | 0 <= i <= |log| ensures Count(log + [m], i, KSync) < Total(log + [m], KSync) {
      CountExtend(log, [m], i, KSync);
      CountMono(log, i, |log|, KSync);
    }
  }

  lemma NoPacketAdded(log: Log, m: Message)
    requires !m.body.Packet? && !m.body.Sync?
    requires forall i :: 0 <= i <= |log| && Count(log, i, KSync) == Total(log, KSync) ==>
               Count(log, i, KPacket) == Total(log, KPacket)
    ensures forall i :: 0 <= i <= |log + [m]| && Count(log + [m], i, KSync) == Total(log + [m], KSync) ==>
              Count(log + [m], i, KPacket) == Total(log + [m], KPacket)
  {
    TotalAppend(log, m, KSync);
    TotalAppend(log, m, KPacket);
    forall i | 0 <= i <= |log + [m]| && Count(log + [m], i, KSync) == Total(log + [m], KSync)
      ensures Count(log + [m], i, KPacket) == Total(log + [m], KPacket)
    {
      if i <= |log| {
        CountExtend(log, [m], i, KSync);
        CountExtend(log, [m], i, KPacket);
      }
    }
  }

  lemma {:induction false} RunTail(q: nat, states: seq<Sys>, labels: seq<Label>, i: nat)
    requires IsRun(q, states, labels) && AllFit(states) && i < |states|
    requires forall j :: 0 <= j < |labels| ==> SendsRunning(Mine(states[j], labels[j].who), labels[j].act)
    ensures NoPacketsSinceSync(states[i].m) && NoPacketsSinceSync(states[i].f)
  {
    if i > 0 {
      RunTail(q, states, labels, i - 1);
      RunInv(q, states, labels, i - 1);
      var s, l := states[i - 1], labels[i - 1];
      assert SendsRunning(Mine(s, l.who), l.act);
      TailStep(q, Mine(s, l.who), Peers(s, l.who).sent, l.act);
      NextSysIs(q, s, l, Next(q, Mine(s, l.who), Peers(s, l.who).sent, l.act));
    }
  }

  /** How full a channel is at any point of any run. */
  lemma ChannelBound(q: nat, states: seq<Sys>, labels: seq<Label>, i: nat, w: Who, packets: nat, controls: nat)
    requires IsRun(q, states, labels) && AllFit(states) && i < |states|
    requires forall j :: 0 <= j < |labels| ==> SendsRunning(Mine(states[j], labels[j].who), labels[j].act)
    requires PacketsPerRound(Mine(states[i], w).sent, packets) && ControlsPerWindow(Mine(states[i], w).sent, controls)
    ensures |Mine(states[i], w).sent| - Peers(states[i], w).recv <= 2 * (packets + 1) + controls
  {
    hide CountersFit, NoPacketsSinceSync, LogFits, TableFits, ClockFits, NoneLate;
    RunInv(q, states, labels, i);
    RunTail(q, states, labels, i);
    ChannelOf(Peers(states[i], w), Mine(states[i], w), packets, controls);
  }

  /** The ring never fills.  If a node sends at most `packets` packets a round, all of them while
      running, and at most `controls` control messages in any two rounds, and that fits the ring, then
      every message it ever sends finds a free slot: the blocking send does not wait. */
  lemma RingNeverBlocks(q: nat, states: seq<Sys>, labels: seq<Label>, i: nat, packets: nat, controls: nat, n: nat)
    requires IsRun(q, states, labels) && AllFit(states) && i < |labels|
    requires forall j :: 0 <= j < |labels| ==> SendsRunning(Mine(states[j], labels[j].who), labels[j].act)
    requires PacketsPerRound(Mine(states[i + 1], labels[i].who).sent, packets)
    requires ControlsPerWindow(Mine(states[i + 1], labels[i].who).sent, controls)
    requires 2 * (packets + 1) + controls <= 8191
    requires |Mine(states[i], labels[i].who).sent| <= n < |Mine(states[i + 1], labels[i].who).sent|
    ensures n - Peers(states[i], labels[i].who).recv < 8191 == RING_SIZE - 1
  {
    hide PacketsPerRound, ControlsPerWindow, SendsRunning;
    ChannelBound(q, states, labels, i + 1, labels[i].who, packets, controls);
    var l := labels[i];
    NextSysIs(q, states[i], l, Next(q, Mine(states[i], l.who), Peers(states[i], l.who).sent, l.act));
  }
}
