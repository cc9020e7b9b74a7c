/** Every packet a node has taken from its channel is scheduled or already delivered, exactly once,
    at exactly the time it was stamped with. */
module Conservation {
  import opened Messages
  import opened Machine
  import opened Barrier

  /** The deliveries owed for the first n messages of the peer's log. */
  function Taken(log: Log, n: nat, firstSync: int): multiset<Delivery>
    requires n <= |log|
  {
    if n == 0 then multiset{}
    else if log[n - 1].body.Packet? then
      Taken(log, n - 1, firstSync) + multiset{Delivery(log[n - 1].ts + firstSync, log[n - 1].body.data)}
    else Taken(log, n - 1, firstSync)
  }

  ghost predicate Conserved(me: Side, peer: Side) {
    && me.recv <= |peer.sent|
    && multiset(me.bar.deliveries) + multiset(me.bar.delivered) == Taken(peer.sent, me.recv, me.bar.firstSync)
  }

  lemma {:induction false} TakenExtend(log: Log, more: Log, n: nat, firstSync: int)
    requires n <= |log|
    ensures Taken(log + more, n, firstSync) == Taken(log, n, firstSync)
  {
    if n > 0 { TakenExtend(log, more, n - 1, firstSync); }
  }

  lemma {:induction false} TakenHas(log: Log, n: nat, firstSync: int, j: nat)
    requires j < n <= |log| && log[j].body.Packet?
    ensures Delivery(log[j].ts + firstSync, log[j].body.data) in Taken(log, n, firstSync)
  {
    if j < n - 1 { TakenHas(log, n - 1, firstSync, j); }
  }

  lemma FireConserves(me: Side)
    requires FirstDue(me.bar.deliveries, me.bar.clock) < |me.bar.deliveries|
    ensures multiset(Fire(me).bar.deliveries) + multiset(Fire(me).bar.delivered)
         == multiset(me.bar.deliveries) + multiset(me.bar.delivered)
  {
    var i, ds := FirstDue(me.bar.deliveries, me.bar.clock), me.bar.deliveries;
    assert ds == ds[..i] + [ds[i]] + ds[i + 1..];
  }

  /** Steps other than polling and firing leave the packets alone. */
  lemma PacketsStay(q: nat, me: Side, peerSent: Log, a: Action)
    requires Enabled(me, peerSent, a) && !a.Poll? && !a.FireDelivery? && FlexusFits(me)
    ensures var next := Next(q, me, peerSent, a);
            && next.bar.deliveries == me.bar.deliveries && next.bar.delivered == me.bar.delivered
            && next.bar.firstSync == me.bar.firstSync && next.recv == me.recv
  {
    if IsQuiet(me, a) {
      QuietSteps(q, me, peerSent, a);
    } else {
      match a {
        case SendSync =>
        case Check =>
        case _ =>
      }
    }
  }

  lemma PollConserves(me: Side, peer: Side)
    requires Conserved(me, peer) && me.recv < |peer.sent|
    requires var m := peer.sent[me.recv]; m.body.Packet? ==> Universal(me.bar) <= m.ts
    ensures Conserved(Receive(me, peer.sent[me.recv]).(recv := me.recv + 1), peer)
  {
    ReceiptAdds(me, peer.sent[me.recv]);
  }

  lemma ReceiptAdds(me: Side, m: Message)
    requires m.body.Packet? ==> Universal(me.bar) <= m.ts
    ensures var next := Receive(me, m);
            && next.bar.firstSync == me.bar.firstSync && next.bar.delivered == me.bar.delivered
            && next.bar.deliveries == me.bar.deliveries
                 + if m.body.Packet? then [Delivery(m.ts + me.bar.firstSync, m.body.data)] else []
  {
    match m.body
    case Sync(_) =>
    case Packet(_) =>
    case _ =>
  }

  lemma StepConserves(q: nat, me: Side, peer: Side, a: Action)
    requires Half(q, me, peer) && Half(q, peer, me) && Enabled(me, peer.sent, a)
    requires Conserved(me, peer) && Conserved(peer, me)
    ensures Conserved(Next(q, me, peer.sent, a), peer) && Conserved(peer, Next(q, me, peer.sent, a))
  {
    LogGrows(q, me, peer.sent, a);
    TakenExtend(me.sent, Tail(q, me, a), peer.recv, peer.bar.firstSync);
    match a {
      case Poll =>
        PolledMessageIsFine(q, me, peer);
        PollConserves(me, peer);
      case FireDelivery => FireConserves(me);
      case _ => PacketsStay(q, me, peer.sent, a);
    }
  }

  lemma {:induction false} RunKeepsPackets(q: nat, states: seq<Sys>, labels: seq<Label>, i: nat)
    requires IsRun(q, states, labels) && AllFit(states) && i < |states|
    ensures Conserved(states[i].m, states[i].f) && Conserved(states[i].f, states[i].m)
  {
    if i > 0 {
      RunKeepsPackets(q, states, labels, i - 1);
      RunInv(q, states, labels, i - 1);
      var l := labels[i - 1];
      StepConserves(q, Mine(states[i - 1], l.who), Peers(states[i - 1], l.who), l.act);
    }
  }

  /** No packet is lost or duplicated between the channel and the guest. */
  lemma PacketsConserved(q: nat, s: Sys, w: Who)
    requires Reachable(q, s)
    ensures Conserved(Mine(s, w), Peers(s, w))
  {
    var states, labels :| IsRun(q, states, labels) && AllFit(states) && states[|states| - 1] == s;
    RunKeepsPackets(q, states, labels, |states| - 1);
  }

  /** A packet is handed over at its stamp, which is the sender's time of sending plus the latency. */
  lemma DeliveredOnTime(q: nat, s: Sys, w: Who)
    requires Reachable(q, s) && Enabled(Mine(s, w), Peers(s, w).sent, FireDelivery)
    ensures var me, next := Mine(s, w), Next(q, Mine(s, w), Peers(s, w).sent, FireDelivery);
            next.fault.None? ==>
              && |next.bar.delivered| == |me.bar.delivered| + 1
              && var d := next.bar.delivered[|me.bar.delivered|];
                 exists j :: 0 <= j < me.recv && j < |Peers(s, w).sent| && Peers(s, w).sent[j].body == Packet(d.data)
                             && Peers(s, w).sent[j].ts == Universal(me.bar)
  {
    PacketsConserved(q, s, w);
    var me := Mine(s, w);
    var d := me.bar.deliveries[FirstDue(me.bar.deliveries, me.bar.clock)];
    assert d in multiset(me.bar.deliveries) + multiset(me.bar.delivered);
    var j := TakenFrom(Peers(s, w).sent, me.recv, me.bar.firstSync, d);
  }

  lemma {:induction false} TakenFrom(log: Log, n: nat, firstSync: int, d: Delivery) returns (j: nat)
    requires n <= |log| && d in Taken(log, n, firstSync)
    ensures j < n && log[j].body == Packet(d.data) && log[j].ts + firstSync == d.at
  {
    if log[n - 1].body.Packet? && Delivery(log[n - 1].ts + firstSync, log[n - 1].body.data) == d {
      j := n - 1;
    } else {
      j := TakenFrom(log, n - 1, firstSync, d);
    }
  }
}
