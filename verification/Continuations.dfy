/** What a node can be made to do from a given state: finite continuations within the rules, put
    together from whole activities of one node. */
module Continuations {
  import opened Messages
  import opened Machine
  import opened Barrier
  import opened Conservation
  import opened Checkpoint
  import opened Exit
  import opened Orderly
  import opened Progress

  // ----- Continuations

  ghost predicate Path(q: nat, s: Sys, labels: seq<Label>, t: Sys)
    decreases |labels|
  {
    if labels == [] then s == t
    else
      && RoundsFit(s) && CanStep(s, labels[0])
      && Keeps(Mine(s, labels[0].who), Peers(s, labels[0].who), labels[0].act)
      && Path(q, NextSys(q, s, labels[0]), labels[1..], t)
  }

  predicate AllBy(labels: seq<Label>, w: Who) {
    forall i :: 0 <= i < |labels| ==> labels[i].who == w
  }

  /** Some continuation within the rules leads from s to t. */
  ghost predicate Leads(q: nat, s: Sys, t: Sys) {
    exists labels :: Path(q, s, labels, t)
  }

  /** One in which only node w moves. */
  ghost predicate LeadsBy(q: nat, w: Who, s: Sys, t: Sys) {
    exists labels :: Path(q, s, labels, t) && AllBy(labels, w)
  }

  /** The labels, taken one after the other from s, lead to t. */
  ghost predicate Follows(q: nat, s: Sys, labels: seq<Label>, t: Sys)
    decreases |labels|
  {
    if labels == [] then s == t
    else CanStep(s, labels[0]) && Follows(q, NextSys(q, s, labels[0]), labels[1..], t)
  }

  lemma Prepend(q: nat, s: Sys, l: Label, labels: seq<Label>, t: Sys)
    requires CanStep(s, l) && Follows(q, NextSys(q, s, l), labels, t)
    ensures Follows(q, s, [l] + labels, t)
  {
    assert ([l] + labels)[1..] == labels;
  }

  lemma {:induction false} PathFollows(q: nat, s: Sys, labels: seq<Label>, t: Sys)
    requires Path(q, s, labels, t)
    ensures Follows(q, s, labels, t)
    decreases |labels|
  {
    if labels != [] {
      hide RoundsFit, CanStep, Keeps, NextSys;
      PathFollows(q, NextSys(q, s, labels[0]), labels[1..], t);
    }
  }

  lemma Stays(q: nat, w: Who, s: Sys)
    ensures LeadsBy(q, w, s, s)
  {
    assert Path(q, s, [], s) && AllBy([], w);
  }

  lemma {:induction false} JoinedPaths(q: nat, s: Sys, first: seq<Label>, mid: Sys, second: seq<Label>, t: Sys)
    requires Path(q, s, first, mid) && Path(q, mid, second, t)
    ensures Path(q, s, first + second, t)
    decreases |first|
  {
    if first == [] {
      assert first + second == second;
    } else {
      hide RoundsFit, CanStep, Keeps, NextSys;
      JoinedPaths(q, NextSys(q, s, first[0]), first[1..], mid, second, t);
      assert (first + second)[1..] == first[1..] + second;
    }
  }

  lemma ThenBy(q: nat, w: Who, s: Sys, mid: Sys, t: Sys)
    requires LeadsBy(q, w, s, mid) && LeadsBy(q, w, mid, t)
    ensures LeadsBy(q, w, s, t)
  {
    hide Path;
    var first :| Path(q, s, first, mid) && AllBy(first, w);
    var second :| Path(q, mid, second, t) && AllBy(second, w);
    JoinedPaths(q, s, first, mid, second, t);
    assert AllBy(first + second, w);
  }

  lemma Then(q: nat, s: Sys, mid: Sys, t: Sys)
    requires Leads(q, s, mid) && Leads(q, mid, t)
    ensures Leads(q, s, t)
  {
    hide Path;
    var first :| Path(q, s, first, mid);
    var second :| Path(q, mid, second, t);
    JoinedPaths(q, s, first, mid, second, t);
  }

  lemma ByIsLeads(q: nat, w: Who, s: Sys, t: Sys)
    requires LeadsBy(q, w, s, t)
    ensures Leads(q, s, t)
  {
    hide Path;
  }

  lemma Onwards(q: nat, w: Who, s: Sys, mid: Sys, t: Sys)
    requires Leads(q, s, mid) && LeadsBy(q, w, mid, t)
    ensures Leads(q, s, t)
  {
    hide Leads, LeadsBy;
    ByIsLeads(q, w, mid, t);
    Then(q, s, mid, t);
  }

  lemma StepLeads(q: nat, s: Sys, l: Label)
    requires RoundsFit(s) && CanStep(s, l) && Keeps(Mine(s, l.who), Peers(s, l.who), l.act)
    ensures LeadsBy(q, l.who, s, NextSys(q, s, l))
  {
    hide RoundsFit, CanStep, Keeps, NextSys;
    var t, labels := NextSys(q, s, l), [l];
    assert Path(q, t, [], t);
    assert labels[0] == l && labels[1..] == [];
    assert Path(q, s, labels, t) && AllBy(labels, l.who);
  }

  lemma {:induction false} PathKeepsAll(q: nat, s: Sys, labels: seq<Label>, t: Sys)
    requires AllInv(q, s) && Path(q, s, labels, t)
    ensures AllInv(q, t)
    decreases |labels|
  {
    if labels != [] {
      hide AllInv, RoundsFit, CanStep, Keeps, NextSys;
      StepKeepsAll(q, s, labels[0]);
      PathKeepsAll(q, NextSys(q, s, labels[0]), labels[1..], t);
    }
  }

  lemma LeadsKeepsAll(q: nat, s: Sys, t: Sys)
    requires AllInv(q, s) && Leads(q, s, t)
    ensures AllInv(q, t)
  {
    hide AllInv, Path;
    var labels :| Path(q, s, labels, t);
    PathKeepsAll(q, s, labels, t);
  }

  lemma {:induction false} PathKeepsCore(q: nat, s: Sys, labels: seq<Label>, t: Sys)
    requires CoreInv(q, s) && Path(q, s, labels, t)
    ensures CoreInv(q, t)
    decreases |labels|
  {
    if labels != [] {
      hide CoreInv, RoundsFit, CanStep, Paced, Lawful, NextSys;
      StepKeepsCore(q, s, labels[0]);
      PathKeepsCore(q, NextSys(q, s, labels[0]), labels[1..], t);
    }
  }

  lemma LeadsKeepsCore(q: nat, s: Sys, t: Sys)
    requires CoreInv(q, s) && Leads(q, s, t)
    ensures CoreInv(q, t)
  {
    hide CoreInv, Path;
    var labels :| Path(q, s, labels, t);
    PathKeepsCore(q, s, labels, t);
  }

  /** What the follower does depends on the master's log alone. */
  lemma {:induction false} Replay(q: nat, s: Sys, labels: seq<Label>, t: Sys, m: Side)
    requires Path(q, s, labels, t) && AllBy(labels, Follower) && !s.f.master
    requires m.sent == s.m.sent && m.bar.round == s.m.bar.round
    ensures Path(q, Sys(m, s.f), labels, Sys(m, t.f)) && t.m == s.m
    decreases |labels|
  {
    if labels != [] {
      hide Enabled, Next, Lawful, AsksNow;
      var l := labels[0];
      var next := Next(q, s.f, s.m.sent, l.act);
      NextSysIs(q, s, l, next);
      NextSysIs(q, Sys(m, s.f), l, next);
      SameRole(q, s.f, s.m.sent, l.act);
      FollowerIsPaced(s.f, m, l.act);
      Replay(q, NextSys(q, s, l), labels[1..], t, m);
    }
  }

  lemma FollowerIsPaced(me: Side, peer: Side, a: Action)
    requires !me.master
    ensures Paced(me, peer, a)
  {
  }

  lemma ReplayLeads(q: nat, s: Sys, t: Sys, m: Side)
    requires LeadsBy(q, Follower, s, t) && !s.f.master && m.sent == s.m.sent && m.bar.round == s.m.bar.round
    ensures LeadsBy(q, Follower, Sys(m, s.f), Sys(m, t.f)) && t.m == s.m
  {
    hide Path;
    var labels :| Path(q, s, labels, t) && AllBy(labels, Follower);
    Replay(q, s, labels, t, m);
  }

  // ----- One step

  /** Node w is alive and in its event loop. */
  ghost predicate Attentive(q: nat, s: Sys, w: Who) {
    CoreInv(q, s) && RoundsFit(s) && Live(Mine(s, w)) && MainIdle(Mine(s, w))
  }

  lemma OnlyCheckPasses(q: nat, me: Side, peerSent: Log, a: Action)
    requires Enabled(me, peerSent, a) && a != Check
    ensures Next(q, me, peerSent, a).fault != Some(CheckpointPassed)
  {
    hide FirstDue, ThreadStep, Receive, TakeSnapshot;
    match a
    case SnapshotNow => SnapshotTouches(me);
    case Poll => ReceiptEffect(me, peerSent[me.recv]);
    case Step(t) => StepFault(q, me, t);
    case CallCanStop => if me.master {} else if me.ex.intentSent {} else {}
    case CallNotify(t) => if t == Main {} else {}
    case TakeExit => if me.ex.permitted {} else {}
    case _ =>
  }

  /** One step of node w, whatever it finds. */
  lemma Take(q: nat, s: Sys, w: Who, a: Action) returns (t: Sys)
    requires CoreInv(q, s) && RoundsFit(s) && Enabled(Mine(s, w), Peers(s, w).sent, a)
    requires Lawful(Mine(s, w), a) && !AsksNow(Mine(s, w), Peers(s, w).sent, a)
    ensures LeadsBy(q, w, s, t) && CoreInv(q, t)
    ensures Mine(t, w) == Next(q, Mine(s, w), Peers(s, w).sent, a) && Peers(t, w) == Peers(s, w)
    ensures a != Check ==> Mine(t, w).fault.None?
  {
    hide CoreInv, CoreSide, Enabled, Next, Lawful, Safe, AsksNow, LeadsBy;
    var l := Label(w, a);
    t := NextSys(q, s, l);
    StepLeads(q, s, l);
    StepKeepsCore(q, s, l);
    NextSysIs(q, s, l, Next(q, Mine(s, w), Peers(s, w).sent, a));
    if a != Check {
      OnlyCheckPasses(q, Mine(s, w), Peers(s, w).sent, a);
      CoreFault(q, t, w);
    }
  }

  lemma CoreFault(q: nat, s: Sys, w: Who)
    requires CoreInv(q, s)
    ensures Mine(s, w).fault.None? || Mine(s, w).fault == Some(CheckpointPassed)
  {
  }

  /** From s node w alone can get to t, and is in its event loop again; its peer has not moved. */
  ghost predicate Gets(q: nat, w: Who, s: Sys, t: Sys) {
    LeadsBy(q, w, s, t) && CoreInv(q, t) && Live(Mine(t, w)) && MainIdle(Mine(t, w)) && Peers(t, w) == Peers(s, w)
  }

  lemma GetsChain(q: nat, w: Who, s: Sys, mid: Sys, t: Sys)
    requires Gets(q, w, s, mid) && Gets(q, w, mid, t)
    ensures Gets(q, w, s, t)
  {
    hide CoreInv, LeadsBy, Live, MainIdle;
    ThenBy(q, w, s, mid, t);
  }

  lemma GetsSelf(q: nat, w: Who, s: Sys)
    requires Attentive(q, s, w)
    ensures Gets(q, w, s, s)
  {
    hide CoreInv, LeadsBy;
    Stays(q, w, s);
  }

  lemma NodeHalf(q: nat, s: Sys, w: Who)
    requires CoreInv(q, s)
    ensures Half(q, Mine(s, w), Peers(s, w)) && Half(q, Peers(s, w), Mine(s, w))
    ensures ExFits(Mine(s, w), Peers(s, w)) && ExFits(Peers(s, w), Mine(s, w))
    ensures (Mine(s, w).master <==> w == Master) && (Peers(s, w).master <==> w == Follower)
  {
    hide Half, OwnExit, ExitLog, FlagsFit, Conserved, CoreSide;
  }

  // ----- Running to the deadline

  predicate OnlyClock(a: Side, b: Side) {
    b == a.(bar := a.bar.(clock := b.bar.clock, deliveries := b.bar.deliveries, delivered := b.bar.delivered))
  }

  /** Something the clock can do short of the deadline: fire what is due, or tick. */
  lemma ClockMoves(q: nat, me: Side, peer: Side) returns (a: Action)
    requires Half(q, me, peer) && Live(me) && !me.bar.finished && me.bar.clock < me.bar.deadline
    ensures Enabled(me, peer.sent, a) && (a == FireDelivery || a == Run(1))
  {
    hide CountersFit, TableFits, LogFits, ClockFits;
    if FirstDue(me.bar.deliveries, me.bar.clock) < |me.bar.deliveries| {
      a := FireDelivery;
    } else {
      a := Run(1);
    }
  }

  lemma ClockEffect(q: nat, me: Side, peerSent: Log, a: Action)
    requires Enabled(me, peerSent, a) && (a == FireDelivery || a == Run(1))
    requires Next(q, me, peerSent, a).fault.None?
    ensures OnlyClock(me, Next(q, me, peerSent, a))
    ensures var b := Next(q, me, peerSent, a).bar;
            || (b.clock == me.bar.clock && |b.deliveries| < |me.bar.deliveries|)
            || b.clock == me.bar.clock + 1
  {
    match a
    case FireDelivery =>
    case Run(_) =>
  }

  lemma {:induction false} RunOut(q: nat, s: Sys, w: Who) returns (t: Sys)
    requires Attentive(q, s, w) && !Mine(s, w).bar.finished
    ensures Gets(q, w, s, t) && OnlyClock(Mine(s, w), Mine(t, w))
    ensures Mine(t, w).bar.deadline <= Mine(t, w).bar.clock
    decreases Mine(s, w).bar.deadline - Mine(s, w).bar.clock, |Mine(s, w).bar.deliveries|
  {
    hide CoreInv, LeadsBy, Enabled, Next, Half, ExFits;
    var me, peer := Mine(s, w), Peers(s, w);
    if me.bar.deadline <= me.bar.clock {
      t := s;
      GetsSelf(q, w, s);
    } else {
      NodeHalf(q, s, w);
      var a := ClockMoves(q, me, peer);
      var mid := Take(q, s, w, a);
      ClockEffect(q, me, peer.sent, a);
      t := RunOut(q, mid, w);
      ThenBy(q, w, s, mid, t);
    }
  }

  // ----- Closing the quantum

  predicate SameBuild(a: Side, b: Side) {
    b.master == a.master && b.warm == a.warm
  }

  predicate SyncTail(me: Side, tail: Log) {
    if me.ck.needs && !me.ck.notified
    then |tail| == 2 && tail[0].body == DrainStart(me.bar.round) && tail[1].body == Sync(me.bar.round)
    else |tail| == 1 && tail[0].body == Sync(me.bar.round)
  }

  /** The node closes its quantum and waits. */
  ghost predicate Closed(a: Side, b: Side) {
    && b.bar.round == a.bar.round && b.bar.finished && b.bar.checkArmed
    && b.recv == a.recv && b.ex == a.ex && b.flex == a.flex && b.main == a.main && SameBuild(a, b)
    && b.ck == Noticed(a).ck
    && a.sent <= b.sent && SyncTail(a, b.sent[|a.sent|..])
  }

  lemma SyncOutCloses(me: Side)
    requires me.bar.finished
    ensures Closed(me, SyncOut(me)) && MainIdle(SyncOut(me)) == MainIdle(me) && Live(SyncOut(me)) == Live(me)
  {
    if me.ck.needs && !me.ck.notified {
      var d, y := Message(Universal(me.bar), DrainStart(me.bar.round)), Message(Universal(me.bar), Sync(me.bar.round));
      assert SyncOut(me).sent == me.sent + [d, y];
      assert (me.sent + [d, y])[|me.sent|..] == [d, y];
    } else {
      var y := Message(Universal(me.bar), Sync(me.bar.round));
      assert (me.sent + [y])[|me.sent|..] == [y];
    }
  }

  lemma CloseFinished(q: nat, s: Sys, w: Who) returns (t: Sys)
    requires Attentive(q, s, w) && Mine(s, w).bar.finished && !Mine(s, w).bar.checkArmed
    ensures Gets(q, w, s, t) && Closed(Mine(s, w), Mine(t, w))
  {
    hide CoreInv, LeadsBy, SyncOut, Closed;
    t := Take(q, s, w, SendSync);
    SyncOutCloses(Mine(s, w));
  }

  lemma CloseQuantum(q: nat, s: Sys, w: Who) returns (t: Sys)
    requires Attentive(q, s, w) && !Mine(s, w).bar.checkArmed
    ensures Gets(q, w, s, t) && Closed(Mine(s, w), Mine(t, w))
  {
    hide CoreInv, LeadsBy;
    if Mine(s, w).bar.finished {
      t := CloseFinished(q, s, w);
    } else {
      var out := RunOut(q, s, w);
      var done := Take(q, out, w, QuantumTimer);
      t := CloseFinished(q, done, w);
      ThenBy(q, w, s, out, done);
      ThenBy(q, w, s, done, t);
    }
  }

  // ----- Finishing what the main thread has begun

  /** Only messages of the handshake are added. */
  ghost predicate OnlyExitSent(was: Log, now: Log) {
    was <= now && forall i :: |was| <= i < |now| ==> now[i].body.Permission? || now[i].body.EndOfEmulation?
  }

  lemma OnlyExitChain(a: Log, b: Log, c: Log)
    requires OnlyExitSent(a, b) && OnlyExitSent(b, c)
    ensures OnlyExitSent(a, c)
  {
  }

  /** The main thread does not overtake a grant of its own node. */
  predicate InTurn(me: Side) {
    && me.main.at != Quit && me.main.after != Quit
    && (me.master ==> me.main.at in {Idle, Advance, GrantSet, GrantSend} || Total(me.sent, KPermission) >= 1)
  }

  ghost predicate Settled(a: Side, b: Side) {
    && b.ck == a.ck && b.recv == a.recv && b.flex == a.flex && SameBuild(a, b)
    && OnlyExitSent(a.sent, b.sent)
  }

  lemma TurnSends(q: nat, me: Side)
    requires me.main.at == GrantSend || me.main.at == EndSend
    requires PcsFit(me) && InTurn(me)
    ensures var next := ThreadStep(q, me, Main);
            Settled(me, next) && next.bar == me.bar && Closing(next) == Closing(me) && InTurn(next)
                && next.halted == me.halted
  {
    var m := Message(Universal(me.bar), if me.main.at == GrantSend then Permission else EndOfEmulation);
    TotalAppend(me.sent, m, KPermission);
  }

  lemma TurnSettles(q: nat, me: Side)
    requires PcsFit(me) && InTurn(me) && me.main.at != Idle && me.main.at != Advance
    ensures var next := ThreadStep(q, me, Main);
            Settled(me, next) && next.bar == me.bar && Closing(next) == Closing(me) && InTurn(next)
                && next.halted == me.halted
  {
    match me.main.at
    case GrantSend | EndSend => TurnSends(q, me);
    case EndRead => if me.ex.permitted {} else {}
    case EndSwap => if me.ex.endSent {} else {}
    case _ =>
  }

  lemma MainTurn(q: nat, s: Sys, w: Who) returns (t: Sys)
    requires CoreInv(q, s) && RoundsFit(s) && Live(Mine(s, w)) && InTurn(Mine(s, w)) && !MainIdle(Mine(s, w))
    ensures LeadsBy(q, w, s, t) && CoreInv(q, t) && Peers(t, w) == Peers(s, w)
    ensures Mine(t, w) == ThreadStep(q, Mine(s, w), Main) && Mine(t, w).fault.None?
  {
    hide CoreInv, LeadsBy, ThreadStep;
    t := Take(q, s, w, Step(Main));
  }

  lemma {:induction false} Settle(q: nat, s: Sys, w: Who) returns (t: Sys)
    requires CoreInv(q, s) && RoundsFit(s) && Live(Mine(s, w)) && InTurn(Mine(s, w))
    ensures Gets(q, w, s, t) && Settled(Mine(s, w), Mine(t, w))
    ensures Mine(t, w).bar == if Closing(Mine(s, w)) then AdvanceRound(q, Mine(s, w)).bar else Mine(s, w).bar
    decreases Rank(Mine(s, w).main)
  {
    hide CoreInv, LeadsBy, ThreadStep, Rank, EndFits, MasterExit, FollowerExit, FinishFits, ExitLog, FlagsFit, Half;
    hide InTurn, Settled;
    var me := Mine(s, w);
    NodeHalf(q, s, w);
    if MainIdle(me) {
      t := s;
      GetsSelf(q, w, s);
      SettledSelf(me);
    } else {
      var mid := MainTurn(q, s, w);
      if me.main.at == Advance {
        AdvanceSettles(q, me);
        t := mid;
      } else {
        TurnSettles(q, me);
        assert me.main.at != Quit by { assert InTurn(me); InTurnGoesOn(me); }
        StepLowers(q, me, Main);
        t := Settle(q, mid, w);
        ThenBy(q, w, s, mid, t);
        SettledChain(me, Mine(mid, w), Mine(t, w));
      }
    }
  }

  lemma InTurnGoesOn(me: Side)
    requires InTurn(me)
    ensures me.main.at != Quit && me.main.after != Quit
  {
  }

  lemma SettledSelf(me: Side)
    ensures Settled(me, me)
  {
  }

  lemma SettledChain(a: Side, b: Side, c: Side)
    requires Settled(a, b) && Settled(b, c)
    ensures Settled(a, c)
  {
    OnlyExitChain(a.sent, b.sent, c.sent);
  }

  lemma AdvanceSettles(q: nat, me: Side)
    requires me.main.at == Advance
    ensures var next := ThreadStep(q, me, Main);
            Settled(me, next) && next.bar == AdvanceRound(q, me).bar && next.halted == me.halted && MainIdle(next)
  {
  }

  // ----- Polling

  /** No poll of this node makes a request: it is the follower, or its peer has been counted. */
  predicate NoAsk(me: Side) {
    !me.master || me.ck.initFlag >= 1
  }

  function CkStep(ck: Ck, master: bool, m: Message): Ck {
    match m.body
    case DrainStart(round) => if master then ck else ck.(needs := true, ckRound := round)
    case InitStep => ck.(initFlag := ck.initFlag + 1)
    case _ => ck
  }

  function CkOver(ck: Ck, master: bool, log: Log, i: nat, n: nat): Ck
    requires i <= n <= |log|
    decreases n - i
  {
    if i == n then ck else CkOver(CkStep(ck, master, log[i]), master, log, i + 1, n)
  }

  /** What polling leaves alone. */
  ghost predicate Polled(a: Side, b: Side) {
    && b.bar.round == a.bar.round && b.bar.finished == a.bar.finished && b.bar.checkArmed == a.bar.checkArmed
    && b.flex == a.flex && SameBuild(a, b)
    && OnlyExitSent(a.sent, b.sent)
  }

  lemma ReceiptPolls(me: Side, m: Message)
    requires me.fault.None? && NoAsk(me)
    ensures var next := Receive(me, m);
            && Polled(me, next) && next.sent == me.sent && next.ck == CkStep(me.ck, me.master, m)
            && next.halted == me.halted && next.main == if m.body.Permission? then Pc(EndRead, Idle) else me.main
  {
    hide OnlyExitSent, CountInit, SyncCountIncrement, ValidRound, Universal;
    assert OnlyExitSent(me.sent, me.sent) by { OnlyExitSelf(me.sent); }
    match m.body
    case DrainStart(_) => if me.master {} else {}
    case Intent => if me.master {} else {}
    case Sync(_) =>
    case Packet(_) =>
    case InitStep =>
      CountInitTouches(me);
      CountedOnly(me);
    case EndOfEmulation => if me.ex.permitted {} else {}
    case _ =>
  }

  lemma CountedOnly(me: Side)
    requires NoAsk(me)
    ensures CountInit(me).ck == me.ck.(initFlag := me.ck.initFlag + 1)
  {
  }

  lemma OnlyExitSelf(log: Log)
    ensures OnlyExitSent(log, log)
  {
  }

  lemma PermissionIsForFollower(me: Side, peer: Side)
    requires ExFits(peer, me) && me.master != peer.master && me.recv < |peer.sent|
        && peer.sent[me.recv].body.Permission?
    ensures !me.master
  {
    CountSeen(peer.sent, me.recv, KPermission);
  }

  lemma PollOne(q: nat, s: Sys, w: Who) returns (t: Sys)
    requires Attentive(q, s, w) && Mine(s, w).recv < |Peers(s, w).sent| && NoAsk(Mine(s, w))
    ensures Gets(q, w, s, t) && Polled(Mine(s, w), Mine(t, w)) && Mine(t, w).recv == Mine(s, w).recv + 1
    ensures Mine(t, w).ck == CkStep(Mine(s, w).ck, Mine(s, w).master, Peers(s, w).sent[Mine(s, w).recv])
  {
    hide CoreInv, LeadsBy, Receive, Half, ExFits, CkStep;
    var me, peer := Mine(s, w), Peers(s, w);
    NodeHalf(q, s, w);
    ReceiptPolls(me, peer.sent[me.recv]);
    var mid := Take(q, s, w, Poll);
    if peer.sent[me.recv].body.Permission? {
      PermissionIsForFollower(me, peer);
      t := Settle(q, mid, w);
      ThenBy(q, w, s, mid, t);
      OnlyExitChain(me.sent, Mine(mid, w).sent, Mine(t, w).sent);
    } else {
      t := mid;
    }
  }

  lemma {:induction false} PollTo(q: nat, s: Sys, w: Who, n: nat) returns (t: Sys)
    requires Attentive(q, s, w) && Mine(s, w).recv <= n <= |Peers(s, w).sent| && NoAsk(Mine(s, w))
    ensures Gets(q, w, s, t) && Polled(Mine(s, w), Mine(t, w)) && Mine(t, w).recv == n
    ensures Mine(t, w).ck == CkOver(Mine(s, w).ck, Mine(s, w).master, Peers(s, w).sent, Mine(s, w).recv, n)
    decreases n - Mine(s, w).recv
  {
    hide CoreInv, LeadsBy;
    var me := Mine(s, w);
    if me.recv == n {
      t := s;
      GetsSelf(q, w, s);
    } else {
      var mid := PollOne(q, s, w);
      t := PollTo(q, mid, w, n);
      GetsChain(q, w, s, mid, t);
      OnlyExitChain(me.sent, Mine(mid, w).sent, Mine(t, w).sent);
    }
  }

  // ----- Leaving the round

  /** The round is over; the drain notice goes out only if a checkpoint is pending and untold. */
  ghost predicate Left(a: Side, b: Side) {
    && b.bar.round == a.bar.round + 1 && !b.bar.finished && !b.bar.checkArmed
    && b.recv == a.recv && b.flex == a.flex && SameBuild(a, b)
    && b.ck == Noticed(a).ck
    && a.sent <= b.sent
    && (!a.ck.needs ==> OnlyExitSent(a.sent, b.sent))
  }

  lemma CheckProceeds(me: Side)
    requires MainIdle(me) && (me.ck.needs ==> me.bar.round < me.ck.ckRound) && PcsFit(me)
    ensures var next := SyncCheck(me);
            && InTurn(next) && Closing(next) && next.bar == me.bar && next.ck == Noticed(me).ck
            && next.recv == me.recv && next.flex == me.flex && SameBuild(me, next) && me.sent <= next.sent
            && (!me.ck.needs ==> next.sent == me.sent) && next.halted == me.halted && next.fault == me.fault
  {
    if me.ck.needs {
      if me.ck.notified {} else {}
    } else {}
  }

  lemma Leave(q: nat, s: Sys, w: Who) returns (t: Sys)
    requires Attentive(q, s, w) && Mine(s, w).bar.checkArmed && !Waiting(Mine(s, w).bar)
    requires Mine(s, w).ck.needs ==> Mine(s, w).bar.round < Mine(s, w).ck.ckRound
    ensures Gets(q, w, s, t) && Left(Mine(s, w), Mine(t, w))
  {
    hide CoreInv, LeadsBy, SyncCheck, Waiting, Half, EndFits, MasterExit, FollowerExit, FinishFits, ExitLog, FlagsFit;
    hide InTurn, Closing, Noticed;
    NodeHalf(q, s, w);
    CheckProceeds(Mine(s, w));
    var mid := Take(q, s, w, Check);
    t := Settle(q, mid, w);
    ThenBy(q, w, s, mid, t);
  }

  /** The snapshot of this round is taken. */
  ghost predicate Saved(a: Side, b: Side) {
    && b.bar == a.bar && b.recv == a.recv && b.flex == a.flex && SameBuild(a, b)
    && b.ck == Recorded(a).ck
    && b.sent == a.sent + NoticeOf(a)
  }

  lemma Save(q: nat, s: Sys, w: Who) returns (t: Sys)
    requires Attentive(q, s, w) && Mine(s, w).bar.checkArmed && !Waiting(Mine(s, w).bar)
    requires Mine(s, w).ck.needs && Mine(s, w).ck.ckRound == Mine(s, w).bar.round
    requires w == Master ==> !s.m.warm
    ensures Gets(q, w, s, t) && Saved(Mine(s, w), Mine(t, w))
  {
    hide CoreInv, LeadsBy, Waiting, NotifyEnd;
    MasterRole(q, s);
    var mid := Take(q, s, w, Check);
    assert Mine(mid, w) == Noticed(Mine(s, w)).(ck := Noticed(Mine(s, w)).ck.(scheduled := true));
    t := Take(q, mid, w, SnapshotNow);
    ThenBy(q, w, s, mid, t);
  }
}
