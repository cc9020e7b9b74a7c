/** Liveness of the barrier: in every infinite, strongly fair behaviour both nodes complete every round,
    unless one of them ends or a checkpoint is asked for in a way that makes it assert. */
module Progress {
  import opened Messages
  import opened Machine
  import opened Barrier
  import opened Conservation
  import opened Checkpoint
  import opened Exit
  import opened Orderly

  // ----- Infinite behaviours

  type Behaviour = nat -> Sys
  type Schedule = nat -> Option<Label>

  /** One moment: some enabled step, or nothing.  Of the rules only those of the exit handshake and of
      the frames are asked for; checkpoints may be requested at any moment. */
  ghost predicate Moves(q: nat, run: Behaviour, lab: Schedule, i: nat) {
    match lab(i)
    case None => run(i + 1) == run(i)
    case Some(l) => CanStep(run(i), l) && Lawful(Mine(run(i), l.who), l.act) && run(i + 1) == NextSys(q, run(i), l)
  }

  ghost predicate LawfulBehaviour(q: nat, run: Behaviour, lab: Schedule) {
    Init(run(0)) && forall i: nat :: Moves(q, run, lab, i)
  }

  /** What a node must not put off for ever: letting time pass, its timers, its polls, and the
      instructions of its threads.  `Run(1)` stands for any advance of the clock. */
  predicate Duty(a: Action) {
    a in {Run(1), FireDelivery, QuantumTimer, SendSync, Poll, Check, SnapshotNow, Step(Main), Step(Flexus)}
  }

  predicate CanDo(s: Sys, w: Who, a: Action) {
    CanStep(s, Label(w, a))
  }

  predicate Does(l: Option<Label>, w: Who, a: Action) {
    l.Some? && l.value.who == w && (l.value.act == a || (a.Run? && l.value.act.Run? && a.d <= l.value.act.d))
  }

  ghost predicate ReadyFrom(run: Behaviour, w: Who, a: Action, i: nat) {
    exists j :: i <= j && CanDo(run(j), w, a)
  }

  ghost predicate DoneFrom(lab: Schedule, w: Who, a: Action, i: nat) {
    exists j :: i <= j && Does(lab(j), w, a)
  }

  /** Strong fairness: what can be done again and again is done again and again. */
  ghost predicate FairTo(run: Behaviour, lab: Schedule, w: Who, a: Action) {
    (forall i: nat :: ReadyFrom(run, w, a, i)) ==> forall i: nat :: DoneFrom(lab, w, a, i)
  }

  ghost predicate Fair(run: Behaviour, lab: Schedule) {
    forall w: Who, a: Action :: Duty(a) ==> FairTo(run, lab, w, a)
  }

  lemma Happens(run: Behaviour, lab: Schedule, w: Who, a: Action, n: nat) returns (j: nat)
    requires Fair(run, lab) && Duty(a)
    requires forall i: nat :: n <= i ==> ReadyFrom(run, w, a, i)
    ensures n <= j && Does(lab(j), w, a)
  {
    forall i: nat ensures ReadyFrom(run, w, a, i) {
      if i < n {
        assert ReadyFrom(run, w, a, n);
        var k :| n <= k && CanDo(run(k), w, a);
      }
    }
    assert FairTo(run, lab, w, a);
    assert DoneFrom(lab, w, a, n);
    j :| n <= j && Does(lab(j), w, a);
  }

  // ----- What a node keeps while its round stands still

  predicate Steady(a: Side, b: Side) {
    && (a.bar.finished ==> b.bar.finished)
    && (a.bar.checkArmed ==> b.bar.checkArmed)
    && a.bar.round == b.bar.round && a.bar.firstSync == b.bar.firstSync && a.bar.deadline == b.bar.deadline
    && a.bar.clock <= b.bar.clock
    && a.recv <= b.recv && a.sent <= b.sent
    && a.ck.snaps <= b.ck.snaps
  }

  lemma ReceiptSteady(me: Side, m: Message)
    ensures Steady(me, Receive(me, m))
  {
    hide CountInit, SyncCountIncrement, ValidRound;
    match m.body
    case Sync(_) =>
    case Packet(_) =>
    case InitStep => CountInitSteady(me);
    case _ =>
  }

  lemma CountInitSteady(me: Side)
    ensures Steady(me, CountInit(me))
  {
    hide Repeats;
  }

  lemma ThreadSteady(q: nat, me: Side, t: Thread)
    requires PcOf(me, t).at != Idle && PcOf(me, t).at != Advance
    ensures Steady(me, ThreadStep(q, me, t))
  {
    match PcOf(me, t).at
    case EndRead => if me.ex.permitted {} else {}
    case EndSwap => if me.ex.endSent {} else {}
    case _ =>
  }

  lemma ActSteady(q: nat, me: Side, peerSent: Log, a: Action)
    requires Enabled(me, peerSent, a) && Next(q, me, peerSent, a).bar.round == me.bar.round
    ensures Steady(me, Next(q, me, peerSent, a))
  {
    hide FirstDue, Receive, ThreadStep, CanStop, NotifyEnd, SyncCheck, TakeSnapshot;
    match a
    case Step(t) =>
      if PcOf(me, t).at != Advance { ThreadSteady(q, me, t); } else { AdvanceMoves(q, me, t); }
    case Poll => ReceiptSteady(me, peerSent[me.recv]);
    case CallCanStop => CanStopSteady(me);
    case CallNotify(t) => NotifySteady(me, t, Idle);
    case TakeExit => NotifySteady(me, Main, Quit);
    case Check => CheckSteady(me);
    case SnapshotNow => SnapshotTouches(me);
    case _ =>
  }

  lemma CanStopSteady(me: Side)
    ensures Steady(me, CanStop(me))
  {
    if me.master {} else if me.ex.intentSent {} else {}
  }

  lemma NotifySteady(me: Side, t: Thread, after: Point)
    ensures Steady(me, NotifyEnd(me, t, after))
  {
    if t == Main {} else {}
  }

  lemma CheckSteady(me: Side)
    ensures Steady(me, SyncCheck(me))
  {
    hide MayGrantAtBarrier;
    if me.ck.needs {
      if me.ck.notified {} else {}
    }
  }

  lemma AdvanceMoves(q: nat, me: Side, t: Thread)
    requires PcOf(me, t).at == Advance
    ensures ThreadStep(q, me, t).bar.round == me.bar.round + 1
  {
  }

  /** Rounds never go back, and one step completes at most one. */
  lemma RoundGrows(q: nat, me: Side, peerSent: Log, a: Action)
    requires Enabled(me, peerSent, a)
    ensures me.bar.round <= Next(q, me, peerSent, a).bar.round <= me.bar.round + 1
  {
    match a
    case Step(t) =>
      if PcOf(me, t).at != Advance { ThreadSteady(q, me, t); }
    case Poll => ReceiptSteady(me, peerSent[me.recv]);
    case _ =>
  }

  // ----- A behaviour in which, from n on, no round is completed and node w does not end

  ghost predicate FrozenAt(q: nat, run: Behaviour, n: nat, i: nat) {
    && CoreInv(q, run(i)) && RoundsFit(run(i))
    && run(i).m.fault.None? && run(i).f.fault.None?
    && run(i).m.bar.round == run(n).m.bar.round && run(i).f.bar.round == run(n).f.bar.round
  }

  ghost predicate Stalled(q: nat, run: Behaviour, lab: Schedule, n: nat) {
    && Fair(run, lab)
    && (forall i: nat :: Moves(q, run, lab, i))
    && (forall i: nat :: n <= i ==> FrozenAt(q, run, n, i))
  }

  predicate AliveAt(run: Behaviour, i: nat, w: Who) {
    !Mine(run(i), w).halted
  }

  ghost predicate AliveFrom(run: Behaviour, n: nat, w: Who) {
    forall i: nat :: n <= i ==> AliveAt(run, i, w)
  }

  ghost predicate Frozen(q: nat, run: Behaviour, lab: Schedule, n: nat, w: Who) {
    Stalled(q, run, lab, n) && AliveFrom(run, n, w)
  }

  lemma NodeMoves(q: nat, run: Behaviour, lab: Schedule, i: nat, w: Who)
    requires Moves(q, run, lab, i)
    ensures var me, peer, next := Mine(run(i), w), Peers(run(i), w), Mine(run(i + 1), w);
            if lab(i).Some? && lab(i).value.who == w
            then Enabled(me, peer.sent, lab(i).value.act) && Lawful(me, lab(i).value.act)
                 && next == Next(q, me, peer.sent, lab(i).value.act)
            else next == me
  {
    hide Enabled, Next, Lawful;
  }

  lemma OneSteady(q: nat, run: Behaviour, lab: Schedule, n: nat, i: nat, w: Who)
    requires Stalled(q, run, lab, n) && n <= i
    ensures Steady(Mine(run(i), w), Mine(run(i + 1), w))
  {
    hide Enabled, Next, Lawful, Moves, CoreInv, Fair, Steady;
    assert FrozenAt(q, run, n, i) && FrozenAt(q, run, n, i + 1) && Moves(q, run, lab, i);
    NodeMoves(q, run, lab, i, w);
    var me := Mine(run(i), w);
    if lab(i).Some? && lab(i).value.who == w {
      ActSteady(q, me, Peers(run(i), w).sent, lab(i).value.act);
    } else {
      assert Steady(me, me) by { SteadySelf(me); }
    }
  }

  lemma SteadySelf(me: Side)
    ensures Steady(me, me)
  {
  }

  lemma SteadyChain(a: Side, b: Side, c: Side)
    requires Steady(a, b) && Steady(b, c)
    ensures Steady(a, c)
  {
  }

  lemma {:induction false} LaterSteady(q: nat, run: Behaviour, lab: Schedule, n: nat, i: nat, j: nat, w: Who)
    requires Stalled(q, run, lab, n) && n <= i <= j
    ensures Steady(Mine(run(i), w), Mine(run(j), w))
    decreases j - i
  {
    hide Stalled, AliveFrom, Steady;
    if i == j {
      SteadySelf(Mine(run(i), w));
    } else {
      LaterSteady(q, run, lab, n, i, j - 1, w);
      OneSteady(q, run, lab, n, j - 1, w);
      SteadyChain(Mine(run(i), w), Mine(run(j - 1), w), Mine(run(j), w));
    }
  }

  // ----- A thread always comes back from the exit code

  /** From n on no assertion fires and the exit handshake's invariant holds. */
  ghost predicate Steers(q: nat, run: Behaviour, lab: Schedule, n: nat) {
    && Fair(run, lab)
    && (forall i: nat :: Moves(q, run, lab, i))
    && (forall i: nat :: n <= i ==> Sound(run(i)))
  }

  ghost predicate Sound(s: Sys) {
    ExInv(s) && s.m.fault.None? && s.f.fault.None?
  }

  lemma FrozenSteers(q: nat, run: Behaviour, lab: Schedule, n: nat)
    requires Stalled(q, run, lab, n)
    ensures Steers(q, run, lab, n)
  {
    hide Inv, ExInv, Conserved, CoreSide, Fair, Moves;
    forall i: nat | n <= i ensures Sound(run(i)) {
      assert FrozenAt(q, run, n, i);
    }
  }

  lemma SoundNode(s: Sys, w: Who)
    requires Sound(s)
    ensures Mine(s, w).fault.None? && ExFits(Mine(s, w), Peers(s, w))
  {
  }

  function Rank(pc: Pc): nat {
    (match pc.at
     case Idle => 0
     case Advance | Quit | Return => 1
     case Ready => 2
     case EndSend => 3
     case EndSwap => 4
     case EndRead => 5
     case GrantSend => 6
     case GrantSet => 7)
    + if pc.after == Idle then 0 else 1
  }

  /** A thread in the exit code is moved by its own instructions only. */
  lemma PcStays(q: nat, me: Side, peerSent: Log, a: Action, t: Thread)
    requires Enabled(me, peerSent, a) && PcOf(me, t).at != Idle && a != Step(t)
    ensures PcOf(Next(q, me, peerSent, a), t) == PcOf(me, t)
  {
    match a
    case Step(u) => OtherPcStays(q, me, u);
    case CallCanStop => if me.master {} else if me.ex.intentSent {} else {}
    case CallNotify(u) => if u == Main {} else {}
    case TakeExit => if me.ex.permitted {} else {}
    case Poll => ReceiptLeavesFlexus(me, peerSent[me.recv]);
    case _ =>
  }

  lemma ReceiptLeavesFlexus(me: Side, m: Message)
    ensures Receive(me, m).flex == me.flex
  {
    match m.body
    case Sync(_) =>
    case Packet(_) =>
    case _ =>
  }

  lemma OtherPcStays(q: nat, me: Side, u: Thread)
    requires PcOf(me, u).at != Idle
    ensures PcOf(ThreadStep(q, me, u), OtherThread(u)) == PcOf(me, OtherThread(u))
  {
    match PcOf(me, u).at
    case EndRead => if me.ex.permitted {} else {}
    case EndSwap => if me.ex.endSent {} else {}
    case _ =>
  }

  lemma StepLowers(q: nat, me: Side, t: Thread)
    requires PcsFit(me) && PcOf(me, t).at != Idle && PcOf(me, t).at != Quit
    ensures Rank(PcOf(ThreadStep(q, me, t), t)) < Rank(PcOf(me, t))
  {
    if AtGate(me, t) {
      GateStep(q, me, t);
      GateLowers(me, t);
    } else {
      match PcOf(me, t).at
      case EndRead => if me.ex.permitted {} else {}
      case _ =>
    }
  }

  /** From a gate every way leads down. */
  lemma GateLowers(me: Side, t: Thread)
    requires PcsFit(me) && PcOf(me, t).at in {EndRead, EndSwap}
    ensures Rank(Pc(PcOf(me, t).after, Idle)) < Rank(PcOf(me, t))
    ensures Rank(Pc(EndSend, PcOf(me, t).after)) < Rank(PcOf(me, t))
  {
  }

  /** A main thread on its way out stays on it until the process ends. */
  lemma LeavingStep(q: nat, me: Side, peerSent: Log, a: Action)
    requires Enabled(me, peerSent, a) && PcsFit(me) && Leaving(me)
    ensures Leaving(Next(q, me, peerSent, a)) || Next(q, me, peerSent, a).halted
  {
    if a == Step(Main) {
      match me.main.at {
        case EndRead => if me.ex.permitted {} else {}
        case EndSwap => if me.ex.endSent {} else {}
        case _ =>
      }
    } else {
      PcStays(q, me, peerSent, a, Main);
    }
  }

  predicate HasTurn(run: Behaviour, lab: Schedule, i: nat, w: Who, t: Thread) {
    Mine(run(i), w).halted || Does(lab(i), w, Step(t))
  }

  lemma NoTurn(q: nat, run: Behaviour, lab: Schedule, i: nat, w: Who, t: Thread)
    requires Moves(q, run, lab, i) && PcOf(Mine(run(i), w), t).at != Idle && !HasTurn(run, lab, i, w, t)
    ensures PcOf(Mine(run(i + 1), w), t) == PcOf(Mine(run(i), w), t)
  {
    hide Moves, Enabled, Next, Lawful;
    NodeMoves(q, run, lab, i, w);
    if lab(i).Some? && lab(i).value.who == w {
      PcStays(q, Mine(run(i), w), Peers(run(i), w).sent, lab(i).value.act, t);
    }
  }

  lemma {:induction false} WalkToTurn(q: nat, run: Behaviour, lab: Schedule, i: nat, m: nat, w: Who, t: Thread)
    returns (k: nat)
    requires (forall j: nat :: Moves(q, run, lab, j)) && i <= m
    requires PcOf(Mine(run(i), w), t).at != Idle
    ensures i <= k <= m && PcOf(Mine(run(k), w), t) == PcOf(Mine(run(i), w), t)
    ensures k < m ==> HasTurn(run, lab, k, w, t)
    decreases m - i
  {
    hide Moves;
    if i == m || HasTurn(run, lab, i, w, t) {
      k := i;
    } else {
      assert Moves(q, run, lab, i);
      NoTurn(q, run, lab, i, w, t);
      k := WalkToTurn(q, run, lab, i + 1, m, w, t);
    }
  }

  /** A thread in the exit code gets to its next instruction, unless the process ends first. */
  lemma ThreadTurn(q: nat, run: Behaviour, lab: Schedule, n: nat, i: nat, w: Who, t: Thread) returns (k: nat)
    requires Steers(q, run, lab, n) && n <= i && PcOf(Mine(run(i), w), t).at != Idle
    ensures i <= k && PcOf(Mine(run(k), w), t) == PcOf(Mine(run(i), w), t)
    ensures HasTurn(run, lab, k, w, t)
  {
    hide Moves, Sound, Fair, ExFits;
    var m: nat;
    if turn: nat :| i <= turn && HasTurn(run, lab, turn, w, t) {
      m := turn;
    } else {
      forall j: nat | i <= j ensures ReadyFrom(run, w, Step(t), j) {
        var last := WalkToTurn(q, run, lab, i, j, w, t);
        assert !HasTurn(run, lab, last, w, t) && !HasTurn(run, lab, j, w, t);
        assert Sound(run(j));
        SoundNode(run(j), w);
        assert CanDo(run(j), w, Step(t));
      }
      m := Happens(run, lab, w, Step(t), i);
    }
    k := WalkToTurn(q, run, lab, i, m, w, t);
  }

  /** The instruction a thread executes at its turn. */
  lemma TurnDone(q: nat, run: Behaviour, lab: Schedule, i: nat, w: Who, t: Thread)
    requires Moves(q, run, lab, i) && HasTurn(run, lab, i, w, t) && !Mine(run(i), w).halted
    ensures PcOf(Mine(run(i), w), t).at != Idle && Mine(run(i + 1), w) == ThreadStep(q, Mine(run(i), w), t)
    ensures Lawful(Mine(run(i), w), Step(t))
  {
    hide Moves, ThreadStep, Lawful;
    NodeMoves(q, run, lab, i, w);
  }

  lemma {:induction false} ThreadReturns(q: nat, run: Behaviour, lab: Schedule, n: nat, i: nat, w: Who, t: Thread)
    returns (j: nat)
    requires Steers(q, run, lab, n) && n <= i
    ensures i <= j && (PcOf(Mine(run(j), w), t).at == Idle || Mine(run(j), w).halted)
    decreases Rank(PcOf(Mine(run(i), w), t))
  {
    hide Moves, Sound, Fair, Rank, HasTurn, EndFits, MasterExit, FollowerExit, FinishFits, ExitLog, FlagsFit;
    if PcOf(Mine(run(i), w), t).at == Idle {
      j := i;
    } else {
      var k := ThreadTurn(q, run, lab, n, i, w, t);
      if Mine(run(k), w).halted {
        j := k;
      } else {
        assert Moves(q, run, lab, k);
        TurnDone(q, run, lab, k, w, t);
        SoundNode(run(k), w);
        if PcOf(Mine(run(k), w), t).at == Quit {
          j := k + 1;
        } else {
          StepLowers(q, Mine(run(k), w), t);
          j := ThreadReturns(q, run, lab, n, k + 1, w, t);
        }
      }
    }
  }

  lemma MainReturns(q: nat, run: Behaviour, lab: Schedule, n: nat, i: nat, w: Who) returns (j: nat)
    requires Frozen(q, run, lab, n, w) && n <= i
    ensures i <= j && MainIdle(Mine(run(j), w))
  {
    hide Moves, Fair, CoreInv;
    FrozenSteers(q, run, lab, n);
    j := ThreadReturns(q, run, lab, n, i, w, Main);
    assert FrozenAt(q, run, n, j) && AliveAt(run, j, w);
  }

  /** What is ready whenever the main thread is in its event loop gets done. */
  lemma IdleDuty(q: nat, run: Behaviour, lab: Schedule, n: nat, i: nat, w: Who, a: Action) returns (j: nat)
    requires Frozen(q, run, lab, n, w) && n <= i && Duty(a)
    requires forall k: nat :: i <= k && MainIdle(Mine(run(k), w)) ==> CanDo(run(k), w, a)
    ensures i <= j && Does(lab(j), w, a)
  {
    hide FrozenAt, Moves, CanDo, MainIdle, Does;
    forall k: nat | i <= k ensures ReadyFrom(run, w, a, k) {
      var m := MainReturns(q, run, lab, n, k, w);
      assert CanDo(run(m), w, a);
    }
    j := Happens(run, lab, w, a, i);
  }

  lemma LiveThroughout(q: nat, run: Behaviour, lab: Schedule, n: nat, i: nat, w: Who)
    requires Frozen(q, run, lab, n, w) && n <= i
    ensures Live(Mine(run(i), w)) && RoundsFit(run(i)) && ExInv(run(i))
    ensures Half(q, Mine(run(i), w), Peers(run(i), w)) && Half(q, Peers(run(i), w), Mine(run(i), w))
    ensures Mine(run(i), w).bar.round == Mine(run(n), w).bar.round
  {
    hide Half, ExInv, Conserved, CoreSide, Fair, Moves;
    assert FrozenAt(q, run, n, i) && AliveAt(run, i, w);
  }

  /** The step a fair schedule promises, with its effect. */
  lemma DutyDone(q: nat, run: Behaviour, lab: Schedule, n: nat, i: nat, w: Who, a: Action)
    requires Frozen(q, run, lab, n, w) && n <= i && Does(lab(i), w, a) && !a.Run?
    ensures Enabled(Mine(run(i), w), Peers(run(i), w).sent, a)
    ensures Mine(run(i + 1), w) == Next(q, Mine(run(i), w), Peers(run(i), w).sent, a)
  {
    hide FrozenAt, Fair, Enabled, Next, Lawful, Moves;
    assert Moves(q, run, lab, i);
    NodeMoves(q, run, lab, i, w);
  }

  // ----- Time reaches the armed deadline

  /** How many deliveries are due right now. */
  function DueCount(ds: seq<Delivery>, now: int): nat {
    if ds == [] then 0
    else DueCount(ds[..|ds| - 1], now) + if ds[|ds| - 1].at == now then 1 else 0
  }

  lemma {:induction false} DueConcat(a: seq<Delivery>, b: seq<Delivery>, now: int)
    ensures DueCount(a + b, now) == DueCount(a, now) + DueCount(b, now)
  {
    if b == [] {
      assert a + b == a;
    } else {
      DueConcat(a, b[..|b| - 1], now);
      assert (a + b)[..|a + b| - 1] == a + b[..|b| - 1];
    }
  }

  lemma {:induction false} DueExists(ds: seq<Delivery>, now: int)
    ensures DueCount(ds, now) > 0 <==> FirstDue(ds, now) < |ds|
  {
    if ds != [] {
      DueConcat([ds[0]], ds[1..], now);
      assert [ds[0]] + ds[1..] == ds;
      assert [ds[0]][..0] == [];
      DueExists(ds[1..], now);
    }
  }

  lemma FireDue(me: Side)
    requires FirstDue(me.bar.deliveries, me.bar.clock) < |me.bar.deliveries| && Fire(me).fault.None? && me.fault.None?
    ensures DueCount(Fire(me).bar.deliveries, me.bar.clock) + 1 == DueCount(me.bar.deliveries, me.bar.clock)
  {
    hide DueCount, FirstDue;
    OneOut(me.bar.deliveries, FirstDue(me.bar.deliveries, me.bar.clock), me.bar.clock);
  }

  lemma OneOut(ds: seq<Delivery>, i: nat, now: int)
    requires i < |ds| && ds[i].at == now
    ensures DueCount(ds[..i] + ds[i + 1..], now) + 1 == DueCount(ds, now)
  {
    hide DueCount;
    DueConcat(ds[..i], ds[i + 1..], now);
    DueConcat(ds[..i], [ds[i]], now);
    DueConcat(ds[..i] + [ds[i]], ds[i + 1..], now);
    assert ds[..i] + [ds[i]] + ds[i + 1..] == ds;
    DueSingle(ds[i], now);
  }

  lemma DueSingle(d: Delivery, now: int)
    ensures DueCount([d], now) == if d.at == now then 1 else 0
  {
    assert [d][..0] == [];
  }

  /** What arrives is never due before the deadline. */
  lemma ArrivesLater(q: nat, me: Side, peer: Side)
    requires Half(q, me, peer) && Half(q, peer, me) && me.recv < |peer.sent| && peer.sent[me.recv].body.Packet?
    requires !me.bar.finished && me.bar.clock < me.bar.deadline
    ensures me.bar.clock < peer.sent[me.recv].ts + me.bar.firstSync
  {
    hide TableFits, NoneLate;
    assert WellSent(q, peer.sent, me.recv);
    RoundEndMono(q, me.bar.round, SyncsSeen(me, peer));
  }

  lemma ReceiptDue(q: nat, me: Side, peer: Side)
    requires Half(q, me, peer) && Half(q, peer, me) && me.recv < |peer.sent|
    requires !me.bar.finished && me.bar.clock < me.bar.deadline
    ensures DueCount(Receive(me, peer.sent[me.recv]).bar.deliveries, me.bar.clock)
        == DueCount(me.bar.deliveries, me.bar.clock)
  {
    hide Half, DueCount;
    match peer.sent[me.recv].body
    case Packet(data) =>
      ArrivesLater(q, me, peer);
      var d := Delivery(peer.sent[me.recv].ts + me.bar.firstSync, data);
      DueConcat(me.bar.deliveries, [d], me.bar.clock);
      NotDue(d, me.bar.clock);
    case Sync(_) =>
    case _ =>
  }

  lemma NotDue(d: Delivery, now: int)
    requires d.at != now
    ensures DueCount([d], now) == 0
  {
    assert [d][..0] == [];
  }

  predicate SameDeliveries(me: Side, next: Side) {
    next.bar.deliveries == me.bar.deliveries
  }

  lemma ThreadDelivers(q: nat, me: Side, t: Thread)
    requires PcOf(me, t).at != Idle
    ensures SameDeliveries(me, ThreadStep(q, me, t))
  {
    match PcOf(me, t).at
    case EndRead => if me.ex.permitted {} else {}
    case EndSwap => if me.ex.endSent {} else {}
    case _ =>
  }

  lemma OthersDeliver(q: nat, me: Side, peerSent: Log, a: Action)
    requires Enabled(me, peerSent, a) && !a.Poll? && !a.FireDelivery?
    ensures SameDeliveries(me, Next(q, me, peerSent, a))
  {
    match a
    case Step(t) => ThreadDelivers(q, me, t);
    case CallCanStop => if me.master {} else if me.ex.intentSent {} else {}
    case CallNotify(t) => if t == Main {} else {}
    case TakeExit => if me.ex.permitted {} else {}
    case Check => if me.ck.needs {} else {}
    case _ =>
  }

  lemma DueStep(q: nat, me: Side, peer: Side, a: Action)
    requires Half(q, me, peer) && Half(q, peer, me) && Enabled(me, peer.sent, a)
    requires !me.bar.finished && me.bar.clock < me.bar.deadline && Next(q, me, peer.sent, a).fault.None?
    ensures DueCount(Next(q, me, peer.sent, a).bar.deliveries, me.bar.clock)
         <= DueCount(me.bar.deliveries, me.bar.clock) - if a.FireDelivery? then 1 else 0
  {
    hide Half, DueCount, Receive, ThreadStep, Fire;
    match a
    case Poll => ReceiptDue(q, me, peer);
    case FireDelivery => FireDue(me);
    case _ => OthersDeliver(q, me, peer.sent, a);
  }

  /** The clock of node w stands still, short of its deadline, from i on. */
  ghost predicate Still(run: Behaviour, i: nat, w: Who, now: int) {
    forall k: nat :: i <= k ==> StandsAt(run, k, w, now)
  }

  ghost predicate StandsAt(run: Behaviour, k: nat, w: Who, now: int) {
    var b := Mine(run(k), w).bar;
    !b.finished && b.clock == now && now < b.deadline
  }

  lemma DueFalls(q: nat, run: Behaviour, lab: Schedule, n: nat, i: nat, w: Who, now: int)
    requires Frozen(q, run, lab, n, w) && n <= i && Still(run, i, w, now)
    ensures DueCount(Mine(run(i + 1), w).bar.deliveries, now) <= DueCount(Mine(run(i), w).bar.deliveries, now)
    ensures Does(lab(i), w, FireDelivery) ==>
              DueCount(Mine(run(i + 1), w).bar.deliveries, now) < DueCount(Mine(run(i), w).bar.deliveries, now)
  {
    hide FrozenAt, Fair, Enabled, Next, Lawful, Moves, DueCount, Half, ExInv;
    LiveThroughout(q, run, lab, n, i, w);
    LiveThroughout(q, run, lab, n, i + 1, w);
    assert StandsAt(run, i, w, now);
    assert Moves(q, run, lab, i);
    NodeMoves(q, run, lab, i, w);
    if lab(i).Some? && lab(i).value.who == w {
      DueStep(q, Mine(run(i), w), Peers(run(i), w), lab(i).value.act);
    }
  }

  lemma {:induction false} DueFallsTo(q: nat, run: Behaviour, lab: Schedule, n: nat, i: nat, j: nat, w: Who, now: int)
    requires Frozen(q, run, lab, n, w) && n <= i <= j && Still(run, i, w, now)
    ensures DueCount(Mine(run(j), w).bar.deliveries, now) <= DueCount(Mine(run(i), w).bar.deliveries, now)
    decreases j - i
  {
    hide Stalled, AliveFrom, DueCount, StandsAt;
    if i < j {
      DueFallsTo(q, run, lab, n, i, j - 1, w, now);
      DueFalls(q, run, lab, n, j - 1, w, now);
    }
  }

  lemma {:induction false} NoneDue(q: nat, run: Behaviour, lab: Schedule, n: nat, i: nat, w: Who, now: int)
    returns (j: nat)
    requires Frozen(q, run, lab, n, w) && n <= i && Still(run, i, w, now)
    ensures i <= j && DueCount(Mine(run(j), w).bar.deliveries, now) == 0
    decreases DueCount(Mine(run(i), w).bar.deliveries, now)
  {
    hide FrozenAt, Moves, Fair, DueCount, Half, ExInv, RoundsFit;
    if DueCount(Mine(run(i), w).bar.deliveries, now) == 0 {
      j := i;
    } else if k: nat :|
        i <= k && DueCount(Mine(run(k), w).bar.deliveries, now) < DueCount(Mine(run(i), w).bar.deliveries, now) {
      j := NoneDue(q, run, lab, n, k, w, now);
    } else {
      forall k: nat | i <= k ensures ReadyFrom(run, w, FireDelivery, k) {
        LiveThroughout(q, run, lab, n, k, w);
        assert StandsAt(run, k, w, now);
        DueExists(Mine(run(k), w).bar.deliveries, now);
        assert CanDo(run(k), w, FireDelivery);
      }
      var k := Happens(run, lab, w, FireDelivery, i);
      DueFalls(q, run, lab, n, k, w, now);
      DueFallsTo(q, run, lab, n, i, k, w, now);
      j := i;
      assert false;
    }
  }

  /** No delivery due and the deadline ahead: the clock can move by one. */
  lemma TickReady(q: nat, me: Side, peer: Side)
    requires Half(q, me, peer) && Live(me) && !me.bar.finished && me.bar.clock < me.bar.deadline
    requires DueCount(me.bar.deliveries, me.bar.clock) == 0
    ensures Enabled(me, peer.sent, Run(1))
  {
    hide CountersFit, TableFits, LogFits, ClockFits, DueCount;
    DueExists(me.bar.deliveries, me.bar.clock);
  }

  lemma ClockCannotStandStill(q: nat, run: Behaviour, lab: Schedule, n: nat, i: nat, w: Who, now: int)
    requires Frozen(q, run, lab, n, w) && n <= i
    ensures !Still(run, i, w, now)
  {
    hide FrozenAt, Fair, Lawful, DueCount, Half, ExInv, RoundsFit, Live;
    if Still(run, i, w, now) {
      var k := TickMovesClock(q, run, lab, n, i, w, now);
      NotStill(run, i, k, w, now);
    }
  }

  lemma NotStill(run: Behaviour, i: nat, k: nat, w: Who, now: int)
    requires i <= k && Mine(run(k), w).bar.clock < Mine(run(k + 1), w).bar.clock
    ensures !Still(run, i, w, now)
  {
    var later: nat := k + 1;
    assert Still(run, i, w, now) ==> StandsAt(run, k, w, now) && StandsAt(run, later, w, now);
  }

  lemma TickMovesClock(q: nat, run: Behaviour, lab: Schedule, n: nat, i: nat, w: Who, now: int) returns (k: nat)
    requires Frozen(q, run, lab, n, w) && n <= i && Still(run, i, w, now)
    ensures i <= k && Mine(run(k), w).bar.clock < Mine(run(k + 1), w).bar.clock
  {
    hide FrozenAt, Fair, Lawful, DueCount, Half, ExInv, RoundsFit, Live;
    var j := NoneDue(q, run, lab, n, i, w, now);
    forall m: nat | j <= m ensures ReadyFrom(run, w, Run(1), m) {
      LiveThroughout(q, run, lab, n, m, w);
      DueFallsTo(q, run, lab, n, j, m, w, now);
      assert StandsAt(run, m, w, now);
      TickReady(q, Mine(run(m), w), Peers(run(m), w));
      assert CanDo(run(m), w, Run(1));
    }
    k := Happens(run, lab, w, Run(1), j);
    assert Moves(q, run, lab, k);
    NodeMoves(q, run, lab, k, w);
  }

  lemma {:induction false} ReachesDeadline(q: nat, run: Behaviour, lab: Schedule, n: nat, i: nat, w: Who)
    returns (j: nat)
    requires Frozen(q, run, lab, n, w) && n <= i
    requires forall k: nat :: i <= k ==> !Mine(run(k), w).bar.finished
    ensures i <= j && Mine(run(j), w).bar.deadline <= Mine(run(j), w).bar.clock
    decreases Mine(run(i), w).bar.deadline - Mine(run(i), w).bar.clock
  {
    hide Stalled, AliveFrom;
    var b := Mine(run(i), w).bar;
    if b.deadline <= b.clock {
      j := i;
    } else if k: nat :| i <= k && b.clock < Mine(run(k), w).bar.clock {
      LaterSteady(q, run, lab, n, i, k, w);
      j := ReachesDeadline(q, run, lab, n, k, w);
    } else {
      forall k: nat | i <= k ensures StandsAt(run, k, w, b.clock) {
        LaterSteady(q, run, lab, n, i, k, w);
      }
      ClockCannotStandStill(q, run, lab, n, i, w, b.clock);
    }
  }

  // ----- Every node finishes its quantum, sends its sync, and takes what is in its channel

  lemma Finishes(q: nat, run: Behaviour, lab: Schedule, n: nat, i: nat, w: Who) returns (j: nat)
    requires Frozen(q, run, lab, n, w) && n <= i
    ensures i <= j && Mine(run(j), w).bar.finished
  {
    hide Stalled, AliveFrom, Half, ExInv, RoundsFit;
    if k: nat :| i <= k && Mine(run(k), w).bar.finished {
      j := k;
    } else {
      var m := ReachesDeadline(q, run, lab, n, i, w);
      forall k: nat | m <= k && MainIdle(Mine(run(k), w)) ensures CanDo(run(k), w, QuantumTimer) {
        LiveThroughout(q, run, lab, n, k, w);
        LaterSteady(q, run, lab, n, m, k, w);
      }
      var k := IdleDuty(q, run, lab, n, m, w, QuantumTimer);
      DutyDone(q, run, lab, n, k, w, QuantumTimer);
      j := k;
      assert false;
    }
  }

  lemma Arms(q: nat, run: Behaviour, lab: Schedule, n: nat, i: nat, w: Who) returns (j: nat)
    requires Frozen(q, run, lab, n, w) && n <= i && Mine(run(i), w).bar.finished
    ensures i <= j && Mine(run(j), w).bar.checkArmed
  {
    hide Stalled, AliveFrom, Half, ExInv, RoundsFit;
    if k: nat :| i <= k && Mine(run(k), w).bar.checkArmed {
      j := k;
    } else {
      forall k: nat | i <= k && MainIdle(Mine(run(k), w)) ensures CanDo(run(k), w, SendSync) {
        LiveThroughout(q, run, lab, n, k, w);
        LaterSteady(q, run, lab, n, i, k, w);
      }
      var k := IdleDuty(q, run, lab, n, i, w, SendSync);
      DutyDone(q, run, lab, n, k, w, SendSync);
      j := k;
      assert false;
    }
  }

  lemma {:induction false} Takes(q: nat, run: Behaviour, lab: Schedule, n: nat, i: nat, w: Who, upto: nat)
    returns (j: nat)
    requires Frozen(q, run, lab, n, w) && n <= i && upto <= |Peers(run(i), w).sent|
    ensures i <= j && upto <= Mine(run(j), w).recv
    decreases upto - Mine(run(i), w).recv
  {
    hide Stalled, AliveFrom, Half, ExInv, RoundsFit, Receive;
    if upto <= Mine(run(i), w).recv {
      j := i;
    } else if k: nat :| i <= k && Mine(run(i), w).recv < Mine(run(k), w).recv {
      LaterSteady(q, run, lab, n, i, k, Other(w));
      j := Takes(q, run, lab, n, k, w, upto);
    } else {
      forall k: nat | i <= k && MainIdle(Mine(run(k), w)) ensures CanDo(run(k), w, Poll) {
        LiveThroughout(q, run, lab, n, k, w);
        LaterSteady(q, run, lab, n, i, k, Other(w));
      }
      var k := IdleDuty(q, run, lab, n, i, w, Poll);
      LaterSteady(q, run, lab, n, i, k, w);
      DutyDone(q, run, lab, n, k, w, Poll);
      j := k;
      assert false;
    }
  }

  // ----- The barrier opens and the round is completed

  predicate Synced(me: Side, peer: Side) {
    me.recv <= |peer.sent| && me.bar.round < SyncsSeen(me, peer)
  }

  lemma SyncedIsOpen(q: nat, me: Side, peer: Side)
    requires Half(q, me, peer) && Synced(me, peer) && me.bar.round < KEY_SPAN
    ensures !Waiting(me.bar)
  {
    assert SyncCountGet(me.bar.counts, me.bar.round) == 1;
  }

  lemma SyncedStays(me: Side, peer: Side, me': Side, peer': Side)
    requires Synced(me, peer) && Steady(me, me') && Steady(peer, peer') && me'.recv <= |peer'.sent|
    ensures Synced(me', peer')
  {
    CountExtend(peer.sent, peer'.sent[|peer.sent|..], me.recv, KSync);
    assert peer.sent + peer'.sent[|peer.sent|..] == peer'.sent;
    CountMono(peer'.sent, me.recv, me'.recv, KSync);
  }

  /** A node past its check has to complete the round. */
  lemma ClosingStep(q: nat, me: Side, peerSent: Log, a: Action)
    requires Enabled(me, peerSent, a) && PcsFit(me) && Closing(me)
    requires Next(q, me, peerSent, a).bar.round == me.bar.round
    ensures Closing(Next(q, me, peerSent, a))
  {
    if a == Step(Main) {
      match me.main.at {
        case EndRead => if me.ex.permitted {} else {}
        case EndSwap => if me.ex.endSent {} else {}
        case _ =>
      }
    } else {
      PcStays(q, me, peerSent, a, Main);
    }
  }

  lemma {:induction false} ClosingStays(q: nat, run: Behaviour, lab: Schedule, n: nat, i: nat, j: nat, w: Who)
    requires Frozen(q, run, lab, n, w) && n <= i <= j && Closing(Mine(run(i), w))
    ensures Closing(Mine(run(j), w))
    decreases j - i
  {
    hide FrozenAt, Fair, Lawful, Half, RoundsFit, Closing, Enabled, Next, Moves, EndFits, MasterExit, FollowerExit;
    hide FinishFits, ExitLog, FlagsFit;
    if i < j {
      ClosingStays(q, run, lab, n, i, j - 1, w);
      LiveThroughout(q, run, lab, n, j - 1, w);
      LiveThroughout(q, run, lab, n, j, w);
      assert Moves(q, run, lab, j - 1);
      NodeMoves(q, run, lab, j - 1, w);
      if lab(j - 1).Some? && lab(j - 1).value.who == w {
        ClosingStep(q, Mine(run(j - 1), w), Peers(run(j - 1), w).sent, lab(j - 1).value.act);
      }
    }
  }

  lemma NeverClosing(q: nat, run: Behaviour, lab: Schedule, n: nat, i: nat, w: Who)
    requires Frozen(q, run, lab, n, w) && n <= i
    ensures !Closing(Mine(run(i), w))
  {
    hide FrozenAt, Fair, Lawful, Half, RoundsFit, Moves, EndFits, MasterExit, FollowerExit, FinishFits, ExitLog;
    hide FlagsFit;
    if Closing(Mine(run(i), w)) {
      var j := MainReturns(q, run, lab, n, i, w);
      ClosingStays(q, run, lab, n, i, j, w);
      LiveThroughout(q, run, lab, n, j, w);
      assert false;
    }
  }

  // ----- What is due is done, and then the round goes on

  predicate CheckEffect(me: Side, next: Side) {
    || Closing(next)
    || (me.ck.needs && me.ck.ckRound == me.bar.round && next.ck.scheduled && next.ck.needs)
    || next.fault.Some?
  }

  lemma CheckDoes(me: Side)
    requires MainIdle(me)
    ensures CheckEffect(me, SyncCheck(me))
  {
    if me.ck.needs {
      if me.ck.notified {} else {}
      if me.bar.round < me.ck.ckRound {} else if me.bar.round == me.ck.ckRound {} else {}
    } else {}
  }

  /** The next check of an open barrier finds a checkpoint due. */
  lemma CheckSchedules(q: nat, run: Behaviour, lab: Schedule, n: nat, i: nat, w: Who) returns (j: nat)
    requires Frozen(q, run, lab, n, w) && n <= i
    requires Mine(run(i), w).bar.checkArmed && Synced(Mine(run(i), w), Peers(run(i), w))
    ensures i <= j && Mine(run(j), w).ck.needs && Mine(run(j), w).ck.ckRound == Mine(run(j), w).bar.round
    ensures Mine(run(j + 1), w).ck.scheduled && Mine(run(j + 1), w).ck.needs
  {
    hide Stalled, AliveFrom, Half, ExInv, Closing, Steady, Synced, SyncCheck;
    forall k: nat | i <= k && MainIdle(Mine(run(k), w)) ensures CanDo(run(k), w, Check) {
      CheckIsReady(q, run, lab, n, i, k, w);
    }
    j := IdleDuty(q, run, lab, n, i, w, Check);
    DutyDone(q, run, lab, n, j, w, Check);
    CheckDoes(Mine(run(j), w));
    NeverClosing(q, run, lab, n, j + 1, w);
    LiveThroughout(q, run, lab, n, j + 1, w);
  }

  lemma CheckIsReady(q: nat, run: Behaviour, lab: Schedule, n: nat, i: nat, k: nat, w: Who)
    requires Frozen(q, run, lab, n, w) && n <= i <= k && MainIdle(Mine(run(k), w))
    requires Mine(run(i), w).bar.checkArmed && Synced(Mine(run(i), w), Peers(run(i), w))
    ensures CanDo(run(k), w, Check)
  {
    hide Stalled, AliveFrom, ExInv, LogFits, TableFits, ClockFits, NoneLate, Synced, Waiting;
    LiveThroughout(q, run, lab, n, k, w);
    LaterSteady(q, run, lab, n, i, k, w);
    LaterSteady(q, run, lab, n, i, k, Other(w));
    SyncedStays(Mine(run(i), w), Peers(run(i), w), Mine(run(k), w), Peers(run(k), w));
    SyncedIsOpen(q, Mine(run(k), w), Peers(run(k), w));
  }

  lemma ScheduledStep(q: nat, me: Side, peerSent: Log, a: Action)
    requires Enabled(me, peerSent, a) && me.ck.scheduled && me.ck.needs && a != SnapshotNow
    ensures Next(q, me, peerSent, a).ck.scheduled && Next(q, me, peerSent, a).ck.needs
  {
    hide ThreadStep, FirstDue, CanStop, NotifyEnd, Receive;
    match a
    case Step(t) => ThreadRequests(q, me, t);
    case Poll => ReceiptEffect(me, peerSent[me.recv]);
    case CallCanStop => CanStopRequests(me);
    case CallNotify(t) => NotifyRequests(me, t, Idle);
    case TakeExit => NotifyRequests(me, Main, Quit);
    case Check => if me.ck.notified {} else {}
    case _ =>
  }

  lemma {:induction false} ScheduledStays(q: nat, run: Behaviour, lab: Schedule, n: nat, i: nat, j: nat, w: Who)
    requires Frozen(q, run, lab, n, w) && n <= i <= j && Mine(run(i), w).ck.scheduled && Mine(run(i), w).ck.needs
    requires forall k: nat :: i <= k < j ==> !Does(lab(k), w, SnapshotNow)
    ensures Mine(run(j), w).ck.scheduled && Mine(run(j), w).ck.needs
    decreases j - i
  {
    hide FrozenAt, Fair, Lawful, Enabled, Next, Moves;
    if i < j {
      ScheduledStays(q, run, lab, n, i, j - 1, w);
      assert Moves(q, run, lab, j - 1);
      NodeMoves(q, run, lab, j - 1, w);
      if lab(j - 1).Some? && lab(j - 1).value.who == w {
        ScheduledStep(q, Mine(run(j - 1), w), Peers(run(j - 1), w).sent, lab(j - 1).value.act);
      }
    }
  }

  /** A scheduled snapshot is taken. */
  lemma SnapshotComes(q: nat, run: Behaviour, lab: Schedule, n: nat, i: nat, w: Who) returns (j: nat)
    requires Frozen(q, run, lab, n, w) && n <= i && Mine(run(i), w).ck.scheduled && Mine(run(i), w).ck.needs
    ensures i <= j && !Mine(run(j), w).ck.needs
  {
    hide Stalled, AliveFrom, Half, ExInv, TakeSnapshot;
    if k: nat :| i <= k && Does(lab(k), w, SnapshotNow) {
      j := k;
    } else {
      forall k: nat | i <= k && MainIdle(Mine(run(k), w)) ensures CanDo(run(k), w, SnapshotNow) {
        ScheduledStays(q, run, lab, n, i, k, w);
        LiveThroughout(q, run, lab, n, k, w);
      }
      j := IdleDuty(q, run, lab, n, i, w, SnapshotNow);
    }
    DutyDone(q, run, lab, n, j, w, SnapshotNow);
    SnapshotTouches(Mine(run(j), w));
    j := j + 1;
  }

  /** From i on node w is asked for no further checkpoint: what it needs it needed already. */
  ghost predicate NoNewNeed(run: Behaviour, i: nat, w: Who) {
    forall k: nat :: i <= k ==> NeedsLess(run, k, w)
  }

  predicate NeedsLess(run: Behaviour, k: nat, w: Who) {
    Mine(run(k + 1), w).ck.needs ==> Mine(run(k), w).ck.needs
  }

  lemma {:induction false} NeverAgain(run: Behaviour, i: nat, j: nat, k: nat, w: Who)
    requires NoNewNeed(run, i, w) && i <= j <= k && !Mine(run(j), w).ck.needs
    ensures !Mine(run(k), w).ck.needs
    decreases k - j
  {
    if j < k {
      NeverAgain(run, i, j, k - 1, w);
      assert NeedsLess(run, k - 1, w);
    }
  }

  /** An open barrier does not stay unattended once no new checkpoint is asked for. */
  lemma OpenBarrierMoves(q: nat, run: Behaviour, lab: Schedule, n: nat, i: nat, w: Who)
    requires Frozen(q, run, lab, n, w) && n <= i && NoNewNeed(run, i, w)
    requires Synced(Mine(run(i), w), Peers(run(i), w))
    ensures !Mine(run(i), w).bar.checkArmed
  {
    hide Stalled, AliveFrom, Half, ExInv, Synced, NeedsLess;
    if Mine(run(i), w).bar.checkArmed {
      var a := CheckSchedules(q, run, lab, n, i, w);
      var b := SnapshotComes(q, run, lab, n, a + 1, w);
      LaterSteady(q, run, lab, n, i, b, w);
      LaterSteady(q, run, lab, n, i, b, Other(w));
      LiveThroughout(q, run, lab, n, b, w);
      HalfRecv(q, Mine(run(b), w), Peers(run(b), w));
      assert Synced(Mine(run(b), w), Peers(run(b), w)) by {
        SyncedStays(Mine(run(i), w), Peers(run(i), w), Mine(run(b), w), Peers(run(b), w));
      }
      var c := CheckSchedules(q, run, lab, n, b, w);
      NeverAgain(run, i, b, c, w);
      assert false;
    }
  }

  // ----- In a frozen behaviour the checkpoints come to an end

  /** Moment i is a call that makes a request. */
  predicate CallAsks(run: Behaviour, lab: Schedule, i: nat) {
    lab(i) == Some(Label(Master, Initiate)) && AsksNow(run(i).m, run(i).f.sent, Initiate)
  }

  predicate Asks(run: Behaviour, lab: Schedule, i: nat) {
    lab(i).Some? && lab(i).value.who == Master && AsksNow(run(i).m, run(i).f.sent, lab(i).value.act)
  }

  ghost predicate NoCallFrom(run: Behaviour, lab: Schedule, m: nat) {
    forall i: nat :: m <= i ==> !CallAsks(run, lab, i)
  }

  ghost predicate NoAskFrom(run: Behaviour, lab: Schedule, m: nat) {
    forall i: nat :: m <= i ==> !Asks(run, lab, i)
  }

  lemma InitFlagGrows(q: nat, me: Side, peerSent: Log, a: Action)
    requires Enabled(me, peerSent, a)
    ensures me.ck.initFlag <= Next(q, me, peerSent, a).ck.initFlag
    ensures AsksNow(me, peerSent, a) && a.Poll? ==> Next(q, me, peerSent, a).ck.initFlag >= 1
  {
    hide ThreadStep, FirstDue, CanStop, NotifyEnd, Receive;
    match a
    case Step(t) => ThreadRequests(q, me, t);
    case Poll => ReceiptEffect(me, peerSent[me.recv]);
    case CallCanStop => CanStopRequests(me);
    case CallNotify(t) => NotifyRequests(me, t, Idle);
    case TakeExit => NotifyRequests(me, Main, Quit);
    case SnapshotNow => SnapshotTouches(me);
    case Check => if me.ck.needs {} else {}
    case _ =>
  }

  lemma {:induction false} InitFlagStays(q: nat, run: Behaviour, lab: Schedule, i: nat, j: nat)
    requires (forall k: nat :: Moves(q, run, lab, k)) && i <= j
    ensures run(i).m.ck.initFlag <= run(j).m.ck.initFlag
    decreases j - i
  {
    hide Moves, Enabled, Next, Lawful;
    if i < j {
      InitFlagStays(q, run, lab, i, j - 1);
      assert Moves(q, run, lab, j - 1);
      NodeMoves(q, run, lab, j - 1, Master);
      if lab(j - 1).Some? && lab(j - 1).value.who == Master {
        InitFlagGrows(q, run(j - 1).m, run(j - 1).f.sent, lab(j - 1).value.act);
      }
    }
  }

  /** A poll makes a request at most once, so when the calls come to an end, all requests do. */
  lemma AsksEnd(q: nat, run: Behaviour, lab: Schedule, m: nat) returns (j: nat)
    requires (forall k: nat :: Moves(q, run, lab, k)) && NoCallFrom(run, lab, m)
    ensures m <= j && NoAskFrom(run, lab, j)
  {
    hide Moves, Enabled, Next, Lawful;
    if k: nat :| m <= k && Asks(run, lab, k) {
      j := k + 1;
      assert !CallAsks(run, lab, k);
      assert Moves(q, run, lab, k);
      NodeMoves(q, run, lab, k, Master);
      InitFlagGrows(q, run(k).m, run(k).f.sent, lab(k).value.act);
      forall i: nat | j <= i ensures !Asks(run, lab, i) {
        InitFlagStays(q, run, lab, j, i);
        assert !CallAsks(run, lab, i);
      }
    } else {
      j := m;
    }
  }

  predicate Untold(ck: Ck) {
    ck.needs && !ck.notified
  }

  predicate HasDrain(log: Log) {
    exists i :: 0 <= i < |log| && log[i].body.DrainStart?
  }

  /** Without a request the master's need only ends, and it tells of it once. */
  lemma MasterNeedStep(q: nat, me: Side, peerSent: Log, a: Action)
    requires Enabled(me, peerSent, a) && me.master && !AsksNow(me, peerSent, a)
    ensures var next := Next(q, me, peerSent, a);
            && (next.ck.needs ==> me.ck.needs) && (Untold(next.ck) ==> Untold(me.ck))
            && (HasDrain(Tail(q, me, a)) ==> Untold(me.ck) && !Untold(next.ck))
  {
    hide ThreadStep, FirstDue, CanStop, NotifyEnd, Receive;
    match a
    case Step(t) => ThreadRequests(q, me, t);
    case Poll => ReceiptEffect(me, peerSent[me.recv]);
    case CallCanStop => CanStopRequests(me);
    case CallNotify(t) => NotifyRequests(me, t, Idle);
    case TakeExit => NotifyRequests(me, Main, Quit);
    case SnapshotNow => SnapshotTouches(me);
    case Check => if me.ck.needs {} else {}
    case _ =>
  }

  lemma MasterRuns(q: nat, run: Behaviour, lab: Schedule, n: nat, i: nat)
    requires Stalled(q, run, lab, n) && n <= i && !Asks(run, lab, i)
    ensures NeedsLess(run, i, Master)
    ensures Untold(run(i + 1).m.ck) ==> Untold(run(i).m.ck)
    ensures run(i).m.sent <= run(i + 1).m.sent
    ensures HasDrain(run(i + 1).m.sent[|run(i).m.sent|..]) ==> Untold(run(i).m.ck) && !Untold(run(i + 1).m.ck)
  {
    hide Moves, Enabled, Next, Lawful, Tail, Untold, AsksNow, Inv, ExInv, Conserved, CoreSide, Fair;
    assert FrozenAt(q, run, n, i) && Moves(q, run, lab, i);
    NodeMoves(q, run, lab, i, Master);
    if lab(i).Some? && lab(i).value.who == Master {
      MasterRole(q, run(i));
      MasterNeedStep(q, run(i).m, run(i).f.sent, lab(i).value.act);
      LogGrows(q, run(i).m, run(i).f.sent, lab(i).value.act);
    }
  }

  lemma MasterRole(q: nat, s: Sys)
    requires CoreInv(q, s)
    ensures s.m.master && !s.f.master
  {
    hide Inv, Conserved, CoreSide, ExFits;
  }

  /** From K on the master tells of no checkpoint. */
  ghost predicate TellsNothing(run: Behaviour, k: nat) {
    forall i: nat :: k <= i ==> TellsNotAt(run, i)
  }

  ghost predicate TellsNotAt(run: Behaviour, i: nat) {
    run(i).m.sent <= run(i + 1).m.sent && !HasDrain(run(i + 1).m.sent[|run(i).m.sent|..])
  }

  lemma {:induction false} UntoldEnds(q: nat, run: Behaviour, lab: Schedule, n: nat, i: nat, j: nat)
    requires Stalled(q, run, lab, n) && n <= i <= j && NoAskFrom(run, lab, i) && !Untold(run(i).m.ck)
    ensures !Untold(run(j).m.ck)
    decreases j - i
  {
    hide Stalled, Asks, Untold;
    if i < j {
      UntoldEnds(q, run, lab, n, i, j - 1);
      assert !Asks(run, lab, j - 1);
      MasterRuns(q, run, lab, n, j - 1);
    }
  }

  lemma TellingEnds(q: nat, run: Behaviour, lab: Schedule, n: nat, i: nat) returns (k: nat)
    requires Stalled(q, run, lab, n) && n <= i && NoAskFrom(run, lab, i)
    ensures i <= k && TellsNothing(run, k)
  {
    hide Stalled, Asks, Untold, HasDrain;
    if j: nat :| i <= j && !Untold(run(j).m.ck) {
      k := j;
      assert NoAskFrom(run, lab, j);
      forall x: nat | k <= x ensures TellsNotAt(run, x) {
        UntoldEnds(q, run, lab, n, j, x);
        assert !Asks(run, lab, x);
        MasterRuns(q, run, lab, n, x);
      }
    } else {
      k := i;
      forall x: nat | k <= x ensures TellsNotAt(run, x) {
        assert !Asks(run, lab, x);
        MasterRuns(q, run, lab, n, x);
      }
    }
  }

  lemma {:induction false} NoDrainSince(run: Behaviour, k: nat, j: nat, p: nat)
    requires TellsNothing(run, k) && k <= j && |run(k).m.sent| <= p < |run(j).m.sent|
    ensures !run(j).m.sent[p].body.DrainStart?
    decreases j - k
  {
    assert k < j;
    assert TellsNotAt(run, j - 1);
    var was, now := run(j - 1).m.sent, run(j).m.sent;
    if p < |was| {
      NoDrainSince(run, k, j - 1, p);
      assert now[p] == was[p];
    } else {
      assert now[|was|..][p - |was|] == now[p];
    }
  }

  /** Only a drain notice gives the follower a new need. */
  lemma FollowerNeedStep(q: nat, me: Side, peerSent: Log, a: Action)
    requires Enabled(me, peerSent, a) && !me.master
    requires a.Poll? ==> !peerSent[me.recv].body.DrainStart?
    ensures Next(q, me, peerSent, a).ck.needs ==> me.ck.needs
  {
    hide ThreadStep, FirstDue, CanStop, NotifyEnd, Receive;
    match a
    case Step(t) => ThreadRequests(q, me, t);
    case Poll => ReceiptEffect(me, peerSent[me.recv]);
    case CallCanStop => CanStopRequests(me);
    case CallNotify(t) => NotifyRequests(me, t, Idle);
    case TakeExit => NotifyRequests(me, Main, Quit);
    case SnapshotNow => SnapshotTouches(me);
    case Check => if me.ck.needs {} else {}
    case _ =>
  }

  /** In a behaviour that stays in its rounds, and in which no call asks any more, every node comes to
      have no new checkpoint to serve. */
  lemma NeedsEnd(q: nat, run: Behaviour, lab: Schedule, n: nat, m: nat, w: Who) returns (j: nat)
    requires Frozen(q, run, lab, n, w) && n <= m && NoCallFrom(run, lab, m)
    ensures m <= j && NoNewNeed(run, j, w)
  {
    hide FrozenAt, Fair, Moves, CallAsks, Asks, AliveFrom;
    var a := AsksEnd(q, run, lab, m);
    if w == Master {
      j := a;
      forall k: nat | j <= k ensures NeedsLess(run, k, Master) {
        assert !Asks(run, lab, k);
        MasterRuns(q, run, lab, n, k);
      }
    } else {
      var b := TellingEnds(q, run, lab, n, a);
      j := Takes(q, run, lab, n, b, Follower, |run(b).m.sent|);
      forall k: nat | j <= k ensures NeedsLess(run, k, Follower) {
        LaterSteady(q, run, lab, n, j, k, Follower);
        FollowerRuns(q, run, lab, n, b, k);
      }
    }
  }

  lemma FollowerRuns(q: nat, run: Behaviour, lab: Schedule, n: nat, b: nat, k: nat)
    requires Stalled(q, run, lab, n) && n <= b <= k && TellsNothing(run, b) && |run(b).m.sent| <= run(k).f.recv
    ensures NeedsLess(run, k, Follower)
  {
    hide Moves, Next, Lawful, Inv, ExInv, Conserved, CoreSide, Fair, TellsNotAt;
    assert FrozenAt(q, run, n, k) && Moves(q, run, lab, k);
    NodeMoves(q, run, lab, k, Follower);
    if lab(k).Some? && lab(k).value.who == Follower {
      MasterRole(q, run(k));
      if lab(k).value.act.Poll? { NoDrainSince(run, b, k, run(k).f.recv); }
      FollowerNeedStep(q, run(k).f, run(k).m.sent, lab(k).value.act);
    }
  }

  // ----- No behaviour is frozen

  /** From some moment on both nodes have sent the syncs of their rounds. */
  lemma BothArm(q: nat, run: Behaviour, lab: Schedule, n: nat) returns (j: nat)
    requires Frozen(q, run, lab, n, Master) && Frozen(q, run, lab, n, Follower)
    ensures n <= j && run(j).m.bar.checkArmed && run(j).f.bar.checkArmed
  {
    hide Stalled, AliveFrom;
    var a := Finishes(q, run, lab, n, n, Master);
    var b := Arms(q, run, lab, n, a, Master);
    var c := Finishes(q, run, lab, n, b, Follower);
    j := Arms(q, run, lab, n, c, Follower);
    LaterSteady(q, run, lab, n, b, j, Master);
  }

  /** When both wait, the one that is not ahead has its sync coming. */
  lemma LowerSyncs(q: nat, run: Behaviour, lab: Schedule, n: nat, i: nat, w: Who) returns (j: nat)
    requires Frozen(q, run, lab, n, w) && n <= i && Peers(run(i), w).bar.checkArmed
    requires Mine(run(i), w).bar.round <= Peers(run(i), w).bar.round
    ensures i <= j && Synced(Mine(run(j), w), Peers(run(j), w))
  {
    hide Stalled, AliveFrom, ExInv, LogFits, TableFits, ClockFits, NoneLate;
    var was := Peers(run(i), w).sent;
    j := Takes(q, run, lab, n, i, w, |was|);
    LiveThroughout(q, run, lab, n, i, w);
    LiveThroughout(q, run, lab, n, j, w);
    LaterSteady(q, run, lab, n, i, j, w);
    LaterSteady(q, run, lab, n, i, j, Other(w));
    var now := Peers(run(j), w).sent;
    assert was + now[|was|..] == now;
    CountExtend(was, now[|was|..], |was|, KSync);
    CountMono(now, |was|, Mine(run(j), w).recv, KSync);
  }

  /** Once no call asks for a checkpoint any more, no fair behaviour stays in its rounds. */
  lemma NothingFreezes(q: nat, run: Behaviour, lab: Schedule, n: nat, m: nat)
    requires n <= m && NoCallFrom(run, lab, m)
    ensures !(Frozen(q, run, lab, n, Master) && Frozen(q, run, lab, n, Follower))
  {
    hide Stalled, AliveFrom, Synced, NoNewNeed;
    if Frozen(q, run, lab, n, Master) && Frozen(q, run, lab, n, Follower) {
      var i := BothArm(q, run, lab, n);
      var w := if run(i).m.bar.round <= run(i).f.bar.round then Master else Follower;
      var j := LowerSyncs(q, run, lab, n, i, w);
      var k := NeedsEnd(q, run, lab, n, m, w);
      AttendedNot(q, run, lab, n, i, j, k, w);
      assert false;
    }
  }

  lemma AttendedNot(q: nat, run: Behaviour, lab: Schedule, n: nat, i: nat, j: nat, k: nat, w: Who)
    requires Frozen(q, run, lab, n, w) && n <= i <= j && n <= k && NoNewNeed(run, k, w)
    requires Synced(Mine(run(j), w), Peers(run(j), w))
    ensures !Mine(run(i), w).bar.checkArmed
  {
    hide Stalled, AliveFrom, Synced, Half, ExInv, NeedsLess;
    var l := if j < k then k else j;
    LaterSteady(q, run, lab, n, i, l, w);
    LaterSteady(q, run, lab, n, j, l, w);
    LaterSteady(q, run, lab, n, j, l, Other(w));
    LiveThroughout(q, run, lab, n, l, w);
    HalfRecv(q, Mine(run(l), w), Peers(run(l), w));
    assert Synced(Mine(run(l), w), Peers(run(l), w)) by {
      SyncedStays(Mine(run(j), w), Peers(run(j), w), Mine(run(l), w), Peers(run(l), w));
    }
    assert NoNewNeed(run, l, w);
    OpenBarrierMoves(q, run, lab, n, l, w);
  }

  // ----- Every round is completed

  function Rounds(s: Sys): nat {
    s.m.bar.round + s.f.bar.round
  }

  /** A node has ended, or asserts that the round of a checkpoint is passed. */
  ghost predicate Over(s: Sys) {
    || s.m.halted || s.f.halted
    || s.m.fault == Some(CheckpointPassed) || s.f.fault == Some(CheckpointPassed)
  }

  /** The master is not asked without end in one and the same round. */
  ghost predicate Patient(run: Behaviour, lab: Schedule) {
    forall n: nat :: Rests(run, lab, n)
  }

  ghost predicate Rests(run: Behaviour, lab: Schedule, n: nat) {
    exists m: nat :: n <= m && (run(n).m.bar.round < run(m).m.bar.round || NoCallFrom(run, lab, m))
  }

  lemma RoundsGrow(q: nat, run: Behaviour, lab: Schedule, i: nat)
    requires Moves(q, run, lab, i)
    ensures Rounds(run(i)) <= Rounds(run(i + 1)) <= Rounds(run(i)) + 1
    ensures run(i).m.bar.round <= run(i + 1).m.bar.round && run(i).f.bar.round <= run(i + 1).f.bar.round
  {
    hide Enabled, Next, Lawful, Moves;
    NodeMoves(q, run, lab, i, Master);
    NodeMoves(q, run, lab, i, Follower);
    if lab(i).Some? {
      var w := lab(i).value.who;
      RoundGrows(q, Mine(run(i), w), Peers(run(i), w).sent, lab(i).value.act);
    }
  }

  lemma {:induction false} RoundsGrowTo(q: nat, run: Behaviour, lab: Schedule, i: nat, j: nat)
    requires LawfulBehaviour(q, run, lab) && i <= j
    ensures Rounds(run(i)) <= Rounds(run(j))
    ensures run(i).m.bar.round <= run(j).m.bar.round && run(i).f.bar.round <= run(j).f.bar.round
    decreases j - i
  {
    hide Moves, Rounds;
    if i < j {
      RoundsGrowTo(q, run, lab, i, j - 1);
      RoundsGrow(q, run, lab, j - 1);
    }
  }

  lemma MoveKeepsCore(q: nat, run: Behaviour, lab: Schedule, i: nat)
    requires Moves(q, run, lab, i) && CoreInv(q, run(i)) && RoundsFit(run(i))
    ensures CoreInv(q, run(i + 1))
  {
    hide CoreInv, RoundsFit, CanStep, Lawful;
    if lab(i).Some? { StepKeepsCore(q, run(i), lab(i).value); }
  }

  lemma CoreRounds(q: nat, s: Sys)
    requires CoreInv(q, s)
    ensures s.m.bar.round <= s.f.bar.round + 1 && s.f.bar.round <= s.m.bar.round + 1
  {
    hide ExInv, Conserved, CoreSide, LogFits, TableFits, ClockFits, NoneLate;
    Chain(s.m, s.f);
  }

  lemma InitialCore(q: nat, s: Sys)
    requires Init(s)
    ensures CoreInv(q, s)
  {
    hide AllInv, CoreInv;
    InitialAll(q, s);
    AllIsCore(q, s);
  }

  /** While the rounds fit the keys of the sync table, every invariant but the checkpoints' holds. */
  lemma {:induction false} CoreAt(q: nat, run: Behaviour, lab: Schedule, i: nat)
    requires LawfulBehaviour(q, run, lab) && Rounds(run(i)) <= 2 * (KEY_SPAN - 1)
    ensures CoreInv(q, run(i)) && RoundsFit(run(i))
  {
    hide CoreInv, Moves;
    if i == 0 {
      InitialCore(q, run(0));
    } else {
      RoundsGrow(q, run, lab, i - 1);
      CoreAt(q, run, lab, i - 1);
      MoveKeepsCore(q, run, lab, i - 1);
    }
    CoreRounds(q, run(i));
  }

  lemma FaultIsOver(q: nat, s: Sys)
    requires CoreInv(q, s) && !Over(s)
    ensures s.m.fault.None? && s.f.fault.None?
  {
  }

  /** One more round is completed, or it is over. */
  lemma NextRound(q: nat, run: Behaviour, lab: Schedule, n: nat) returns (j: nat)
    requires LawfulBehaviour(q, run, lab) && Fair(run, lab) && Patient(run, lab) && Rounds(run(n)) <= 2 * (KEY_SPAN - 1)
    ensures n <= j && (Over(run(j)) || Rounds(run(n)) < Rounds(run(j)))
  {
    hide CoreInv, Moves, Fair, RoundsFit, NoCallFrom, Over;
    if k: nat :| n <= k && (Over(run(k)) || Rounds(run(n)) < Rounds(run(k))) {
      j := k;
    } else {
      forall i: nat | n <= i ensures FrozenAt(q, run, n, i) && AliveAt(run, i, Master) && AliveAt(run, i, Follower) {
        RoundsGrowTo(q, run, lab, n, i);
        CoreAt(q, run, lab, i);
        FaultIsOver(q, run(i));
        NotOver(run(i));
      }
      assert Rests(run, lab, n);
      var m: nat :| n <= m && (run(n).m.bar.round < run(m).m.bar.round || NoCallFrom(run, lab, m));
      RoundsGrowTo(q, run, lab, n, m);
      NothingFreezes(q, run, lab, n, m);
      j := n;
      assert false;
    }
  }

  lemma NotOver(s: Sys)
    requires !Over(s)
    ensures !s.m.halted && !s.f.halted
  {
  }

  lemma {:induction false} RoundsReach(q: nat, run: Behaviour, lab: Schedule, t: nat) returns (j: nat)
    requires LawfulBehaviour(q, run, lab) && Fair(run, lab) && Patient(run, lab) && t <= 2 * KEY_SPAN - 1
    ensures Over(run(j)) || t <= Rounds(run(j))
  {
    hide LawfulBehaviour, Fair, Patient, Over, Rounds;
    if t == 0 {
      j := 0;
    } else {
      j := RoundsReach(q, run, lab, t - 1);
      if !Over(run(j)) && Rounds(run(j)) < t {
        j := NextRound(q, run, lab, j);
      }
    }
  }

  /** No node is ever two rounds behind. */
  lemma {:induction false} BothReach(q: nat, run: Behaviour, lab: Schedule, k: nat, j: nat)
    requires LawfulBehaviour(q, run, lab) && k < KEY_SPAN && 2 * k + 1 <= Rounds(run(j))
    ensures k <= run(j).m.bar.round && k <= run(j).f.bar.round
  {
    hide CoreInv, Moves;
    if j > 0 {
      RoundsGrow(q, run, lab, j - 1);
      if 2 * k + 1 <= Rounds(run(j - 1)) {
        BothReach(q, run, lab, k, j - 1);
      } else {
        CoreAt(q, run, lab, j - 1);
        MoveKeepsCore(q, run, lab, j - 1);
        CoreRounds(q, run(j));
      }
    }
  }

  /** Barrier progress.  Whatever the interleaving, the guests' traffic and the checkpoints asked for,
      in time or not, both nodes complete round k, for every k the sync table can tell apart, unless one
      of them has ended or asserts that a checkpoint round is passed; they are never stuck waiting for
      each other.  All that is assumed of the requests is that no endless stream of calls keeps the
      master in one round. */
  lemma BarrierProgress(q: nat, run: Behaviour, lab: Schedule, k: nat)
    requires LawfulBehaviour(q, run, lab) && Fair(run, lab) && Patient(run, lab) && k < KEY_SPAN
    ensures exists j: nat :: Over(run(j)) || (k <= run(j).m.bar.round && k <= run(j).f.bar.round)
  {
    hide LawfulBehaviour, Fair, Patient, Over;
    var j := RoundsReach(q, run, lab, 2 * k + 1);
    if !Over(run(j)) {
      BothReach(q, run, lab, k, j);
    }
  }
}
