/** Runs of the program that break a promise when one of the rules of Orderly is dropped: none of the
    rules is superfluous.  In the concrete runs the quantum is 1 and both local clocks start at 0. */
module Witnesses {
  import opened Messages
  import opened Machine
  import opened Barrier
  import opened Conservation
  import opened Checkpoint
  import opened Exit
  import opened Orderly
  import opened Continuations
  import opened Progress
  import opened Requests
  import opened WarmRequests

  lemma Start(q: nat)
    ensures Reachable(q, Sys(InitialSide(true, true, 0), InitialSide(false, true, 0)))
  {
    var s := Initial(true, 0, 0);
    assert IsRun(q, [s], []) && AllFit([s]);
    assert [s][|[s]| - 1] == s;
  }

  /** One more step of a run. */
  lemma Go(q: nat, s: Sys, l: Label)
    requires Reachable(q, s) && CanStep(s, l) && RoundsFit(NextSys(q, s, l))
    ensures Reachable(q, NextSys(q, s, l))
  {
    hide CanStep, NextSys, RoundsFit;
    var states, labels :| IsRun(q, states, labels) && AllFit(states) && states[|states| - 1] == s;
    var states', labels' := states + [NextSys(q, s, l)], labels + [l];
    assert IsRun(q, states', labels') && AllFit(states');
    assert states'[|states'| - 1] == NextSys(q, s, l);
  }

  lemma GoM(m: Side, f: Side, a: Action, next: Side)
    requires Reachable(1, Sys(m, f)) && Enabled(m, f.sent, a) && Next(1, m, f.sent, a) == next
    requires next.bar.round < KEY_SPAN && f.bar.round < KEY_SPAN
    ensures Reachable(1, Sys(next, f))
  {
    hide Reachable;
    Go(1, Sys(m, f), Label(Master, a));
  }

  lemma GoF(m: Side, f: Side, a: Action, next: Side)
    requires Reachable(1, Sys(m, f)) && Enabled(f, m.sent, a) && Next(1, f, m.sent, a) == next
    requires m.bar.round < KEY_SPAN && next.bar.round < KEY_SPAN
    ensures Reachable(1, Sys(m, next))
  {
    hide Reachable;
    Go(1, Sys(m, f), Label(Follower, a));
  }

  // ----- A grant cut by a notification

  function AskedF(): Side {
    var f := InitialSide(false, true, 0);
    f.(ex := f.ex.(asked := true, intentSent := true), flex := Pc(Ready, Idle), sent := [Message(0, Intent)])
  }

  function CutM(): Side {
    var m := InitialSide(true, true, 0);
    m.(ex := m.ex.(readyNeighbors := 1, asked := true, permitted := true, notifiedExit := true),
       flex := Pc(GrantSend, Ready), main := Pc(EndRead, Idle), recv := 1)
  }

  lemma CutGrantReachable()
    ensures Reachable(1, Sys(CutM(), AskedF())) && Overtakes(CutM(), Main)
  {
    hide Reachable;
    Start(1);
    var m, f := InitialSide(true, true, 0), AskedF();
    assert Reachable(1, Sys(m, f)) by { GoF(m, InitialSide(false, true, 0), CallCanStop, f); }
    var m1 := m.(ex := m.ex.(readyNeighbors := 1), recv := 1);
    assert Reachable(1, Sys(m1, f)) by { GoM(m, f, Poll, m1); }
    var m2 := m1.(ex := m1.ex.(asked := true), flex := Pc(GrantSet, Ready));
    assert Reachable(1, Sys(m2, f)) by { GoM(m1, f, CallCanStop, m2); }
    var m3 := m2.(ex := m2.ex.(permitted := true), flex := Pc(GrantSend, Ready));
    assert Reachable(1, Sys(m3, f)) by { GoM(m2, f, Step(Flexus), m3); }
    assert Reachable(1, Sys(CutM(), f)) by { GoM(m3, f, CallNotify(Main), CutM()); }
  }

  /** A follower that is not permitted and polls up to an END asserts. */
  lemma {:induction false} PollsIntoEnd(q: nat, m: Side, f: Side) returns (labels: seq<Label>, t: Sys)
    requires Half(q, m, f) && Half(q, f, m) && RoundsFit(Sys(m, f))
    requires Live(f) && MainIdle(f) && !f.ex.permitted && !f.master
    requires f.recv < |m.sent| && m.sent[|m.sent| - 1].body.EndOfEmulation?
    requires forall i :: f.recv <= i < |m.sent| - 1 ==> !m.sent[i].body.Permission? && !m.sent[i].body.EndOfEmulation?
    ensures Follows(q, Sys(m, f), labels, t) && t.f.fault == Some(EndTooEarly)
    decreases |m.sent| - f.recv
  {
    hide Inv, Half;
    var l, next := Label(Follower, Poll), Next(q, f, m.sent, Poll);
    NextSysIs(q, Sys(m, f), l, next);
    if f.recv == |m.sent| - 1 {
      labels, t := [], Sys(m, next);
    } else {
      PolledMessageIsFine(q, f, m);
      HarmlessReceipt(f, m.sent[f.recv]);
      StepKeepsHalves(q, f, m, Poll);
      labels, t := PollsIntoEnd(q, m, next);
    }
    Prepend(q, Sys(m, f), l, labels, t);
    labels := [l] + labels;
  }

  lemma HarmlessReceipt(f: Side, m: Message)
    requires Live(f) && MainIdle(f) && !f.ex.permitted && !f.master
    requires !m.body.Permission? && !m.body.EndOfEmulation?
    requires m.body.Packet? ==> Universal(f.bar) <= m.ts
    requires m.body.Sync? ==> ValidRound(f.bar, m.body.round)
    ensures var g := Receive(f, m);
            Live(g) && MainIdle(g) && !g.ex.permitted && !g.master && g.bar.round == f.bar.round && g.recv == f.recv
  {
    match m.body
    case Sync(_) =>
    case Packet(_) =>
    case _ =>
  }

  /** Exactly the overtaking read breaks the handshake: a thread that takes it and goes on to send END
      leaves a channel whose polling makes the follower assert. */
  lemma CutGrantIsFatal(q: nat, s: Sys, t: Thread) returns (labels: seq<Label>, bad: Sys)
    requires Inv(q, s) && RoundsFit(s) && ExInv(s)
    requires Live(s.m) && Live(s.f) && MainIdle(s.f) && Overtakes(s.m, t)
    ensures Follows(q, s, labels, bad) && bad.f.fault == Some(EndTooEarly)
  {
    var l := Label(Master, Step(t));
    var m := OvertakingEnd(q, s.m, t);
    var s1 := NextSys(q, s, l);
    StepKeepsInv(q, s, l);
    var s2 := NextSys(q, s1, l);
    StepKeepsInv(q, s1, l);
    var s3 := NextSys(q, s2, l);
    StepKeepsInv(q, s2, l);
    assert s3 == Sys(m, s.f);
    NoEndBefore(s.m, s.f, m);
    labels, bad := PollsIntoEnd(q, m, s.f);
    Prepend(q, s2, l, labels, bad);
    Prepend(q, s1, l, [l] + labels, bad);
    Prepend(q, s, l, [l] + ([l] + labels), bad);
    labels := [l] + ([l] + ([l] + labels));
  }

  /** The three steps of the overtaking thread. */
  lemma OvertakingEnd(q: nat, me: Side, t: Thread) returns (m: Side)
    requires OwnExit(me) && Live(me) && Overtakes(me, t)
    ensures var m1 := ThreadStep(q, me, t);
            PcOf(m1, t).at == EndSwap && Live(m1) && m1.bar == me.bar &&
            var m2 := ThreadStep(q, m1, t);
            PcOf(m2, t).at == EndSend && Live(m2) && m2.bar == me.bar && m == ThreadStep(q, m2, t)
    ensures m.sent == me.sent + [Message(Universal(me.bar), EndOfEmulation)] && m.bar == me.bar
  {
    m := ThreadStep(q, ThreadStep(q, ThreadStep(q, me, t), t), t);
    if t == Main {} else {}
  }

  lemma NoEndBefore(me: Side, f: Side, m: Side)
    requires OwnExit(me) && me.master && Total(me.sent, KPermission) == 0 && FlagsFit(f, me) && !f.master
    requires m.sent == me.sent + [Message(Universal(me.bar), EndOfEmulation)]
    ensures !f.ex.permitted
    ensures forall i :: 0 <= i < |me.sent| ==> !m.sent[i].body.Permission? && !m.sent[i].body.EndOfEmulation?
  {
    CountMono(me.sent, f.recv, |me.sent|, KPermission);
    forall i | 0 <= i < |me.sent| ensures !m.sent[i].body.Permission? && !m.sent[i].body.EndOfEmulation? {
      assert m.sent[i] == me.sent[i];
      if me.sent[i].body.Permission? { CountSeen(me.sent, i, KPermission); }
      if me.sent[i].body.EndOfEmulation? { CountSeen(me.sent, i, KEnd); }
    }
  }

  // ----- A process that ends inside the other thread's END code

  /** Without an END in the channel no step makes a node believe its peer has finished. */
  lemma StaysUnknown(q: nat, me: Side, peer: Side, a: Action)
    requires Enabled(me, peer.sent, a) && Total(peer.sent, KEnd) == 0
    ensures Next(q, me, peer.sent, a).ex.pairFinished == me.ex.pairFinished
  {
    hide Receive, ThreadStep, FirstDue, TakeSnapshot;
    match a
    case Poll =>
      if peer.sent[me.recv].body.EndOfEmulation? { CountSeen(peer.sent, me.recv, KEnd); }
      ReceiptKnows(me, peer.sent[me.recv]);
    case Step(t) => StepKnows(q, me, t);
    case Check => if me.ck.needs {} else {}
    case CallCanStop => if me.master {} else {}
    case CallNotify(t) => if t == Main {} else {}
    case SnapshotNow => SnapshotLeavesFlags(me);
    case _ =>
  }

  lemma ReceiptKnows(me: Side, m: Message)
    requires !m.body.EndOfEmulation?
    ensures Receive(me, m).ex.pairFinished == me.ex.pairFinished
  {
    match m.body
    case Sync(_) =>
    case Packet(_) =>
    case _ =>
  }

  lemma StepKnows(q: nat, me: Side, t: Thread)
    requires PcOf(me, t).at != Idle
    ensures ThreadStep(q, me, t).ex.pairFinished == me.ex.pairFinished
  {
    match PcOf(me, t).at
    case EndRead => if me.ex.permitted {} else {}
    case EndSwap => if me.ex.endSent {} else {}
    case _ =>
  }

  /** A process that ended without sending END leaves its peer in the dark for ever: in no
      continuation does the peer take its exit branch or see `can_stop` succeed. */
  lemma {:induction false} NeverKnown(q: nat, s: Sys, labels: seq<Label>, t: Sys, w: Who)
    requires Follows(q, s, labels, t) && Mine(s, w).halted && Total(Mine(s, w).sent, KEnd) == 0
    requires !Peers(s, w).ex.pairFinished
    ensures !Peers(t, w).ex.pairFinished && Total(Mine(t, w).sent, KEnd) == 0
    decreases |labels|
  {
    if labels != [] {
      var l := labels[0];
      StaysUnknown(q, Mine(s, l.who), Peers(s, l.who), l.act);
      NextSysIs(q, s, l, Next(q, Mine(s, l.who), Peers(s, l.who).sent, l.act));
      NeverKnown(q, NextSys(q, s, l), labels[1..], t, w);
    }
  }

  /** Ending the process from the Flexus thread while the main thread holds the END is exactly that. */
  lemma UncleanEnd(q: nat, s: Sys, w: Who)
    requires UncutReachable(q, s) && Enabled(Mine(s, w), Peers(s, w).sent, Stop)
    ensures var next := Next(q, Mine(s, w), Peers(s, w).sent, Stop);
            next.halted && (Total(next.sent, KEnd) == 0 <==> Mine(s, w).main.at == EndSend)
  {
    UncutReachableInv(q, s);
  }

  function GrantingM(): Side {
    var m := InitialSide(true, true, 0);
    m.(ex := m.ex.(readyNeighbors := 1, asked := true, permitted := true), flex := Pc(EndSwap, Ready),
       recv := 1, sent := [Message(0, Permission)])
  }

  function EndedF(): Side {
    var f := AskedF();
    f.(ex := f.ex.(permitted := true, endSent := true), recv := 1, sent := f.sent + [Message(0, EndOfEmulation)])
  }

  function HoldingM(): Side {
    var m := GrantingM();
    m.(ex := m.ex.(pairFinished := true, notifiedExit := true, endSent := true), main := Pc(EndSend, Idle), recv := 2)
  }

  function StoppedM(): Side {
    var m := HoldingM();
    m.(ex := m.ex.(ready := true, stopOk := true), flex := Pc(Idle, Idle), halted := true)
  }

  lemma GrantingReachable()
    ensures Reachable(1, Sys(GrantingM(), AskedF()))
  {
    hide Reachable;
    Start(1);
    var m, f := InitialSide(true, true, 0), AskedF();
    assert Reachable(1, Sys(m, f)) by { GoF(m, InitialSide(false, true, 0), CallCanStop, f); }
    var m1 := m.(ex := m.ex.(readyNeighbors := 1), recv := 1);
    assert Reachable(1, Sys(m1, f)) by { GoM(m, f, Poll, m1); }
    var m2 := m1.(ex := m1.ex.(asked := true), flex := Pc(GrantSet, Ready));
    assert Reachable(1, Sys(m2, f)) by { GoM(m1, f, CallCanStop, m2); }
    var m3 := m2.(ex := m2.ex.(permitted := true), flex := Pc(GrantSend, Ready));
    assert Reachable(1, Sys(m3, f)) by { GoM(m2, f, Step(Flexus), m3); }
    var m4 := m3.(flex := Pc(EndRead, Ready), sent := [Message(0, Permission)]);
    assert Reachable(1, Sys(m4, f)) by { GoM(m3, f, Step(Flexus), m4); }
    assert Reachable(1, Sys(GrantingM(), f)) by { GoM(m4, f, Step(Flexus), GrantingM()); }
  }

  lemma EndedReachable()
    ensures Reachable(1, Sys(GrantingM(), EndedF()))
  {
    hide Reachable;
    GrantingReachable();
    var m, f := GrantingM(), AskedF();
    var f1 := f.(ex := f.ex.(permitted := true), main := Pc(EndRead, Idle), recv := 1);
    assert Reachable(1, Sys(m, f1)) by { GoF(m, f, Poll, f1); }
    var f2 := f1.(main := Pc(EndSwap, Idle));
    assert Reachable(1, Sys(m, f2)) by { GoF(m, f1, Step(Main), f2); }
    var f3 := f2.(ex := f2.ex.(endSent := true), main := Pc(EndSend, Idle));
    assert Reachable(1, Sys(m, f3)) by { GoF(m, f2, Step(Main), f3); }
    assert Reachable(1, Sys(m, EndedF())) by { GoF(m, f3, Step(Main), EndedF()); }
  }

  lemma HoldingReachable()
    ensures Reachable(1, Sys(HoldingM(), EndedF()))
  {
    hide Reachable;
    EndedReachable();
    var m, f := GrantingM(), EndedF();
    var m1 := m.(ex := m.ex.(pairFinished := true), recv := 2);
    assert Reachable(1, Sys(m1, f)) by { GoM(m, f, Poll, m1); }
    var m2 := m1.(ex := m1.ex.(notifiedExit := true), main := Pc(EndRead, Idle));
    assert Reachable(1, Sys(m2, f)) by { GoM(m1, f, CallNotify(Main), m2); }
    var m3 := m2.(main := Pc(EndSwap, Idle));
    assert Reachable(1, Sys(m3, f)) by { GoM(m2, f, Step(Main), m3); }
    assert Reachable(1, Sys(HoldingM(), f)) by { GoM(m3, f, Step(Main), HoldingM()); }
  }

  /** The master's `can_stop` returned true and its process is gone; its END was never sent. */
  lemma StrandedFollower()
    ensures Reachable(1, Sys(StoppedM(), EndedF()))
    ensures StoppedM().halted && Total(StoppedM().sent, KEnd) == 0 && !EndedF().ex.pairFinished && Live(EndedF())
  {
    hide Reachable;
    HoldingReachable();
    var m, f := HoldingM(), EndedF();
    var m1 := m.(flex := Pc(Ready, Idle));
    assert Reachable(1, Sys(m1, f)) by { GoM(m, f, Step(Flexus), m1); }
    var m2 := m1.(ex := m1.ex.(ready := true), flex := Pc(Return, Idle));
    assert Reachable(1, Sys(m2, f)) by { GoM(m1, f, Step(Flexus), m2); }
    var m3 := m2.(ex := m2.ex.(stopOk := true), flex := Pc(Idle, Idle));
    assert Reachable(1, Sys(m3, f)) by { GoM(m2, f, Step(Flexus), m3); }
    assert Reachable(1, Sys(StoppedM(), f)) by { GoM(m3, f, Stop, StoppedM()); }
  }

  // ----- Checkpoint requests that come too late, or too soon after one another

  lemma FromTheStart(q: nat, warm: bool) returns (s: Sys)
    ensures s == Initial(warm, 0, 0) && AllInv(q, s) && Attentive(q, s, Master) && Attentive(q, s, Follower)
  {
    s := Initial(warm, 0, 0);
    InitialAll(q, s);
    AllIsCore(q, s);
  }

  lemma Initiates(q: nat, s: Sys, w: Who) returns (t: Sys)
    requires Attentive(q, s, Master) && Attentive(q, s, Follower) && (w == Master ==> s.m.ck.initFlag == 0)
    ensures LeadsBy(q, w, s, t) && Attentive(q, t, Master) && Attentive(q, t, Follower)
    ensures Mine(t, w) == InitiateCheckpoint(Mine(s, w)) && Peers(t, w) == Peers(s, w)
  {
    hide CoreInv, LeadsBy;
    MasterRole(q, s);
    t := Take(q, s, w, Initiate);
  }

  /** Both nodes want the checkpoint, and the follower's CHECKPOINT_INIT_STEP is on its way. */
  lemma BothWant(q: nat, warm: bool) returns (s: Sys)
    ensures Leads(q, Initial(warm, 0, 0), s) && CoreInv(q, s) && Attentive(q, s, Master) && Attentive(q, s, Follower)
    ensures s.m == InitialSide(true, warm, 0).(ck := Ck(false, false, 0, false, [], [], 0, true))
    ensures s.f == InitialSide(false, warm, 0).(sent := [Message(0, InitStep)])
  {
    hide Attentive, LeadsBy, InitialSide, InitiateCheckpoint;
    var s0 := FromTheStart(q, warm);
    FirstCalls(warm);
    var s1 := Initiates(q, s0, Follower);
    s := Initiates(q, s1, Master);
    AttentiveIs(q, s);
    ByIsLeads(q, Follower, s0, s1);
    Onwards(q, Master, s0, s1, s);
  }

  lemma AttentiveIs(q: nat, s: Sys)
    requires Attentive(q, s, Master)
    ensures CoreInv(q, s)
  {
    hide CoreInv;
  }

  lemma FirstCalls(warm: bool)
    ensures var m, f := InitialSide(true, warm, 0), InitialSide(false, warm, 0);
            && m.ck.initFlag == 0
            && InitiateCheckpoint(m) == m.(ck := Ck(false, false, 0, false, [], [], 0, true))
            && InitiateCheckpoint(f) == f.(sent := [Message(0, InitStep)])
  {
  }

  lemma StillAll(q: nat, warm: bool, s: Sys)
    requires Leads(q, Initial(warm, 0, 0), s)
    ensures AllInv(q, s)
  {
    hide AllInv, Leads;
    var s0 := FromTheStart(q, warm);
    LeadsKeepsAll(q, s0, s);
  }

  /** A late request arises from the arrival of a message alone: the master polls its peer's
      CHECKPOINT_INIT_STEP when its own sync is already out. */
  lemma LateArises(q: nat, warm: bool) returns (s: Sys)
    ensures Leads(q, Initial(warm, 0, 0), s) && CanStep(s, Label(Master, Poll)) && Calm(q, s) && s.m.warm == warm
    ensures AsksNow(s.m, s.f.sent, Poll) && !Timely(s.m) && s.m.ck.requests == [] && s.m.bar.round == 0
  {
    hide CoreInv, AllInv, Leads, LeadsBy;
    var s0 := BothWant(q, warm);
    s := CloseQuantum(q, s0, Master);
    Onwards(q, Master, Initial(warm, 0, 0), s0, s);
    StillAll(q, warm, s);
  }

  /** Under the name the program uses, the follower then goes on into round 1 without its snapshot, waits
      there for ever and never asserts. */
  lemma LateRequest(q: nat) returns (s: Sys, t: Sys)
    ensures Leads(q, Initial(true, 0, 0), s) && CanStep(s, Label(Master, Poll))
    ensures AsksNow(s.m, s.f.sent, Poll) && !Timely(s.m)
    ensures Leads(q, NextSys(q, s, Label(Master, Poll)), t) && t.m.ck.requests == [0] && t.f.bar.round == 1
    ensures forall u :: Leads(q, t, u) ==>
              !Snapped(u.f, 0) && Waiting(u.f.bar) && u.f.bar.round == 1 && PassesNone(u.m) && PassesNone(u.f)
  {
    hide CoreInv, AllInv, Leads, LeadsBy, Snapped, Follows, CanStep, AsksNow, NextSys, Waiting;
    s := LateArises(q, true);
    t := LateRequestSkips(q, s, Poll);
    var s1 := NextSys(q, s, Label(Master, Poll));
    ByIsLeads(q, Follower, s1, t);
    forall u | Leads(q, t, u)
      ensures !Snapped(u.f, 0) && Waiting(u.f.bar) && u.f.bar.round == 1 && PassesNone(u.m) && PassesNone(u.f)
    {
      Then(q, s1, t, u);
      LateRequestWaits(q, s, Poll, u);
      StaysUnsnapped(q, t, u);
    }
  }

  lemma StaysUnsnapped(q: nat, s: Sys, t: Sys)
    requires Leads(q, s, t) && s.f.bar.round == 1 && !Snapped(s.f, 0)
    ensures 1 <= t.f.bar.round && !Snapped(t.f, 0)
  {
    hide Path, Snapped;
    var labels :| Path(q, s, labels, t);
    UnsnappedPath(q, s, labels, t);
  }

  lemma {:induction false} UnsnappedPath(q: nat, s: Sys, labels: seq<Label>, t: Sys)
    requires Path(q, s, labels, t) && 0 < s.f.bar.round && !Snapped(s.f, 0)
    ensures 0 < t.f.bar.round && !Snapped(t.f, 0)
    decreases |labels|
  {
    if labels != [] {
      hide RoundsFit, Enabled, Keeps, Next, Snapped;
      var l := labels[0];
      NextSysIs(q, s, l, Next(q, Mine(s, l.who), Peers(s, l.who).sent, l.act));
      if l.who == Follower { UnsnappedStep(q, s.f, s.m.sent, l.act, 0); }
      UnsnappedPath(q, NextSys(q, s, l), labels[1..], t);
    }
  }

  /** Where the master goes on behind its snapshot, the same request is fatal. */
  lemma LateRequestAsserts(q: nat) returns (s: Sys, t: Sys)
    ensures Leads(q, Initial(false, 0, 0), s) && CanStep(s, Label(Master, Poll))
    ensures AsksNow(s.m, s.f.sent, Poll) && !Timely(s.m)
    ensures Leads(q, NextSys(q, s, Label(Master, Poll)), t) && t.f.fault == Some(CheckpointPassed)
  {
    hide CoreInv, AllInv, Leads, LeadsBy;
    s := LateArises(q, false);
    t := LateRequestIsFatal(q, s, Poll);
  }

  /** The first request, made in time: the master holds its peer's sync of the round to be saved. */
  lemma OnceAsked(q: nat, warm: bool) returns (s: Sys)
    ensures Leads(q, Initial(warm, 0, 0), s) && CoreInv(q, s) && Attentive(q, s, Master) && Attentive(q, s, Follower)
    ensures s.m.bar.round == 0 && s.m.bar.checkArmed && s.m.ck.requests == [0] && s.m.ck.initFlag >= 1
    ensures s.m.ck.needs && s.m.ck.ckRound == 0 && !Waiting(s.m.bar) && s.m.flex == Pc(Idle, Idle) && s.m.warm == warm
    ensures s.f.ck.snaps == [] && s.f.bar.round == 0 && s.f.ex == InitialSide(false, warm, 0).ex
  {
    hide CoreInv, AllInv, Leads, LeadsBy, Half, ExFits, Waiting, CkOver;
    var s0 := BothWant(q, warm);
    StillAll(q, warm, s0);
    var s1 := AfterRequest(q, s0, Poll);
    StepLeads(q, s0, Label(Master, Poll));
    var s2 := CloseQuantum(q, s1, Master);
    var s3 := CloseQuantum(q, s2, Follower);
    NodeHalf(q, s3, Master);
    HalfRecv(q, s3.m, s3.f);
    s := PollTo(q, s3, Master, |s3.f.sent|);
    CkOverKeeps(s3.m.ck, true, s3.f.sent, s3.m.recv, |s3.f.sent|);
    NodeHalf(q, s, Master);
    CaughtUp(q, s.m, s.f);
    Onwards(q, Master, Initial(warm, 0, 0), s0, s1);
    Onwards(q, Master, Initial(warm, 0, 0), s1, s2);
    Onwards(q, Follower, Initial(warm, 0, 0), s2, s3);
    Onwards(q, Master, Initial(warm, 0, 0), s3, s);
  }

  /** Where the master goes on: it is served and in round 1, the follower still waits in round 0. */
  lemma OnceServed(q: nat) returns (s: Sys)
    ensures Leads(q, Initial(false, 0, 0), s) && CoreInv(q, s) && Attentive(q, s, Master) && Attentive(q, s, Follower)
    ensures s.m.bar.round == 1 && !s.m.bar.checkArmed && s.m.ck.requests == [0] && s.m.ck.initFlag >= 1
    ensures !s.m.ck.needs && s.f.ck.snaps == [] && s.f.bar.round == 0
  {
    hide CoreInv, AllInv, Leads, LeadsBy, Waiting;
    var s0 := OnceAsked(q, false);
    var s1 := Save(q, s0, Master);
    s := Leave(q, s1, Master);
    Onwards(q, Master, Initial(false, 0, 0), s0, s1);
    Onwards(q, Master, Initial(false, 0, 0), s1, s);
  }

  /** There, a timely request one round after the first: the follower skips a requested round. */
  lemma RequestsTooClose(q: nat) returns (s: Sys, t: Sys)
    ensures Leads(q, Initial(false, 0, 0), s) && CanStep(s, Label(Master, Initiate))
    ensures AsksNow(s.m, s.f.sent, Initiate) && Timely(s.m)
    ensures Leads(q, NextSys(q, s, Label(Master, Initiate)), t) && Skipped(t.f, t.m.ck.requests)
  {
    hide CoreInv, AllInv, Leads, LeadsBy, Skipped;
    s := OnceServed(q);
    MasterRole(q, s);
    StillAll(q, false, s);
    t := CloseRequestSkips(q, s, Initiate);
  }

  // ----- The master ends behind its snapshot

  /** With the Flexus thread outside the exit code a main thread that is leaving runs to the end. */
  lemma {:induction false} RunsOut(q: nat, s: Sys) returns (t: Sys)
    requires CoreInv(q, s) && RoundsFit(s) && Live(s.m) && Leaving(s.m) && s.m.flex == Pc(Idle, Idle)
    ensures LeadsBy(q, Master, s, t) && CoreInv(q, t) && t.f == s.f && t.m.halted && t.m.ck == s.m.ck
        && SameBuild(s.m, t.m)
    decreases Rank(s.m.main)
  {
    hide CoreInv, LeadsBy, Half, EndFits, MasterExit, FollowerExit, FinishFits, ExitLog, FlagsFit, Rank;
    NodeHalf(q, s, Master);
    LeavingStep(q, s.m, s.f.sent, Step(Main));
    NotOvertaken(s.m);
    t := Take(q, s, Master, Step(Main));
    ThreadRequests(q, s.m, Main);
    OtherPcStays(q, s.m, Main);
    LeavingAdvancesNot(q, s.m);
    if s.m.main.at != Quit {
      StepLowers(q, s.m, Main);
      StepHalts(q, s.m, Main);
      var mid := t;
      t := RunsOut(q, mid);
      ThenBy(q, Master, s, mid, t);
    }
  }

  lemma NotOvertaken(me: Side)
    requires OwnExit(me) && Leaving(me) && me.flex == Pc(Idle, Idle)
    ensures !Overtakes(me, Main) && me.main.at != Idle
  {
    hide EndFits, FinishFits;
  }

  lemma LeavingAdvancesNot(q: nat, me: Side)
    requires PcsFit(me) && Leaving(me)
    ensures me.main.at != Idle && ThreadStep(q, me, Main).bar == me.bar && SameBuild(me, ThreadStep(q, me, Main))
  {
    match me.main.at
    case EndRead => if me.ex.permitted {} else {}
    case EndSwap => if me.ex.endSent {} else {}
    case _ =>
  }

  /** The coordinated checkpoint, asked for in time and within every rule, ends the master's process
      without an END; the follower is alive and never gets to know (ExitProgress.NeverLearns). */
  lemma SilentEnd(q: nat) returns (s: Sys)
    ensures Leads(q, Initial(true, 0, 0), s) && EndedSilently(s.m) && Live(s.f) && !s.f.ex.pairFinished
  {
    hide CoreInv, AllInv, Leads, LeadsBy, Waiting, Leaving, TakeSnapshot;
    var s0 := OnceAsked(q, true);
    MasterRole(q, s0);
    var s1 := Take(q, s0, Master, Check);
    var s2 := Take(q, s1, Master, SnapshotNow);
    SnapshotLeaves(s1.m);
    SnapshotTouches(s1.m);
    s := RunsOut(q, s2);
    Onwards(q, Master, Initial(true, 0, 0), s0, s1);
    Onwards(q, Master, Initial(true, 0, 0), s1, s2);
    Onwards(q, Master, Initial(true, 0, 0), s2, s);
    NoPermission(q, s);
  }

  lemma SnapshotLeaves(me: Side)
    requires me.master && me.warm
    ensures Leaving(TakeSnapshot(me)) && TakeSnapshot(me).flex == me.flex && Warmed(TakeSnapshot(me))
  {
    if me.ex.notifiedExit {} else {}
  }

  lemma NoPermission(q: nat, s: Sys)
    requires CoreInv(q, s) && !s.f.ex.intentSent
    ensures Total(s.m.sent, KPermission) == 0
  {
    hide Half, Conserved, CoreSide, EndFits, FinishFits, PcsFit, ExitLog;
    CountMono(s.f.sent, s.m.recv, |s.f.sent|, KIntent);
  }

  // ----- A round that outgrows the keys

  lemma CountsGrow(q: nat, me: Side, peerSent: Log, a: Action, k: nat)
    requires Enabled(me, peerSent, a)
    ensures SyncCountGet(me.bar.counts, k) <= SyncCountGet(Next(q, me, peerSent, a).bar.counts, k)
  {
    hide Receive, ThreadStep, FirstDue, TakeSnapshot, CanStop, NotifyEnd, SyncCountGet;
    match a
    case Poll => ReceiptCounts(me, peerSent[me.recv], k);
    case Step(t) => ThreadCounts(q, me, t);
    case SnapshotNow => SnapshotTouches(me);
    case CallCanStop => CanStopCounts(me);
    case CallNotify(t) => NotifyCounts(me, t, Idle);
    case TakeExit => NotifyCounts(me, Main, Quit);
    case Check => if me.ck.needs {} else {}
    case _ =>
  }

  lemma ReceiptCounts(me: Side, m: Message, k: nat)
    ensures SyncCountGet(me.bar.counts, k) <= SyncCountGet(Receive(me, m).bar.counts, k)
  {
    match m.body
    case Sync(_) =>
    case _ =>
  }

  lemma ThreadCounts(q: nat, me: Side, t: Thread)
    requires PcOf(me, t).at != Idle
    ensures ThreadStep(q, me, t).bar.counts == me.bar.counts
  {
    match PcOf(me, t).at
    case EndRead => if me.ex.permitted {} else {}
    case EndSwap => if me.ex.endSent {} else {}
    case _ =>
  }

  lemma CanStopCounts(me: Side)
    ensures CanStop(me).bar == me.bar
  {
  }

  lemma NotifyCounts(me: Side, t: Thread, after: Point)
    ensures NotifyEnd(me, t, after).bar == me.bar
  {
    if t == Main {} else {}
  }

  lemma {:induction false} CountsStay(q: nat, s: Sys, labels: seq<Label>, t: Sys, w: Who, k: nat)
    requires Follows(q, s, labels, t)
    ensures SyncCountGet(Mine(s, w).bar.counts, k) <= SyncCountGet(Mine(t, w).bar.counts, k)
    decreases |labels|
  {
    if labels != [] {
      hide Enabled, Next, SyncCountGet;
      var l := labels[0];
      NextSysIs(q, s, l, Next(q, Mine(s, l.who), Peers(s, l.who).sent, l.act));
      CountsGrow(q, Mine(s, l.who), Peers(s, l.who).sent, l.act, k);
      CountsStay(q, NextSys(q, s, l), labels[1..], t, w, k);
    }
  }

  /** A node that has come past round 0 never waits in a round that is a multiple of 2^32, whatever its
      peer does: the barrier is open on the count of round 0. */
  lemma OpenAtSpan(q: nat, s: Sys, labels: seq<Label>, t: Sys, w: Who)
    requires Reachable(q, s) && 1 <= Mine(s, w).bar.round && Follows(q, s, labels, t)
    requires Mine(t, w).bar.round % 0x1_0000_0000 == 0
    ensures !Waiting(Mine(t, w).bar)
  {
    hide LogFits, ClockFits, NoneLate, Reachable, Follows;
    ReachableInv(q, s);
    assert SyncCountGet(Mine(s, w).bar.counts, 0) == 1;
    CountsStay(q, s, labels, t, w, 0);
  }
}
