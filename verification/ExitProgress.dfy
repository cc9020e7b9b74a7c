/** Liveness of the exit handshake: when both sides keep calling `can_stop` and keep polling, both are
    eventually told that they may stop. */
module ExitProgress {
  import opened Messages
  import opened Machine
  import opened Barrier
  import opened Conservation
  import opened Checkpoint
  import opened Exit
  import opened Orderly
  import opened Progress

  // ----- Behaviours in which both Flexus threads keep asking

  /** Every duty is done, and `can_stop` is called again and again. */
  ghost predicate AskingBehaviour(q: nat, run: Behaviour, lab: Schedule) {
    && LawfulBehaviour(q, run, lab) && Fair(run, lab)
    && FairTo(run, lab, Master, CallCanStop) && FairTo(run, lab, Follower, CallCanStop)
  }

  predicate NoFault(s: Sys) {
    s.m.fault.None? && s.f.fault.None?
  }

  predicate Stopped(me: Side) {
    me.ex.stopOk || me.halted
  }

  /** No assertion fires, and the master does not end behind its snapshot before its PERMISSION is out. */
  ghost predicate Exits(q: nat, run: Behaviour, lab: Schedule) {
    && Steers(q, run, lab, 0)
    && FairTo(run, lab, Master, CallCanStop) && FairTo(run, lab, Follower, CallCanStop)
    && forall i: nat :: EndsLoudly(run(i).m) && EndsLoudly(run(i).f)
  }

  predicate EndsLoudly(me: Side) {
    me.halted ==> Total(me.sent, KEnd) == 1
  }

  ghost predicate HaltsFit(s: Sys) {
    HaltFits(s.m) && HaltFits(s.f)
  }

  lemma {:induction false} ExitInvAt(q: nat, run: Behaviour, lab: Schedule, i: nat)
    requires LawfulBehaviour(q, run, lab)
    ensures ExInv(run(i)) && HaltsFit(run(i))
  {
    hide Moves, Next, Enabled, Lawful, OwnExit, ExitLog, FlagsFit;
    if i == 0 {
      InitialExInv(run(0));
    } else {
      ExitInvAt(q, run, lab, i - 1);
      assert Moves(q, run, lab, i - 1);
      ExitMove(q, run, lab, i - 1);
    }
  }

  lemma ExitMove(q: nat, run: Behaviour, lab: Schedule, i: nat)
    requires Moves(q, run, lab, i) && ExInv(run(i)) && HaltsFit(run(i))
    ensures ExInv(run(i + 1)) && HaltsFit(run(i + 1))
  {
    hide Next, Enabled, OwnExit, ExitLog, FlagsFit;
    NodeMoves(q, run, lab, i, Master);
    NodeMoves(q, run, lab, i, Follower);
    if lab(i).Some? {
      StepKeepsExInv(q, run(i), lab(i).value);
      var w := lab(i).value.who;
      HaltStep(q, Mine(run(i), w), Peers(run(i), w).sent, lab(i).value.act);
    }
  }

  lemma AskingExits(q: nat, run: Behaviour, lab: Schedule)
    requires AskingBehaviour(q, run, lab)
    requires forall i: nat :: NoFault(run(i)) && !EndedSilently(run(i).m)
    ensures Exits(q, run, lab)
  {
    hide ExInv, Fair, Moves, FairTo, EndedSilently;
    forall i: nat ensures Sound(run(i)) && EndsLoudly(run(i).m) && EndsLoudly(run(i).f) {
      ExitInvAt(q, run, lab, i);
      assert NoFault(run(i));
      FollowerIsLoud(run(i));
    }
  }

  lemma FollowerIsLoud(s: Sys)
    requires ExInv(s)
    ensures !EndedSilently(s.f)
  {
    hide ExFits;
  }

  // ----- Nothing of the handshake is ever taken back

  predicate Onward(a: Side, b: Side) {
    && b.master == a.master && (a.halted ==> b.halted)
    && (a.ex.intentSent ==> b.ex.intentSent) && a.ex.readyNeighbors <= b.ex.readyNeighbors
    && (a.ex.permitted ==> b.ex.permitted) && (a.ex.endSent ==> b.ex.endSent)
    && (a.ex.pairFinished ==> b.ex.pairFinished) && (a.ex.stopOk ==> b.ex.stopOk)
    && a.recv <= b.recv && a.sent <= b.sent
  }

  lemma ReceiptOnward(me: Side, m: Message)
    ensures Onward(me, Receive(me, m))
  {
    hide CountInit, SyncCountIncrement, ValidRound, Universal;
    match m.body
    case Sync(_) =>
    case Packet(_) =>
    case Intent => if me.master {} else {}
    case EndOfEmulation => if me.ex.permitted {} else {}
    case InitStep => CountInitOnward(me);
    case _ =>
  }

  lemma CountInitOnward(me: Side)
    ensures Onward(me, CountInit(me))
  {
    hide Repeats;
  }

  lemma ThreadOnward(q: nat, me: Side, t: Thread)
    requires PcOf(me, t).at != Idle
    ensures Onward(me, ThreadStep(q, me, t))
  {
    match PcOf(me, t).at
    case EndRead => if me.ex.permitted {} else {}
    case EndSwap => if me.ex.endSent {} else {}
    case _ =>
  }

  lemma CheckOnward(me: Side)
    ensures Onward(me, SyncCheck(me))
  {
    hide MayGrantAtBarrier;
    if me.ck.needs {
      if me.ck.notified {} else {}
    } else {}
  }

  lemma CanStopOnward(me: Side)
    ensures Onward(me, CanStop(me))
  {
    if me.master {} else if me.ex.intentSent {} else {}
  }

  lemma NotifyOnward(me: Side, t: Thread, after: Point)
    ensures Onward(me, NotifyEnd(me, t, after))
  {
    hide Onward;
    if me.ex.notifiedExit {
      PcOnward(me, t, Pc(after, Idle));
    } else {
      var called := me.(ex := me.ex.(notifiedExit := true));
      assert Onward(me, called) by { FlagOnward(me); }
      PcOnward(called, t, Pc(EndRead, after));
      OnwardChain(me, called, NotifyEnd(me, t, after));
    }
  }

  lemma SnapshotOnward(me: Side)
    ensures Onward(me, TakeSnapshot(me))
  {
    hide NotifyEnd;
    assert Onward(me, Recorded(me));
    if me.master && me.warm {
      NotifyOnward(Recorded(me), Main, Quit);
      OnwardChain(me, Recorded(me), TakeSnapshot(me));
    }
  }

  lemma FlagOnward(me: Side)
    ensures Onward(me, me.(ex := me.ex.(notifiedExit := true)))
  {
  }

  lemma PcOnward(me: Side, t: Thread, pc: Pc)
    ensures Onward(me, WithPc(me, t, pc))
  {
    if t == Main {} else {}
  }

  lemma ActOnward(q: nat, me: Side, peerSent: Log, a: Action)
    requires Enabled(me, peerSent, a)
    ensures Onward(me, Next(q, me, peerSent, a))
  {
    hide Receive, ThreadStep, FirstDue, SyncCheck, CanStop, NotifyEnd;
    match a
    case Step(t) => ThreadOnward(q, me, t);
    case Poll => ReceiptOnward(me, peerSent[me.recv]);
    case CallCanStop => CanStopOnward(me);
    case CallNotify(t) => NotifyOnward(me, t, Idle);
    case TakeExit => NotifyOnward(me, Main, Quit);
    case Check => CheckOnward(me);
    case SnapshotNow => SnapshotOnward(me);
    case _ =>
  }

  lemma OnwardChain(a: Side, b: Side, c: Side)
    requires Onward(a, b) && Onward(b, c)
    ensures Onward(a, c)
  {
  }

  lemma {:induction false} LaterOnward(q: nat, run: Behaviour, lab: Schedule, i: nat, j: nat, w: Who)
    requires (forall k: nat :: Moves(q, run, lab, k)) && i <= j
    ensures Onward(Mine(run(i), w), Mine(run(j), w))
    decreases j - i
  {
    hide Moves, Enabled, Next, Lawful;
    if i < j {
      LaterOnward(q, run, lab, i, j - 1, w);
      assert Moves(q, run, lab, j - 1);
      NodeMoves(q, run, lab, j - 1, w);
      if lab(j - 1).Some? && lab(j - 1).value.who == w {
        ActOnward(q, Mine(run(j - 1), w), Peers(run(j - 1), w).sent, lab(j - 1).value.act);
        OnwardChain(Mine(run(i), w), Mine(run(j - 1), w), Mine(run(j), w));
      }
    }
  }

  /** Flags, logs and threads of one node at one moment. */
  lemma At(q: nat, run: Behaviour, lab: Schedule, i: nat, w: Who)
    requires Exits(q, run, lab)
    ensures ExFits(Mine(run(i), w), Peers(run(i), w)) && EndsLoudly(Mine(run(i), w))
    ensures Mine(run(i), w).fault.None? && (Mine(run(i), w).master <==> w == Master)
  {
    hide Moves, Fair, ExFits, FairTo;
    assert Sound(run(i)) && EndsLoudly(run(i).m) && EndsLoudly(run(i).f);
  }

  // ----- Polling and asking go on

  lemma KeepsPolling(q: nat, run: Behaviour, lab: Schedule, i: nat, w: Who) returns (j: nat)
    requires Exits(q, run, lab)
    requires forall k: nat :: i <= k ==> Mine(run(k), w).recv < |Peers(run(k), w).sent|
    ensures i <= j && (Mine(run(j), w).halted || Does(lab(j), w, Poll))
  {
    hide Moves, Fair, FairTo, Sound, ExFits;
    if h: nat :| i <= h && Mine(run(h), w).halted {
      j := h;
    } else {
      forall k: nat | i <= k ensures ReadyFrom(run, w, Poll, k) {
        var m := ThreadReturns(q, run, lab, 0, k, w, Main);
        At(q, run, lab, m, w);
        assert CanDo(run(m), w, Poll);
      }
      j := Happens(run, lab, w, Poll, i);
    }
  }

  lemma {:induction false} TakesOrEnds(q: nat, run: Behaviour, lab: Schedule, i: nat, w: Who, upto: nat)
    returns (j: nat)
    requires Exits(q, run, lab) && upto <= |Peers(run(i), w).sent|
    ensures i <= j && (Mine(run(j), w).halted || upto <= Mine(run(j), w).recv)
    decreases upto - Mine(run(i), w).recv
  {
    hide Moves, Fair, FairTo, Sound, Receive;
    if upto <= Mine(run(i), w).recv {
      j := i;
    } else if k: nat :| i <= k && Mine(run(i), w).recv < Mine(run(k), w).recv {
      LaterOnward(q, run, lab, i, k, Other(w));
      j := TakesOrEnds(q, run, lab, k, w, upto);
    } else {
      forall k: nat | i <= k ensures Mine(run(k), w).recv < |Peers(run(k), w).sent| {
        LaterOnward(q, run, lab, i, k, Other(w));
      }
      j := KeepsPolling(q, run, lab, i, w);
      if !Mine(run(j), w).halted {
        assert Moves(q, run, lab, j);
        NodeMoves(q, run, lab, j, w);
        LaterOnward(q, run, lab, i, j, w);
        assert false;
      }
    }
  }

  /** Everything in the log at moment i is counted by the receiver at moment j, or it has ended. */
  lemma CountTaken(q: nat, run: Behaviour, lab: Schedule, i: nat, w: Who, k: Kind) returns (j: nat)
    requires Exits(q, run, lab)
    ensures i <= j && Mine(run(j), w).recv <= |Peers(run(j), w).sent|
    ensures Mine(run(j), w).halted
         || Total(Peers(run(i), w).sent, k) <= Count(Peers(run(j), w).sent, Mine(run(j), w).recv, k)
  {
    hide Exits, OwnExit, ExitLog;
    var was := Peers(run(i), w).sent;
    j := TakesOrEnds(q, run, lab, i, w, |was|);
    At(q, run, lab, j, w);
    if !Mine(run(j), w).halted {
      assert Onward(Peers(run(i), w), Peers(run(j), w)) by {
        assert Exits(q, run, lab) ==> forall m: nat :: Moves(q, run, lab, m) by { MovesOf(q, run, lab); }
        LaterOnward(q, run, lab, i, j, Other(w));
      }
      var now := Peers(run(j), w).sent;
      assert was + now[|was|..] == now;
      CountExtend(was, now[|was|..], |was|, k);
      CountMono(now, |was|, Mine(run(j), w).recv, k);
    }
  }

  lemma MovesOf(q: nat, run: Behaviour, lab: Schedule)
    ensures Exits(q, run, lab) ==> forall m: nat :: Moves(q, run, lab, m)
  {
  }

  lemma AskedAgain(q: nat, run: Behaviour, lab: Schedule, i: nat, w: Who) returns (j: nat)
    requires Exits(q, run, lab)
    ensures i <= j && (Mine(run(j), w).halted ||
              (Mine(run(j), w).flex.at == Idle && Mine(run(j + 1), w) == CanStop(Mine(run(j), w))))
  {
    hide Moves, Fair, Sound, ExFits, CanStop, Lawful;
    if h: nat :| i <= h && Mine(run(h), w).halted {
      j := h;
    } else {
      forall k: nat ensures ReadyFrom(run, w, CallCanStop, k) {
        var m := ThreadReturns(q, run, lab, 0, if k < i then i else k, w, Flexus);
        At(q, run, lab, m, w);
        assert CanDo(run(m), w, CallCanStop);
      }
      assert FairTo(run, lab, w, CallCanStop);
      assert DoneFrom(lab, w, CallCanStop, i);
      j :| i <= j && Does(lab(j), w, CallCanStop);
      assert Moves(q, run, lab, j);
      NodeMoves(q, run, lab, j, w);
    }
  }

  /** The next instruction of a thread in the exit code, or the end of the process. */
  lemma NextTurn(q: nat, run: Behaviour, lab: Schedule, i: nat, w: Who, t: Thread) returns (k: nat)
    requires Exits(q, run, lab) && PcOf(Mine(run(i), w), t).at != Idle
    ensures i <= k && PcOf(Mine(run(k), w), t) == PcOf(Mine(run(i), w), t) && Onward(Mine(run(i), w), Mine(run(k), w))
    ensures Mine(run(k), w).halted || Mine(run(k + 1), w) == ThreadStep(q, Mine(run(k), w), t)
  {
    hide Moves, Fair, FairTo, Sound, ThreadStep, Onward, HasTurn;
    k := ThreadTurn(q, run, lab, 0, i, w, t);
    LaterOnward(q, run, lab, i, k, w);
    if !Mine(run(k), w).halted {
      assert Moves(q, run, lab, k);
      TurnDone(q, run, lab, k, w, t);
    }
  }

  // ----- The handshake, message by message

  /** A node that has ended was permitted to, and its END is out. */
  lemma HaltedWasPermitted(me: Side, peer: Side)
    requires ExFits(me, peer) && EndsLoudly(me) && me.halted
    ensures me.ex.permitted && Total(me.sent, KEnd) == 1
    ensures me.master ==> me.ex.readyNeighbors >= 1 && Total(me.sent, KPermission) >= 1
  {
    hide FlagsFit, ExitLog, PcsFit;
  }

  lemma IntentOut(q: nat, run: Behaviour, lab: Schedule) returns (j: nat)
    requires Exits(q, run, lab)
    ensures Total(run(j).f.sent, KIntent) >= 1
  {
    hide Exits, EndFits, PcsFit, ExitLog, FinishFits, EndsLoudly, Onward, FlagsFit;
    var k := AskedAgain(q, run, lab, 0, Follower);
    At(q, run, lab, k, Follower);
    At(q, run, lab, k, Master);
    At(q, run, lab, k + 1, Follower);
    if run(k).f.halted {
      HaltedWasPermitted(run(k).f, run(k).m);
      PermittedAsked(run(k).f, run(k).m);
      j := k;
    } else {
      j := k + 1;
      AskedSends(run(k).f);
    }
  }

  /** A permitted follower has sent its INTENT. */
  lemma PermittedAsked(f: Side, m: Side)
    requires ExFits(f, m) && ExFits(m, f) && m.master && !f.master && f.ex.permitted
    ensures Total(f.sent, KIntent) >= 1
  {
    hide EndFits, PcsFit, ExitLog, FinishFits;
    CountMono(m.sent, f.recv, |m.sent|, KPermission);
    CountMono(f.sent, m.recv, |f.sent|, KIntent);
  }

  lemma AskedSends(f: Side)
    requires !f.master && OwnExit(CanStop(f))
    ensures Total(CanStop(f).sent, KIntent) >= 1
  {
    hide EndFits, PcsFit, FinishFits, Universal;
    if f.ex.intentSent {} else {}
  }

  lemma IntentSeen(q: nat, run: Behaviour, lab: Schedule, i: nat) returns (j: nat)
    requires Exits(q, run, lab) && Total(run(i).f.sent, KIntent) >= 1
    ensures i <= j && run(j).m.ex.readyNeighbors >= 1
  {
    hide Exits, OwnExit, ExitLog, EndsLoudly;
    j := CountTaken(q, run, lab, i, Master, KIntent);
    At(q, run, lab, j, Master);
    if run(j).m.halted { HaltedWasPermitted(run(j).m, run(j).f); }
  }

  lemma Granted(q: nat, run: Behaviour, lab: Schedule, i: nat) returns (j: nat)
    requires Exits(q, run, lab) && run(i).m.ex.readyNeighbors >= 1
    ensures i <= j && run(j).m.ex.permitted
  {
    hide Exits, ExFits, EndsLoudly;
    var k := AskedAgain(q, run, lab, i, Master);
    MovesOf(q, run, lab);
    LaterOnward(q, run, lab, i, k, Master);
    At(q, run, lab, k, Master);
    if run(k).m.halted {
      HaltedWasPermitted(run(k).m, run(k).f);
      j := k;
    } else if run(k).m.ex.permitted {
      j := k;
    } else {
      var g := NextTurn(q, run, lab, k + 1, Master, Flexus);
      At(q, run, lab, g, Master);
      if run(g).m.halted {
        HaltedWasPermitted(run(g).m, run(g).f);
        j := g;
      } else {
        j := g + 1;
      }
    }
  }

  lemma PermissionOut(q: nat, run: Behaviour, lab: Schedule, i: nat) returns (j: nat)
    requires Exits(q, run, lab) && run(i).m.ex.permitted
    ensures i <= j && run(j).m.ex.permitted && Total(run(j).m.sent, KPermission) >= 1
  {
    hide Exits, EndFits, FinishFits, PcsFit, FlagsFit, ExitLog, EndsLoudly;
    At(q, run, lab, i, Master);
    if Total(run(i).m.sent, KPermission) >= 1 {
      j := i;
    } else {
      var t := if run(i).m.main.at == GrantSend then Main else Flexus;
      var k := NextTurn(q, run, lab, i, Master, t);
      At(q, run, lab, k, Master);
      if run(k).m.halted {
        HaltedWasPermitted(run(k).m, run(k).f);
        j := k;
      } else {
        TotalAppend(run(k).m.sent, Message(Universal(run(k).m.bar), Permission), KPermission);
        j := k + 1;
      }
    }
  }

  /** A permitted thread on its way to the swap makes it, or finds it made. */
  lemma SwapDone(q: nat, run: Behaviour, lab: Schedule, i: nat, w: Who, t: Thread) returns (j: nat)
    requires Exits(q, run, lab) && Mine(run(i), w).ex.permitted
    requires PcOf(Mine(run(i), w), t).at == EndRead || PcOf(Mine(run(i), w), t).at == EndSwap
    ensures i <= j && (Mine(run(j), w).halted || Mine(run(j), w).ex.endSent)
  {
    hide Exits;
    var k := NextTurn(q, run, lab, i, w, t);
    if Mine(run(k), w).halted {
      j := k;
    } else if PcOf(Mine(run(k), w), t).at == EndSwap {
      j := k + 1;
    } else {
      var l := NextTurn(q, run, lab, k + 1, w, t);
      j := if Mine(run(l), w).halted then l else l + 1;
    }
  }

  lemma EndOut(q: nat, run: Behaviour, lab: Schedule, i: nat, w: Who) returns (j: nat)
    requires Exits(q, run, lab) && Mine(run(i), w).ex.permitted
    requires w == Master ==> Total(run(i).m.sent, KPermission) >= 1
    ensures i <= j && Total(Mine(run(j), w).sent, KEnd) == 1
  {
    hide Exits, FlagsFit, ExitLog, Onward, EndFits, FinishFits, PcsFit, EndsLoudly;
    At(q, run, lab, i, w);
    var me := Mine(run(i), w);
    var s := i;
    if !me.ex.endSent {
      s := SwapDone(q, run, lab, i, w, if me.main.at in {EndRead, EndSwap} then Main else Flexus);
    }
    j := SwappedSends(q, run, lab, s, w);
  }

  lemma SwappedSends(q: nat, run: Behaviour, lab: Schedule, i: nat, w: Who) returns (j: nat)
    requires Exits(q, run, lab) && (Mine(run(i), w).halted || Mine(run(i), w).ex.endSent)
    ensures i <= j && Total(Mine(run(j), w).sent, KEnd) == 1
  {
    hide Exits, FlagsFit, ExitLog, FinishFits, PcsFit, MasterExit, FollowerExit;
    At(q, run, lab, i, w);
    var me := Mine(run(i), w);
    if me.halted || !AnyAt(me, EndSend) {
      j := i;
    } else {
      var t := if me.main.at == EndSend then Main else Flexus;
      var k := NextTurn(q, run, lab, i, w, t);
      At(q, run, lab, k, w);
      At(q, run, lab, k + 1, w);
      if Mine(run(k), w).halted {
        j := k;
      } else {
        TotalAppend(Mine(run(k), w).sent, Message(Universal(Mine(run(k), w).bar), EndOfEmulation), KEnd);
        j := k + 1;
      }
    }
  }

  lemma FollowerPermitted(q: nat, run: Behaviour, lab: Schedule, i: nat) returns (j: nat)
    requires Exits(q, run, lab) && Total(run(i).m.sent, KPermission) >= 1
    ensures i <= j && run(j).f.ex.permitted
  {
    hide Exits, OwnExit, ExitLog, EndsLoudly;
    j := CountTaken(q, run, lab, i, Follower, KPermission);
    At(q, run, lab, j, Follower);
    if run(j).f.halted { HaltedWasPermitted(run(j).f, run(j).m); }
  }

  lemma KnowsEnd(q: nat, run: Behaviour, lab: Schedule, i: nat, w: Who) returns (j: nat)
    requires Exits(q, run, lab) && Total(Peers(run(i), w).sent, KEnd) == 1
    ensures i <= j && (Mine(run(j), w).halted || Mine(run(j), w).ex.pairFinished)
  {
    hide Exits, OwnExit, ExitLog, EndsLoudly;
    j := CountTaken(q, run, lab, i, w, KEnd);
    At(q, run, lab, j, w);
  }

  /** A node that knows of its peer's END is told that it may stop at its next complete call. */
  lemma MayStop(q: nat, run: Behaviour, lab: Schedule, i: nat, w: Who) returns (j: nat)
    requires Exits(q, run, lab) && (Mine(run(i), w).halted || Mine(run(i), w).ex.pairFinished)
    ensures i <= j && Stopped(Mine(run(j), w))
  {
    hide Exits, EndsLoudly, FlagsFit, ExitLog, EndFits, PcsFit, MasterExit, FollowerExit;
    var k := AskedAgain(q, run, lab, i, w);
    MovesOf(q, run, lab);
    LaterOnward(q, run, lab, i, k, w);
    At(q, run, lab, k, w);
    if Mine(run(k), w).halted {
      j := k;
    } else {
      var a := NextTurn(q, run, lab, k + 1, w, Flexus);
      if Mine(run(a), w).halted {
        j := a;
      } else {
        var b := NextTurn(q, run, lab, a + 1, w, Flexus);
        j := if Mine(run(b), w).halted then b else b + 1;
      }
    }
  }

  lemma BothStopUnhindered(q: nat, run: Behaviour, lab: Schedule)
    requires Exits(q, run, lab)
    ensures exists j: nat :: Stopped(run(j).m) && Stopped(run(j).f)
  {
    hide Exits, Onward;
    var a := IntentOut(q, run, lab);
    var b := IntentSeen(q, run, lab, a);
    var c := Granted(q, run, lab, b);
    var d := PermissionOut(q, run, lab, c);
    var e := EndOut(q, run, lab, d, Master);
    var f := FollowerPermitted(q, run, lab, d);
    var g := EndOut(q, run, lab, f, Follower);
    var h := KnowsEnd(q, run, lab, g, Master);
    var k := KnowsEnd(q, run, lab, e, Follower);
    var m := MayStop(q, run, lab, h, Master);
    var n := MayStop(q, run, lab, k, Follower);
    MovesOf(q, run, lab);
    var last := if m < n then n else m;
    assert Stopped(run(last).m) by { LaterOnward(q, run, lab, m, last, Master); StoppedStays(run(m).m, run(last).m); }
    assert Stopped(run(last).f) by { LaterOnward(q, run, lab, n, last, Follower); StoppedStays(run(n).f, run(last).f); }
  }

  lemma StoppedStays(a: Side, b: Side)
    requires Stopped(a) && Onward(a, b)
    ensures Stopped(b)
  {
  }

  /** What can hinder: the master has ended behind its snapshot before its PERMISSION was out, a node
      asserts that a checkpoint round is passed, or, beyond the keys of the sync table only, it asserts
      anything else. */
  ghost predicate Hindered(s: Sys) {
    || EndedSilently(s.m)
    || s.m.fault == Some(CheckpointPassed) || s.f.fault == Some(CheckpointPassed)
    || (!RoundsFit(s) && !NoFault(s))
  }

  lemma {:induction false} FitBefore(q: nat, run: Behaviour, lab: Schedule, i: nat)
    requires LawfulBehaviour(q, run, lab) && RoundsFit(run(i))
    ensures CoreInv(q, run(i))
  {
    hide CoreInv, Moves;
    if i == 0 {
      InitialCore(q, run(0));
    } else {
      RoundsGrow(q, run, lab, i - 1);
      FitBefore(q, run, lab, i - 1);
      MoveKeepsCore(q, run, lab, i - 1);
    }
  }

  lemma FaultHinders(q: nat, run: Behaviour, lab: Schedule, i: nat)
    requires LawfulBehaviour(q, run, lab) && !NoFault(run(i))
    ensures Hindered(run(i))
  {
    hide Inv, ExInv, Conserved, Moves;
    if RoundsFit(run(i)) { FitBefore(q, run, lab, i); }
  }

  /** Both `can_stop` calls eventually return true, or their nodes have already ended.  No order of the
      four threads' instructions can prevent it, nor any number of rounds, nor any request for a
      checkpoint but by one of the hindrances named above. */
  lemma BothStop(q: nat, run: Behaviour, lab: Schedule)
    requires AskingBehaviour(q, run, lab)
    ensures exists j: nat :: Hindered(run(j)) || (Stopped(run(j).m) && Stopped(run(j).f))
  {
    hide Fair, FairTo, Moves, Hindered, Exits;
    if i: nat :| !NoFault(run(i)) {
      FaultHinders(q, run, lab, i);
    } else if i: nat :| EndedSilently(run(i).m) {
      assert Hindered(run(i)) by { SilenceHinders(run(i)); }
    } else {
      AskingExits(q, run, lab);
      BothStopUnhindered(q, run, lab);
    }
  }

  lemma SilenceHinders(s: Sys)
    requires EndedSilently(s.m)
    ensures Hindered(s)
  {
  }

  // ----- A node whose peer has ended leaves its wait and ends

  lemma {:induction false} EndedStays(q: nat, run: Behaviour, lab: Schedule, i: nat, j: nat, w: Who)
    requires (forall k: nat :: Moves(q, run, lab, k)) && i <= j && Mine(run(i), w).halted
    ensures Mine(run(j), w) == Mine(run(i), w)
    decreases j - i
  {
    hide Moves, Next, Lawful;
    if i < j {
      EndedStays(q, run, lab, i, j - 1, w);
      assert Moves(q, run, lab, j - 1);
      NodeMoves(q, run, lab, j - 1, w);
    }
  }

  /** The round of a node that has ended bounds that of its peer. */
  lemma StaysBounded(q: nat, run: Behaviour, lab: Schedule, i: nat, j: nat, w: Who)
    requires LawfulBehaviour(q, run, lab) && i <= j
    requires Peers(run(i), w).halted && Peers(run(i), w).bar.round + 1 < KEY_SPAN
    ensures Rounds(run(j)) <= 2 * Peers(run(i), w).bar.round + 2 && CoreInv(q, run(j)) && RoundsFit(run(j))
    ensures Peers(run(j), w) == Peers(run(i), w) && Peers(run(j), w).fault.None?
  {
    hide Moves, CoreInv, RoundsFit;
    EndedStays(q, run, lab, i, j, Other(w));
    var p := Peers(run(i), w).bar.round;
    if 2 * p + 3 <= Rounds(run(j)) {
      BothReach(q, run, lab, p + 1, j);
    }
    CoreAt(q, run, lab, j);
    HaltedHasNoFault(q, run(j), Other(w));
  }

  lemma HaltedHasNoFault(q: nat, s: Sys, w: Who)
    requires CoreInv(q, s) && Mine(s, w).halted
    ensures Mine(s, w).fault.None?
  {
    hide Inv, ExInv, Conserved;
  }

  lemma {:induction false} LeavingStays(q: nat, run: Behaviour, lab: Schedule, n: nat, i: nat, j: nat, w: Who)
    requires Frozen(q, run, lab, n, w) && n <= i <= j && Leaving(Mine(run(i), w))
    ensures Leaving(Mine(run(j), w))
    decreases j - i
  {
    hide FrozenAt, Fair, Lawful, Half, RoundsFit, Leaving, Enabled, Next, Moves, EndFits, MasterExit, FollowerExit;
    hide FinishFits, ExitLog, FlagsFit;
    if i < j {
      LeavingStays(q, run, lab, n, i, j - 1, w);
      LiveThroughout(q, run, lab, n, j - 1, w);
      LiveThroughout(q, run, lab, n, j, w);
      assert Moves(q, run, lab, j - 1);
      NodeMoves(q, run, lab, j - 1, w);
      if lab(j - 1).Some? && lab(j - 1).value.who == w {
        LeavingStep(q, Mine(run(j - 1), w), Peers(run(j - 1), w).sent, lab(j - 1).value.act);
      }
    }
  }

  lemma NeverLeaving(q: nat, run: Behaviour, lab: Schedule, n: nat, i: nat, w: Who)
    requires Frozen(q, run, lab, n, w) && n <= i
    ensures !Leaving(Mine(run(i), w))
  {
    hide FrozenAt, Fair, Lawful, Half, RoundsFit, Moves, EndFits, MasterExit, FollowerExit, FinishFits, ExitLog;
    hide FlagsFit;
    if Leaving(Mine(run(i), w)) {
      var j := MainReturns(q, run, lab, n, i, w);
      LeavingStays(q, run, lab, n, i, j, w);
      LiveThroughout(q, run, lab, n, j, w);
      assert false;
    }
  }

  /** A waiting node that has taken all its ended peer ever sent. */
  ghost predicate Informed(run: Behaviour, k: nat, w: Who) {
    Mine(run(k), w).bar.checkArmed && Mine(run(k), w).ex.pairFinished
  }

  lemma TakenMeansFinished(q: nat, s: Sys, w: Who)
    requires CoreInv(q, s) && Peers(s, w).halted && Mine(s, w).recv == |Peers(s, w).sent|
    requires !EndedSilently(Peers(s, w))
    ensures Mine(s, w).ex.pairFinished
  {
    hide Inv, Conserved, OwnExit, ExitLog, FullFrames, EndedSilently;
  }

  lemma ComesInformed(q: nat, run: Behaviour, lab: Schedule, n: nat, w: Who) returns (j: nat)
    requires Frozen(q, run, lab, n, w) && Peers(run(n), w).halted && !EndedSilently(Peers(run(n), w))
    ensures n <= j && forall k: nat :: j <= k ==> Informed(run, k, w)
  {
    hide FrozenAt, AliveFrom, Fair, CoreInv, Moves, EndedSilently;
    var a := Finishes(q, run, lab, n, n, w);
    var b := Arms(q, run, lab, n, a, w);
    EndedStays(q, run, lab, n, b, Other(w));
    j := Takes(q, run, lab, n, b, w, |Peers(run(n), w).sent|);
    forall k: nat | j <= k ensures Informed(run, k, w) {
      LaterSteady(q, run, lab, n, b, k, w);
      LaterSteady(q, run, lab, n, j, k, w);
      EndedStays(q, run, lab, n, k, Other(w));
      assert FrozenAt(q, run, n, k);
      FrozenAll(q, run, n, k, w);
      TakenMeansFinished(q, run(k), w);
    }
  }

  lemma FrozenAll(q: nat, run: Behaviour, n: nat, k: nat, w: Who)
    requires FrozenAt(q, run, n, k)
    ensures CoreInv(q, run(k)) && Mine(run(k), w).recv <= |Peers(run(k), w).sent|
  {
    hide ExInv, Conserved, CoreSide, LogFits, TableFits, ClockFits, NoneLate;
  }

  lemma NotForEver(q: nat, run: Behaviour, lab: Schedule, n: nat, w: Who)
    requires (forall k: nat :: Moves(q, run, lab, k)) && FairTo(run, lab, w, TakeExit) && Peers(run(n), w).halted
    requires !EndedSilently(Peers(run(n), w))
    ensures !Frozen(q, run, lab, n, w)
  {
    hide Stalled, AliveFrom, Fair, CoreInv, Moves, Leaving, EndedSilently;
    if Frozen(q, run, lab, n, w) {
      var j := ComesInformed(q, run, lab, n, w);
      var k := TakesExit(q, run, lab, n, j, w);
      NeverLeaving(q, run, lab, n, k + 1, w);
      assert false;
    }
  }

  lemma TakesExit(q: nat, run: Behaviour, lab: Schedule, n: nat, j: nat, w: Who) returns (k: nat)
    requires Frozen(q, run, lab, n, w) && n <= j && FairTo(run, lab, w, TakeExit)
    requires forall i: nat :: j <= i ==> Informed(run, i, w)
    ensures j <= k && Leaving(Mine(run(k + 1), w))
  {
    hide Frozen, AliveFrom, Half, RoundsFit, ExFits, LawfulBehaviour;
    forall i: nat ensures ReadyFrom(run, w, TakeExit, i) {
      var m := ExitIsOpen(q, run, lab, n, if i < j then j else i, w);
      assert CanDo(run(m), w, TakeExit);
    }
    assert DoneFrom(lab, w, TakeExit, j);
    k :| j <= k && Does(lab(k), w, TakeExit);
    DutyDone(q, run, lab, n, k, w, TakeExit);
    LiveThroughout(q, run, lab, n, k, w);
    assert Informed(run, k, w);
    KnowingLeaves(run(k), w);
  }

  lemma KnowingLeaves(s: Sys, w: Who)
    requires ExInv(s) && Mine(s, w).ex.pairFinished
    ensures Leaving(ExitBranch(Mine(s, w)))
  {
    hide ExitLog, FlagsFit, PcsFit, EndFits, MasterExit, FollowerExit;
  }

  lemma ExitIsOpen(q: nat, run: Behaviour, lab: Schedule, n: nat, i: nat, w: Who) returns (m: nat)
    requires Frozen(q, run, lab, n, w) && n <= i
    requires forall k: nat :: i <= k ==> Informed(run, k, w)
    ensures i <= m && CanDo(run(m), w, TakeExit)
  {
    hide FrozenAt, AliveFrom, Fair, Moves, Half, RoundsFit, ExFits;
    m := MainReturns(q, run, lab, n, i, w);
    LiveThroughout(q, run, lab, n, m, w);
    assert Informed(run, m, w);
  }

  /** The other node has ended, or asserts that a checkpoint round is passed. */
  predicate EndsOrAsserts(me: Side) {
    me.halted || me.fault == Some(CheckpointPassed)
  }

  /** Once a node's process has ended with its END out, the other, if it takes its exit branch whenever
      it can again and again, ends too. */
  lemma {:induction false} PeerEndsToo(q: nat, run: Behaviour, lab: Schedule, n: nat, w: Who) returns (j: nat)
    requires LawfulBehaviour(q, run, lab) && Fair(run, lab) && FairTo(run, lab, w, TakeExit)
    requires Peers(run(n), w).halted && Peers(run(n), w).bar.round + 1 < KEY_SPAN && !EndedSilently(Peers(run(n), w))
    ensures n <= j && EndsOrAsserts(Mine(run(j), w))
    decreases 2 * Peers(run(n), w).bar.round + 2 - Rounds(run(n))
  {
    hide Fair, FairTo, Moves, CoreInv, RoundsFit, Rounds, EndedSilently;
    StaysBounded(q, run, lab, n, n, w);
    if k: nat :| n <= k && EndsOrAsserts(Mine(run(k), w)) {
      j := k;
    } else if k: nat :| n <= k && Rounds(run(n)) < Rounds(run(k)) {
      StaysBounded(q, run, lab, n, k, w);
      j := PeerEndsToo(q, run, lab, k, w);
    } else {
      forall i: nat | n <= i ensures FrozenAt(q, run, n, i) && AliveAt(run, i, w) {
        RoundsGrowTo(q, run, lab, n, i);
        StaysBounded(q, run, lab, n, i, w);
        SameRounds(run(n), run(i));
        CoreFaultOf(q, run(i), w);
      }
      NotForEver(q, run, lab, n, w);
      j := n;
      assert false;
    }
  }

  lemma CoreFaultOf(q: nat, s: Sys, w: Who)
    requires CoreInv(q, s)
    ensures Mine(s, w).fault.None? || Mine(s, w).fault == Some(CheckpointPassed)
  {
    hide Inv, ExInv, Conserved;
  }

  /** Without the peer's END a follower never learns that its master has ended, and never ends itself. */
  lemma {:induction false} NeverLearns(q: nat, run: Behaviour, lab: Schedule, n: nat, j: nat)
    requires LawfulBehaviour(q, run, lab) && n <= j && EndedSilently(run(n).m) && !run(n).f.halted
    requires !run(n).f.ex.pairFinished
    ensures !run(j).f.halted && !run(j).f.ex.pairFinished
    decreases j - n
  {
    hide Moves, Next, Enabled, Lawful, ExInv, HaltFits;
    if n < j {
      NeverLearns(q, run, lab, n, j - 1);
      EndedStays(q, run, lab, n, j, Master);
      ExitInvAt(q, run, lab, j - 1);
      ExitInvAt(q, run, lab, j);
      FollowerAt(run(j));
      assert Moves(q, run, lab, j - 1);
      NodeMoves(q, run, lab, j - 1, Follower);
      if lab(j - 1).Some? && lab(j - 1).value.who == Follower {
        FollowerStaysOn(q, run(j - 1), lab(j - 1).value.act);
      }
    }
  }

  lemma FollowerAt(s: Sys)
    requires ExInv(s) && HaltFits(s.m) && EndedSilently(s.m)
    ensures !s.f.ex.pairFinished
  {
    hide OwnExit, ExitLog;
    CountMono(s.m.sent, s.f.recv, |s.m.sent|, KEnd);
  }

  lemma FollowerStaysOn(q: nat, s: Sys, a: Action)
    requires ExInv(s) && Enabled(s.f, s.m.sent, a) && !s.f.ex.pairFinished
    ensures !Next(q, s.f, s.m.sent, a).halted
  {
    hide EndFits, FollowerExit, MasterExit, FlagsFit, ExitLog;
    match a
    case Stop =>
    case Step(t) => if PcOf(s.f, t).at == Quit {} else { StepHalts(q, s.f, t); }
    case Poll => ReceiptHalts(s.f, s.m.sent[s.f.recv]);
    case _ =>
  }

  /** Exactly: of the peer of an ended node, within the span of the rounds, it is true that it ends or
      asserts a passed checkpoint if its END is out; and the follower of a master that has ended without
      it never ends. */
  lemma PeerEndsExactly(q: nat, run: Behaviour, lab: Schedule, n: nat, w: Who)
    requires LawfulBehaviour(q, run, lab) && Fair(run, lab) && FairTo(run, lab, w, TakeExit)
    requires Peers(run(n), w).halted && Peers(run(n), w).bar.round + 1 < KEY_SPAN && !Mine(run(n), w).halted
    requires forall j: nat :: NoFault(run(j))
    ensures (exists j: nat :: n <= j && Mine(run(j), w).halted) <==> !EndedSilently(Peers(run(n), w))
  {
    hide Fair, FairTo, Moves, EndedSilently;
    if EndedSilently(Peers(run(n), w)) {
      ExitInvAt(q, run, lab, n);
      FollowerIsLoud(run(n));
      FollowerAt(run(n));
      forall j: nat | n <= j ensures !Mine(run(j), w).halted {
        NeverLearns(q, run, lab, n, j);
      }
    } else {
      var j := PeerEndsToo(q, run, lab, n, w);
      assert NoFault(run(j));
    }
  }

  lemma SameRounds(s: Sys, t: Sys)
    requires Rounds(t) <= Rounds(s) && s.m.bar.round <= t.m.bar.round && s.f.bar.round <= t.f.bar.round
    ensures s.m.bar.round == t.m.bar.round && s.f.bar.round == t.f.bar.round
  {
  }

  // ----- The grant at the barrier alone

  /** A master with an INTENT counted that is ready for the end. */
  predicate Due(me: Side) {
    me.master && me.ex.ready && me.ex.readyNeighbors >= 1
  }

  /** Such a master does not get through the round after r without the permission. */
  predicate GrantsBy(me: Side, r: nat) {
    me.ex.permitted || me.bar.round <= r || (me.bar.round == r + 1 && (Closing(me) ==> me.main.at == GrantSet))
  }

  lemma DueReceipt(me: Side, m: Message, r: nat)
    requires Due(me) && GrantsBy(me, r)
    ensures Due(Receive(me, m)) && GrantsBy(Receive(me, m), r)
  {
    hide CountInit, SyncCountIncrement, ValidRound, Universal;
    match m.body
    case Sync(_) =>
    case Packet(_) =>
    case InitStep => CountInitTouches(me);
    case EndOfEmulation => if me.ex.permitted {} else {}
    case _ =>
  }

  lemma DueThread(q: nat, me: Side, t: Thread, r: nat)
    requires Due(me) && GrantsBy(me, r) && PcsFit(me) && PcOf(me, t).at != Idle
    ensures Due(ThreadStep(q, me, t)) && GrantsBy(ThreadStep(q, me, t), r)
  {
    match PcOf(me, t).at
    case EndRead => if me.ex.permitted {} else {}
    case EndSwap => if me.ex.endSent {} else {}
    case GrantSet => if t == Main {} else {}
    case _ => if t == Main {} else {}
  }

  lemma DueCheck(me: Side, r: nat)
    requires Due(me) && GrantsBy(me, r) && MainIdle(me) && me.main.after == Idle
    ensures Due(SyncCheck(me)) && GrantsBy(SyncCheck(me), r)
  {
    if me.ck.needs {
      if me.ck.notified {} else {}
    } else {}
  }

  lemma DueCalls(q: nat, me: Side, peerSent: Log, a: Action, r: nat)
    requires Due(me) && GrantsBy(me, r) && PcsFit(me) && Enabled(me, peerSent, a)
    requires a.CallCanStop? || a.CallNotify? || a.TakeExit?
    ensures Due(Next(q, me, peerSent, a)) && GrantsBy(Next(q, me, peerSent, a), r)
  {
    match a
    case CallCanStop =>
    case CallNotify(t) => if t == Main {} else {}
    case TakeExit => if me.ex.permitted {} else {}
  }

  lemma DueSnapshot(me: Side, r: nat)
    requires Due(me) && GrantsBy(me, r)
    ensures Due(TakeSnapshot(me)) && GrantsBy(TakeSnapshot(me), r)
  {
    if me.ex.notifiedExit {} else {}
  }

  lemma DueStep(q: nat, me: Side, peerSent: Log, a: Action, r: nat)
    requires Due(me) && GrantsBy(me, r) && PcsFit(me) && Enabled(me, peerSent, a)
    ensures Due(Next(q, me, peerSent, a)) && GrantsBy(Next(q, me, peerSent, a), r)
  {
    hide PcsFit, ThreadStep, SyncCheck, TakeSnapshot, Receive, FirstDue, CanStop, NotifyEnd, ExitBranch;
    match a
    case Poll => DueReceipt(me, peerSent[me.recv], r);
    case Step(t) => DueThread(q, me, t, r);
    case Check =>
      IdleIsDone(me);
      DueCheck(me, r);
    case SnapshotNow => DueSnapshot(me, r);
    case CallCanStop | CallNotify(_) | TakeExit => DueCalls(q, me, peerSent, a, r);
    case Stop =>
    case _ => DueOthers(q, me, peerSent, a, r);
  }

  lemma IdleIsDone(me: Side)
    requires PcsFit(me) && MainIdle(me)
    ensures me.main.after == Idle
  {
  }

  lemma DueOthers(q: nat, me: Side, peerSent: Log, a: Action, r: nat)
    requires Due(me) && GrantsBy(me, r) && Enabled(me, peerSent, a) && IsExQuiet(a)
    ensures Due(Next(q, me, peerSent, a)) && GrantsBy(Next(q, me, peerSent, a), r)
  {
    hide FirstDue, Repeats;
    match a
    case SendSync => if me.ck.needs {} else {}
    case FireDelivery =>
    case _ =>
  }

  lemma {:induction false} DueAtLater(q: nat, run: Behaviour, lab: Schedule, i: nat, j: nat)
    requires LawfulBehaviour(q, run, lab) && i <= j && Due(run(i).m)
    ensures Due(run(j).m) && GrantsBy(run(j).m, run(i).m.bar.round)
    decreases j - i
  {
    hide Moves, Enabled, Next, Lawful, Due, GrantsBy, HaltsFit, ExInv;
    if i == j {
      assert GrantsBy(run(i).m, run(i).m.bar.round) by { GrantsNow(run(i).m); }
    } else {
      DueAtLater(q, run, lab, i, j - 1);
      ExitInvAt(q, run, lab, j - 1);
      assert Moves(q, run, lab, j - 1);
      NodeMoves(q, run, lab, j - 1, Master);
      if lab(j - 1).Some? && lab(j - 1).value.who == Master {
        MasterPcs(run(j - 1));
        DueStep(q, run(j - 1).m, run(j - 1).f.sent, lab(j - 1).value.act, run(i).m.bar.round);
      }
    }
  }

  lemma GrantsNow(me: Side)
    ensures GrantsBy(me, me.bar.round)
  {
  }

  lemma MasterPcs(s: Sys)
    requires ExInv(s)
    ensures PcsFit(s.m)
  {
    hide EndFits, MasterExit, FollowerExit, FinishFits, ExitLog, FlagsFit;
  }

  /** The barrier grants by itself.  Once the master is ready and has counted the INTENT it becomes permitted,
      whether or not anybody ever calls `can_stop` again: at the latest when it leaves the round after the
      present one, which it does unless a node has ended or asserts that a checkpoint round is passed. */
  lemma BarrierGrantsInTime(q: nat, run: Behaviour, lab: Schedule, i: nat)
    requires LawfulBehaviour(q, run, lab) && Fair(run, lab) && Patient(run, lab)
    requires run(i).m.ex.ready && run(i).m.ex.readyNeighbors >= 1 && run(i).m.bar.round + 2 < 0x1_0000_0000
    ensures exists j: nat :: Over(run(j)) || run(j).m.ex.permitted
  {
    hide LawfulBehaviour, Fair, Patient, Over;
    var k := run(i).m.bar.round + 2;
    BarrierProgress(q, run, lab, k);
    var j: nat :| Over(run(j)) || (k <= run(j).m.bar.round && k <= run(j).f.bar.round);
    if !Over(run(j)) {
      if j < i { RoundsGrowTo(q, run, lab, j, i); }
      assert Due(run(i).m) by { IsMaster(q, run, lab, i); }
      DueAtLater(q, run, lab, i, j);
    }
  }

  lemma IsMaster(q: nat, run: Behaviour, lab: Schedule, i: nat)
    requires LawfulBehaviour(q, run, lab)
    ensures run(i).m.master
  {
    hide Moves, HaltFits, ExFits;
    ExitInvAt(q, run, lab, i);
  }
}
