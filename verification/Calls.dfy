/** Every call of Node is a run of Machine, against the peer's log: the action it is entered by, and then
    nothing but its own thread's instructions and, on the main thread, its polls, up to the end of the call. */
module Calls {
  import opened Messages
  import opened Machine
  import opened Node

  /** The actions, taken one after the other by one node, lead from `me` to `next`. */
  ghost predicate Acts(q: nat, me: Side, log: Log, acts: seq<Action>, next: Side)
    decreases |acts|
  {
    if acts == [] then me == next
    else Enabled(me, log, acts[0]) && Acts(q, Next(q, me, log, acts[0]), log, acts[1..], next)
  }

  /** An instruction of the thread, or a poll of the main thread. */
  predicate Own(a: Action, t: Thread) {
    a == Step(t) || (t == Main && a == Poll)
  }

  ghost predicate AllOwn(acts: seq<Action>, t: Thread) {
    forall i :: 0 <= i < |acts| ==> Own(acts[i], t)
  }

  /** The thread gets from `me` to `next` by itself. */
  ghost predicate IsSteps(q: nat, me: Side, log: Log, t: Thread, next: Side) {
    exists acts :: Acts(q, me, log, acts, next) && AllOwn(acts, t)
  }

  /** The call entered by the action ends in `next`. */
  ghost predicate IsCall(q: nat, me: Side, log: Log, entry: Action, t: Thread, next: Side) {
    Enabled(me, log, entry) && IsSteps(q, Next(q, me, log, entry), log, t, next)
  }

  lemma Stay(q: nat, me: Side, log: Log, t: Thread)
    ensures IsSteps(q, me, log, t, me)
  {
    assert Acts(q, me, log, [], me) && AllOwn([], t);
  }

  lemma One(q: nat, me: Side, log: Log, t: Thread, a: Action)
    requires Enabled(me, log, a) && Own(a, t)
    ensures IsSteps(q, me, log, t, Next(q, me, log, a))
  {
    assert [a][1..] == [];
    assert Acts(q, me, log, [a], Next(q, me, log, a)) && AllOwn([a], t);
  }

  lemma {:induction false} Join(q: nat, me: Side, log: Log, first: seq<Action>, mid: Side, second: seq<Action>,
      last: Side)
    requires Acts(q, me, log, first, mid) && Acts(q, mid, log, second, last)
    ensures Acts(q, me, log, first + second, last)
    decreases |first|
  {
    if first == [] {
      assert first + second == second;
    } else {
      Join(q, Next(q, me, log, first[0]), log, first[1..], mid, second, last);
      assert (first + second)[1..] == first[1..] + second;
    }
  }

  lemma Then(q: nat, me: Side, log: Log, t: Thread, mid: Side, last: Side)
    requires IsSteps(q, me, log, t, mid) && IsSteps(q, mid, log, t, last)
    ensures IsSteps(q, me, log, t, last)
  {
    var first :| Acts(q, me, log, first, mid) && AllOwn(first, t);
    var second :| Acts(q, mid, log, second, last) && AllOwn(second, t);
    Join(q, me, log, first, mid, second, last);
    assert AllOwn(first + second, t);
  }

  /** One step more. */
  lemma AndStep(q: nat, me: Side, log: Log, mid: Side, t: Thread, last: Side)
    requires IsSteps(q, me, log, t, mid) && Live(mid) && PcOf(mid, t).at != Idle && last == ThreadStep(q, mid, t)
    ensures IsSteps(q, me, log, t, last)
  {
    hide IsSteps, ThreadStep;
    One(q, mid, log, t, Step(t));
    Then(q, me, log, t, mid, last);
  }

  // ----- The exit code

  lemma SendEndIsRun(q: nat, me: Side, log: Log, t: Thread, after: Point)
    requires Live(me) && PcOf(me, t) == Pc(EndRead, after)
    ensures IsSteps(q, me, log, t, WithPc(SendEnd(me), t, Pc(after, Idle)))
  {
    hide IsSteps;
    Stay(q, me, log, t);
    var s1 := ThreadStep(q, me, t);
    AndStep(q, me, log, me, t, s1);
    if me.ex.permitted {
      var s2 := ThreadStep(q, s1, t);
      AndStep(q, me, log, s1, t, s2);
      if !me.ex.endSent {
        AndStep(q, me, log, s2, t, ThreadStep(q, s2, t));
      }
    }
  }

  lemma GrantIsRun(q: nat, me: Side, log: Log, t: Thread, after: Point)
    requires Live(me) && PcOf(me, t) == Pc(GrantSet, after)
    ensures IsSteps(q, me, log, t, WithPc(Grant(me), t, Pc(after, Idle)))
  {
    hide IsSteps;
    Stay(q, me, log, t);
    var s1 := ThreadStep(q, me, t);
    AndStep(q, me, log, me, t, s1);
    var s2 := ThreadStep(q, s1, t);
    AndStep(q, me, log, s1, t, s2);
    SendEndIsRun(q, s2, log, t, after);
    var last := WithPc(SendEnd(s2), t, Pc(after, Idle));
    Then(q, me, log, t, s2, last);
    GrantSteps(q, me, t, after);
  }

  lemma GrantSteps(q: nat, me: Side, t: Thread, after: Point)
    requires PcOf(me, t) == Pc(GrantSet, after)
    ensures var s1 := ThreadStep(q, me, t);
            PcOf(s1, t) == Pc(GrantSend, after) &&
            WithPc(SendEnd(ThreadStep(q, s1, t)), t, Pc(after, Idle)) == WithPc(Grant(me), t, Pc(after, Idle))
  {
    if t == Main {} else {}
  }

  // ----- Polling

  /** The threads of the node are between calls. */
  predicate AtRest(me: Side) {
    Live(me) && me.main == Pc(Idle, Idle) && me.flex == Pc(Idle, Idle)
  }

  lemma ProcessIsRun(q: nat, me: Side, log: Log)
    requires AtRest(me) && me.recv < |log|
    ensures IsSteps(q, me, log, Main, Process(me, log[me.recv]).(recv := me.recv + 1))
  {
    hide IsSteps;
    var polled := Next(q, me, log, Poll);
    One(q, me, log, Main, Poll);
    if log[me.recv].body.Permission? {
      SendEndIsRun(q, polled, log, Main, Idle);
      Then(q, me, log, Main, polled, WithPc(SendEnd(polled), Main, Pc(Idle, Idle)));
    }
  }

  lemma ProcessRests(me: Side, m: Message)
    requires AtRest(me)
    ensures var r := Process(me, m);
            r.main == Pc(Idle, Idle) && r.flex == Pc(Idle, Idle) && !r.halted && r.master == me.master
            && r.bar.checkArmed == me.bar.checkArmed && r.bar.finished == me.bar.finished
  {
    match m.body
    case Sync(_) =>
    case Packet(_) =>
    case Permission =>
    case _ =>
  }

  /** Polling until the channel is empty is a run; it ends at rest or on an assertion. */
  lemma {:induction false} PollIsRun(q: nat, me: Side, log: Log)
    requires AtRest(me) && me.recv <= |log|
    ensures IsSteps(q, me, log, Main, PollAll(me, log))
    ensures PollAll(me, log).fault.None? ==> AtRest(PollAll(me, log)) && PollAll(me, log).recv == |log|
    ensures var r := PollAll(me, log); r.bar.checkArmed == me.bar.checkArmed && r.bar.finished == me.bar.finished
    decreases |log| - me.recv
  {
    hide IsSteps, Process;
    if me.recv == |log| {
      Stay(q, me, log, Main);
    } else {
      var next := Process(me, log[me.recv]).(recv := me.recv + 1);
      ProcessIsRun(q, me, log);
      ProcessRests(me, log[me.recv]);
      if next.fault.None? {
        PollIsRun(q, next, log);
        Then(q, me, log, Main, next, PollAll(next, log));
      }
    }
  }

  // ----- Whole calls

  /** The poll at the end of a quantum, entered by the quantum timer, and then, unless it asserts, the notice
      and the sync in one step. */
  lemma QuantaSyncIsRun(q: nat, me: Side, log: Log)
    requires AtRest(me) && me.recv <= |log| && Enabled(me, log, QuantumTimer) && !me.bar.checkArmed
    ensures var polled := PollAll(Next(q, me, log, QuantumTimer), log);
            && IsCall(q, me, log, QuantumTimer, Main, polled)
            && if polled.fault.Some? then QuantaSyncAll(me, log) == polled
               else Enabled(polled, log, SendSync) && QuantaSyncAll(me, log) == Next(q, polled, log, SendSync)
  {
    hide IsSteps, SyncOut, PollAll;
    PollIsRun(q, FinishQuantum(me), log);
  }

  lemma OpenRoundIsRun(q: nat, me: Side, log: Log)
    requires AtRest(me)
    ensures IsSteps(q, Proceed(me), log, Main, OpenRound(q, me))
  {
    hide IsSteps, Grant, MayGrantAtBarrier;
    var s := Proceed(me);
    Stay(q, s, log, Main);
    if MayGrantAtBarrier(me) {
      GrantIsRun(q, s, log, Main, Advance);
      GrantRests(me);
      var granted := WithPc(Grant(s), Main, Pc(Advance, Idle));
      AndStep(q, s, log, granted, Main, ThreadStep(q, granted, Main));
    } else {
      AndStep(q, s, log, s, Main, ThreadStep(q, s, Main));
    }
  }

  /** A grant does not look at the threads. */
  lemma GrantRests(me: Side)
    requires AtRest(me)
    ensures AtRest(Grant(me)) && Grant(me.(main := Pc(GrantSet, Advance))) == Grant(me).(main := Pc(GrantSet, Advance))
  {
    if me.ex.endSent {} else {}
  }

  lemma CompleteCheckIsRun(q: nat, me: Side, log: Log)
    requires AtRest(me) && Enabled(me, log, Check)
    ensures IsCall(q, me, log, Check, Main, CompleteCheck(q, me))
  {
    hide IsSteps, OpenRound;
    var noticed := if !me.ck.needs || me.ck.notified then me else NotifyDrain(me);
    if !me.ck.needs || me.bar.round < me.ck.ckRound {
      OpenRoundIsRun(q, noticed, log);
      assert SyncCheck(me) == Proceed(noticed);
    } else {
      Stay(q, SyncCheck(me), log, Main);
    }
  }

  lemma NotifyIsRun(q: nat, me: Side, log: Log)
    requires AtRest(me)
    ensures IsCall(q, me, log, CallNotify(Main), Main, NotifyAll(me))
  {
    hide IsSteps;
    var called := Next(q, me, log, CallNotify(Main));
    if me.ex.notifiedExit {
      Stay(q, called, log, Main);
    } else {
      SendEndIsRun(q, called, log, Main, Idle);
    }
  }

  /** A main thread that has been sent to its end gets there, notifying the peer on the way. */
  lemma RunsToQuit(q: nat, me: Side, log: Log)
    requires AtRest(me)
    ensures exists last :: IsSteps(q, NotifyEnd(me, Main, Quit), log, Main, last)
                           && last.(main := Pc(Idle, Idle)) == NotifyAll(me).(halted := true)
  {
    hide IsSteps;
    var left := NotifyEnd(me, Main, Quit);
    Stay(q, left, log, Main);
    if me.ex.notifiedExit {
      AndStep(q, left, log, left, Main, ThreadStep(q, left, Main));
    } else {
      SendEndIsRun(q, left, log, Main, Quit);
      var told := WithPc(SendEnd(left), Main, Pc(Quit, Idle));
      AndStep(q, left, log, told, Main, ThreadStep(q, told, Main));
    }
  }

  lemma LeaveWaitIsRun(q: nat, me: Side, log: Log)
    requires AtRest(me) && Enabled(me, log, TakeExit)
    ensures exists last :: IsCall(q, me, log, TakeExit, Main, last) && last.(main := Pc(Idle, Idle)) == LeaveWait(me)
  {
    hide IsSteps, NotifyEnd, NotifyAll;
    if me.ex.permitted {
      RunsToQuit(q, me, log);
      var last :| IsSteps(q, NotifyEnd(me, Main, Quit), log, Main, last)
                  && last.(main := Pc(Idle, Idle)) == LeaveWait(me);
      assert IsCall(q, me, log, TakeExit, Main, last);
    } else {
      var last := ExitBranch(me);
      Stay(q, last, log, Main);
      assert IsCall(q, me, log, TakeExit, Main, last);
    }
  }

  /** Saving a due snapshot, the end of the process behind it included, is a run. */
  lemma SaveIsRun(q: nat, me: Side, log: Log)
    requires AtRest(me) && (me.ck.needs ==> me.ck.scheduled)
    ensures if !me.ck.needs then SaveAll(me) == me
            else exists last ::
                   IsCall(q, me, log, SnapshotNow, Main, last) && last.(main := Pc(Idle, Idle)) == SaveAll(me)
  {
    hide IsSteps;
    if me.ck.needs && me.master && me.warm {
      RunsToQuit(q, Recorded(me), log);
      var last :| IsSteps(q, NotifyEnd(Recorded(me), Main, Quit), log, Main, last)
                  && last.(main := Pc(Idle, Idle)) == NotifyAll(Recorded(me)).(halted := true);
      assert IsCall(q, me, log, SnapshotNow, Main, last);
    } else if me.ck.needs {
      Stay(q, Recorded(me), log, Main);
      assert IsCall(q, me, log, SnapshotNow, Main, Recorded(me));
    }
  }

  lemma AskIsRun(q: nat, me: Side, log: Log)
    requires AtRest(me)
    ensures IsCall(q, me, log, CallCanStop, Flexus, WithPc(Ask(me), Flexus, Pc(Ready, Idle)))
  {
    hide IsSteps;
    var called := CanStop(me);
    if me.master && me.ex.readyNeighbors >= 1 && !me.ex.permitted {
      GrantIsRun(q, called, log, Flexus, Ready);
    } else {
      Stay(q, called, log, Flexus);
    }
  }

  lemma CanStopIsRun(q: nat, me: Side, log: Log)
    requires AtRest(me)
    ensures IsCall(q, me, log, CallCanStop, Flexus, CanStopAll(me))
  {
    hide IsSteps, Ask;
    AskIsRun(q, me, log);
    AskRests(me);
    var called := Next(q, me, log, CallCanStop);
    var s := WithPc(Ask(me), Flexus, Pc(Ready, Idle));
    var s1 := ThreadStep(q, s, Flexus);
    AndStep(q, called, log, s, Flexus, s1);
    AndStep(q, called, log, s1, Flexus, ThreadStep(q, s1, Flexus));
  }

  lemma AskRests(me: Side)
    requires AtRest(me)
    ensures AtRest(Ask(me))
  {
  }

  /** The whole of `wwt_sync_check`, its waiting loop included, seen against all that arrived during it. */
  lemma {:induction false} WaitIsRun(q: nat, me: Side, log: Log, turns: seq<Turn>)
    requires AtRest(me) && me.recv <= |log|
    ensures var (waited, log', outcome) := WaitFor(me, log, turns);
            IsSteps(q, me, log', Main, waited) && (outcome != Asserted ==> AtRest(waited))
            && waited.bar.checkArmed == me.bar.checkArmed && log <= log'
            && (outcome == SyncHere ==> !Waiting(waited.bar))
            && (outcome == PeerEnded ==> waited.ex.pairFinished)
    decreases |turns|
  {
    hide IsSteps, PollAll, Waiting;
    PollIsRun(q, me, log);
    var polled := PollAll(me, log);
    if polled.fault.None? && Waiting(polled.bar) && turns != [] {
      var log1 := log + turns[0].first;
      PollIsRun(q, polled, log1);
      var again := PollAll(polled, log1);
      LongerLog(q, me, log, log1, polled);
      Then(q, me, log1, Main, polled, again);
      if again.fault.None? && !again.ex.pairFinished {
        WaitIsRun(q, again, log1 + turns[0].second, turns[1..]);
        var (waited, log', outcome) := WaitFor(again, log1 + turns[0].second, turns[1..]);
        LongerLog(q, me, log1, log', again);
        Then(q, me, log', Main, again, waited);
      }
    }
  }

  /** Messages that arrive later do not disturb the steps taken before. */
  lemma LongerLog(q: nat, me: Side, log: Log, log': Log, next: Side)
    requires IsSteps(q, me, log, Main, next) && log <= log'
    ensures IsSteps(q, me, log', Main, next)
  {
    var acts :| Acts(q, me, log, acts, next) && AllOwn(acts, Main);
    LongerLogActs(q, me, log, log', acts, next);
  }

  lemma {:induction false} LongerLogActs(q: nat, me: Side, log: Log, log': Log, acts: seq<Action>, next: Side)
    requires Acts(q, me, log, acts, next) && log <= log'
    ensures Acts(q, me, log', acts, next)
    decreases |acts|
  {
    if acts != [] {
      assert Next(q, me, log, acts[0]) == Next(q, me, log', acts[0]);
      LongerLogActs(q, Next(q, me, log, acts[0]), log, log', acts[1..], next);
    }
  }

  /** How the call goes on behind the waiting loop: with the check, with the exit branch, or not at all. */
  ghost predicate Concludes(q: nat, waited: Side, log: Log, outcome: Wait, next: Side) {
    match outcome
    case SyncHere => IsCall(q, waited, log, Check, Main, next)
    case PeerEnded =>
      exists last :: IsCall(q, waited, log, TakeExit, Main, last) && last.(main := Pc(Idle, Idle)) == next
    case _ => next == waited
  }

  /** The waiting loop polls its way to what it comes to, and the call concludes accordingly. */
  lemma CheckIsRun(q: nat, me: Side, log: Log, turns: seq<Turn>)
    requires AtRest(me) && me.recv <= |log| && me.bar.checkArmed
    ensures var (waited, log', outcome), next := WaitFor(me, log, turns), CheckAll(q, me, log, turns).0;
            IsSteps(q, me, log', Main, waited) && Concludes(q, waited, log', outcome, next)
  {
    hide IsSteps, IsCall, CompleteCheck, LeaveWait, WaitFor, Waiting;
    WaitIsRun(q, me, log, turns);
    var (waited, log', outcome) := WaitFor(me, log, turns);
    if outcome == SyncHere {
      CompleteCheckIsRun(q, waited, log');
    } else if outcome == PeerEnded {
      LeaveWaitIsRun(q, waited, log');
    }
  }
}
