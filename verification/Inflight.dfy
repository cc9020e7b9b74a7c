/** The table of in-flight messages: a list with a count, and what any run of calls on it conserves. */
module Inflight {
  import opened Messages

  /** A message as the table keeps it: the time stamp, the type, and the first len bytes. */
  datatype Frame = Frame(ts: int, kind: nat, data: seq<Byte>)

  datatype Entry = Entry(at: int, msg: Frame)

  /** What `remove` compares: the scheduled time, the length and the bytes; neither the time stamp nor
      the type. */
  datatype Key = Key(at: int, data: seq<Byte>)

  function KeyOf(e: Entry): Key {
    Key(e.at, e.msg.data)
  }

  function Keys(entries: seq<Entry>): seq<Key> {
    seq(|entries|, i requires 0 <= i < |entries| => KeyOf(entries[i]))
  }

  // ----- The calls as functions on the list

  function Added(pending: seq<Entry>, e: Entry): seq<Entry> {
    [e] + pending
  }

  function FirstMatch(pending: seq<Entry>, k: Key): (i: nat)
    ensures i <= |pending|
    ensures i < |pending| ==> KeyOf(pending[i]) == k
    ensures forall j :: 0 <= j < i ==> KeyOf(pending[j]) != k
  {
    if pending == [] || KeyOf(pending[0]) == k then 0 else 1 + FirstMatch(pending[1..], k)
  }

  /** None stands for the assertion that fires when nothing matches. */
  function Removed(pending: seq<Entry>, k: Key): Option<seq<Entry>> {
    var i := FirstMatch(pending, k);
    if i < |pending| then Some(pending[..i] + pending[i + 1..]) else None
  }

  /** The comparison of `pdes_inflight_remove`: the time, the length and the bytes. */
  predicate Same(e: Entry, at: int, data: seq<Byte>) {
    e.at == at && |e.msg.data| == |data| && forall i :: 0 <= i < |data| ==> e.msg.data[i] == data[i]
  }

  /** What goes is the first record of the list with that time and those bytes; the assertion fires exactly
      if there is none. */
  lemma RemovedExactly(pending: seq<Entry>, at: int, data: seq<Byte>)
    ensures Removed(pending, Key(at, data)).None? <==> forall i :: 0 <= i < |pending| ==> !Same(pending[i], at, data)
    ensures Removed(pending, Key(at, data)).Some? ==>
              exists i :: 0 <= i < |pending| && Same(pending[i], at, data)
                          && (forall j :: 0 <= j < i ==> !Same(pending[j], at, data))
                          && Removed(pending, Key(at, data)).value == pending[..i] + pending[i + 1..]
  {
    forall e: Entry ensures Same(e, at, data) <==> KeyOf(e) == Key(at, data) {}
    var i := FirstMatch(pending, Key(at, data));
    if i < |pending| { assert Same(pending[i], at, data); }
  }

  function Reversed(entries: seq<Entry>): seq<Entry> {
    if entries == [] then [] else Reversed(entries[1..]) + [entries[0]]
  }

  // ----- The table

  class PendingMessages {
    var pending: seq<Entry>
    var count: int

    ghost predicate Valid()
      reads this
    {
      count == |pending|
    }

    constructor ()
      ensures Valid() && pending == []
    {
      pending := [];
      count := 0;
    }

    method Add(msg: Frame, at: int)
      requires Valid()
      modifies this
      ensures Valid() && pending == Added(old(pending), Entry(at, msg))
    {
      pending := [Entry(at, msg)] + pending;
      count := count + 1;
    }

    /** `found` is false where the program's assertion fires. */
    method Remove(msg: Frame, at: int) returns (found: bool)
      requires Valid()
      modifies this
      ensures Valid()
      ensures found <==> Removed(old(pending), Key(at, msg.data)).Some?
      ensures pending == if found then Removed(old(pending), Key(at, msg.data)).value else old(pending)
    {
      var i := 0;
      while i < |pending|
        invariant 0 <= i <= |pending| && pending == old(pending) && count == |pending|
        invariant forall j :: 0 <= j < i ==> KeyOf(pending[j]) != Key(at, msg.data)
      {
        var entry := pending[i];
        if entry.at == at && |entry.msg.data| == |msg.data| && entry.msg.data == msg.data {
          ghost var first := FirstMatch(pending, Key(at, msg.data));
          assert first == i;
          pending := pending[..i] + pending[i + 1..];
          count := count - 1;
          return true;
        }
        i := i + 1;
      }
      return false;
    }

    /** A copy of the list, in list order, in two fresh arrays. */
    method GetAll() returns (messages: array<Frame>, times: array<int>)
      requires Valid()
      ensures fresh(messages) && fresh(times) && messages.Length == times.Length == |pending|
      ensures forall j :: 0 <= j < |pending| ==> Entry(times[j], messages[j]) == pending[j]
    {
      messages := new Frame[count](_ => Frame(0, 0, []));
      times := new int[count](_ => 0);
      var i := 0;
      while i < |pending|
        invariant 0 <= i <= |pending| && messages.Length == times.Length == |pending|
        invariant forall j :: 0 <= j < i ==> Entry(times[j], messages[j]) == pending[j]
      {
        messages[i] := pending[i].msg;
        times[i] := pending[i].at;
        i := i + 1;
      }
    }

    /** Adds the loaded records one after the other; each goes to the head of the list. */
    method Restore(loaded: seq<Entry>) returns (restored: nat)
      requires Valid()
      modifies this
      ensures Valid() && restored == |loaded|
      ensures pending == Reversed(loaded) + old(pending)
    {
      var i := 0;
      while i < |loaded|
        invariant 0 <= i <= |loaded| && count == |pending|
        invariant pending == Reversed(loaded[..i]) + old(pending)
      {
        ReversedSnoc(loaded[..i], loaded[i]);
        assert loaded[..i] + [loaded[i]] == loaded[..i + 1];
        Add(loaded[i].msg, loaded[i].at);
        i := i + 1;
      }
      assert loaded[..i] == loaded;
      restored := i;
    }
  }

  // ----- Reversal

  lemma {:induction false} ReversedSnoc(entries: seq<Entry>, e: Entry)
    ensures Reversed(entries + [e]) == [e] + Reversed(entries)
  {
    if entries == [] {
      assert [] + [e] == [e];
    } else {
      ReversedSnoc(entries[1..], e);
      assert (entries + [e])[1..] == entries[1..] + [e];
    }
  }

  lemma {:induction false} ReversedTwice(entries: seq<Entry>)
    ensures Reversed(Reversed(entries)) == entries
  {
    if entries != [] {
      ReversedTwice(entries[1..]);
      ReversedSnoc(Reversed(entries[1..]), entries[0]);
    }
  }

  lemma {:induction false} ReversedKeepsAll(entries: seq<Entry>)
    ensures multiset(Reversed(entries)) == multiset(entries)
  {
    if entries != [] {
      ReversedKeepsAll(entries[1..]);
      assert entries == [entries[0]] + entries[1..];
    }
  }

  // ----- What a run of calls conserves

  datatype Call =
    | CallAdd(e: Entry)
    | CallRemove(k: Key)
    | CallRestore(loaded: seq<Entry>)

  function Apply(pending: seq<Entry>, c: Call): Option<seq<Entry>> {
    match c
    case CallAdd(e) => Some(Added(pending, e))
    case CallRemove(k) => Removed(pending, k)
    case CallRestore(loaded) => Some(Reversed(loaded) + pending)
  }

  /** The list after the calls, on a table that starts empty; None once an assertion has fired. */
  function After(calls: seq<Call>): Option<seq<Entry>> {
    if calls == [] then Some([])
    else
      var before := After(calls[..|calls| - 1]);
      if before.None? then None else Apply(before.value, calls[|calls| - 1])
  }

  function KeysIn(c: Call): multiset<Key> {
    match c
    case CallAdd(e) => multiset{KeyOf(e)}
    case CallRemove(_) => multiset{}
    case CallRestore(loaded) => multiset(Keys(loaded))
  }

  function KeysOut(c: Call): multiset<Key> {
    if c.CallRemove? then multiset{c.k} else multiset{}
  }

  function AllIn(calls: seq<Call>): multiset<Key> {
    if calls == [] then multiset{} else AllIn(calls[..|calls| - 1]) + KeysIn(calls[|calls| - 1])
  }

  function AllOut(calls: seq<Call>): multiset<Key> {
    if calls == [] then multiset{} else AllOut(calls[..|calls| - 1]) + KeysOut(calls[|calls| - 1])
  }

  lemma KeysConcat(a: seq<Entry>, b: seq<Entry>)
    ensures Keys(a + b) == Keys(a) + Keys(b)
  {
  }

  lemma {:induction false} KeysReversed(entries: seq<Entry>)
    ensures multiset(Keys(Reversed(entries))) == multiset(Keys(entries))
  {
    if entries != [] {
      KeysReversed(entries[1..]);
      KeysConcat(Reversed(entries[1..]), [entries[0]]);
      KeysConcat([entries[0]], entries[1..]);
      assert entries == [entries[0]] + entries[1..];
    }
  }

  /** Removing succeeds exactly when the key is there, and takes exactly one record of it. */
  lemma RemoveTakesOne(pending: seq<Entry>, k: Key)
    ensures Removed(pending, k).Some? <==> k in multiset(Keys(pending))
    ensures Removed(pending, k).Some? ==>
              && multiset(Keys(Removed(pending, k).value)) == multiset(Keys(pending)) - multiset{k}
              && |Removed(pending, k).value| == |pending| - 1
              && exists e :: e in pending && KeyOf(e) == k
                  && multiset(Removed(pending, k).value) == multiset(pending) - multiset{e}
  {
    hide Keys;
    var i := FirstMatch(pending, k);
    if i < |pending| {
      KeysWithout(pending, i);
      assert pending[i] in pending;
    } else {
      NoKey(pending, k);
    }
  }

  lemma KeysWithout(pending: seq<Entry>, i: nat)
    requires i < |pending|
    ensures KeyOf(pending[i]) in multiset(Keys(pending))
    ensures multiset(Keys(pending[..i] + pending[i + 1..])) == multiset(Keys(pending)) - multiset{KeyOf(pending[i])}
    ensures multiset(pending[..i] + pending[i + 1..]) == multiset(pending) - multiset{pending[i]}
  {
    hide Keys;
    assert pending == pending[..i] + [pending[i]] + pending[i + 1..];
    KeysConcat(pending[..i], pending[i + 1..]);
    KeysConcat(pending[..i] + [pending[i]], pending[i + 1..]);
    KeysConcat(pending[..i], [pending[i]]);
    OneKey(pending[i]);
  }

  lemma OneKey(e: Entry)
    ensures Keys([e]) == [KeyOf(e)]
  {
  }

  lemma NoKey(pending: seq<Entry>, k: Key)
    requires FirstMatch(pending, k) == |pending|
    ensures k !in Keys(pending)
  {
    forall j | 0 <= j < |pending| ensures Keys(pending)[j] != k {}
  }

  lemma AddConserves(pending: seq<Entry>, e: Entry)
    ensures multiset(Keys(Added(pending, e))) == multiset(Keys(pending)) + multiset{KeyOf(e)}
  {
    KeysConcat([e], pending);
    assert Keys([e]) == [KeyOf(e)];
  }

  lemma RestoreConserves(pending: seq<Entry>, loaded: seq<Entry>)
    ensures multiset(Keys(Reversed(loaded) + pending)) == multiset(Keys(pending)) + multiset(Keys(loaded))
  {
    KeysConcat(Reversed(loaded), pending);
    KeysReversed(loaded);
  }

  lemma ApplyConserves(pending: seq<Entry>, c: Call)
    ensures Apply(pending, c).None? <==> !(KeysOut(c) <= multiset(Keys(pending)))
    ensures Apply(pending, c).Some? ==>
              multiset(Keys(Apply(pending, c).value)) + KeysOut(c) == multiset(Keys(pending)) + KeysIn(c)
  {
    hide Keys, Added, Removed, Reversed;
    match c
    case CallAdd(e) => AddConserves(pending, e);
    case CallRemove(k) => RemoveTakesOne(pending, k);
    case CallRestore(loaded) => RestoreConserves(pending, loaded);
  }

  /** Conservation: what went in is what came out and what is still there. */
  lemma {:induction false} RunConserves(calls: seq<Call>)
    requires After(calls).Some?
    ensures multiset(Keys(After(calls).value)) + AllOut(calls) == AllIn(calls)
    ensures |After(calls).value| == |AllIn(calls)| - |AllOut(calls)|
  {
    hide Apply, KeysIn, KeysOut;
    if calls != [] {
      RunConserves(calls[..|calls| - 1]);
      var front, c := calls[..|calls| - 1], calls[|calls| - 1];
      ApplyConserves(After(front).value, c);
      Balance(multiset(Keys(After(front).value)), multiset(Keys(After(calls).value)),
              AllOut(front), AllIn(front), KeysOut(c), KeysIn(c));
    } else {
      assert Keys([]) == [];
    }
    Sizes(After(calls).value, AllOut(calls), AllIn(calls));
  }

  lemma Balance(was: multiset<Key>, now: multiset<Key>, out: multiset<Key>, put: multiset<Key>,
                more: multiset<Key>, extra: multiset<Key>)
    requires was + out == put && now + more == was + extra
    ensures now + (out + more) == put + extra
  {
    forall k ensures (now + (out + more))[k] == (put + extra)[k] {
      assert was[k] + out[k] == put[k] && (now + more)[k] == (was + extra)[k];
    }
  }

  lemma Sizes(entries: seq<Entry>, out: multiset<Key>, put: multiset<Key>)
    requires multiset(Keys(entries)) + out == put
    ensures |entries| == |put| - |out|
  {
    assert |multiset(Keys(entries))| == |Keys(entries)|;
    assert |multiset(Keys(entries)) + out| == |multiset(Keys(entries))| + |out|;
  }

  ghost predicate NeverOverdrawn(calls: seq<Call>) {
    forall n :: 0 <= n <= |calls| ==> AllOut(calls[..n]) <= AllIn(calls[..n])
  }

  /** The assertion stays silent exactly when at no moment more has been taken out of some key than
      has been put in. */
  lemma {:induction false} RunSucceeds(calls: seq<Call>)
    ensures After(calls).Some? <==> NeverOverdrawn(calls)
  {
    assert calls[..|calls|] == calls;
    if calls == [] {
      assert NeverOverdrawn(calls) by { assert calls[..0] == []; }
    } else {
      var front := calls[..|calls| - 1];
      RunSucceeds(front);
      FrontOverdrawn(calls);
      if After(front).Some? {
        var last := calls[|calls| - 1];
        RunConserves(front);
        ApplyConserves(After(front).value, last);
        OverdrawnNow(multiset(Keys(After(front).value)), AllOut(front), AllIn(front), last);
      }
    }
  }

  lemma FrontOverdrawn(calls: seq<Call>)
    requires calls != []
    ensures NeverOverdrawn(calls) <==> NeverOverdrawn(calls[..|calls| - 1]) && AllOut(calls) <= AllIn(calls)
  {
    var front := calls[..|calls| - 1];
    assert calls[..|calls|] == calls;
    forall n | 0 <= n <= |front| ensures front[..n] == calls[..n] {}
    if NeverOverdrawn(calls) {
      assert AllOut(calls[..|calls|]) <= AllIn(calls[..|calls|]);
      forall n | 0 <= n <= |front| ensures AllOut(front[..n]) <= AllIn(front[..n]) {
        assert front[..n] == calls[..n];
      }
    }
    if NeverOverdrawn(front) && AllOut(calls) <= AllIn(calls) {
      forall n | 0 <= n <= |calls| ensures AllOut(calls[..n]) <= AllIn(calls[..n]) {
        if n < |calls| { assert front[..n] == calls[..n]; }
      }
    }
  }

  lemma OverdrawnNow(there: multiset<Key>, before: multiset<Key>, put: multiset<Key>, c: Call)
    requires there + before == put
    ensures KeysOut(c) <= there <==> before + KeysOut(c) <= put + KeysIn(c)
  {
    match c
    case CallRemove(k) =>
      assert there[k] + before[k] == put[k];
      if k in there {
        forall x ensures (before + KeysOut(c))[x] <= (put + KeysIn(c))[x] { assert there[x] + before[x] == put[x]; }
      } else {
        assert (before + KeysOut(c))[k] > (put + KeysIn(c))[k];
      }
    case _ =>
      forall x ensures (before + KeysOut(c))[x] <= (put + KeysIn(c))[x] { assert there[x] + before[x] == put[x]; }
  }

  /** Restoring what was saved into an empty table gives back every full record, in reversed list
      order; saving and restoring once more gives the old order back. */
  lemma RestoreRebuilds(saved: seq<Entry>)
    ensures After([CallRestore(saved)]) == Some(Reversed(saved))
    ensures multiset(Reversed(saved)) == multiset(saved)
    ensures After([CallRestore(Reversed(saved))]) == Some(saved)
  {
    ReversedKeepsAll(saved);
    ReversedTwice(saved);
    RestoredAlone(saved);
    RestoredAlone(Reversed(saved));
  }

  lemma RestoredAlone(saved: seq<Entry>)
    ensures After([CallRestore(saved)]) == Some(Reversed(saved))
  {
    assert [CallRestore(saved)][..0] == [];
    assert After([]) == Some([]);
    assert Reversed(saved) + [] == Reversed(saved);
  }

  /** Which record of several with the same key goes is not the caller's choice: it is the newest,
      even when its time stamp or type differs from those of the message passed in. */
  lemma RemoveTakesNewest(older: seq<Entry>, e: Entry, k: Key)
    requires KeyOf(e) == k
    ensures Removed(Added(older, e), k) == Some(older)
  {
    assert Added(older, e)[..0] + Added(older, e)[1..] == older;
  }
}
