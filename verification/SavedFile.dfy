/** The printer and the scanner of the in-flight text as the program runs them: loops over the list and
    the bytes, growing arrays, a moving pointer.  Each is proved against the functions of SavedText. */
module SavedFile {
  import opened Messages
  import opened Inflight
  import opened SavedText

  // ----- The printer

  lemma BytesStep(data: seq<Byte>, j: nat)
    requires j < |data|
    ensures Bytes(data[j..]) == if j < |data| - 1 then Dec(data[j]) + (", " + Bytes(data[j + 1..])) else Dec(data[j])
  {
    assert data[j..][1..] == data[j + 1..];
  }

  method PrintBytes(data: seq<Byte>) returns (out: string)
    ensures out == Bytes(data)
  {
    out := [];
    var j := 0;
    assert data[0..] == data;
    while j < |data|
      invariant 0 <= j <= |data| && out + Bytes(data[j..]) == Bytes(data)
    {
      BytesStep(data, j);
      ghost var was, rest := out, Bytes(data[j + 1..]);
      out := out + Dec(data[j]);
      if j < |data| - 1 {
        out := out + ", ";
        Assoc(was, Dec(data[j]), ", " + rest);
        Assoc(was + Dec(data[j]), ", ", rest);
      }
      j := j + 1;
    }
  }

  lemma RecordAppended(text: string, e: Entry, sep: string, more: string, was: string, end: string)
    requires was == text + ((Open() + (Fields(e) + (Bytes(e.msg.data) + (Closer() + (sep + more))))) + end)
    ensures was == (text + Open() + Fields(e) + Bytes(e.msg.data) + Closer() + sep) + (more + end)
  {
    hide Fields, Bytes, Closer, Open;
    Assoc(Open(), Fields(e) + (Bytes(e.msg.data) + (Closer() + (sep + more))), end);
    Assoc(Fields(e), Bytes(e.msg.data) + (Closer() + (sep + more)), end);
    Assoc(Bytes(e.msg.data), Closer() + (sep + more), end);
    Assoc(Closer(), sep + more, end);
    Assoc(sep, more, end);
    Assoc(text, Open(), Fields(e) + (Bytes(e.msg.data) + (Closer() + (sep + (more + end)))));
    Assoc(text + Open(), Fields(e), Bytes(e.msg.data) + (Closer() + (sep + (more + end))));
    Assoc(text + Open() + Fields(e), Bytes(e.msg.data), Closer() + (sep + (more + end)));
    Assoc(text + Open() + Fields(e) + Bytes(e.msg.data), Closer(), sep + (more + end));
    Assoc(text + Open() + Fields(e) + Bytes(e.msg.data) + Closer(), sep, more + end);
  }

  method SaveJson(table: PendingMessages) returns (text: string)
    requires table.Valid()
    ensures text == Print(table.pending)
  {
    hide Fields, Bytes, Closer, Open, Head, Foot;
    text := Head();
    var i := 0;
    assert table.pending[0..] == table.pending;
    while i < |table.pending|
      invariant 0 <= i <= |table.pending|
      invariant text + (Records(table.pending[i..]) + Foot()) == Print(table.pending)
    {
      var e := table.pending[i];
      var bytes := PrintBytes(e.msg.data);
      var sep := if i < table.count - 1 then ",\n" else "\n";
      assert table.pending[i..][1..] == table.pending[i + 1..];
      RecordAppended(text, e, sep, Records(table.pending[i + 1..]), Print(table.pending), Foot());
      text := text + Open() + Fields(e) + bytes + Closer() + sep;
      i := i + 1;
    }
    assert [] + Foot() == Foot();
    text := text + Foot();
  }

  // ----- The scanner

  function Longer(done: seq<Byte>, r: Option<Scanned>): Option<Scanned> {
    if r.None? then None else Some(Scanned(done + r.value.data, r.value.ptr))
  }

  /** The byte loop of the scanner. */
  method ScanBytes(start: Ptr, len: nat) returns (ok: bool, data: seq<Byte>, ptr: Ptr)
    ensures ReadBytes(start, len) == if ok then Some(Scanned(data, ptr)) else None
  {
    data, ptr := [], start;
    var j := 0;
    LongerNothing(ReadBytes(start, len));
    while j < len
      invariant 0 <= j <= len
      invariant ReadBytes(start, len) == Longer(data, ReadBytes(ptr, len - j))
    {
      if ptr.None? { return false, data, ptr; }
      var byte := Scan(ptr.value);
      if byte.None? { return false, data, ptr; }
      ghost var was, rest := data, Behind(ptr.value);
      data := data + [byte.value % 256];
      ptr := Strchr(ptr.value, ',');
      if ptr.Some? { ptr := Some(ptr.value[1..]); }
      LongerStep(was, byte.value % 256, ReadBytes(rest, len - j - 1));
      j := j + 1;
    }
    assert data + [] == data;
    ok := true;
  }

  lemma LongerNothing(r: Option<Scanned>)
    ensures Longer([], r) == r
  {
    if r.Some? { assert [] + r.value.data == r.value.data; }
  }

  lemma LongerStep(done: seq<Byte>, b: Byte, r: Option<Scanned>)
    ensures Longer(done, if r.None? then None else Some(Scanned([b] + r.value.data, r.value.ptr)))
        == Longer(done + [b], r)
  {
    if r.Some? { assert done + ([b] + r.value.data) == (done + [b]) + r.value.data; }
  }

  function Joined(done: seq<Entry>, r: Loaded): Loaded {
    if r.Malformed? then Malformed else Loaded(done + r.entries)
  }

  lemma JoinedStep(done: seq<Entry>, e: Entry, r: Loaded)
    ensures Joined(done, if r.Malformed? then Malformed else Loaded([e] + r.entries)) == Joined(done + [e], r)
  {
    if r.Loaded? { assert done + ([e] + r.entries) == (done + [e]) + r.entries; }
  }

  /** One record: `None` where the program would read an unset variable or a null pointer. */
  method ScanRecord(s: string) returns (record: Option<(Entry, Ptr)>)
    requires SchedKey() <= s
    ensures record == ReadRecord(s)
  {
    hide Scan, Strstr, SchedKey, StampKey, TypeKey, LenKey, DataKey, ReadBytes;
    record := None;
    var at := Scan(s[|SchedKey()|..]);
    if at.None? { return; }
    var stamp := Keyed(s, StampKey());
    if stamp.None? { return; }
    var kind := Keyed(stamp.value.1, TypeKey());
    if kind.None? { return; }
    var length := Keyed(kind.value.1, LenKey());
    if length.None? { return; }
    var ptr := Strstr(length.value.1, DataKey());
    if ptr.None? { return; }
    var len := length.value.0 % 0x1_0000_0000;
    if len > MAX_MSG_SIZE { return; }
    var ok, data, next := ScanBytes(Some(ptr.value[|DataKey()|..]), len);
    if ok {
      record := Some((Entry(at.value, Frame(stamp.value.0 % 0x1_0000_0000_0000_0000, kind.value.0 % 256, data)), next));
    }
  }

  /** The two arrays start with the given records. */
  ghost predicate Holds(messages: array<Frame>, times: array<int>, entries: seq<Entry>)
    reads messages, times
  {
    && |entries| <= messages.Length && |entries| <= times.Length
    && forall j :: 0 <= j < |entries| ==> entries[j] == Entry(times[j], messages[j])
  }

  method Grow(messages: array<Frame>, times: array<int>, capacity: nat)
    returns (larger: array<Frame>, largerTimes: array<int>)
    requires messages.Length == times.Length <= capacity
    ensures fresh(larger) && fresh(largerTimes) && larger.Length == largerTimes.Length == capacity
    ensures forall j :: 0 <= j < messages.Length ==> larger[j] == messages[j] && largerTimes[j] == times[j]
  {
    larger := new Frame[capacity](_ => Frame(0, 0, []));
    largerTimes := new int[capacity](_ => 0);
    for i := 0 to messages.Length
      invariant forall j :: 0 <= j < i ==> larger[j] == messages[j] && largerTimes[j] == times[j]
    {
      larger[i] := messages[i];
      largerTimes[i] := times[i];
    }
  }

  method Store(messages: array<Frame>, times: array<int>, count: nat, e: Entry, ghost done: seq<Entry>)
    requires count == |done| < messages.Length == times.Length && Holds(messages, times, done)
    modifies messages, times
    ensures Holds(messages, times, done + [e])
  {
    messages[count] := e.msg;
    times[count] := e.at;
  }

  /** The record loop of the scanner, over arrays that double when they are full. */
  method LoadJson(text: string) returns (ok: bool, messages: array<Frame>, times: array<int>, count: nat)
    ensures ok <==> Load(text).Loaded?
    ensures ok ==> count == |Load(text).entries| && Holds(messages, times, Load(text).entries)
  {
    hide ReadRecord, SchedKey, Strstr, Holds;
    var capacity := 16;
    messages := new Frame[capacity](_ => Frame(0, 0, []));
    times := new int[capacity](_ => 0);
    count := 0;
    ghost var done: seq<Entry> := [];
    assert Holds(messages, times, done) by { NoneHeld(messages, times); }
    JoinedNothing(Load(text));
    var ptr: Ptr := Some(text);
    while ptr.Some? && Strstr(ptr.value, SchedKey()).Some?
      invariant fresh(messages) && fresh(times)
      invariant count == |done| <= capacity == messages.Length == times.Length && capacity >= 16
      invariant Holds(messages, times, done)
      invariant Load(text) == Joined(done, LoadFrom(ptr))
      decreases if ptr.None? then 0 else |ptr.value| + 1
    {
      var s := Strstr(ptr.value, SchedKey()).value;
      if count >= capacity {
        capacity := capacity * 2;
        var larger, largerTimes := Grow(messages, times, capacity);
        HeldStill(messages, times, larger, largerTimes, done);
        messages, times := larger, largerTimes;
      }
      var record := ScanRecord(s);
      if record.None? { return false, messages, times, count; }
      var (e, next) := record.value;
      Store(messages, times, count, e, done);
      JoinedStep(done, e, LoadFrom(next));
      done := done + [e];
      count := count + 1;
      ptr := next;
    }
    assert done + [] == done;
    ok := true;
  }

  lemma NoneHeld(messages: array<Frame>, times: array<int>)
    ensures Holds(messages, times, [])
  {
  }

  lemma HeldStill(messages: array<Frame>, times: array<int>, larger: array<Frame>, largerTimes: array<int>,
      done: seq<Entry>)
    requires Holds(messages, times, done) && messages.Length <= larger.Length && times.Length <= largerTimes.Length
    requires messages.Length == times.Length
    requires forall j :: 0 <= j < messages.Length ==> larger[j] == messages[j] && largerTimes[j] == times[j]
    ensures Holds(larger, largerTimes, done)
  {
  }

  lemma JoinedNothing(r: Loaded)
    ensures Joined([], r) == r
  {
    if r.Loaded? { assert [] + r.entries == r.entries; }
  }
}
