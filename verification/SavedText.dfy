/** The text in which in-flight messages are saved, the scanner that reads it back, and their round
    trip.  A pointer into the text is the rest of the text from there on; None is the null pointer,
    which the scanner gets after the last byte of the last record and which is read as the end. */
module SavedText {
  import opened Messages
  import opened Inflight

  // ----- Numbers

  function Digit(d: nat): char
    requires d < 10
  {
    ['0', '1', '2', '3', '4', '5', '6', '7', '8', '9'][d]
  }

  predicate IsDigit(c: char) {
    '0' <= c <= '9'
  }

  function DigitValue(c: char): nat
    requires IsDigit(c)
  {
    c as int - '0' as int
  }

  /** %u, and %ld of a non-negative number. */
  function Dec(n: nat): string {
    if n < 10 then [Digit(n)] else Dec(n / 10) + [Digit(n % 10)]
  }

  function DecInt(n: int): string {
    if n < 0 then ['-'] + Dec(-n) else Dec(n)
  }

  predicate IsSpace(c: char) {
    c == ' ' || c == '\t' || c == '\n' || c == '\r' || c as int == 11 || c as int == 12
  }

  function SkipSpace(s: string): string {
    if s != [] && IsSpace(s[0]) then SkipSpace(s[1..]) else s
  }

  function ReadDigits(s: string, n: nat): nat {
    if s != [] && IsDigit(s[0]) then ReadDigits(s[1..], 10 * n + DigitValue(s[0])) else n
  }

  function ReadSigned(s: string): Option<int> {
    if s != [] && IsDigit(s[0]) then Some(ReadDigits(s, 0)) else None
  }

  /** One integer conversion of sscanf: None when nothing could be converted. */
  function Scan(s: string): Option<int> {
    var t := SkipSpace(s);
    if t != [] && t[0] == '-' then
      (match ReadSigned(t[1..])
       case None => None
       case Some(n) => Some(-n))
    else if t != [] && t[0] == '+' then ReadSigned(t[1..])
    else ReadSigned(t)
  }

  // ----- Searching

  function Strstr(s: string, key: string): (r: Option<string>)
    ensures r.Some? ==> key <= r.value && |r.value| <= |s|
  {
    if key <= s then Some(s) else if s == [] then None else Strstr(s[1..], key)
  }

  function Strchr(s: string, c: char): (r: Option<string>)
    ensures r.Some? ==> r.value != [] && r.value[0] == c && |r.value| <= |s|
  {
    if s == [] then None else if s[0] == c then Some(s) else Strchr(s[1..], c)
  }

  // ----- The printer

  function SchedKey(): string { "\"scheduled_time_ns\":" }
  function StampKey(): string { "\"timestamp_ns\":" }
  function TypeKey(): string { "\"type\":" }
  function LenKey(): string { "\"len\":" }
  function DataKey(): string { "\"data\": [" }

  function Head(): string { "{\n  \"inflight_messages\": [\n" }
  function Foot(): string { "  ]\n}\n" }
  function Open(): string { "    {\n      " }
  function Gap(): string { ",\n      " }
  function Closer(): string { "]\n    }" }

  function Field(key: string, value: string): string {
    key + ([' '] + (value + Gap()))
  }

  function Bytes(data: seq<Byte>): string {
    if data == [] then []
    else if |data| == 1 then Dec(data[0])
    else Dec(data[0]) + (", " + Bytes(data[1..]))
  }

  /** The fields of a record up to the bracket that opens its bytes. */
  function Fields(e: Entry): string {
    Field(SchedKey(), DecInt(e.at)) + (Field(StampKey(), Dec(Stamp(e))) + (Field(TypeKey(), Dec(e.msg.kind))
      + (Field(LenKey(), Dec(|e.msg.data|)) + DataKey())))
  }

  /** The time stamp is an unsigned 64-bit field. */
  function Stamp(e: Entry): nat {
    e.msg.ts % 0x1_0000_0000_0000_0000
  }

  function Records(entries: seq<Entry>): string {
    if entries == [] then []
    else
      Open() + (Fields(entries[0]) + (Bytes(entries[0].msg.data) + (Closer()
        + ((if |entries| == 1 then "\n" else ",\n") + Records(entries[1..])))))
  }

  function Print(entries: seq<Entry>): string {
    Head() + (Records(entries) + Foot())
  }

  // ----- The scanner

  datatype Loaded = Malformed | Loaded(entries: seq<Entry>)

  type Ptr = Option<string>

  datatype Scanned = Scanned(data: seq<Byte>, ptr: Ptr)

  /** The byte loop: n conversions, each followed by a step behind the next comma. */
  function ReadBytes(p: Ptr, n: nat): (r: Option<Scanned>)
    ensures r.Some? && p.Some? && r.value.ptr.Some? ==> |r.value.ptr.value| <= |p.value|
    ensures r.Some? ==> |r.value.data| == n
    decreases n
  {
    if n == 0 then Some(Scanned([], p))
    else if p.None? then None
    else
      match Scan(p.value)
      case None => None
      case Some(v) =>
        var comma := Strchr(p.value, ',');
        match ReadBytes(if comma.None? then None else Some(comma.value[1..]), n - 1)
        case None => None
        case Some(rest) => Some(Scanned([v % 256] + rest.data, rest.ptr))
  }

  /** The number behind the next occurrence of a key, and the place of that occurrence. */
  function Keyed(s: string, key: string): (r: Option<(int, string)>)
    ensures r.Some? ==> key <= r.value.1 && |r.value.1| <= |s|
  {
    match Strstr(s, key)
    case None => None
    case Some(t) =>
      match Scan(t[|key|..])
      case None => None
      case Some(v) => Some((v, t))
  }

  /** The body of the record loop, from the place of a record's first key. */
  function ReadRecord(s: string): (r: Option<(Entry, Ptr)>)
    requires SchedKey() <= s
    ensures r.Some? && r.value.1.Some? ==> |r.value.1.value| < |s|
  {
    match Scan(s[|SchedKey()|..])
    case None => None
    case Some(at) =>
      match Keyed(s, StampKey())
      case None => None
      case Some((ts, s1)) =>
        match Keyed(s1, TypeKey())
        case None => None
        case Some((kind, s2)) =>
          match Keyed(s2, LenKey())
          case None => None
          case Some((len, s3)) =>
            match Strstr(s3, DataKey())
            case None => None
            case Some(s4) =>
              if len % 0x1_0000_0000 > MAX_MSG_SIZE then None else
              match ReadBytes(Some(s4[|DataKey()|..]), len % 0x1_0000_0000)
              case None => None
              case Some(scanned) =>
                Some((Entry(at, Frame(ts % 0x1_0000_0000_0000_0000, kind % 256, scanned.data)), scanned.ptr))
  }

  function LoadFrom(p: Ptr): Loaded
    decreases if p.None? then 0 else |p.value| + 1
  {
    if p.None? then Loaded([])
    else
      match Strstr(p.value, SchedKey())
      case None => Loaded([])
      case Some(s) =>
        match ReadRecord(s)
        case None => Malformed
        case Some((e, next)) =>
          match LoadFrom(next)
          case Malformed => Malformed
          case Loaded(entries) => Loaded([e] + entries)
  }

  function Load(text: string): Loaded {
    LoadFrom(Some(text))
  }

  // ----- Numbers read back

  predicate NoDigitFirst(s: string) {
    s == [] || !IsDigit(s[0])
  }

  /** No character of the text is a quote, a comma or white space. */
  predicate Plain(s: string) {
    forall i :: 0 <= i < |s| ==> s[i] != '"' && s[i] != ',' && !IsSpace(s[i])
  }

  lemma Assoc(a: string, b: string, c: string)
    ensures (a + b) + c == a + (b + c)
  {
  }

  lemma {:induction false} DecDigits(n: nat)
    ensures Dec(n) != [] && forall i :: 0 <= i < |Dec(n)| ==> IsDigit(Dec(n)[i])
  {
    if n >= 10 { DecDigits(n / 10); }
  }

  lemma DecPlain(n: int)
    ensures Plain(DecInt(n)) && DecInt(n) != [] && DecInt(n)[0] != '+'
    ensures 0 <= n ==> DecInt(n) == Dec(n)
  {
    DecDigits(if n < 0 then -n else n);
  }

  lemma {:induction false} ReadDec(n: nat, rest: string)
    ensures ReadDigits(Dec(n) + rest, 0) == ReadDigits(rest, n)
  {
    if n < 10 {
      assert (Dec(n) + rest)[1..] == rest;
    } else {
      var tail := [Digit(n % 10)] + rest;
      ReadDec(n / 10, tail);
      assert Dec(n) + rest == Dec(n / 10) + tail;
      assert tail[1..] == rest;
    }
  }

  lemma ScanDigits(n: nat, rest: string)
    requires NoDigitFirst(rest)
    ensures ReadSigned(Dec(n) + rest) == Some(n)
  {
    DecDigits(n);
    ReadDec(n, rest);
  }

  lemma ScanNumber(n: int, rest: string)
    requires NoDigitFirst(rest)
    ensures Scan(DecInt(n) + rest) == Some(n)
  {
    var s := DecInt(n) + rest;
    DecPlain(n);
    assert SkipSpace(s) == s;
    if n < 0 {
      DecDigits(-n);
      ScanDigits(-n, rest);
      assert s[1..] == Dec(-n) + rest;
    } else {
      DecDigits(n);
      ScanDigits(n, rest);
    }
  }

  lemma ScanSpaced(n: int, rest: string)
    requires NoDigitFirst(rest)
    ensures Scan([' '] + (DecInt(n) + rest)) == Some(n)
  {
    ScanNumber(n, rest);
    DecPlain(n);
    var s := DecInt(n) + rest;
    assert ([' '] + s)[1..] == s;
  }

  // ----- Keys found again

  /** No occurrence of the key starts inside the text, whatever follows it. */
  ghost predicate Clean(text: string, key: string)
    requires |key| >= 3
  {
    forall i :: 0 <= i < |text| && text[i] == '"' ==> i + 2 < |text| && (text[i + 1] != key[1] || text[i + 2] != key[2])
  }

  lemma CleanConcat(a: string, b: string, key: string)
    requires |key| >= 3 && Clean(a, key) && Clean(b, key)
    ensures Clean(a + b, key)
  {
    var s := a + b;
    forall i | 0 <= i < |s| && s[i] == '"' ensures i + 2 < |s| && (s[i + 1] != key[1] || s[i + 2] != key[2]) {
      if i < |a| {
        assert a[i] == '"' && s[i + 1] == a[i + 1] && s[i + 2] == a[i + 2];
      } else {
        assert b[i - |a|] == '"' && s[i + 1] == b[i + 1 - |a|] && s[i + 2] == b[i + 2 - |a|];
      }
    }
  }

  lemma NoMatch(s: string, key: string)
    requires |key| >= 3
    ensures |s| < 3 || s[0] != key[0] || s[1] != key[1] || s[2] != key[2] ==> !(key <= s)
  {
    if key <= s {
      assert s[..|key|] == key && s[0] == key[0] && s[1] == key[1] && s[2] == key[2];
    }
  }

  lemma {:induction false} FindSkips(junk: string, key: string, rest: string)
    requires |key| >= 3 && key[0] == '"' && Clean(junk, key)
    ensures Strstr(junk + (key + rest), key) == Some(key + rest)
  {
    var s := junk + (key + rest);
    if junk == [] {
      assert s == key + rest;
    } else {
      NoMatch(s, key);
      assert junk[0] == '"' ==> s[1] == junk[1] && s[2] == junk[2];
      assert s[1..] == junk[1..] + (key + rest);
      FindSkips(junk[1..], key, rest);
    }
  }

  lemma {:induction false} FindNothing(junk: string, key: string)
    requires |key| >= 3 && key[0] == '"' && Clean(junk, key)
    ensures Strstr(junk, key) == None
  {
    if junk != [] {
      NoMatch(junk, key);
      FindNothing(junk[1..], key);
    } else {
      assert !(key <= junk);
    }
  }

  ghost predicate GoodKey(key: string) {
    |key| >= 3 && key[0] == '"'
  }

  lemma CleanField(k: string, value: string, key: string)
    requires GoodKey(key) && Clean(k + [' '], key) && Plain(value)
    ensures Clean(Field(k, value), key)
  {
    assert Clean(value + Gap(), key);
    CleanConcat(k + [' '], value + Gap(), key);
    Assoc(k, [' '], value + Gap());
  }

  /** A key and its number are read where the printer put them. */
  lemma FieldRead(junk: string, key: string, n: int, rest: string)
    requires GoodKey(key) && Clean(junk, key)
    ensures Keyed(junk + (Field(key, DecInt(n)) + rest), key) == Some((n, Field(key, DecInt(n)) + rest))
  {
    var tail := [' '] + (DecInt(n) + Gap());
    Assoc(key, tail, rest);
    FindSkips(junk, key, tail + rest);
    ValueRead(key, n, rest);
  }

  lemma ValueRead(key: string, n: int, rest: string)
    ensures key <= Field(key, DecInt(n)) + rest
    ensures Scan((Field(key, DecInt(n)) + rest)[|key|..]) == Some(n)
  {
    var tail := [' '] + (DecInt(n) + Gap());
    assert (Field(key, DecInt(n)) + rest)[|key|..] == tail + rest;
    assert tail + rest == [' '] + (DecInt(n) + (Gap() + rest));
    ScanSpaced(n, Gap() + rest);
  }

  lemma KeysClean()
    ensures GoodKey(SchedKey()) && GoodKey(StampKey()) && GoodKey(TypeKey()) && GoodKey(LenKey()) && GoodKey(DataKey())
    ensures Clean(SchedKey() + [' '], StampKey()) && Clean(StampKey() + [' '], TypeKey())
    ensures Clean(TypeKey() + [' '], LenKey()) && Clean(LenKey() + [' '], DataKey())
  {
  }

  // ----- A record read back

  /** What a saved entry must be for its fields to hold it. */
  predicate FitsFields(e: Entry) {
    && 0 <= e.msg.ts < 0x1_0000_0000_0000_0000
    && e.msg.kind < 256
    && |e.msg.data| <= 2048
  }

  /** What is left of an entry in the text: 64 bits of the time stamp and, once read, 8 bits of the type. */
  function Trimmed(e: Entry): Entry {
    Entry(e.at, Frame(Stamp(e), e.msg.kind % 256, e.msg.data))
  }

  function AllTrimmed(entries: seq<Entry>): seq<Entry> {
    seq(|entries|, i requires 0 <= i < |entries| => Trimmed(entries[i]))
  }

  /** Where the byte loop leaves the pointer: behind the next comma, or null. */
  function Behind(s: string): Ptr {
    match Strchr(s, ',')
    case None => None
    case Some(c) => Some(c[1..])
  }

  lemma {:induction false} NoCommaSkips(junk: string, rest: string)
    requires forall i :: 0 <= i < |junk| ==> junk[i] != ','
    ensures Strchr(junk + rest, ',') == Strchr(rest, ',')
  {
    if junk == [] {
      assert junk + rest == rest;
    } else {
      assert (junk + rest)[1..] == junk[1..] + rest;
      NoCommaSkips(junk[1..], rest);
    }
  }

  /** The first byte of a list, behind an optional space: its value, and the text behind it. */
  lemma ByteRead(space: bool, b: Byte, rest: string)
    requires NoDigitFirst(rest)
    ensures var s := Lead(space) + (Dec(b) + rest);
            Scan(s) == Some(b) && Strchr(s, ',') == Strchr(rest, ',')
  {
    var lead := Lead(space);
    DecPlain(b);
    NoCommaSkips(Dec(b), rest);
    NoCommaSkips(lead, Dec(b) + rest);
    ScanNumber(b, rest);
    ScanSpaced(b, rest);
    assert [] + (Dec(b) + rest) == Dec(b) + rest;
  }

  function Lead(space: bool): string {
    if space then [' '] else []
  }

  lemma LastByteRead(space: bool, b: Byte, tail: string)
    ensures ReadBytes(Some(Lead(space) + (Dec(b) + (Closer() + tail))), 1) == Some(Scanned([b], Behind(tail)))
  {
    hide Dec, Scan;
    ByteRead(space, b, Closer() + tail);
    NoCommaSkips(Closer(), tail);
    var s := Lead(space) + (Dec(b) + (Closer() + tail));
    assert ReadBytes(Behind(s), 0) == Some(Scanned([], Behind(s)));
    assert [b % 256] + [] == [b];
  }

  lemma NextByteRead(space: bool, b: Byte, rest: string, n: nat)
    ensures ReadBytes(Some(Lead(space) + (Dec(b) + (", " + rest))), n + 1)
         == match ReadBytes(Some(Lead(true) + rest), n)
            case None => None
            case Some(more) => Some(Scanned([b] + more.data, more.ptr))
  {
    hide Dec, Scan, ReadBytes, Strchr;
    ByteRead(space, b, ", " + rest);
    FirstComma(rest);
    ReadBytesStep(Lead(space) + (Dec(b) + (", " + rest)), n, b);
  }

  lemma FirstComma(rest: string)
    ensures Strchr(", " + rest, ',') == Some(", " + rest) && (", " + rest)[1..] == Lead(true) + rest
  {
  }

  lemma ReadBytesStep(s: string, n: nat, b: Byte)
    requires Scan(s) == Some(b)
    ensures ReadBytes(Some(s), n + 1)
         == match ReadBytes(Behind(s), n)
            case None => None
            case Some(more) => Some(Scanned([b] + more.data, more.ptr))
  {
    hide Scan, Strchr;
  }

  lemma {:induction false} BytesRead(space: bool, data: seq<Byte>, tail: string)
    requires data != []
    ensures ReadBytes(Some(Lead(space) + (Bytes(data) + (Closer() + tail))), |data|)
         == Some(Scanned(data, Behind(tail)))
    decreases |data|
  {
    hide Dec, ReadBytes, Closer, Lead;
    var end := Closer() + tail;
    if |data| == 1 {
      LastByteRead(space, data[0], tail);
      assert data == [data[0]];
    } else {
      var rest := Bytes(data[1..]) + end;
      Assoc(Dec(data[0]), ", " + Bytes(data[1..]), end);
      Assoc(", ", Bytes(data[1..]), end);
      NextByteRead(space, data[0], rest, |data| - 1);
      BytesRead(true, data[1..], tail);
      assert [data[0]] + data[1..] == data;
    }
  }

  /** The text of a record from its first key on. */
  lemma FieldsSplit(e: Entry, rest: string)
    ensures Fields(e) + rest ==
            Field(SchedKey(), DecInt(e.at)) + (Field(StampKey(), Dec(Stamp(e))) + (Field(TypeKey(), Dec(e.msg.kind))
              + (Field(LenKey(), Dec(|e.msg.data|)) + (DataKey() + rest))))
  {
    hide Field, DecInt, Dec, SchedKey, StampKey, TypeKey, LenKey, DataKey;
    var f0, f1, f2, f3 := Field(SchedKey(), DecInt(e.at)), Field(StampKey(), Dec(Stamp(e))),
                          Field(TypeKey(), Dec(e.msg.kind)),
                          Field(LenKey(), Dec(|e.msg.data|));
    Assoc(f0, f1 + (f2 + (f3 + DataKey())), rest);
    Assoc(f1, f2 + (f3 + DataKey()), rest);
    Assoc(f2, f3 + DataKey(), rest);
    Assoc(f3, DataKey(), rest);
  }

  lemma KeyedNat(junk: string, key: string, n: nat, rest: string)
    requires GoodKey(key) && Clean(junk, key)
    ensures Keyed(junk + (Field(key, Dec(n)) + rest), key) == Some((n as int, Field(key, Dec(n)) + rest))
  {
    hide Field, Clean, Keyed;
    DecPlain(n);
    FieldRead(junk, key, n, rest);
  }

  lemma RecordRead(e: Entry, tail: string)
    requires |e.msg.data| <= 2048
    ensures SchedKey() <= Fields(e) + (Bytes(e.msg.data) + (Closer() + tail))
    ensures ReadRecord(Fields(e) + (Bytes(e.msg.data) + (Closer() + tail)))
         == Some((Trimmed(e), if e.msg.data == [] then Some(Closer() + tail) else Behind(tail)))
  {
    hide Field, Clean, Keyed, Dec, DecInt, Scan, Strstr, SchedKey, StampKey, TypeKey, LenKey, DataKey, Closer, Bytes;
    hide Fields, ReadBytes, Behind, GoodKey;
    var rest := Bytes(e.msg.data) + (Closer() + tail);
    FieldsSplit(e, rest);
    KeysClean();
    var s4 := DataKey() + rest;
    var s3 := Field(LenKey(), Dec(|e.msg.data|)) + s4;
    var s2 := Field(TypeKey(), Dec(e.msg.kind)) + s3;
    var s1 := Field(StampKey(), Dec(Stamp(e))) + s2;
    var s := Field(SchedKey(), DecInt(e.at)) + s1;
    DecPlain(e.at);
    DecPlain(Stamp(e));
    DecPlain(e.msg.kind);
    DecPlain(|e.msg.data|);
    ValueRead(SchedKey(), e.at, s1);
    CleanField(SchedKey(), DecInt(e.at), StampKey());
    KeyedNat(Field(SchedKey(), DecInt(e.at)), StampKey(), Stamp(e), s2);
    CleanField(StampKey(), Dec(Stamp(e)), TypeKey());
    KeyedNat(Field(StampKey(), Dec(Stamp(e))), TypeKey(), e.msg.kind, s3);
    CleanField(TypeKey(), Dec(e.msg.kind), LenKey());
    KeyedNat(Field(TypeKey(), Dec(e.msg.kind)), LenKey(), |e.msg.data|, s4);
    CleanField(LenKey(), Dec(|e.msg.data|), DataKey());
    DataFound(Field(LenKey(), Dec(|e.msg.data|)), rest);
    DataRead(e.msg.data, tail);
  }

  lemma DataFound(junk: string, rest: string)
    requires Clean(junk, DataKey())
    ensures Strstr(junk + (DataKey() + rest), DataKey()) == Some(DataKey() + rest)
    ensures (DataKey() + rest)[|DataKey()|..] == rest
  {
    hide DataKey, Strstr, Clean;
    KeysClean();
    FindSkips(junk, DataKey(), rest);
  }

  lemma DataRead(data: seq<Byte>, tail: string)
    ensures ReadBytes(Some(Bytes(data) + (Closer() + tail)), |data|)
         == Some(Scanned(data, if data == [] then Some(Closer() + tail) else Behind(tail)))
  {
    hide Closer, Behind;
    if data == [] {
      assert Bytes(data) + (Closer() + tail) == Closer() + tail;
    } else {
      BytesRead(false, data, tail);
      assert [] + (Bytes(data) + (Closer() + tail)) == Bytes(data) + (Closer() + tail);
    }
  }

  // ----- The whole text read back

  /** The record loop ends with the null pointer in hand, which it then passes to strstr. */
  predicate ReachesNull(p: Ptr)
    decreases if p.None? then 0 else |p.value| + 1
  {
    p.None? ||
    match Strstr(p.value, SchedKey())
    case None => false
    case Some(s) => ReadRecord(s).Some? && ReachesNull(ReadRecord(s).value.1)
  }

  lemma LoadStep(junk: string, s: string)
    requires SchedKey() <= s && Strstr(junk + s, SchedKey()) == Some(s)
    ensures ReachesNull(Some(junk + s)) <==> ReadRecord(s).Some? && ReachesNull(ReadRecord(s).value.1)
    ensures LoadFrom(Some(junk + s))
         == match ReadRecord(s)
            case None => Malformed
            case Some((e, next)) =>
              match LoadFrom(next)
              case Malformed => Malformed
              case Loaded(entries) => Loaded([e] + entries)
  {
    hide ReadRecord, Strstr, SchedKey;
  }

  function Separator(entries: seq<Entry>): string {
    if |entries| == 1 then "\n" else ",\n"
  }

  /** Where the scanner stands when it has read a record, and what stands before the next key. */
  lemma PtrBehind(data: seq<Byte>, more: bool, rest: string)
    requires !more ==> forall i :: 0 <= i < |rest| ==> rest[i] != ','
    ensures data == [] ==>
              Some(Closer() + ((if more then ",\n" else "\n") + rest))
                  == Some((Closer() + if more then ",\n" else "\n") + rest)
    ensures Behind((if more then ",\n" else "\n") + rest) == if more then Some("\n" + rest) else None
  {
    Assoc(Closer(), if more then ",\n" else "\n", rest);
    if more {
      assert (",\n" + rest)[1..] == "\n" + rest;
    } else {
      NoCommaSkips("\n" + rest, []);
      assert ("\n" + rest) + [] == "\n" + rest;
    }
  }

  lemma RecordsSplit(junk: string, entries: seq<Entry>)
    requires entries != []
    ensures junk + (Records(entries) + Foot())
         == (junk + Open()) + (Fields(entries[0]) + (Bytes(entries[0].msg.data)
              + (Closer() + (Separator(entries) + (Records(entries[1..]) + Foot())))))
  {
    hide Fields, Bytes, Closer, Foot, Open;
    var e, sep, more := entries[0], Separator(entries), Records(entries[1..]);
    Assoc(junk, Open(), Fields(e) + (Bytes(e.msg.data) + (Closer() + (sep + (more + Foot())))));
    Assoc(Open(), Fields(e) + (Bytes(e.msg.data) + (Closer() + (sep + more))), Foot());
    Assoc(Fields(e), Bytes(e.msg.data) + (Closer() + (sep + more)), Foot());
    Assoc(Bytes(e.msg.data), Closer() + (sep + more), Foot());
    Assoc(Closer(), sep + more, Foot());
    Assoc(sep, more, Foot());
  }

  lemma JunkClean()
    ensures GoodKey(SchedKey())
    ensures Clean(Head(), SchedKey()) && Clean(Open(), SchedKey()) && Clean("\n", SchedKey())
    ensures Clean(Closer() + ",\n", SchedKey()) && Clean(Closer() + "\n", SchedKey()) && Clean(Foot(), SchedKey())
    ensures forall i :: 0 <= i < |Foot()| ==> Foot()[i] != ','
  {
  }

  lemma FieldsStart(e: Entry) returns (rest: string)
    ensures Fields(e) == SchedKey() + rest
  {
    rest := [' '] + (DecInt(e.at) + Gap()) + (Field(StampKey(), Dec(Stamp(e))) + (Field(TypeKey(), Dec(e.msg.kind))
      + (Field(LenKey(), Dec(|e.msg.data|)) + DataKey())));
    Assoc(SchedKey(), [' '] + (DecInt(e.at) + Gap()), Field(StampKey(), Dec(Stamp(e)))
          + (Field(TypeKey(), Dec(e.msg.kind))
      + (Field(LenKey(), Dec(|e.msg.data|)) + DataKey())));
  }

  /** The scanner gets to the first key of a record through anything clean. */
  lemma RecordFound(junk: string, e: Entry, rest: string)
    requires Clean(junk, SchedKey())
    ensures Strstr(junk + (Fields(e) + rest), SchedKey()) == Some(Fields(e) + rest) && SchedKey() <= Fields(e) + rest
  {
    hide SchedKey, Strstr, Clean, Fields;
    KeysClean();
    var more := FieldsStart(e);
    Assoc(SchedKey(), more, rest);
    FindSkips(junk, SchedKey(), more + rest);
  }

  lemma {:induction false} RecordsRead(junk: string, entries: seq<Entry>)
    requires Clean(junk, SchedKey()) && entries != []
    requires forall i :: 0 <= i < |entries| ==> |entries[i].msg.data| <= 2048
    ensures LoadFrom(Some(junk + (Records(entries) + Foot()))) == Loaded(AllTrimmed(entries))
    ensures ReachesNull(Some(junk + (Records(entries) + Foot()))) <==> entries[|entries| - 1].msg.data != []
    decreases |entries|
  {
    hide SchedKey, Strstr, Clean, Fields, Bytes, Closer, Foot, Open, ReadRecord, Behind, Trimmed, Records, LoadFrom;
    hide ReachesNull;
    JunkClean();
    var e, rest := entries[0], Records(entries[1..]) + Foot();
    var tail := Separator(entries) + rest;
    RecordsSplit(junk, entries);
    CleanConcat(junk, Open(), SchedKey());
    RecordFound(junk + Open(), e, Bytes(e.msg.data) + (Closer() + tail));
    LoadStep(junk + Open(), Fields(e) + (Bytes(e.msg.data) + (Closer() + tail)));
    RecordRead(e, tail);
    assert [Trimmed(e)] + AllTrimmed(entries[1..]) == AllTrimmed(entries);
    if |entries| == 1 {
      LastRest(entries);
      PtrBehind(e.msg.data, false, rest);
      LoadNothing(Closer() + "\n");
    } else {
      PtrBehind(e.msg.data, true, rest);
      RecordsRead(if e.msg.data == [] then Closer() + ",\n" else "\n", entries[1..]);
    }
  }

  lemma NoRecords()
    ensures Records([]) + Foot() == Foot()
  {
    hide Foot;
    assert [] + Foot() == Foot();
  }

  lemma LastRest(entries: seq<Entry>)
    requires |entries| == 1
    ensures Records(entries[1..]) + Foot() == Foot()
  {
    hide Foot, Records;
    assert entries[1..] == [];
    NoRecords();
  }

  /** Nothing but the end of the text: no record, whether the pointer stands there or is null. */
  lemma LoadNothing(junk: string)
    requires Clean(junk, SchedKey())
    ensures LoadFrom(Some(junk + Foot())) == Loaded([]) && LoadFrom(None) == Loaded([])
    ensures !ReachesNull(Some(junk + Foot())) && ReachesNull(None)
  {
    hide SchedKey, Clean, Foot;
    JunkClean();
    CleanConcat(junk, Foot(), SchedKey());
    FindNothing(junk + Foot(), SchedKey());
  }

  /** Loading the saved text gives the records in order, each trimmed to its fields.  The reading of the null
      pointer as the end of the text is needed exactly when the last record carries bytes. */
  lemma SaveLoadTrims(entries: seq<Entry>)
    requires forall i :: 0 <= i < |entries| ==> |entries[i].msg.data| <= 2048
    ensures Load(Print(entries)) == Loaded(AllTrimmed(entries))
    ensures ReachesNull(Some(Print(entries))) <==> entries != [] && entries[|entries| - 1].msg.data != []
  {
    hide Clean, SchedKey, Head, Foot, Records, LoadFrom, ReachesNull, Trimmed;
    JunkClean();
    if entries == [] {
      NoRecords();
      LoadNothing(Head());
      assert AllTrimmed(entries) == [];
    } else {
      RecordsRead(Head(), entries);
    }
  }

  /** The round trip, exactly: for every list of messages of up to 2048 bytes, loading the saved text gives the
      same records in the same order if and only if each fits its fields. */
  lemma SaveLoad(entries: seq<Entry>)
    requires forall i :: 0 <= i < |entries| ==> |entries[i].msg.data| <= 2048
    ensures Load(Print(entries)) == Loaded(entries) <==> forall i :: 0 <= i < |entries| ==> FitsFields(entries[i])
    ensures ReachesNull(Some(Print(entries))) <==> entries != [] && entries[|entries| - 1].msg.data != []
  {
    hide Load, Print, ReachesNull;
    SaveLoadTrims(entries);
    forall i | 0 <= i < |entries| ensures AllTrimmed(entries)[i] == entries[i] <==> FitsFields(entries[i]) {}
    if forall i :: 0 <= i < |entries| ==> FitsFields(entries[i]) {
      assert AllTrimmed(entries) == entries;
    }
  }
}
