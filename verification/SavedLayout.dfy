/** What the saved text looks like: its brackets match, whatever messages it holds. */
module SavedLayout {
  import opened Messages
  import opened Inflight
  import opened SavedText

  /** The brackets still open after the text, the innermost last; None on one that does not match.  No
      bracket of the text stands between quotes. */
  function Nest(s: string, open: string): Option<string> {
    if s == [] then Some(open)
    else if s[0] == '{' || s[0] == '[' then Nest(s[1..], open + [s[0]])
    else if s[0] == '}' || s[0] == ']' then
      if open != [] && open[|open| - 1] == (if s[0] == '}' then '{' else '[')
      then Nest(s[1..], open[..|open| - 1])
      else None
    else Nest(s[1..], open)
  }

  predicate Flat(s: string) {
    forall i :: 0 <= i < |s| ==> s[i] != '{' && s[i] != '[' && s[i] != '}' && s[i] != ']'
  }

  lemma {:induction false} NestConcat(a: string, b: string, open: string)
    ensures Nest(a + b, open) == if Nest(a, open).None? then None else Nest(b, Nest(a, open).value)
    decreases |a|
  {
    if a == [] {
      assert a + b == b;
    } else {
      assert (a + b)[1..] == a[1..] + b;
      if a[0] == '{' || a[0] == '[' {
        NestConcat(a[1..], b, open + [a[0]]);
      } else if a[0] == '}' || a[0] == ']' {
        if open != [] { NestConcat(a[1..], b, open[..|open| - 1]); }
      } else {
        NestConcat(a[1..], b, open);
      }
    }
  }

  lemma {:induction false} NestFlat(s: string, open: string)
    requires Flat(s)
    ensures Nest(s, open) == Some(open)
  {
    if s != [] { NestFlat(s[1..], open); }
  }

  lemma DecFlat(n: nat)
    ensures Flat(Dec(n)) && Flat(DecInt(n)) && Flat(DecInt(0 - n))
  {
    DecDigits(n);
  }

  lemma {:induction false} BytesFlat(data: seq<Byte>)
    ensures Flat(Bytes(data))
  {
    if data != [] {
      DecFlat(data[0]);
      BytesFlat(data[1..]);
    }
  }

  lemma FieldFlat(key: string, value: string)
    requires Flat(key) && Flat(value)
    ensures Flat(Field(key, value))
  {
  }

  lemma FieldsNest(e: Entry, open: string)
    ensures Nest(Fields(e), open) == Nest(DataKey(), open)
  {
    hide Nest, Field, Dec, DecInt, DataKey;
    if e.at < 0 { DecFlat(-e.at); } else { DecFlat(e.at); }
    DecFlat(Stamp(e));
    DecFlat(e.msg.kind);
    DecFlat(|e.msg.data|);
    FieldFlat(SchedKey(), DecInt(e.at));
    FieldFlat(StampKey(), Dec(Stamp(e)));
    FieldFlat(TypeKey(), Dec(e.msg.kind));
    FieldFlat(LenKey(), Dec(|e.msg.data|));
    var f0, f1 := Field(SchedKey(), DecInt(e.at)), Field(StampKey(), Dec(Stamp(e)));
    var f2, f3 := Field(TypeKey(), Dec(e.msg.kind)), Field(LenKey(), Dec(|e.msg.data|));
    FlatFirst(f0, f1 + (f2 + (f3 + DataKey())), open);
    FlatFirst(f1, f2 + (f3 + DataKey()), open);
    FlatFirst(f2, f3 + DataKey(), open);
    FlatFirst(f3, DataKey(), open);
  }

  lemma FlatFirst(a: string, b: string, open: string)
    requires Flat(a)
    ensures Nest(a + b, open) == Nest(b, open)
  {
    NestConcat(a, b, open);
    NestFlat(a, open);
  }

  lemma NestOpen(c: char, rest: string, open: string)
    requires c == '{' || c == '['
    ensures Nest([c] + rest, open) == Nest(rest, open + [c])
  {
    assert ([c] + rest)[1..] == rest;
  }

  lemma NestClose(c: char, rest: string, open: string)
    requires c == '}' || c == ']'
    ensures Nest([c] + rest, open + [if c == '}' then '{' else '[']) == Nest(rest, open)
  {
    var o := if c == '}' then '{' else '[';
    assert ([c] + rest)[1..] == rest && (open + [o])[..|open + [o]| - 1] == open;
  }

  /** The brackets of the fixed parts. */
  lemma HeadNests()
    ensures Nest(Head(), "") == Some("{[")
  {
    hide Nest;
    var key := "\n  \"inflight_messages\": ";
    assert Head() == ['{'] + (key + (['['] + "\n"));
    NestOpen('{', key + (['['] + "\n"), "");
    assert "" + ['{'] == "{" && "{" + ['['] == "{[";
    FlatFirst(key, ['['] + "\n", "{");
    NestOpen('[', "\n", "{");
    NestFlat("\n", "{[");
  }

  lemma FootNests()
    ensures Nest(Foot(), "{[") == Some("")
  {
    hide Nest;
    assert Foot() == "  " + ([']'] + ("\n" + (['}'] + "\n")));
    FlatFirst("  ", [']'] + ("\n" + (['}'] + "\n")), "{[");
    assert "{" + ['['] == "{[" && "" + ['{'] == "{";
    NestClose(']', "\n" + (['}'] + "\n"), "{");
    FlatFirst("\n", ['}'] + "\n", "{");
    NestClose('}', "\n", "");
    NestFlat("\n", "");
  }

  lemma OpenNests()
    ensures Nest(Open(), "{[") == Some("{[{") && Nest(DataKey(), "{[{") == Some("{[{[")
  {
    hide Nest;
    assert Open() == "    " + (['{'] + "\n      ");
    FlatFirst("    ", ['{'] + "\n      ", "{[");
    assert "{[" + ['{'] == "{[{" && "{[{" + ['['] == "{[{[";
    NestOpen('{', "\n      ", "{[");
    NestFlat("\n      ", "{[{");
    assert DataKey() == "\"data\": " + (['['] + "");
    FlatFirst("\"data\": ", ['['] + "", "{[{");
    NestOpen('[', "", "{[{");
    NestFlat("", "{[{[");
  }

  lemma CloserNests()
    ensures Nest(Closer(), "{[{[") == Some("{[")
  {
    hide Nest;
    assert Closer() == [']'] + ("\n    " + (['}'] + ""));
    assert "{[" + ['{'] == "{[{" && "{[{" + ['['] == "{[{[";
    NestClose(']', "\n    " + (['}'] + ""), "{[{");
    FlatFirst("\n    ", ['}'] + "", "{[{");
    NestClose('}', "", "{[");
    NestFlat("", "{[");
  }

  lemma {:induction false} RecordsNest(entries: seq<Entry>)
    ensures Nest(Records(entries), "{[") == Some("{[")
  {
    if entries != [] {
      hide Nest, Open, Closer, Fields, Bytes;
      var e, sep := entries[0], if |entries| == 1 then "\n" else ",\n";
      RecordsNest(entries[1..]);
      RecordNests(e, sep, Records(entries[1..]));
    }
  }

  lemma RecordNests(e: Entry, sep: string, more: string)
    requires Flat(sep)
    ensures Nest(Open() + (Fields(e) + (Bytes(e.msg.data) + (Closer() + (sep + more)))), "{[") == Nest(more, "{[")
  {
    hide Nest, Open, Closer, DataKey, Fields, Bytes;
    OpenNests();
    CloserNests();
    NestConcat(Open(), Fields(e) + (Bytes(e.msg.data) + (Closer() + (sep + more))), "{[");
    NestConcat(Fields(e), Bytes(e.msg.data) + (Closer() + (sep + more)), "{[{");
    FieldsNest(e, "{[{");
    BytesFlat(e.msg.data);
    FlatFirst(Bytes(e.msg.data), Closer() + (sep + more), "{[{[");
    NestConcat(Closer(), sep + more, "{[{[");
    FlatFirst(sep, more, "{[");
  }

  /** The brackets of the saved text match, for every list. */
  lemma PrintIsBalanced(entries: seq<Entry>)
    ensures Nest(Print(entries), "") == Some("")
  {
    hide Nest, Head, Foot, Open, Closer, DataKey, Records;
    HeadNests();
    FootNests();
    RecordsNest(entries);
    NestConcat(Head(), Records(entries) + Foot(), "");
    NestConcat(Records(entries), Foot(), "{[");
  }

  /** The text of the empty list. */
  lemma EmptyText()
    ensures Print([]) == "{\n  \"inflight_messages\": [\n  ]\n}\n"
  {
    assert Records([]) + Foot() == Foot();
  }

  lemma FieldBefore(key: string, value: string, rest: string)
    ensures Field(key, value) + rest == (key + " ") + (value + (Gap() + rest))
  {
    Assoc(key, [' '] + (value + Gap()), rest);
    Assoc([' '], value + Gap(), rest);
    Assoc(value, Gap(), rest);
    Assoc(key, [' '], value + (Gap() + rest));
  }

  /** The text of one message: the keys in their order, a comma and a new line behind each value. */
  lemma OneRecordText(e: Entry)
    ensures Records([e])
         == "    {\n      \"scheduled_time_ns\": " + (DecInt(e.at)
          + (",\n      \"timestamp_ns\": " + (Dec(Stamp(e))
          + (",\n      \"type\": " + (Dec(e.msg.kind)
          + (",\n      \"len\": " + (Dec(|e.msg.data|)
          + (",\n      \"data\": [" + (Bytes(e.msg.data) + "]\n    }\n")))))))))
  {
    hide Dec, DecInt, Bytes, Stamp, Field;
    var r5 := Bytes(e.msg.data) + (Closer() + "\n");
    var r4 := DataKey() + r5;
    var f0, f1 := Field(SchedKey(), DecInt(e.at)), Field(StampKey(), Dec(Stamp(e)));
    var f2, f3 := Field(TypeKey(), Dec(e.msg.kind)), Field(LenKey(), Dec(|e.msg.data|));
    assert [e][1..] == [] && "\n" + "" == "\n";
    assert Records([e]) == Open() + (Fields(e) + r5);
    FieldsApart(f0, f1, f2, f3, r5);
    FieldBefore(LenKey(), Dec(|e.msg.data|), r4);
    var r3 := f3 + r4;
    FieldBefore(TypeKey(), Dec(e.msg.kind), r3);
    var r2 := f2 + r3;
    FieldBefore(StampKey(), Dec(Stamp(e)), r2);
    var r1 := f1 + r2;
    FieldBefore(SchedKey(), DecInt(e.at), r1);
    LiteralsBetween(Dec(Stamp(e)) + (Gap() + r2), Dec(e.msg.kind) + (Gap() + r3), Dec(|e.msg.data|) + (Gap() + r4), r5,
          DecInt(e.at) + (Gap() + r1));
  }

  lemma FieldsApart(f0: string, f1: string, f2: string, f3: string, rest: string)
    ensures (f0 + (f1 + (f2 + (f3 + DataKey())))) + rest == f0 + (f1 + (f2 + (f3 + (DataKey() + rest))))
  {
    hide DataKey;
    Assoc(f0, f1 + (f2 + (f3 + DataKey())), rest);
    Assoc(f1, f2 + (f3 + DataKey()), rest);
    Assoc(f2, f3 + DataKey(), rest);
    Assoc(f3, DataKey(), rest);
  }

  /** The literals between two values. */
  lemma LiteralsBetween(stamp: string, kind: string, len: string, data: string, sched: string)
    ensures Open() + ((SchedKey() + " ") + sched) == "    {\n      \"scheduled_time_ns\": " + sched
    ensures Gap() + ((StampKey() + " ") + stamp) == ",\n      \"timestamp_ns\": " + stamp
    ensures Gap() + ((TypeKey() + " ") + kind) == ",\n      \"type\": " + kind
    ensures Gap() + ((LenKey() + " ") + len) == ",\n      \"len\": " + len
    ensures Gap() + (DataKey() + data) == ",\n      \"data\": [" + data
    ensures Closer() + "\n" == "]\n    }\n"
  {
    hide Open, Gap, SchedKey, StampKey, TypeKey, LenKey, DataKey;
    Literals();
    Assoc(Open(), SchedKey() + " ", sched);
    Assoc(Gap(), StampKey() + " ", stamp);
    Assoc(Gap(), TypeKey() + " ", kind);
    Assoc(Gap(), LenKey() + " ", len);
    Assoc(Gap(), DataKey(), data);
  }

  lemma Literals()
    ensures Open() + (SchedKey() + " ") == "    {\n      \"scheduled_time_ns\": "
    ensures Gap() + (StampKey() + " ") == ",\n      \"timestamp_ns\": "
    ensures Gap() + (TypeKey() + " ") == ",\n      \"type\": "
    ensures Gap() + (LenKey() + " ") == ",\n      \"len\": "
    ensures Gap() + DataKey() == ",\n      \"data\": ["
  {
  }

  /** The records stand one behind the other, a comma behind each but the last. */
  lemma RecordsJoin(e: Entry, more: seq<Entry>)
    requires more != []
    ensures Records([e] + more) == Open() + (Fields(e) + (Bytes(e.msg.data) + ("]\n    }" + (",\n" + Records(more)))))
  {
    assert ([e] + more)[1..] == more && |[e] + more| > 1;
  }
}
