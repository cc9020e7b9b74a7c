/** The bytes of a drain notice: how the master writes the checkpoint name, the format and the round
    into a buffer, how the follower reads them, and how the name comes back when it snapshots. */
module DrainNotice {
  import opened Messages

  const BUFFER_SIZE: nat := 1006
  const NAME_SIZE: nat := 10006
  const FORMAT_BYTES: nat := 4
  const ROUND_BYTES: nat := 8

  type Octets = seq<Byte>

  /** "QPDES" */
  function Prefix(): Octets {
    [81, 80, 68, 69, 83]
  }

  // ----- Numbers in host order (little-endian on both nodes)

  function LittleEndian(v: nat, n: nat): (s: Octets)
    ensures |s| == n
  {
    if n == 0 then [] else [v % 256] + LittleEndian(v / 256, n - 1)
  }

  function FromLittle(s: Octets): nat {
    if s == [] then 0 else s[0] + 256 * FromLittle(s[1..])
  }

  function Span(n: nat): nat {
    if n == 0 then 1 else 256 * Span(n - 1)
  }

  lemma {:induction false} LittleRoundTrip(v: nat, n: nat)
    requires v < Span(n)
    ensures FromLittle(LittleEndian(v, n)) == v
  {
    if n > 0 {
      LittleRoundTrip(v / 256, n - 1);
      assert LittleEndian(v, n)[1..] == LittleEndian(v / 256, n - 1);
    }
  }

  lemma SpansAre()
    ensures Span(FORMAT_BYTES) == 0x1_0000_0000 && Span(ROUND_BYTES) == 0x1_0000_0000_0000_0000
  {
    assert Span(4) == 0x1_0000_0000;
    assert Span(8) == 256 * 256 * 256 * 256 * Span(4);
  }

  // ----- C strings

  /** The bytes before the first NUL. */
  function CString(s: Octets): (t: Octets)
    ensures t <= s && 0 !in t
    ensures |t| < |s| ==> s[|t|] == 0
  {
    if s == [] || s[0] == 0 then [] else [s[0]] + CString(s[1..])
  }

  lemma {:induction false} CStringStops(s: Octets, rest: Octets)
    requires 0 !in s
    ensures CString(s + [0] + rest) == s && CString(s) == s
  {
    if s == [] {
      assert s + [0] + rest == [0] + rest;
    } else {
      CStringStops(s[1..], rest);
      assert (s + [0] + rest)[1..] == s[1..] + [0] + rest;
      assert s[0] in s;
    }
  }

  // ----- The notice

  /** The payload as sent, for a name without NUL. */
  function Payload(name: Octets, format: nat, round: nat): Octets {
    Prefix() + name + LittleEndian(format, FORMAT_BYTES) + LittleEndian(round, ROUND_BYTES)
  }

  /** A notice under a name without NUL goes out whole exactly when prefix, name and the 12 bytes
      behind them fit the buffer. */
  predicate FitsBuffer(name: Octets) {
    5 + |name| + FORMAT_BYTES + ROUND_BYTES <= BUFFER_SIZE
  }

  datatype Built =
    | TooLong             // the program reports the truncation and sends nothing
    | PastBuffer          // the program goes on and writes behind the buffer
    | Built(length: nat)

  datatype Parsed = Parsed(name: Octets, format: nat, round: nat)

  method CopyInto(target: array<Byte>, at: nat, source: Octets)
    requires at + |source| <= target.Length
    modifies target
    ensures target[..] == old(target[..at]) + source + old(target[at + |source|..])
  {
    var j := 0;
    while j < |source|
      invariant 0 <= j <= |source|
      invariant forall k :: 0 <= k < target.Length ==>
                  target[k] == if at <= k < at + j then source[k - at] else old(target[k])
    {
      target[at + j] := source[j];
      j := j + 1;
    }
  }

  /** Writes the notice into the buffer; the one check made is that the prefixed name and its NUL fit. */
  method BuildNotice(buffer: array<Byte>, name: Octets, format: nat, round: nat) returns (r: Built)
    requires buffer.Length == BUFFER_SIZE
    modifies buffer
    ensures r == (var n := 5 + |CString(name)|;
                  if n >= BUFFER_SIZE then TooLong
                  else if n + FORMAT_BYTES + ROUND_BYTES > BUFFER_SIZE then PastBuffer
                  else Built(n + FORMAT_BYTES + ROUND_BYTES))
    ensures r.Built? <==> FitsBuffer(CString(name))
    ensures r.Built? ==> r.length <= BUFFER_SIZE && buffer[..r.length] == Payload(CString(name), format, round)
  {
    hide LittleEndian, CString;
    var text := Prefix() + CString(name);
    var n := |text|;
    if n >= buffer.Length { return TooLong; }
    CopyInto(buffer, 0, text + [0]);
    assert buffer[..n] == text;
    if n + FORMAT_BYTES + ROUND_BYTES > buffer.Length { return PastBuffer; }
    CopyInto(buffer, n, LittleEndian(format, FORMAT_BYTES));
    assert buffer[..n] == text;
    var total := n + FORMAT_BYTES;
    assert buffer[..total] == text + LittleEndian(format, FORMAT_BYTES);
    CopyInto(buffer, total, LittleEndian(round, ROUND_BYTES));
    assert buffer[..total] == text + LittleEndian(format, FORMAT_BYTES);
    total := total + ROUND_BYTES;
    assert buffer[..total] == text + LittleEndian(format, FORMAT_BYTES) + LittleEndian(round, ROUND_BYTES);
    return Built(total);
  }

  /** What the follower makes of a payload: None where the name length would wrap below zero. */
  function Parse(data: Octets): Option<Parsed> {
    if |data| < FORMAT_BYTES + ROUND_BYTES then None
    else
      var n := |data| - FORMAT_BYTES - ROUND_BYTES;
      Some(Parsed(CString(data[..n]), FromLittle(data[n..n + FORMAT_BYTES]), FromLittle(data[n + FORMAT_BYTES..])))
  }

  /** The follower's DRAIN_START arm: the name goes into the engine's buffer behind which it puts a NUL. */
  method ReadNotice(data: Octets, nameBuffer: array<Byte>) returns (r: Option<(nat, nat)>)
    requires |data| <= MAX_MSG_SIZE && nameBuffer.Length == NAME_SIZE
    modifies nameBuffer
    ensures r.None? <==> Parse(data).None?
    ensures r.Some? ==> Parse(data).value == Parsed(CString(nameBuffer[..]), r.value.0, r.value.1)
  {
    if |data| < FORMAT_BYTES + ROUND_BYTES { return None; }
    var n := |data| - FORMAT_BYTES - ROUND_BYTES;
    CopyInto(nameBuffer, 0, data[..n]);
    CopyInto(nameBuffer, n, [0]);
    assert nameBuffer[..] == data[..n] + [0] + nameBuffer[n + 1..];
    CStringOfCopy(data[..n], nameBuffer[n + 1..]);
    return Some((FromLittle(data[n..n + FORMAT_BYTES]), FromLittle(data[n + FORMAT_BYTES..])));
  }

  lemma {:induction false} CStringOfCopy(s: Octets, rest: Octets)
    ensures CString(s + [0] + rest) == CString(s)
  {
    if s == [] {
      assert s + [0] + rest == [0] + rest;
    } else {
      CStringOfCopy(s[1..], rest);
      assert (s + [0] + rest)[1..] == s[1..] + [0] + rest;
    }
  }

  /** A payload is taken from 12 bytes on: the name is all but the last 12, up to a NUL, then four bytes of
      format and eight of round. */
  lemma ParsedExactly(data: Octets)
    ensures Parse(data).None? <==> |data| < 12
    ensures |data| >= 12 ==>
              var n := |data| - 12;
              Parse(data) == Some(Parsed(CString(data[..n]), FromLittle(data[n..n + 4]), FromLittle(data[n + 4..])))
  {
  }

  /** `validate_checkpoint` on the follower: a name that carries the prefix goes on without it, any
      other snapshot is skipped. */
  function Stripped(name: Octets): Option<Octets> {
    if |name| >= 5 && name[..5] == Prefix() then Some(name[5..]) else None
  }

  /** The follower snapshots under exactly the names that start with the five bytes of "QPDES", and strips
      no more than those; in particular not under "init_warmed" as somebody on its own side may ask. */
  lemma StrippedExactly(name: Octets)
    ensures Stripped(name).Some? <==>
              |name| >= 5 && name[0] == 81 && name[1] == 80 && name[2] == 68 && name[3] == 69 && name[4] == 83
    ensures Stripped(name).Some? ==> |Stripped(name).value| == |name| - 5 && name == Prefix() + Stripped(name).value
    ensures Stripped(InitWarmed()) == None
  {
    if |name| >= 5 {
      assert name == name[..5] + name[5..];
      assert name[..5] == [name[0], name[1], name[2], name[3], name[4]];
    }
    assert InitWarmed()[0] == 105 && InitWarmed()[..5][0] == 105;
  }

  /** A notice goes out whole under a name of up to 989 bytes, is refused from 1001 on, and overruns the
      buffer of 1006 bytes in between. */
  lemma BuiltExactly(name: Octets)
    ensures FitsBuffer(name) <==> |name| <= 989
    ensures 5 + |name| >= BUFFER_SIZE <==> |name| >= 1001
  {
  }

  /** The bytes of the notice of round 258 in format 3. */
  lemma PayloadOf(name: Octets)
    ensures Payload(name, 3, 258) == [81, 80, 68, 69, 83] + name + [3, 0, 0, 0] + [2, 1, 0, 0, 0, 0, 0, 0]
  {
    assert LittleEndian(3, 4) == [3, 0, 0, 0] by { LittleSteps(3, 3); }
    assert LittleEndian(258, 8) == [2, 1, 0, 0, 0, 0, 0, 0] by { LittleSteps(258, 7); }
  }

  lemma {:induction false} LittleSteps(v: nat, n: nat)
    ensures LittleEndian(v, n + 1) == [v % 256] + LittleEndian(v / 256, n)
    ensures v < 256 ==> LittleEndian(v, n + 1) == [v] + seq(n, i => 0)
    decreases n
  {
    if n > 0 { LittleSteps(v / 256, n - 1); }
  }

  /** A notice that was built is read back whole, and the follower snapshots under the master's name. */
  lemma NoticeRoundTrip(name: Octets, format: nat, round: nat)
    requires 0 !in name && format < 0x1_0000_0000 && round < 0x1_0000_0000_0000_0000
    ensures Parse(Payload(name, format, round)) == Some(Parsed(Prefix() + name, format, round))
    ensures Stripped(Prefix() + name) == Some(name)
  {
    var data, n := Payload(name, format, round), 5 + |name|;
    assert data[..n] == Prefix() + name;
    assert data[n..n + FORMAT_BYTES] == LittleEndian(format, FORMAT_BYTES);
    assert data[n + FORMAT_BYTES..] == LittleEndian(round, ROUND_BYTES);
    assert 0 !in Prefix() + name;
    CStringStops(Prefix() + name, []);
    SpansAre();
    LittleRoundTrip(format, FORMAT_BYTES);
    LittleRoundTrip(round, ROUND_BYTES);
    assert (Prefix() + name)[..5] == Prefix();
    assert (Prefix() + name)[5..] == name;
  }

  /** Two notices with the same bytes say the same thing: no two checkpoints are confused. */
  lemma NoticeTellsApart(name: Octets, format: nat, round: nat, name': Octets, format': nat, round': nat)
    requires 0 !in name && format < 0x1_0000_0000 && round < 0x1_0000_0000_0000_0000
    requires 0 !in name' && format' < 0x1_0000_0000 && round' < 0x1_0000_0000_0000_0000
    ensures Payload(name, format, round) == Payload(name', format', round') <==>
              name == name' && format == format' && round == round'
  {
    NoticeRoundTrip(name, format, round);
    NoticeRoundTrip(name', format', round');
    assert Stripped(Prefix() + name) == Some(name) && Stripped(Prefix() + name') == Some(name');
  }

  /** "init_warmed", the only name a request is made under. */
  function InitWarmed(): Octets {
    [105, 110, 105, 116, 95, 119, 97, 114, 109, 101, 100]
  }

  /** Every notice sent is in that range: the master's own, and the follower's, whose stored name still
      carries the prefix. */
  lemma NamesInUseFit()
    ensures 0 !in InitWarmed() && FitsBuffer(InitWarmed())
    ensures 0 !in Prefix() + InitWarmed() && FitsBuffer(Prefix() + InitWarmed())
    ensures Stripped(Prefix() + InitWarmed()) == Some(InitWarmed())
  {
    assert (Prefix() + InitWarmed())[5..] == InitWarmed();
  }
}
