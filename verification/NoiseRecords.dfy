/**
 The record layer of an encrypted connection after its handshake (crates/condr-client/src/noise.rs):
 bytes gather until a record is full or flushed, each record is sealed behind a two-byte length,
 and the other side hands the opened bytes out in whatever sizes it is asked for.
 */
module NoiseRecords {
  import opened Wrappers
  import opened Sequences

  const TAG_LEN: nat := 16
  const MAX_RECORD: nat := 65535
  const MAX_PLAINTEXT: nat := MAX_RECORD - TAG_LEN

  /** The transport cipher: the counter says which message of the connection it is. */
  datatype Cipher = Cipher(seal: (nat, Bytes) -> Bytes, open: (nat, Bytes) -> Option<Bytes>)

  /** Sealing adds a tag of sixteen bytes, and the peer opens what was sealed under the same counter. */
  ghost predicate Ideal(c: Cipher) {
    forall n: nat, p: Bytes :: |p| <= MAX_PLAINTEXT ==>
      |c.seal(n, p)| == |p| + TAG_LEN && c.open(n, c.seal(n, p)) == Some(p)
  }

  /** There is such a cipher, so what is proved for every ideal one is not empty. */
  lemma IdealCiphersExist()
    ensures exists c: Cipher :: Ideal(c)
  {
    var tag: Bytes := seq(TAG_LEN, _ => 0 as byte);
    var c := Cipher((n: nat, p: Bytes) => p + tag,
                    (n: nat, r: Bytes) => if |r| >= TAG_LEN then Some(r[..|r| - TAG_LEN]) else None);
    forall n: nat, p: Bytes ensures |c.seal(n, p)| == |p| + TAG_LEN && c.open(n, c.seal(n, p)) == Some(p) {
      assert (p + tag)[..|p|] == p;
    }
    assert Ideal(c);
  }

  // ----- The sending half -----

  datatype Outgoing = Outgoing(pending: Bytes, sealed: nat, wire: Bytes)

  /** The low sixteen bits, most significant byte first. */
  function LengthPrefix(length: nat): Bytes {
    [(length / 256 % 256) as byte, (length % 256) as byte]
  }

  function RecordFrame(c: Cipher, n: nat, plaintext: Bytes): Bytes {
    var record := c.seal(n, plaintext);
    LengthPrefix(|record|) + record
  }

  function SendRecord(c: Cipher, o: Outgoing, plaintext: Bytes): Outgoing {
    o.(sealed := o.sealed + 1, wire := o.wire + RecordFrame(c, o.sealed, plaintext))
  }

  /** Full records go out at once; what is left waits. */
  function SendChunks(c: Cipher, o: Outgoing, buffer: Bytes): Outgoing
    decreases |buffer|
  {
    if |buffer| < MAX_PLAINTEXT then o.(pending := o.pending + buffer)
    else SendChunks(c, SendRecord(c, o, buffer[..MAX_PLAINTEXT]), buffer[MAX_PLAINTEXT..])
  }

  /** Fills the record that waits, if there is one, before anything else. */
  function FillPending(c: Cipher, o: Outgoing, buffer: Bytes): (Outgoing, Bytes)
    requires |o.pending| < MAX_PLAINTEXT
  {
    if o.pending == [] then (o, buffer)
    else
      var count := Min(|buffer|, MAX_PLAINTEXT - |o.pending|);
      var filled := o.pending + buffer[..count];
      (if |filled| == MAX_PLAINTEXT then SendRecord(c, o, filled).(pending := []) else o.(pending := filled),
       buffer[count..])
  }

  function Write(c: Cipher, o: Outgoing, buffer: Bytes): Outgoing
    requires |o.pending| < MAX_PLAINTEXT
  {
    var (filled, rest) := FillPending(c, o, buffer);
    SendChunks(c, filled, rest)
  }

  function Flush(c: Cipher, o: Outgoing): Outgoing {
    if o.pending == [] then o else SendRecord(c, o, o.pending).(pending := [])
  }

  // ----- The receiving half -----

  datatype Incoming = Incoming(wire: Bytes, received: nat, plaintext: Bytes, consumed: nat)

  datatype RecordRead = NoRecord | Truncated | TooShort | Record(record: Bytes, rest: Bytes)

  function PrefixedLength(wire: Bytes): nat
    requires |wire| >= 2
  {
    wire[0] as nat * 256 + wire[1] as nat
  }

  function ReadRecord(wire: Bytes): RecordRead {
    if wire == [] then NoRecord
    else if |wire| < 2 then Truncated
    else
      var length := PrefixedLength(wire);
      if length < TAG_LEN then TooShort
      else if |wire| < 2 + length then Truncated
      else Record(wire[2..2 + length], wire[2 + length..])
  }

  /** `Ran(false)`: the bytes on hand end between records; `Ran(true)`: inside one. */
  datatype ReadResult = Got(bytes: Bytes) | Ran(inside: bool) | Broken

  /** Hands out at most `size` bytes, opening records until one has some. */
  function Read(c: Cipher, i: Incoming, size: nat): (Incoming, ReadResult)
    requires i.consumed <= |i.plaintext|
    decreases |i.wire|
  {
    if i.consumed < |i.plaintext| then
      var length := Min(|i.plaintext| - i.consumed, size);
      (i.(consumed := i.consumed + length), Got(i.plaintext[i.consumed..i.consumed + length]))
    else
      match ReadRecord(i.wire)
      case NoRecord => (i, Ran(false))
      case Truncated => (i, Ran(true))
      case TooShort => (i, Broken)
      case Record(record, rest) =>
        var plaintext := c.open(i.received, record);
        if plaintext.None? then (i, Broken)
        else Read(c, Incoming(rest, i.received + 1, plaintext.value, 0), size)
  }

  // ----- The stream as the source runs it -----

  class NoiseStream {
    const cipher: Cipher
    var pending: Bytes
    var sealed: nat
    var sent: Bytes
    var arrived: Bytes
    var unsealed: nat
    var plaintext: Bytes
    var consumed: nat

    predicate Valid()
      reads this
    {
      |pending| < MAX_PLAINTEXT && consumed <= |plaintext|
    }

    ghost function Out(): Outgoing
      reads this
    {
      Outgoing(pending, sealed, sent)
    }

    ghost function In(): Incoming
      reads this
    {
      Incoming(arrived, unsealed, plaintext, consumed)
    }

    constructor (cipher: Cipher)
      ensures Valid() && this.cipher == cipher && Out() == Outgoing([], 0, []) && In() == Incoming([], 0, [], 0)
    {
      this.cipher, pending, sealed, sent := cipher, [], 0, [];
      arrived, unsealed, plaintext, consumed := [], 0, [], 0;
    }

    method SealRecord(bytes: Bytes)
      modifies this`sealed, this`sent
      ensures Out() == SendRecord(cipher, old(Out()), bytes)
    {
      var record := cipher.seal(sealed, bytes);
      sent := sent + (LengthPrefix(|record|) + record);
      sealed := sealed + 1;
    }

    method WriteAll(buffer: Bytes) returns (count: nat)
      requires Valid()
      modifies this`pending, this`sealed, this`sent
      ensures Valid() && count == |buffer| && Out() == Write(cipher, old(Out()), buffer)
    {
      var remaining := buffer;
      if pending != [] {
        var taken := Min(|remaining|, MAX_PLAINTEXT - |pending|);
        pending := pending + remaining[..taken];
        remaining := remaining[taken..];
        if |pending| == MAX_PLAINTEXT {
          SealRecord(pending);
          pending := [];
        }
      }
      assert (Out(), remaining) == FillPending(cipher, old(Out()), buffer);
      while |remaining| >= MAX_PLAINTEXT
        invariant pending == [] || |pending| + |remaining| < MAX_PLAINTEXT
        invariant SendChunks(cipher, Out(), remaining) == Write(cipher, old(Out()), buffer)
      {
        SealRecord(remaining[..MAX_PLAINTEXT]);
        remaining := remaining[MAX_PLAINTEXT..];
      }
      pending := pending + remaining;
      return |buffer|;
    }

    method FlushAll()
      requires Valid()
      modifies this`pending, this`sealed, this`sent
      ensures Valid() && Out() == Flush(cipher, old(Out()))
    {
      if pending != [] {
        SealRecord(pending);
        pending := [];
      }
    }

    method ReadSome(size: nat) returns (result: ReadResult)
      requires Valid()
      modifies this`arrived, this`unsealed, this`plaintext, this`consumed
      ensures Valid() && (In(), result) == Read(cipher, old(In()), size)
    {
      while consumed == |plaintext|
        invariant consumed <= |plaintext|
        invariant Read(cipher, In(), size) == Read(cipher, old(In()), size)
        decreases |arrived|
      {
        match ReadRecord(arrived) {
          case NoRecord => return Ran(false);
          case Truncated => return Ran(true);
          case TooShort => return Broken;
          case Record(record, rest) =>
            var unlocked := cipher.open(unsealed, record);
            if unlocked.None? {
              return Broken;
            }
            arrived, unsealed, plaintext, consumed := rest, unsealed + 1, unlocked.value, 0;
        }
      }
      var length := Min(|plaintext| - consumed, size);
      consumed := consumed + length;
      return Got(plaintext[consumed - length..consumed]);
    }
  }

  // ----- Both ends and the network -----

  datatype Action = Writes(buffer: Bytes) | Flushes | Arrives(count: nat) | Reads(size: nat)

  /**
   `transit` holds the bytes on their way; `written` and `got` all that was written and read, and
   `records` the plaintext of every record sent.
   */
  datatype System = System(
    outgoing: Outgoing,
    transit: Bytes,
    incoming: Incoming,
    written: Bytes,
    got: Bytes,
    records: seq<Bytes>)

  const NewSystem: System := System(Outgoing([], 0, []), [], Incoming([], 0, [], 0), [], [], [])

  /** The plaintexts of what a run of full records and one remainder is cut into. */
  function FullRecords(buffer: Bytes): seq<Bytes>
    decreases |buffer|
  {
    if |buffer| < MAX_PLAINTEXT then [] else [buffer[..MAX_PLAINTEXT]] + FullRecords(buffer[MAX_PLAINTEXT..])
  }

  function WrittenRecords(pending: Bytes, buffer: Bytes): seq<Bytes>
    requires |pending| < MAX_PLAINTEXT
  {
    FullRecords(pending + buffer)
  }

  /** The outgoing half hands what it put on the wire to the network. */
  function HandOver(s: System, o: Outgoing): System {
    s.(outgoing := o.(wire := []), transit := s.transit + o.wire)
  }

  function Step(c: Cipher, s: System, a: Action): System
    requires |s.outgoing.pending| < MAX_PLAINTEXT && s.incoming.consumed <= |s.incoming.plaintext|
  {
    match a
    case Writes(buffer) =>
      HandOver(s, Write(c, s.outgoing, buffer)).(
        written := s.written + buffer, records := s.records + WrittenRecords(s.outgoing.pending, buffer))
    case Flushes =>
      HandOver(s, Flush(c, s.outgoing)).(
        records := if s.outgoing.pending == [] then s.records else s.records + [s.outgoing.pending])
    case Arrives(count) =>
      var count := Min(count, |s.transit|);
      s.(transit := s.transit[count..], incoming := s.incoming.(wire := s.incoming.wire + s.transit[..count]))
    case Reads(size) =>
      var (incoming, result) := Read(c, s.incoming, size);
      s.(incoming := incoming, got := if result.Got? then s.got + result.bytes else s.got)
  }

  // ----- What every step keeps -----

  /** The records from number `n` on, as they go over the wire. */
  function Frames(c: Cipher, records: seq<Bytes>, n: nat): Bytes
    decreases |records|
  {
    if records == [] then [] else RecordFrame(c, n, records[0]) + Frames(c, records[1..], n + 1)
  }

  predicate Sized(records: seq<Bytes>) {
    forall k :: 0 <= k < |records| ==> 0 < |records[k]| <= MAX_PLAINTEXT
  }

  predicate SenderSound(s: System) {
    && |s.outgoing.pending| < MAX_PLAINTEXT
    && s.outgoing.sealed == |s.records| && s.outgoing.wire == []
    && Sized(s.records)
    && Flat(s.records) + s.outgoing.pending == s.written
  }

  predicate ReceiverSound(c: Cipher, s: System) {
    var i := s.incoming;
    && i.consumed <= |i.plaintext| && i.received <= |s.records|
    && i.wire + s.transit == Frames(c, s.records[i.received..], i.received)
    && s.got + i.plaintext[i.consumed..] == Flat(s.records[..i.received])
  }

  predicate Sound(c: Cipher, s: System) {
    SenderSound(s) && ReceiverSound(c, s)
  }

  // ----- The sending half -----

  lemma NoFramesNoRecords(c: Cipher, records: seq<Bytes>, n: nat)
    ensures Frames(c, records, n) == [] <==> records == []
  {
    if records != [] { assert |RecordFrame(c, n, records[0])| >= 2; }
  }

  lemma {:induction false} FramesJoin(c: Cipher, a: seq<Bytes>, b: seq<Bytes>, n: nat)
    ensures Frames(c, a + b, n) == Frames(c, a, n) + Frames(c, b, n + |a|)
    decreases |a|
  {
    if a == [] {
      assert a + b == b;
    } else {
      FramesJoin(c, a[1..], b, n + 1);
      assert (a + b)[1..] == a[1..] + b;
      Associates(RecordFrame(c, n, a[0]), Frames(c, a[1..], n + 1), Frames(c, b, n + |a|));
    }
  }

  /** The full records a buffer is cut into, and what remains, are the buffer. */
  lemma {:induction false} ChunksAreSent(c: Cipher, o: Outgoing, buffer: Bytes)
    requires o.pending == []
    ensures var records := FullRecords(buffer);
            var after := SendChunks(c, o, buffer);
            && after.sealed == o.sealed + |records|
            && after.wire == o.wire + Frames(c, records, o.sealed)
            && |after.pending| < MAX_PLAINTEXT && Flat(records) + after.pending == buffer
            && forall k :: 0 <= k < |records| ==> |records[k]| == MAX_PLAINTEXT
    decreases |buffer|
  {
    if |buffer| >= MAX_PLAINTEXT {
      var first, rest := buffer[..MAX_PLAINTEXT], buffer[MAX_PLAINTEXT..];
      var sent := SendRecord(c, o, first);
      ChunksAreSent(c, sent, rest);
      var records := FullRecords(rest);
      assert ([first] + records)[1..] == records;
      Associates(o.wire, RecordFrame(c, o.sealed, first), Frames(c, records, sent.sealed));
      Associates(first, Flat(records), SendChunks(c, sent, rest).pending);
      assert buffer == first + rest;
    }
  }

  /** Writing sends exactly the full records of what was pending and what is new, and keeps the rest. */
  lemma WriteSendsFullRecords(c: Cipher, o: Outgoing, buffer: Bytes)
    requires |o.pending| < MAX_PLAINTEXT
    ensures var records := WrittenRecords(o.pending, buffer);
            var after := Write(c, o, buffer);
            && after.sealed == o.sealed + |records|
            && after.wire == o.wire + Frames(c, records, o.sealed)
            && |after.pending| < MAX_PLAINTEXT && Flat(records) + after.pending == o.pending + buffer
            && forall k :: 0 <= k < |records| ==> |records[k]| == MAX_PLAINTEXT
  {
    var all := o.pending + buffer;
    var (filled, rest) := FillPending(c, o, buffer);
    if o.pending == [] {
      assert all == buffer;
      ChunksAreSent(c, o, buffer);
    } else if |all| < MAX_PLAINTEXT {
      assert buffer[..|buffer|] == buffer && rest == [];
      assert filled.pending + [] == all;
      assert o.wire + [] == o.wire;
    } else {
      var count := MAX_PLAINTEXT - |o.pending|;
      assert all[..MAX_PLAINTEXT] == o.pending + buffer[..count];
      assert all[MAX_PLAINTEXT..] == rest;
      ChunksAreSent(c, o.(pending := []), all);
      assert SendChunks(c, o.(pending := []), all) == SendChunks(c, filled, rest);
    }
  }

  /** Records handed to the network join those already there. */
  lemma SentKeeps(c: Cipher, s: System, records: seq<Bytes>, after: Outgoing, buffer: Bytes)
    requires Sound(c, s) && Sized(records)
    requires after.sealed == s.outgoing.sealed + |records| && |after.pending| < MAX_PLAINTEXT
    requires after.wire == s.outgoing.wire + Frames(c, records, s.outgoing.sealed)
    requires Flat(records) + after.pending == s.outgoing.pending + buffer
    ensures Sound(c, HandOver(s, after).(written := s.written + buffer, records := s.records + records))
  {
    FlatConcat(s.records, records);
    Associates(Flat(s.records), s.outgoing.pending, buffer);
    Associates(Flat(s.records), Flat(records), after.pending);
    assert after.wire == Frames(c, records, |s.records|);
    StillReceives(c, s, HandOver(s, after).(written := s.written + buffer, records := s.records + records), records);
  }

  lemma StillReceives(c: Cipher, s: System, after: System, records: seq<Bytes>)
    requires ReceiverSound(c, s) && after.incoming == s.incoming && after.got == s.got
    requires after.records == s.records + records
    requires after.transit == s.transit + Frames(c, records, |s.records|)
    ensures ReceiverSound(c, after)
  {
    var i := s.incoming;
    assert after.records[i.received..] == s.records[i.received..] + records;
    assert after.records[..i.received] == s.records[..i.received];
    FramesJoin(c, s.records[i.received..], records, i.received);
    Associates(i.wire, s.transit, Frames(c, records, |s.records|));
  }

  lemma WriteKeeps(c: Cipher, s: System, buffer: Bytes)
    requires Sound(c, s)
    ensures Sound(c, Step(c, s, Writes(buffer)))
  {
    WriteSendsFullRecords(c, s.outgoing, buffer);
    var records := WrittenRecords(s.outgoing.pending, buffer);
    var after := Write(c, s.outgoing, buffer);
    SentKeeps(c, s, records, after, buffer);
  }

  lemma FlushKeeps(c: Cipher, s: System)
    requires Sound(c, s)
    ensures Sound(c, Step(c, s, Flushes))
  {
    var o := s.outgoing;
    if o.pending != [] {
      var records := [o.pending];
      assert Frames(c, [], o.sealed + 1) == [];
      assert Frames(c, records, o.sealed) == RecordFrame(c, o.sealed, o.pending) + [];
      assert Flat(records) == o.pending + Flat([]) == o.pending;
      SentKeeps(c, s, records, Flush(c, o), []);
      assert s.written + [] == s.written;
    } else {
      assert s.transit + [] == s.transit;
    }
  }

  lemma ArrivalKeeps(c: Cipher, s: System, count: nat)
    requires Sound(c, s)
    ensures Sound(c, Step(c, s, Arrives(count)))
  {
    var count := Min(count, |s.transit|);
    assert s.transit[..count] + s.transit[count..] == s.transit;
    Associates(s.incoming.wire, s.transit[..count], s.transit[count..]);
  }

  // ----- The receiving half -----

  /** The length in front of a record is the record's: it always fits its sixteen bits. */
  lemma PrefixIsTheLength(length: nat)
    requires length <= MAX_RECORD
    ensures |LengthPrefix(length)| == 2 && PrefixedLength(LengthPrefix(length)) == length
  {
  }

  /** What the first record of the rest of the stream reads as, whole or in part. */
  lemma FirstRecordReads(c: Cipher, n: nat, plaintext: Bytes, later: Bytes, wire: Bytes, transit: Bytes)
    requires Ideal(c) && |plaintext| <= MAX_PLAINTEXT
    requires wire + transit == RecordFrame(c, n, plaintext) + later
    ensures var frame := RecordFrame(c, n, plaintext);
            if wire == [] then ReadRecord(wire) == NoRecord
            else if |wire| < |frame| then ReadRecord(wire) == Truncated
            else && ReadRecord(wire) == Record(c.seal(n, plaintext), wire[|frame|..])
                 && wire[|frame|..] + transit == later
  {
    var record, frame := c.seal(n, plaintext), RecordFrame(c, n, plaintext);
    var all := wire + transit;
    PrefixIsTheLength(|record|);
    assert |frame| == 2 + |record|;
    assert all[..|frame|] == frame && all[|frame|..] == later;
    if |wire| >= 2 {
      assert wire[0] == all[0] == frame[0] == LengthPrefix(|record|)[0];
      assert wire[1] == all[1] == frame[1] == LengthPrefix(|record|)[1];
      assert PrefixedLength(wire) == |record|;
      if |wire| >= |frame| {
        assert wire[..|frame|] == all[..|frame|];
        assert wire[2..2 + |record|] == frame[2..] == record;
        assert wire[|frame|..] + transit == all[|frame|..];
      }
    }
  }

  /** Opening the next record, once the last is used up. */
  function Opened(c: Cipher, s: System): System
    requires |s.incoming.wire| >= 2 && ReadRecord(s.incoming.wire).Record?
    requires c.open(s.incoming.received, ReadRecord(s.incoming.wire).record).Some?
  {
    var i := s.incoming;
    var r := ReadRecord(i.wire);
    s.(incoming := Incoming(r.rest, i.received + 1, c.open(i.received, r.record).value, 0))
  }

  lemma NextRecordOpens(c: Cipher, s: System)
    requires Ideal(c) && Sound(c, s) && s.incoming.consumed == |s.incoming.plaintext|
    ensures var i := s.incoming;
            match ReadRecord(i.wire)
            case NoRecord => i.wire == []
            case Truncated => s.transit != []
            case TooShort => false
            case Record(record, rest) =>
              && i.received < |s.records| && c.open(i.received, record) == Some(s.records[i.received])
              && Sound(c, Opened(c, s))
  {
    var i := s.incoming;
    var rest := s.records[i.received..];
    if rest == [] {
      assert i.wire == [];
    } else {
      var p := s.records[i.received];
      FirstRecordReads(c, i.received, p, Frames(c, rest[1..], i.received + 1), i.wire, s.transit);
      if ReadRecord(i.wire).Record? {
        FlatNext(s.records, i.received);
        assert rest[1..] == s.records[i.received + 1..];
        assert i.plaintext[i.consumed..] == [] && s.got + [] == s.got;
        assert p[0..] == p;
      }
    }
  }

  lemma HandingOutKeeps(c: Cipher, s: System, length: nat)
    requires Sound(c, s) && length <= |s.incoming.plaintext| - s.incoming.consumed
    ensures var i := s.incoming;
            Sound(c, s.(incoming := i.(consumed := i.consumed + length),
                        got := s.got + i.plaintext[i.consumed..i.consumed + length]))
  {
    var i := s.incoming;
    var given := i.plaintext[i.consumed..i.consumed + length];
    assert i.plaintext[i.consumed..] == given + i.plaintext[i.consumed + length..];
    Associates(s.got, given, i.plaintext[i.consumed + length..]);
  }

  lemma NothingLeft(c: Cipher, s: System)
    requires Ideal(c) && Sound(c, s) && s.incoming.consumed == |s.incoming.plaintext|
    requires !ReadRecord(s.incoming.wire).Record? && s.transit == []
    ensures s.got == Flat(s.records)
  {
    var i := s.incoming;
    NextRecordOpens(c, s);
    NoFramesNoRecords(c, s.records[i.received..], i.received);
    assert s.records[..i.received] == s.records;
    assert i.plaintext[i.consumed..] == [] && s.got + [] == s.got;
  }

  /** Reading never fails between honest ends, and hands out the next bytes; it waits only for the network. */
  lemma {:induction false} ReadKeeps(c: Cipher, s: System, size: nat)
    requires Ideal(c) && Sound(c, s)
    ensures Sound(c, Step(c, s, Reads(size)))
    ensures !Read(c, s.incoming, size).1.Broken?
    ensures Read(c, s.incoming, size).1.Ran? ==>
              && Step(c, s, Reads(size)).got == s.got
              && (s.transit == [] ==> s.got == Flat(s.records))
    decreases |s.incoming.wire|
  {
    var i := s.incoming;
    if i.consumed < |i.plaintext| {
      HandingOutKeeps(c, s, Min(|i.plaintext| - i.consumed, size));
    } else {
      NextRecordOpens(c, s);
      if ReadRecord(i.wire).Record? {
        ReadKeeps(c, Opened(c, s), size);
      } else if s.transit == [] {
        NothingLeft(c, s);
      }
    }
  }

  lemma StepKeeps(c: Cipher, s: System, a: Action)
    requires Ideal(c) && Sound(c, s)
    ensures Sound(c, Step(c, s, a))
  {
    match a {
      case Writes(buffer) => WriteKeeps(c, s, buffer);
      case Flushes => FlushKeeps(c, s);
      case Arrives(count) => ArrivalKeeps(c, s, count);
      case Reads(size) => ReadKeeps(c, s, size);
    }
  }

  // ----- Over whole runs -----

  /** The state after any run of writes, flushes, arrivals and reads: it is always sound. */
  ghost function After(c: Cipher, actions: seq<Action>): (s: System)
    requires Ideal(c)
    ensures Sound(c, s)
    decreases |actions|
  {
    if actions == [] then NewSystem
    else
      var before := After(c, actions[..|actions| - 1]);
      StepKeeps(c, before, actions[|actions| - 1]);
      Step(c, before, actions[|actions| - 1])
  }

  /** The bytes read are always a prefix of the bytes written, whatever sizes are asked for. */
  lemma ReadsArePrefix(c: Cipher, actions: seq<Action>)
    requires Ideal(c)
    ensures After(c, actions).got <= After(c, actions).written
  {
    var s := After(c, actions);
    FlatPrefix(s.records, s.incoming.received);
  }

  /** After a flush, once everything has arrived, a reader that finds nothing more has read all that was written. */
  lemma FlushedBytesAreAllRead(c: Cipher, actions: seq<Action>, size: nat)
    requires Ideal(c)
    requires var s := After(c, actions); s.outgoing.pending == [] && s.transit == []
    requires Read(c, After(c, actions).incoming, size).1.Ran?
    ensures After(c, actions).got == After(c, actions).written
  {
    var s := After(c, actions);
    ReadKeeps(c, s, size);
    assert Flat(s.records) + [] == Flat(s.records);
  }

  /** No record is refused, and every record is within what its length prefix can say. */
  lemma EveryRecordIsRead(c: Cipher, actions: seq<Action>, size: nat)
    requires Ideal(c)
    ensures !Read(c, After(c, actions).incoming, size).1.Broken?
    ensures forall k :: 0 <= k < |After(c, actions).records| ==>
              TAG_LEN < |c.seal(k, After(c, actions).records[k])| <= MAX_RECORD
  {
    ReadKeeps(c, After(c, actions), size);
  }
}
