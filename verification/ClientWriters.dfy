/**
 The Server's bounded queue to one client (crates/condr-server/src/client_writer.rs): reliable
 frames in order within a byte limit, one clipboard slot and one render slot behind them. A client
 that falls too far behind loses the backlog and is told so in its place.
 */
module ClientWriters {
  import opened Wrappers
  import opened ProtocolLimits

  const MAX_RELIABLE_QUEUE_ITEMS: nat := 512
  const MAX_RELIABLE_QUEUE_BYTES: nat := MAX_FRAMED_BOOTSTRAP_BYTES + MAX_FRAME_SIZE + MAX_FRAME_PREFIX

  /** The channel on which a sender hears what became of its closing frame. */
  type Receipt = nat

  datatype ClientWriteItem =
    | Reliable(data: Bytes)
    | ReliableBatch(frames: seq<Bytes>)
    | ClosingReliable(data: Bytes, delivered: Receipt)
    | Render(data: Bytes, slotDrained: bool)

  datatype Sending = Sent | Lagged | Disconnected | Full

  datatype Receiving = Item(item: ClientWriteItem) | Ended | Blocked

  datatype Queue = Queue(
    reliable: seq<ClientWriteItem>,
    reliableBytes: nat,
    lagNotice: Option<Bytes>,
    lagged: bool,
    clipboard: Option<Bytes>,
    render: Option<seq<Bytes>>,
    senders: nat,
    writerAlive: bool)

  function NewQueue(lagNotice: Option<Bytes>): Queue {
    Queue([], 0, lagNotice, false, None, None, 1, true)
  }

  function FrameBytes(frames: seq<Bytes>): nat {
    if frames == [] then 0 else FrameBytes(frames[..|frames| - 1]) + |frames[|frames| - 1]|
  }

  function ItemBytes(item: ClientWriteItem): nat {
    match item
    case Reliable(data) => |data|
    case ClosingReliable(data, _) => |data|
    case ReliableBatch(frames) => FrameBytes(frames)
    case Render(_, _) => 0
  }

  // ----- The queue's operations -----

  function Refusal(q: Queue): Sending {
    if !q.writerAlive then Disconnected else if q.lagged then Lagged else Sent
  }

  predicate Fits(q: Queue, bytes: nat) {
    |q.reliable| < MAX_RELIABLE_QUEUE_ITEMS && q.reliableBytes + bytes <= MAX_RELIABLE_QUEUE_BYTES
  }

  /** The backlog gives way to the lag notice, or, with none configured, the connection ends. */
  function Overflow(q: Queue): (Queue, Sending) {
    var cleared := q.(reliable := [], reliableBytes := 0, clipboard := None, render := None);
    match q.lagNotice
    case Some(notice) =>
      (cleared.(reliable := [Reliable(notice)], reliableBytes := |notice|, lagged := true), Lagged)
    case None => (cleared.(writerAlive := false), Disconnected)
  }

  /** Appends one reliable item; the last one of all when it is closing. */
  function Send(q: Queue, item: ClientWriteItem): (Queue, Sending) {
    if Refusal(q) != Sent then (q, Refusal(q))
    else if !Fits(q, ItemBytes(item)) then Overflow(q)
    else
      var q := q.(reliable := q.reliable + [item], reliableBytes := q.reliableBytes + ItemBytes(item));
      (if item.ClosingReliable? then q.(clipboard := None, render := None, writerAlive := false) else q, Sent)
  }

  function SendClipboard(q: Queue, data: Bytes): (Queue, Sending) {
    if Refusal(q) != Sent then (q, Refusal(q)) else (q.(clipboard := Some(data)), Sent)
  }

  /** The source asserts that a render has at least one frame. */
  function SendRender(q: Queue, frames: seq<Bytes>): (Queue, Sending)
    requires frames != []
  {
    if !q.writerAlive || q.lagged then (q, Disconnected)
    else if q.render.Some? then (q, Full)
    else (q.(render := Some(frames)), Sent)
  }

  function ResumeAfterLag(q: Queue): Queue {
    if q.lagged then q.(clipboard := None, render := None, lagged := false) else q
  }

  function SaturatingSub(a: nat, b: nat): nat {
    if a >= b then a - b else 0
  }

  function Receive(q: Queue): (Queue, Receiving) {
    if q.reliable != [] then
      (q.(reliable := q.reliable[1..], reliableBytes := SaturatingSub(q.reliableBytes, ItemBytes(q.reliable[0]))),
       Item(q.reliable[0]))
    else if q.clipboard.Some? then (q.(clipboard := None), Item(Reliable(q.clipboard.value)))
    else if q.render.Some? && q.render.value != [] then
      var rest := q.render.value[1..];
      (q.(render := if rest == [] then None else Some(rest)), Item(Render(q.render.value[0], rest == [])))
    else (q, if q.senders == 0 || !q.writerAlive then Ended else Blocked)
  }

  function Close(q: Queue): Queue {
    q.(writerAlive := false, reliable := [], reliableBytes := 0, lagged := false, clipboard := None, render := None)
  }

  // ----- The queue as the source runs it -----

  class ClientWriterQueue {
    var reliable: seq<ClientWriteItem>
    var reliableBytes: nat
    const lagNotice: Option<Bytes>
    var lagged: bool
    var clipboard: Option<Bytes>
    var render: Option<seq<Bytes>>
    var senders: nat
    var writerAlive: bool

    ghost function Current(): Queue
      reads this
    {
      Queue(reliable, reliableBytes, lagNotice, lagged, clipboard, render, senders, writerAlive)
    }

    constructor (lagNotice: Option<Bytes>)
      ensures Current() == NewQueue(lagNotice)
    {
      reliable, reliableBytes, this.lagNotice, lagged := [], 0, lagNotice, false;
      clipboard, render, senders, writerAlive := None, None, 1, true;
    }

    /** Adds up a batch's frames as the source does. */
    static method CountBytes(frames: seq<Bytes>) returns (total: nat)
      ensures total == FrameBytes(frames)
    {
      total := 0;
      for k := 0 to |frames|
        invariant total == FrameBytes(frames[..k])
      {
        assert frames[..k + 1][..k] == frames[..k];
        total := total + |frames[k]|;
      }
      assert frames[..|frames|] == frames;
    }

    /** Makes room for `bytes` more, or gives the backlog up. */
    method Reserve(bytes: nat) returns (result: Sending)
      requires writerAlive && !lagged
      modifies this
      ensures result == Sent <==> Fits(old(Current()), bytes)
      ensures result == Sent ==> Current() == old(Current()).(reliableBytes := old(reliableBytes) + bytes)
      ensures result != Sent ==> (Current(), result) == Overflow(old(Current()))
    {
      if |reliable| >= MAX_RELIABLE_QUEUE_ITEMS || reliableBytes + bytes > MAX_RELIABLE_QUEUE_BYTES {
        reliable, reliableBytes, clipboard, render := [], 0, None, None;
        if lagNotice.Some? {
          reliableBytes, reliable, lagged := |lagNotice.value|, [Reliable(lagNotice.value)], true;
          return Lagged;
        }
        writerAlive := false;
        return Disconnected;
      }
      reliableBytes := reliableBytes + bytes;
      return Sent;
    }

    method SendReliable(data: Bytes) returns (result: Sending)
      modifies this
      ensures (Current(), result) == Send(old(Current()), Reliable(data))
    {
      if !writerAlive || lagged {
        return if !writerAlive then Disconnected else Lagged;
      }
      result := Reserve(|data|);
      if result == Sent {
        reliable := reliable + [Reliable(data)];
      }
    }

    method SendReliableBatch(frames: seq<Bytes>) returns (result: Sending)
      modifies this
      ensures (Current(), result) == Send(old(Current()), ReliableBatch(frames))
    {
      if !writerAlive || lagged {
        return if !writerAlive then Disconnected else Lagged;
      }
      var bytes := CountBytes(frames);
      result := Reserve(bytes);
      if result == Sent {
        reliable := reliable + [ReliableBatch(frames)];
      }
    }

    /** The last frame of all; `channel` is the receipt's, and the sender gets it when the frame is queued. */
    method SendClosingReliable(data: Bytes, channel: Receipt) returns (result: Sending, receipt: Option<Receipt>)
      modifies this
      ensures (Current(), result) == Send(old(Current()), ClosingReliable(data, channel))
      ensures receipt == if result == Sent then Some(channel) else None
    {
      receipt := None;
      if !writerAlive || lagged {
        return if !writerAlive then Disconnected else Lagged, None;
      }
      result := Reserve(|data|);
      if result == Sent {
        reliable := reliable + [ClosingReliable(data, channel)];
        receipt := Some(channel);
        clipboard, render, writerAlive := None, None, false;
      }
    }

    method PutClipboard(data: Bytes) returns (result: Sending)
      modifies this
      ensures (Current(), result) == SendClipboard(old(Current()), data)
    {
      if !writerAlive || lagged {
        return if !writerAlive then Disconnected else Lagged;
      }
      clipboard := Some(data);
      return Sent;
    }

    method TrySendRender(frames: seq<Bytes>) returns (result: Sending)
      requires frames != []
      modifies this
      ensures (Current(), result) == SendRender(old(Current()), frames)
    {
      if !writerAlive || lagged {
        return Disconnected;
      }
      if render.Some? {
        return Full;
      }
      render := Some(frames);
      return Sent;
    }

    method Resume()
      modifies this
      ensures Current() == ResumeAfterLag(old(Current()))
    {
      if lagged {
        clipboard, render, lagged := None, None, false;
      }
    }

    /** One look for something to write; `Blocked` is where the source waits and looks again. */
    method TakeNext() returns (result: Receiving)
      requires render.Some? ==> render.value != []
      modifies this
      ensures (Current(), result) == Receive(old(Current()))
    {
      if reliable != [] {
        var item := reliable[0];
        reliable, reliableBytes := reliable[1..], SaturatingSub(reliableBytes, ItemBytes(item));
        return Item(item);
      }
      if clipboard.Some? {
        result := Item(Reliable(clipboard.value));
        clipboard := None;
        return;
      }
      if render.Some? {
        var data, rest := render.value[0], render.value[1..];
        render := if rest == [] then None else Some(rest);
        return Item(Render(data, rest == []));
      }
      return if senders == 0 || !writerAlive then Ended else Blocked;
    }

    method CloseQueue()
      modifies this
      ensures Current() == Close(old(Current()))
    {
      writerAlive, reliable, reliableBytes, lagged := false, [], 0, false;
      clipboard, render := None, None;
    }
  }

  // ----- Whole runs -----

  datatype Action =
    | SendItem(item: ClientWriteItem)
    | PutClip(data: Bytes)
    | PutRender(frames: seq<Bytes>)
    | ClearRender
    | ResumeLagged
    | AddSender
    | DropSender
    | Read
    | CloseAll

  /** What a reliable item in the queue is: an accepted one, by number, or the lag notice. */
  datatype Entry = Accepted(number: nat) | Notice

  /**
   `log` holds the accepted reliable items and `got` the reliable items that were handed out;
   `queued` says what each item in the queue is and `read` what each one handed out was; `cut` is set
   when the queue is closed or dies without a notice.
   */
  datatype System = System(
    q: Queue,
    log: seq<ClientWriteItem>,
    got: seq<ClientWriteItem>,
    queued: seq<Entry>,
    read: seq<Entry>,
    cut: bool)

  function NewSystem(lagNotice: Option<Bytes>): System {
    System(NewQueue(lagNotice), [], [], [], [], false)
  }

  function AfterSend(s: System, item: ClientWriteItem): System {
    var (q, result) := Send(s.q, item);
    if result == Sent then s.(q := q, log := s.log + [item], queued := s.queued + [Accepted(|s.log|)])
    else if Refusal(s.q) != Sent then s
    else s.(q := q, queued := if result == Lagged then [Notice] else [], cut := s.cut || result == Disconnected)
  }

  function AfterRead(s: System): System {
    var (q, result) := Receive(s.q);
    s.(q := q,
       got := if s.q.reliable != [] && result.Item? then s.got + [result.item] else s.got,
       queued := if s.queued == [] then [] else s.queued[1..],
       read := if s.queued == [] then s.read else s.read + [s.queued[0]])
  }

  function Step(s: System, a: Action): System {
    match a
    case SendItem(item) => if item.Render? then s else AfterSend(s, item)
    case PutClip(data) => s.(q := SendClipboard(s.q, data).0)
    case PutRender(frames) => if frames == [] then s else s.(q := SendRender(s.q, frames).0)
    case ClearRender => s.(q := s.q.(render := None))
    case ResumeLagged => s.(q := ResumeAfterLag(s.q))
    case AddSender => s.(q := s.q.(senders := s.q.senders + 1))
    case DropSender => s.(q := s.q.(senders := SaturatingSub(s.q.senders, 1)))
    case Read => AfterRead(s)
    case CloseAll => s.(q := Close(s.q), queued := [], cut := true)
  }

  function After(s: System, actions: seq<Action>): System {
    if actions == [] then s else Step(After(s, actions[..|actions| - 1]), actions[|actions| - 1])
  }

  // ----- What every step keeps -----

  function QueuedBytes(items: seq<ClientWriteItem>): nat {
    if items == [] then 0 else ItemBytes(items[0]) + QueuedBytes(items[1..])
  }

  /** The bytes are counted exactly and within the limit, slots are free while lagged, and no render is empty. */
  predicate Bounded(q: Queue) {
    && q.reliableBytes == QueuedBytes(q.reliable) <= MAX_RELIABLE_QUEUE_BYTES
    && |q.reliable| <= MAX_RELIABLE_QUEUE_ITEMS
    && (q.render.Some? ==> q.render.value != [])
    && (q.lagged ==> q.lagNotice.Some? && q.clipboard.None? && q.render.None?
                     && (q.reliable == [] || q.reliable == [Reliable(q.lagNotice.value)]))
    && (!q.writerAlive ==> q.clipboard.None? && q.render.None?)
  }

  /** The item is what its entry says. */
  predicate Stands(entry: Entry, item: ClientWriteItem, log: seq<ClientWriteItem>, lagNotice: Option<Bytes>) {
    match entry
    case Accepted(number) => number < |log| && item == log[number]
    case Notice => lagNotice.Some? && item == Reliable(lagNotice.value)
  }

  /** Each item is what its entry says. */
  predicate StandFor(entries: seq<Entry>, items: seq<ClientWriteItem>, log: seq<ClientWriteItem>,
                     lagNotice: Option<Bytes>) {
    && |entries| == |items|
    && (forall k :: 0 <= k < |entries| ==> Stands(entries[k], items[k], log, lagNotice))
  }

  predicate Labelled(s: System) {
    StandFor(s.queued, s.q.reliable, s.log, s.q.lagNotice) && StandFor(s.read, s.got, s.log, s.q.lagNotice)
  }

  /** Item `number` follows what was sent before it, or a notice does. */
  predicate Follows(before: seq<Entry>, number: nat) {
    if before == [] then number == 0
    else before[|before| - 1].Accepted? ==> number == before[|before| - 1].number + 1
  }

  /** Accepted items come in order, each only once, and where some are missing a notice comes next. */
  predicate NoSilentGap(entries: seq<Entry>) {
    && (forall k :: 0 <= k < |entries| && entries[k].Accepted? ==> Follows(entries[..k], entries[k].number))
    && (forall i, j :: 0 <= i < j < |entries| && entries[i].Accepted? && entries[j].Accepted? ==>
                         entries[i].number < entries[j].number)
  }

  predicate Told(s: System) {
    && NoSilentGap(s.read + s.queued)
    && (forall k :: 0 <= k < |s.read + s.queued| && (s.read + s.queued)[k].Accepted? ==>
                      (s.read + s.queued)[k].number < |s.log|)
    && (s.q.writerAlive ==> !s.cut)
    && (!s.cut ==> Follows(s.read + s.queued, |s.log|))
  }

  predicate Sound(s: System) {
    Bounded(s.q) && Labelled(s) && Told(s)
  }

  // ----- Each step keeps it -----

  lemma {:induction false} OneMoreQueued(items: seq<ClientWriteItem>, item: ClientWriteItem)
    ensures QueuedBytes(items + [item]) == QueuedBytes(items) + ItemBytes(item)
  {
    if items == [] {
      assert items + [item] == [item];
    } else {
      OneMoreQueued(items[1..], item);
      assert (items + [item])[1..] == items[1..] + [item];
    }
  }

  lemma SendStaysBounded(q: Queue, item: ClientWriteItem)
    requires Bounded(q) && (q.lagNotice.Some? ==> |q.lagNotice.value| <= MAX_RELIABLE_QUEUE_BYTES)
    ensures Bounded(Send(q, item).0)
  {
    OneMoreQueued(q.reliable, item);
    if q.lagNotice.Some? {
      OneMoreQueued([], Reliable(q.lagNotice.value));
      assert [] + [Reliable(q.lagNotice.value)] == [Reliable(q.lagNotice.value)];
    }
  }

  /** What may come next keeps the sequence without silent gaps. */
  lemma GapsStayTold(entries: seq<Entry>, next: Entry)
    requires NoSilentGap(entries)
    requires next.Accepted? ==> Follows(entries, next.number)
    requires next.Accepted? ==>
               forall k :: 0 <= k < |entries| && entries[k].Accepted? ==> entries[k].number < next.number
    ensures NoSilentGap(entries + [next])
  {
    forall k | 0 <= k < |entries + [next]| && (entries + [next])[k].Accepted?
      ensures Follows((entries + [next])[..k], (entries + [next])[k].number)
    {
      assert (entries + [next])[..k] == entries[..k];
      if k == |entries| { assert entries[..k] == entries; }
    }
  }

  lemma PrefixStaysTold(entries: seq<Entry>, n: nat)
    requires NoSilentGap(entries) && n <= |entries|
    ensures NoSilentGap(entries[..n])
  {
    forall k | 0 <= k < n && entries[..n][k].Accepted? ensures Follows(entries[..n][..k], entries[..n][k].number) {
      assert entries[..n][..k] == entries[..k];
    }
  }

  lemma AcceptedKeeps(s: System, item: ClientWriteItem)
    requires Labelled(s) && Told(s) && Send(s.q, item).1 == Sent
    ensures Labelled(AfterSend(s, item)) && Told(AfterSend(s, item))
  {
    var entries := s.read + s.queued;
    GapsStayTold(entries, Accepted(|s.log|));
    assert s.read + (s.queued + [Accepted(|s.log|)]) == entries + [Accepted(|s.log|)];
  }

  lemma OverflowKeeps(s: System, item: ClientWriteItem)
    requires Labelled(s) && Told(s) && Refusal(s.q) == Sent && !Fits(s.q, ItemBytes(item))
    ensures Labelled(AfterSend(s, item)) && Told(AfterSend(s, item))
  {
    assert (s.read + s.queued)[..|s.read|] == s.read == s.read + [];
    PrefixStaysTold(s.read + s.queued, |s.read|);
    GapsStayTold(s.read, Notice);
    forall k | 0 <= k < |s.read| && s.read[k].Accepted? ensures s.read[k].number < |s.log| {
      assert (s.read + s.queued)[k] == s.read[k];
    }
  }

  lemma SendKeeps(s: System, item: ClientWriteItem)
    requires Sound(s) && (s.q.lagNotice.Some? ==> |s.q.lagNotice.value| <= MAX_RELIABLE_QUEUE_BYTES)
    ensures Sound(AfterSend(s, item))
  {
    SendStaysBounded(s.q, item);
    if Send(s.q, item).1 == Sent {
      AcceptedKeeps(s, item);
    } else if Refusal(s.q) == Sent {
      OverflowKeeps(s, item);
    }
  }

  /** The item handed out takes its label with it. */
  lemma ReadKeepsLabels(s: System)
    requires Bounded(s.q) && Labelled(s)
    ensures Bounded(AfterRead(s).q) && Labelled(AfterRead(s))
  {
    if s.queued != [] {
      assert s.q.reliable != [] && AfterRead(s).got == s.got + [s.q.reliable[0]];
    }
  }

  lemma ReadKeeps(s: System)
    requires Sound(s)
    ensures Sound(AfterRead(s))
  {
    ReadKeepsLabels(s);
    assert AfterRead(s).read + AfterRead(s).queued == s.read + s.queued;
    SameEntriesTold(s, AfterRead(s));
  }

  /** Reading moves an entry from the queued ones to those read, and leaves their sequence alone. */
  lemma SameEntriesTold(s: System, after: System)
    requires Told(s) && after.read + after.queued == s.read + s.queued && after.log == s.log
    requires after.cut == s.cut && after.q.writerAlive == s.q.writerAlive
    ensures Told(after)
  {
  }

  lemma CloseKeeps(s: System)
    requires Sound(s)
    ensures Sound(Step(s, CloseAll))
  {
    assert (s.read + s.queued)[..|s.read|] == s.read + [];
    PrefixStaysTold(s.read + s.queued, |s.read|);
  }

  /** The slots, the senders and the lag do not touch what is queued. */
  lemma SlotsKeep(s: System, q: Queue)
    requires Sound(s) && Bounded(q)
    requires q.reliable == s.q.reliable && q.lagNotice == s.q.lagNotice && q.writerAlive == s.q.writerAlive
    ensures Sound(s.(q := q))
  {
  }

  lemma SlotStepKeeps(s: System, a: Action)
    requires Sound(s) && !a.SendItem? && !a.Read? && !a.CloseAll?
    ensures Sound(Step(s, a))
  {
    var q := match a
      case PutClip(data) => SendClipboard(s.q, data).0
      case PutRender(frames) => if frames == [] then s.q else SendRender(s.q, frames).0
      case ClearRender => s.q.(render := None)
      case ResumeLagged => ResumeAfterLag(s.q)
      case AddSender => s.q.(senders := s.q.senders + 1)
      case DropSender => s.q.(senders := SaturatingSub(s.q.senders, 1))
      case _ => s.q;
    SlotsKeep(s, q);
    assert Step(s, a) == s.(q := q);
  }

  lemma NoticeStays(s: System, a: Action)
    ensures Step(s, a).q.lagNotice == s.q.lagNotice
  {
  }

  lemma StepKeeps(s: System, a: Action)
    requires Sound(s) && (s.q.lagNotice.Some? ==> |s.q.lagNotice.value| <= MAX_RELIABLE_QUEUE_BYTES)
    ensures Sound(Step(s, a))
  {
    if a.SendItem? {
      if !a.item.Render? { SendKeeps(s, a.item); }
    } else if a.Read? {
      ReadKeeps(s);
    } else if a.CloseAll? {
      CloseKeeps(s);
    } else {
      SlotStepKeeps(s, a);
    }
  }

  // ----- Over whole runs -----

  /** The limits are the queue's own, for a lag notice that fits them. */
  lemma {:induction false} RunsStaySound(lagNotice: Option<Bytes>, actions: seq<Action>)
    requires lagNotice.Some? ==> |lagNotice.value| <= MAX_RELIABLE_QUEUE_BYTES
    ensures var s := After(NewSystem(lagNotice), actions);
            Sound(s) && s.q.lagNotice == lagNotice
  {
    if actions != [] {
      RunsStaySound(lagNotice, actions[..|actions| - 1]);
      StepKeeps(After(NewSystem(lagNotice), actions[..|actions| - 1]), actions[|actions| - 1]);
      NoticeStays(After(NewSystem(lagNotice), actions[..|actions| - 1]), actions[|actions| - 1]);
    }
  }

  /**
   What a client is handed, item for item: accepted items in order, and after every gap, at once, the
   notice; up to the end as well, unless the queue was closed. A notice that was still unread when the
   queue was reopened is no exception.
   */
  lemma EveryGapIsTold(notice: Bytes, actions: seq<Action>)
    requires |notice| <= MAX_RELIABLE_QUEUE_BYTES
    ensures var s := After(NewSystem(Some(notice)), actions);
            && StandFor(s.read, s.got, s.log, Some(notice))
            && NoSilentGap(s.read)
            && (s.q.reliable == [] && !s.cut ==> Follows(s.read, |s.log|))
  {
    RunsStaySound(Some(notice), actions);
    var s := After(NewSystem(Some(notice)), actions);
    PrefixStaysTold(s.read + s.queued, |s.read|);
    assert (s.read + s.queued)[..|s.read|] == s.read;
    if s.queued == [] { assert s.read + s.queued == s.read; }
  }

  /** Without a lag notice what is handed out is a prefix of what was accepted, and all of it unless cut. */
  lemma WithoutNoticeNothingIsSkipped(actions: seq<Action>)
    ensures var s := After(NewSystem(None), actions);
            s.got <= s.log && (s.q.reliable == [] && !s.cut ==> s.got == s.log)
  {
    RunsStaySound(None, actions);
    NoNoticeIsRead(actions);
    NothingSkipped(After(NewSystem(None), actions));
  }

  lemma NothingSkipped(s: System)
    requires Labelled(s) && Told(s) && NoNotice(s.read)
    ensures s.got <= s.log && (s.q.reliable == [] && !s.cut ==> s.got == s.log)
  {
    PrefixStaysTold(s.read + s.queued, |s.read|);
    assert (s.read + s.queued)[..|s.read|] == s.read;
    forall k | 0 <= k < |s.got| ensures k < |s.log| && s.got[k] == s.log[k] {
      NumberedByPlace(s.read, k);
      assert Stands(s.read[k], s.got[k], s.log, s.q.lagNotice);
    }
    if s.got != [] {
      NumberedByPlace(s.read, |s.read| - 1);
      assert |s.got| - 1 < |s.log|;
    }
    assert s.got == s.log[..|s.got|];
    if s.q.reliable == [] {
      assert s.read + s.queued == s.read;
      assert !s.cut ==> |s.got| == |s.log|;
    }
  }

  /** With no notice among them, and no gap, entries are numbered by their places. */
  lemma {:induction false} NumberedByPlace(entries: seq<Entry>, k: nat)
    requires NoSilentGap(entries) && NoNotice(entries) && k < |entries|
    ensures entries[k] == Accepted(k)
  {
    assert Follows(entries[..k], entries[k].number);
    if k > 0 { NumberedByPlace(entries, k - 1); }
  }

  predicate NoNotice(entries: seq<Entry>) {
    forall k :: 0 <= k < |entries| ==> entries[k].Accepted?
  }

  lemma NoNoticeNext(s: System, a: Action)
    requires Sound(s) && s.q.lagNotice.None? && NoNotice(s.read)
    ensures NoNotice(Step(s, a).read)
  {
    if a.Read? && s.queued != [] {
      assert Stands(s.queued[0], s.q.reliable[0], s.log, s.q.lagNotice);
    }
  }

  lemma {:induction false} NoNoticeIsRead(actions: seq<Action>)
    ensures NoNotice(After(NewSystem(None), actions).read)
  {
    if actions != [] {
      NoNoticeIsRead(actions[..|actions| - 1]);
      RunsStaySound(None, actions[..|actions| - 1]);
      NoNoticeNext(After(NewSystem(None), actions[..|actions| - 1]), actions[|actions| - 1]);
    }
  }

  /** Reading gives reliable items first, then the clipboard, then the render slot. */
  lemma ReadsInPriority(lagNotice: Option<Bytes>, actions: seq<Action>)
    requires lagNotice.Some? ==> |lagNotice.value| <= MAX_RELIABLE_QUEUE_BYTES
    ensures var s := After(NewSystem(lagNotice), actions);
            var got := Receive(s.q).1;
            if s.queued != [] then got.Item? && Stands(s.queued[0], got.item, s.log, lagNotice)
            else if s.q.clipboard.Some? then got == Item(Reliable(s.q.clipboard.value))
            else if s.q.render.Some? then
              s.q.render.value != [] && got == Item(Render(s.q.render.value[0], |s.q.render.value| == 1))
            else got == if s.q.senders == 0 || !s.q.writerAlive then Ended else Blocked
  {
    RunsStaySound(lagNotice, actions);
  }

  /** The recovery Bootstrap is accepted in every lagged queue that is reopened, however much was read. */
  lemma RecoveryBootstrapFits(notice: Bytes, actions: seq<Action>, frames: seq<Bytes>)
    requires |notice| <= MAX_FRAME_SIZE + MAX_FRAME_PREFIX
    requires FrameBytes(frames) <= MAX_FRAMED_BOOTSTRAP_BYTES
    requires var s := After(NewSystem(Some(notice)), actions); s.q.lagged && s.q.writerAlive
    ensures var s := After(NewSystem(Some(notice)), actions);
            Send(ResumeAfterLag(s.q), ReliableBatch(frames)).1 == Sent
  {
    RunsStaySound(Some(notice), actions);
    var q := After(NewSystem(Some(notice)), actions).q;
    OneMoreQueued([], Reliable(notice));
    assert [] + [Reliable(notice)] == [Reliable(notice)];
    if q.reliable == [] { assert q.reliableBytes == 0; }
  }

  predicate Notifies(q: Queue, a: Action) {
    match a
    case SendItem(_) => Refusal(q) == Sent
    case PutClip(_) => Refusal(q) == Sent
    case PutRender(frames) => frames != [] && SendRender(q, frames).1 == Sent
    case DropSender => true
    case CloseAll => true
    case _ => false
  }

  /** A blocked reader that has something to read, or to end for, was notified of it. */
  lemma BlockedReaderIsNotified(lagNotice: Option<Bytes>, actions: seq<Action>, a: Action)
    requires lagNotice.Some? ==> |lagNotice.value| <= MAX_RELIABLE_QUEUE_BYTES
    requires Receive(After(NewSystem(lagNotice), actions).q).1.Blocked?
    ensures var s := After(NewSystem(lagNotice), actions);
            Receive(Step(s, a).q).1.Blocked? || Notifies(s.q, a)
  {
    RunsStaySound(lagNotice, actions);
  }
}
