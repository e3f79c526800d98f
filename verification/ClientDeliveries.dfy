/**
 The Server's writer thread to one client (crates/condr-server/src/server/client.rs): it takes one
 item after the other off the queue and writes it, and answers the receipt of the closing frame.
 */
module ClientDeliveries {
  import opened Wrappers
  import opened ClientWriters

  /** An item the thread is writing; `queued` tells the backlog's items from the two slots'. */
  datatype InHand = InHand(item: ClientWriteItem, queued: bool)

  /**
   The queue with its senders, and the thread. `written` holds the backlog's items that went out
   whole, in order, and `answers` what each receipt was told.
   */
  datatype Delivery = Delivery(
    s: System,
    hand: Option<InHand>,
    running: bool,
    written: seq<ClientWriteItem>,
    answers: map<Receipt, bool>)

  /** The senders' steps, and the two halves of the thread's loop. */
  datatype Turn = Sends(a: Action) | Takes | Writes(ok: bool)

  function NewDelivery(lagNotice: Option<Bytes>): Delivery {
    Delivery(NewSystem(lagNotice), None, true, [], map[])
  }

  /** The thread is over: it closes the queue behind it. */
  function Stops(d: Delivery): Delivery {
    d.(running := false, s := Step(d.s, CloseAll))
  }

  function TakesNext(d: Delivery): Delivery {
    match Receive(d.s.q).1
    case Item(item) => d.(s := Step(d.s, Read), hand := Some(InHand(item, d.s.q.reliable != [])))
    case Ended => Stops(d)
    case Blocked => d
  }

  function WritesHand(d: Delivery, ok: bool): Delivery
    requires d.hand.Some?
  {
    var InHand(item, queued) := d.hand.value;
    var d := d.(hand := None, written := if ok && queued then d.written + [item] else d.written);
    if item.ClosingReliable? then Stops(d.(answers := d.answers[item.delivered := ok]))
    else if ok then d
    else Stops(d)
  }

  function Next(d: Delivery, turn: Turn): Delivery {
    match turn
    case Sends(a) => if a.Read? || a.CloseAll? then d else d.(s := Step(d.s, a))
    case Takes => if d.running && d.hand.None? then TakesNext(d) else d
    case Writes(ok) => if d.running && d.hand.Some? then WritesHand(d, ok) else d
  }

  function Through(d: Delivery, turns: seq<Turn>): Delivery {
    if turns == [] then d else Next(Through(d, turns[..|turns| - 1]), turns[|turns| - 1])
  }

  // ----- What every turn keeps -----

  /** The closing frame is the last one accepted, and nothing is accepted behind it. */
  predicate ClosingIsLast(s: System) {
    forall k :: 0 <= k < |s.log| && s.log[k].ClosingReliable? ==> k == |s.log| - 1 && !s.q.writerAlive
  }

  predicate ClosedBy(d: Delivery, receipt: Receipt) {
    && !d.running && d.written == d.s.got && d.s.got != []
    && d.s.got[|d.s.got| - 1].ClosingReliable? && d.s.got[|d.s.got| - 1].delivered == receipt
  }

  predicate NoticeFits(s: System) {
    s.q.lagNotice.Some? ==> |s.q.lagNotice.value| <= MAX_RELIABLE_QUEUE_BYTES
  }

  predicate QueueSound(s: System) {
    Sound(s) && ClosingIsLast(s) && NoticeFits(s)
  }

  /** What was handed out was written, or is in hand; a receipt that says delivered ended it all. */
  predicate HandSound(d: Delivery) {
    && (d.running ==> d.s.got == d.written + (if d.hand.Some? && d.hand.value.queued then [d.hand.value.item] else []))
    && (d.hand.Some? && d.hand.value.item.ClosingReliable? ==> d.hand.value.queued)
    && (forall receipt <- d.answers :: d.answers[receipt] ==> ClosedBy(d, receipt))
  }

  lemma ClosingStaysLast(s: System, a: Action)
    requires ClosingIsLast(s)
    ensures ClosingIsLast(Step(s, a))
  {
  }

  lemma OnlyReadsHandOut(s: System, a: Action)
    requires !a.Read?
    ensures Step(s, a).got == s.got
  {
  }

  lemma QueueKeeps(s: System, a: Action)
    requires QueueSound(s)
    ensures QueueSound(Step(s, a)) && Step(s, a).q.lagNotice == s.q.lagNotice
  {
    StepKeeps(s, a);
    ClosingStaysLast(s, a);
    NoticeStays(s, a);
  }

  /** A closing frame only ever waits in the backlog. */
  lemma ReadHandsOut(s: System)
    requires Receive(s.q).1.Item?
    ensures var item := Receive(s.q).1.item;
            && Step(s, Read).got == (if s.q.reliable != [] then s.got + [item] else s.got)
            && (item.ClosingReliable? ==> s.q.reliable != [])
  {
  }

  lemma StopKeeps(d: Delivery)
    requires HandSound(d.(running := false)) && d.hand.None?
    ensures HandSound(Stops(d))
  {
    OnlyReadsHandOut(d.s, CloseAll);
  }

  lemma TakeKeeps(d: Delivery)
    requires HandSound(d) && d.running && d.hand.None?
    ensures HandSound(TakesNext(d))
  {
    match Receive(d.s.q).1 {
      case Item(item) =>
        ReadHandsOut(d.s);
        assert d.s.got == d.written + [] == d.written;
      case Ended => StopKeeps(d);
      case Blocked =>
    }
  }

  lemma WriteKeeps(d: Delivery, ok: bool)
    requires HandSound(d) && d.running && d.hand.Some?
    ensures HandSound(WritesHand(d, ok))
  {
    var InHand(item, queued) := d.hand.value;
    var after := d.(hand := None, written := if ok && queued then d.written + [item] else d.written);
    assert ok ==> d.s.got == after.written + [];
    if item.ClosingReliable? {
      StopKeeps(after.(answers := d.answers[item.delivered := ok]));
    } else if !ok {
      StopKeeps(after);
    }
  }

  /** Each turn is one step of the queue, or none. */
  lemma TurnIsStep(d: Delivery, turn: Turn)
    ensures || Next(d, turn).s == d.s || Next(d, turn).s == Step(d.s, Read) || Next(d, turn).s == Step(d.s, CloseAll)
            || (turn.Sends? && Next(d, turn).s == Step(d.s, turn.a))
  {
  }

  lemma NextKeepsQueue(d: Delivery, turn: Turn)
    requires QueueSound(d.s)
    ensures QueueSound(Next(d, turn).s) && Next(d, turn).s.q.lagNotice == d.s.q.lagNotice
  {
    TurnIsStep(d, turn);
    QueueKeeps(d.s, Read);
    QueueKeeps(d.s, CloseAll);
    if turn.Sends? {
      QueueKeeps(d.s, turn.a);
    }
  }

  lemma NextKeepsHand(d: Delivery, turn: Turn)
    requires HandSound(d)
    ensures HandSound(Next(d, turn))
  {
    match turn {
      case Sends(a) => if !a.Read? { OnlyReadsHandOut(d.s, a); }
      case Takes => if d.running && d.hand.None? { TakeKeeps(d); }
      case Writes(ok) => if d.running && d.hand.Some? { WriteKeeps(d, ok); }
    }
  }

  lemma {:induction false} DeliveriesStaySound(lagNotice: Option<Bytes>, turns: seq<Turn>)
    requires lagNotice.Some? ==> |lagNotice.value| <= MAX_RELIABLE_QUEUE_BYTES
    ensures var d := Through(NewDelivery(lagNotice), turns);
            QueueSound(d.s) && HandSound(d) && d.s.q.lagNotice == lagNotice
  {
    if turns != [] {
      DeliveriesStaySound(lagNotice, turns[..|turns| - 1]);
      var before, last := Through(NewDelivery(lagNotice), turns[..|turns| - 1]), turns[|turns| - 1];
      NextKeepsQueue(before, last);
      NextKeepsHand(before, last);
    }
  }

  /**
   A receipt that says delivered. The client was sent, in order, every item that was accepted, or
   the notice in the place of those it missed, and last of all the closing frame itself.
   */
  lemma DeliveredMeansWritten(lagNotice: Option<Bytes>, turns: seq<Turn>, receipt: Receipt)
    requires lagNotice.Some? ==> |lagNotice.value| <= MAX_RELIABLE_QUEUE_BYTES
    requires var d := Through(NewDelivery(lagNotice), turns); receipt in d.answers && d.answers[receipt]
    ensures var d := Through(NewDelivery(lagNotice), turns);
            var entries, log := d.s.read, d.s.log;
            && StandFor(entries, d.written, log, lagNotice) && NoSilentGap(entries)
            && entries != [] && log != [] && entries[|entries| - 1] == Accepted(|log| - 1)
            && log[|log| - 1].ClosingReliable? && log[|log| - 1].delivered == receipt
            && (lagNotice.None? ==> d.written == log)
  {
    DeliveriesStaySound(lagNotice, turns);
    AnsweredMeansWritten(Through(NewDelivery(lagNotice), turns), receipt);
  }

  lemma AnsweredMeansWritten(d: Delivery, receipt: Receipt)
    requires QueueSound(d.s) && HandSound(d) && receipt in d.answers && d.answers[receipt]
    ensures var entries, log := d.s.read, d.s.log;
            && StandFor(entries, d.written, log, d.s.q.lagNotice) && NoSilentGap(entries)
            && entries != [] && log != [] && entries[|entries| - 1] == Accepted(|log| - 1)
            && log[|log| - 1].ClosingReliable? && log[|log| - 1].delivered == receipt
            && (d.s.q.lagNotice.None? ==> d.written == log)
  {
    assert ClosedBy(d, receipt);
    EndsWithClosing(d.s);
    if d.s.q.lagNotice.None? {
      AllWasHandedOut(d.s);
    }
  }

  /** When the closing frame was handed out last, it stands for the last one accepted. */
  lemma EndsWithClosing(s: System)
    requires Labelled(s) && Told(s) && ClosingIsLast(s) && s.got != [] && s.got[|s.got| - 1].ClosingReliable?
    ensures NoSilentGap(s.read) && s.read != [] && s.log != []
    ensures s.read[|s.read| - 1] == Accepted(|s.log| - 1) && s.log[|s.log| - 1] == s.got[|s.got| - 1]
  {
    PrefixStaysTold(s.read + s.queued, |s.read|);
    assert (s.read + s.queued)[..|s.read|] == s.read;
    assert Stands(s.read[|s.read| - 1], s.got[|s.got| - 1], s.log, s.q.lagNotice);
  }

  lemma AllWasHandedOut(s: System)
    requires Labelled(s) && Told(s) && s.q.lagNotice.None? && NoSilentGap(s.read)
    requires s.read != [] && s.read[|s.read| - 1] == Accepted(|s.log| - 1)
    ensures s.got == s.log
  {
    forall k | 0 <= k < |s.read| ensures s.read[k].Accepted? {
      assert Stands(s.read[k], s.got[k], s.log, s.q.lagNotice);
    }
    NothingSkipped(s);
    NumberedByPlace(s.read, |s.read| - 1);
  }
}
