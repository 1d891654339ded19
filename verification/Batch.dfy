/**
  * IRCv3 batches, kept twice: by the protocol layer's tracker, which buffers
  * the messages, and by the client's reducer, which only counts them.
  */
module Batches {
  import opened Units
  import opened MessageTags
  import opened Messages

  const BATCH: Text := Ascii("BATCH")
  const BATCH_TAG: Text := Ascii("batch")
  const LABEL_TAG: Text := Ascii("label")

  function Param(msg: Message, i: nat): Text {
    if i < |msg.params| then msg.params[i] else []
  }

  function ParamsFrom(msg: Message, i: nat): seq<Text> {
    if i < |msg.params| then msg.params[i..] else []
  }

  /** What a message does to the set of open batches. */
  datatype Mark = Opens(reference: Text) | Closes(reference: Text) | Neither

  function MarkOf(msg: Message): Mark {
    var target := Param(msg, 0);
    if msg.command != BATCH || |target| < 2 then Neither
    else if target[0] == PLUS then Opens(target[1..])
    else if target[0] == MINUS then Closes(target[1..])
    else Neither
  }

  /** The batch a message says it belongs to. */
  function Enclosing(msg: Message): Option<Text> {
    GetTag(msg.tags, BATCH_TAG)
  }

  // ---------- The tracker ----------

  datatype Batch = Batch(
    reference: Text, kind: Text, params: seq<Text>, parent: Option<Text>, tag: Option<Text>, messages: seq<Message>)

  datatype BatchEvent = Opened(batch: Batch) | Closed(batch: Batch) | Batched(reference: Text, message: Message)
    | Unbatched(message: Message)

  type OpenBatches = map<Text, Batch>

  function NewBatch(msg: Message, reference: Text): Batch {
    Batch(reference, Param(msg, 1), ParamsFrom(msg, 2), Enclosing(msg), GetTag(msg.tags, LABEL_TAG), [])
  }

  /** Buffers a message into the batch it names, when that batch is open. */
  function Buffered(open: OpenBatches, msg: Message): OpenBatches {
    var r := Enclosing(msg);
    if r.Some? && r.value in open
    then open[r.value := open[r.value].(messages := open[r.value].messages + [msg])]
    else open
  }

  function TrackerStep(open: OpenBatches, msg: Message): (OpenBatches, BatchEvent) {
    var within := Enclosing(msg).Some? && Enclosing(msg).value in open;
    var ordinary := (Buffered(open, msg), if within then Batched(Enclosing(msg).value, msg) else Unbatched(msg));
    match MarkOf(msg)
    case Opens(r) => (Buffered(open, msg)[r := NewBatch(msg, r)], Opened(NewBatch(msg, r)))
    case Closes(r) => if r in open then (Buffered(open, msg) - {r}, Closed(open[r])) else ordinary
    case Neither => ordinary
  }

  /** The open batches once the command alone has been carried out. */
  function AfterMark(open: OpenBatches, msg: Message): OpenBatches {
    match MarkOf(msg)
    case Opens(r) => open[r := NewBatch(msg, r)]
    case Closes(r) => open - {r}
    case Neither => open
  }

  /** Buffering after the command into what was looked up before it, seen reference by reference. */
  lemma BufferedAfterMark(open: OpenBatches, msg: Message, reference: Text, after: OpenBatches)
    requires Enclosing(msg) == Some(reference) && reference in open
    requires after.Keys == AfterMark(open, msg).Keys
    requires forall r | r in after ::
               var marked := AfterMark(open, msg)[r];
               after[r] == if r == reference && MarkOf(msg) != Opens(r)
                           then marked.(messages := marked.messages + [msg])
                           else marked
    requires MarkOf(msg).Opens? || (MarkOf(msg).Closes? && MarkOf(msg).reference in open)
    ensures after == TrackerStep(open, msg).0
  {
  }

  class MutableBatch {
    const reference: Text
    const kind: Text
    const params: seq<Text>
    const parent: Option<Text>
    const tag: Option<Text>
    var messages: seq<Message>

    constructor (msg: Message, reference: Text)
      ensures Frozen() == NewBatch(msg, reference)
    {
      this.reference, kind, params := reference, Param(msg, 1), ParamsFrom(msg, 2);
      parent, tag, messages := Enclosing(msg), GetTag(msg.tags, LABEL_TAG), [];
    }

    function Frozen(): Batch
      reads this
    {
      Batch(reference, kind, params, parent, tag, messages)
    }
  }

  class BatchTracker {
    var open: map<Text, MutableBatch>

    /** No two references share a batch object. */
    ghost predicate Valid()
      reads this
    {
      forall r, s | r in open && s in open && r != s :: open[r] != open[s]
    }

    ghost function View(): OpenBatches
      reads this, open.Values
    {
      map r | r in open :: open[r].Frozen()
    }

    constructor ()
      ensures Valid() && View() == map[]
    {
      open := map[];
    }

    /** Opens or closes; None when the message is neither after all. */
    method HandleBatchCommand(msg: Message) returns (event: Option<BatchEvent>)
      requires Valid() && msg.command == BATCH
      modifies this
      ensures Valid() && View() == AfterMark(old(View()), msg)
      ensures forall r | r in open :: if MarkOf(msg) == Opens(r) then fresh(open[r])
                                      else r in old(open) && open[r] == old(open)[r]
      ensures event == match MarkOf(msg)
                       case Opens(r) => Some(Opened(NewBatch(msg, r)))
                       case Closes(r) => if r in old(open) then Some(Closed(old(View())[r])) else None
                       case Neither => None
      ensures event.None? ==> open == old(open)
    {
      hide NewBatch;
      var target := Param(msg, 0);
      if |target| < 2 {
        return None;
      }
      var reference := target[1..];
      if target[0] == PLUS {
        var batch := new MutableBatch(msg, reference);
        open := open[reference := batch];
        return Some(Opened(batch.Frozen()));
      }
      if target[0] == MINUS {
        if reference !in open {
          return None;
        }
        var batch := open[reference];
        open := open - {reference};
        return Some(Closed(batch.Frozen()));
      }
      event := None;
    }

    /** Buffers into one batch object, whether or not it is still open. */
    method BufferInto(batch: MutableBatch, msg: Message)
      requires Valid()
      modifies batch
      ensures View().Keys == old(View()).Keys
      ensures forall r | r in open ::
                View()[r] == if open[r] == batch then old(View())[r].(messages := old(View())[r].messages + [msg])
                             else old(View())[r]
    {
      batch.messages := batch.messages + [msg];
    }

    /** A batch command that carries a batch tag: the enclosing batch was looked up first. */
    method CommandWithin(msg: Message, reference: Text, enclosing: MutableBatch) returns (event: Option<BatchEvent>)
      requires Valid() && msg.command == BATCH
      requires Enclosing(msg) == Some(reference) && reference in open && open[reference] == enclosing
      modifies this, enclosing
      ensures Valid() && fresh(open.Values - old(open.Values))
      ensures event.Some? ==> View() == TrackerStep(old(View()), msg).0
      ensures event.Some? ==> event.value == TrackerStep(old(View()), msg).1
      ensures event.None? ==> open == old(open) && View() == old(View())
      ensures event.None? <==> MarkOf(msg).Neither? || (MarkOf(msg).Closes? && MarkOf(msg).reference !in old(open))
    {
      ghost var before := View();
      event := HandleBatchCommand(msg);
      if event.Some? {
        assert forall r | r in open :: open[r] == enclosing <==> r == reference && MarkOf(msg) != Opens(r);
        BufferInto(enclosing, msg);
        BufferedAfterMark(before, msg, reference, View());
      }
    }

    /**
      * Feeds one message. The enclosing batch is looked up before the command
      * runs, so a batch that closes itself still receives its own close - when
      * nothing can see it any more.
      */
    method Handle(msg: Message) returns (event: BatchEvent)
      requires Valid()
      modifies this, open.Values
      ensures Valid() && fresh(open.Values - old(open.Values))
      ensures View() == TrackerStep(old(View()), msg).0
      ensures event == TrackerStep(old(View()), msg).1
    {
      hide NewBatch;
      hide Param;
      hide Enclosing;
      hide MutableBatch.Frozen;
      var reference := Enclosing(msg);
      ghost var before := View();
      if reference.Some? && reference.value in open {
        var enclosing := open[reference.value];
        if msg.command == BATCH {
          var handled := CommandWithin(msg, reference.value, enclosing);
          if handled.Some? {
            return handled.value;
          }
        }
        assert View() == before;
        BufferInto(enclosing, msg);
        assert View() == Buffered(before, msg);
        return Batched(reference.value, msg);
      }
      assert Buffered(before, msg) == before;
      if msg.command == BATCH {
        var handled := HandleBatchCommand(msg);
        if handled.Some? {
          return handled.value;
        }
      }
      event := Unbatched(msg);
    }

    method Reset()
      modifies this
      ensures Valid() && View() == map[]
    {
      open := map[];
    }
  }

  // ---------- The reducer's count ----------

  datatype Count = Count(
    reference: Text, kind: Text, params: seq<Text>, parent: Option<Text>,
    count: nat, oldest: Option<int>, newest: Option<int>, liveOldest: Option<int>)

  type Counts = map<Text, Count>

  function Earlier(known: Option<int>, at: int): Option<int> {
    if known.None? || at < known.value then Some(at) else known
  }

  function Later(known: Option<int>, at: int): Option<int> {
    if known.None? || at > known.value then Some(at) else known
  }

  /** `recordBatched`: the message is counted against the batch it names. */
  function Recorded(counts: Counts, msg: Message, at: int): Counts {
    var r := Enclosing(msg);
    if r.None? || r.value !in counts then counts
    else
      var c := counts[r.value];
      counts[r.value := c.(count := c.count + 1, oldest := Earlier(c.oldest, at), newest := Later(c.newest, at))]
  }

  /** `handleBatch`, as far as it changes which batches are open. */
  function Marked(counts: Counts, msg: Message, live: Option<int>): Counts {
    match MarkOf(msg)
    case Opens(r) => counts[r := Count(r, Param(msg, 1), ParamsFrom(msg, 2), Enclosing(msg), 0, None, None, live)]
    case Closes(r) => counts - {r}
    case Neither => counts
  }

  function CountStep(counts: Counts, msg: Message, at: int, live: Option<int>): Counts {
    Marked(Recorded(counts, msg, at), msg, live)
  }

  /** The batch a closing message completes, as the reducer sees it. */
  function CompletedCount(counts: Counts, msg: Message, at: int): Option<Count> {
    var recorded := Recorded(counts, msg, at);
    match MarkOf(msg)
    case Closes(r) => if r in recorded then Some(recorded[r]) else None
    case _ => None
  }

  // ---------- What a batch contains, read off the history ----------

  /** A message as it arrived: its time, and the anchor noted if it opens a history batch. */
  datatype Arrival = Arrival(msg: Message, at: int, live: Option<int>)

  type History = seq<Arrival>

  /** The arrival that opened `r`, when `r` is open after the history. */
  function OpenedBy(history: History, r: Text): Option<Arrival> {
    if history == [] then None
    else
      var last := history[|history| - 1];
      if MarkOf(last.msg) == Opens(r) then Some(last)
      else if MarkOf(last.msg) == Closes(r) then None
      else OpenedBy(history[..|history| - 1], r)
  }

  /** The arrivals tagged with `r` since it last opened, in order. */
  function TaggedSince(history: History, r: Text): History {
    if history == [] then []
    else
      var last := history[|history| - 1];
      if MarkOf(last.msg) == Opens(r) then []
      else TaggedSince(history[..|history| - 1], r) + if Enclosing(last.msg) == Some(r) then [last] else []
  }

  function MessagesOf(history: History): (messages: seq<Message>)
    ensures |messages| == |history|
  {
    seq(|history|, i requires 0 <= i < |history| => history[i].msg)
  }

  function Oldest(history: History): Option<int> {
    if history == [] then None
    else Earlier(Oldest(history[..|history| - 1]), history[|history| - 1].at)
  }

  function Newest(history: History): Option<int> {
    if history == [] then None
    else Later(Newest(history[..|history| - 1]), history[|history| - 1].at)
  }

  /** `Oldest` and `Newest` are the least and the greatest time. */
  lemma {:induction false} OldestAndNewest(history: History)
    requires history != []
    ensures Oldest(history).Some? && Newest(history).Some?
    ensures (exists a :: a in history && a.at == Oldest(history).value)
    ensures (exists a :: a in history && a.at == Newest(history).value)
    ensures forall a | a in history :: Oldest(history).value <= a.at <= Newest(history).value
  {
    var before, last := history[..|history| - 1], history[|history| - 1];
    assert last in history && forall a | a in before :: a in history;
    if before != [] {
      OldestAndNewest(before);
      assert history == before + [last];
    } else {
      assert history == [last];
    }
  }

  function RunTracker(history: History): OpenBatches {
    if history == [] then map[]
    else TrackerStep(RunTracker(history[..|history| - 1]), history[|history| - 1].msg).0
  }

  function RunCounts(history: History): Counts {
    if history == [] then map[]
    else
      var last := history[|history| - 1];
      CountStep(RunCounts(history[..|history| - 1]), last.msg, last.at, last.live)
  }

  lemma MessagesSnoc(history: History, last: Arrival)
    ensures MessagesOf(history + [last]) == MessagesOf(history) + [last.msg]
  {
  }

  /**
    * The tracker over every run, nesting, stray tags, re-opened references and
    * malformed commands included: a batch is open exactly when its last mark
    * opened it, it is described by the message that opened it, and it holds
    * exactly the messages tagged with it since then, in order.
    */
  lemma {:induction false} TrackerHoldsTagged(history: History, r: Text)
    ensures r in RunTracker(history) <==> OpenedBy(history, r).Some?
    ensures r in RunTracker(history) ==>
              RunTracker(history)[r]
                == NewBatch(OpenedBy(history, r).value.msg, r).(messages := MessagesOf(TaggedSince(history, r)))
  {
    if history == [] {
    } else {
      var before, last := history[..|history| - 1], history[|history| - 1];
      TrackerHoldsTagged(before, r);
      MessagesSnoc(TaggedSince(before, r), last);
    }
  }

  lemma DatesSnoc(history: History, last: Arrival)
    ensures Oldest(history + [last]) == Earlier(Oldest(history), last.at)
    ensures Newest(history + [last]) == Later(Newest(history), last.at)
  {
    assert (history + [last])[..|history|] == history;
  }

  /** What the reducer should know of a batch: its opener, and what was tagged since. */
  function CountOf(opener: Arrival, r: Text, tagged: History): Count {
    Count(r, Param(opener.msg, 1), ParamsFrom(opener.msg, 2), Enclosing(opener.msg),
          |tagged|, Oldest(tagged), Newest(tagged), opener.live)
  }

  lemma CountTagged(opener: Arrival, r: Text, tagged: History, last: Arrival)
    ensures CountOf(opener, r, tagged + [last])
         == CountOf(opener, r, tagged).(count := |tagged| + 1,
                                        oldest := Earlier(Oldest(tagged), last.at),
                                        newest := Later(Newest(tagged), last.at))
  {
    DatesSnoc(tagged, last);
  }

  /** One step of the count, seen by one reference. */
  lemma CountStepAt(counts: Counts, msg: Message, at: int, live: Option<int>, r: Text)
    ensures var next := CountStep(counts, msg, at, live);
            && (r in next <==> MarkOf(msg) == Opens(r) || (MarkOf(msg) != Closes(r) && r in counts))
            && (MarkOf(msg) == Opens(r) ==> next[r] == CountOf(Arrival(msg, at, live), r, []))
            && (MarkOf(msg) != Opens(r) && r in next ==>
                 next[r] == if Enclosing(msg) != Some(r) then counts[r]
                            else counts[r].(count := counts[r].count + 1,
                                            oldest := Earlier(counts[r].oldest, at),
                                            newest := Later(counts[r].newest, at)))
  {
    hide MarkOf;
    hide Enclosing;
    hide Earlier;
    hide Later;
  }

  /** The reducer over every run: the same batches, counted and dated instead of kept. */
  lemma {:induction false} ReducerCountsTagged(history: History, r: Text)
    ensures r in RunCounts(history) <==> OpenedBy(history, r).Some?
    ensures r in RunCounts(history) ==>
              RunCounts(history)[r] == CountOf(OpenedBy(history, r).value, r, TaggedSince(history, r))
  {
    hide MarkOf;
    hide Enclosing;
    hide CountStep;
    if history == [] {
    } else {
      var before, last := history[..|history| - 1], history[|history| - 1];
      ReducerCountsTagged(before, r);
      CountStepAt(RunCounts(before), last.msg, last.at, last.live, r);
      hide CountOf;
      if MarkOf(last.msg) != Opens(r) && MarkOf(last.msg) != Closes(r) && r in RunCounts(before) {
        var tagged := TaggedSince(before, r);
        CountTagged(OpenedBy(before, r).value, r, tagged, last);
        CountFields(OpenedBy(before, r).value, r, tagged);
        assert tagged + [] == tagged;
      }
    }
  }

  lemma CountFields(opener: Arrival, r: Text, tagged: History)
    ensures var c := CountOf(opener, r, tagged);
            c.count == |tagged| && c.oldest == Oldest(tagged) && c.newest == Newest(tagged)
  {
  }

  /** The two agree on one batch. */
  predicate SameBatch(count: Count, batch: Batch) {
    && count.reference == batch.reference && count.kind == batch.kind
    && count.params == batch.params && count.parent == batch.parent
    && count.count == |batch.messages|
  }

  /**
    * The reducer's bookkeeping simulates the tracker, over every message
    * sequence: the same references are open, with the same types, parameters
    * and parents, and the reducer's count is the number of messages buffered.
    */
  lemma {:induction false} TrackersAgree(history: History)
    ensures RunCounts(history).Keys == RunTracker(history).Keys
    ensures forall r | r in RunTracker(history) :: SameBatch(RunCounts(history)[r], RunTracker(history)[r])
  {
    forall r: Text
      ensures r in RunCounts(history) <==> r in RunTracker(history)
      ensures r in RunTracker(history) ==> SameBatch(RunCounts(history)[r], RunTracker(history)[r])
    {
      TrackerHoldsTagged(history, r);
      ReducerCountsTagged(history, r);
    }
  }

  /**
    * At a close both complete the same batch, and the tracker hands over exactly
    * the messages tagged with it. The counts agree unless the closing message
    * names the batch in its own tag: then the reducer has counted it as well,
    * and is one ahead.
    */
  lemma ClosesAgree(history: History, msg: Message, at: int)
    ensures var done := CompletedCount(RunCounts(history), msg, at);
            var event := TrackerStep(RunTracker(history), msg).1;
            && (done.Some? <==> event.Closed?)
            && (done.Some? ==>
                 var batch := event.batch;
                 && MarkOf(msg) == Closes(batch.reference)
                 && batch.messages == MessagesOf(TaggedSince(history, batch.reference))
                 && done.value.kind == batch.kind && done.value.params == batch.params
                 && done.value.parent == batch.parent
                 && done.value.count == |batch.messages| + (if Enclosing(msg) == Some(batch.reference) then 1 else 0)
                 && (SameBatch(done.value, batch) <==> Enclosing(msg) != Some(batch.reference)))
  {
    TrackersAgree(history);
    if MarkOf(msg).Closes? {
      TrackerHoldsTagged(history, MarkOf(msg).reference);
      ReducerCountsTagged(history, MarkOf(msg).reference);
    }
  }

  // ---------- In the messages' own words ----------

  /** `BATCH +r …`, with a reference. */
  predicate Opening(msg: Message, r: Text) {
    msg.command == Ascii("BATCH") && r != [] && msg.params != [] && msg.params[0] == Ascii("+") + r
  }

  /** `BATCH -r`, with a reference. */
  predicate Closing(msg: Message, r: Text) {
    msg.command == Ascii("BATCH") && r != [] && msg.params != [] && msg.params[0] == Ascii("-") + r
  }

  /** The batch that `BATCH +r type params…` opens. */
  function Announced(msg: Message, r: Text, messages: seq<Message>): Batch {
    Batch(r, if |msg.params| > 1 then msg.params[1] else [], if |msg.params| > 2 then msg.params[2..] else [],
          GetTag(msg.tags, Ascii("batch")), GetTag(msg.tags, Ascii("label")), messages)
  }

  /** The messages whose batch tag is `r`. */
  function Named(messages: seq<Message>, r: Text): seq<Message> {
    if messages == [] then []
    else
      var last := messages[|messages| - 1];
      Named(messages[..|messages| - 1], r) + if GetTag(last.tags, Ascii("batch")) == Some(r) then [last] else []
  }

  lemma MarksInWords(msg: Message, r: Text)
    ensures MarkOf(msg) == Opens(r) <==> Opening(msg, r)
    ensures MarkOf(msg) == Closes(r) <==> Closing(msg, r)
    ensures Opening(msg, r) ==> NewBatch(msg, r) == Announced(msg, r, [])
    ensures Enclosing(msg) == GetTag(msg.tags, Ascii("batch"))
  {
    assert Ascii("+") == [PLUS] && Ascii("-") == [MINUS];
    if Opening(msg, r) || Closing(msg, r) {
      assert msg.params[0][1..] == r;
    }
    if MarkOf(msg) == Opens(r) {
      assert msg.params[0] == Ascii("+") + r;
    }
    if MarkOf(msg) == Closes(r) {
      assert msg.params[0] == Ascii("-") + r;
    }
    assert |msg.params| == 2 ==> msg.params[2..] == [];
  }

  /**
    * What one command does. `BATCH +r` opens `r` as announced, empty; `BATCH -r`
    * hands over `r` when it is open, and closes it. A command of another kind,
    * another sign or no reference is an ordinary message, and goes to the batch
    * its tag names, as far as that is open.
    */
  lemma CommandsOpenAndClose(open: OpenBatches, msg: Message, r: Text)
    ensures var (next, event) := TrackerStep(open, msg);
            var tag := GetTag(msg.tags, Ascii("batch"));
            && (Opening(msg, r) ==>
                 event == Opened(Announced(msg, r, [])) && r in next && next[r] == Announced(msg, r, []))
            && (Closing(msg, r) && r in open ==> event == Closed(open[r]) && r !in next)
            && (!Opening(msg, r) && !(Closing(msg, r) && r in open) ==>
                 (r in next <==> r in open)
                 && (r in open ==> next[r] == if tag == Some(r) then open[r].(messages := open[r].messages + [msg])
                                              else open[r]))
            && ((forall s :: !Opening(msg, s) && !(Closing(msg, s) && s in open)) ==>
                 next.Keys == open.Keys
                 && event == if tag.Some? && tag.value in open then Batched(tag.value, msg) else Unbatched(msg))
  {
    hide MarkOf;
    hide NewBatch;
    hide Announced;
    hide Opening;
    hide Closing;
    MarksInWords(msg, r);
    match MarkOf(msg)
    case Opens(s) => MarksInWords(msg, s);
    case Closes(s) => MarksInWords(msg, s);
    case Neither =>
  }

  /** The same command in the reducer's counts. */
  lemma CountsOpenAndClose(counts: Counts, msg: Message, at: int, live: Option<int>, r: Text)
    ensures var next := CountStep(counts, msg, at, live);
            var announced := Announced(msg, r, []);
            && (Opening(msg, r) ==>
                 r in next
                 && next[r] == Count(r, announced.kind, announced.params, announced.parent, 0, None, None, live))
            && (Closing(msg, r) ==> r !in next)
            && (!Opening(msg, r) && !Closing(msg, r) ==>
                 (r in next <==> r in counts)
                 && (r in counts ==>
                      next[r].count == counts[r].count + if GetTag(msg.tags, Ascii("batch")) == Some(r) then 1 else 0))
  {
    hide CountStep;
    hide MarkOf;
    hide Opening;
    hide Closing;
    MarksInWords(msg, r);
    CountStepAt(counts, msg, at, live, r);
  }

  /** No message from `i` on opens or closes `r`. */
  ghost predicate Undisturbed(history: History, r: Text, i: nat) {
    forall k | i <= k < |history| :: !Opening(history[k].msg, r) && !Closing(history[k].msg, r)
  }

  lemma NamedSnoc(messages: seq<Message>, last: Message, r: Text)
    ensures Named(messages + [last], r)
         == Named(messages, r) + if GetTag(last.tags, Ascii("batch")) == Some(r) then [last] else []
  {
    assert (messages + [last])[..|messages|] == messages;
  }

  lemma TaggedInWords(tagged: History, last: Arrival, messages: seq<Message>, r: Text)
    requires MessagesOf(tagged) == Named(messages, r)
    ensures MessagesOf(tagged + if Enclosing(last.msg) == Some(r) then [last] else [])
         == Named(messages + [last.msg], r)
  {
    hide MessagesOf;
    hide GetTag;
    MessagesSnoc(tagged, last);
    NamedSnoc(messages, last.msg, r);
    hide Named;
    assert tagged + [] == tagged;
  }

  lemma {:induction false} HeldSince(history: History, r: Text, i: nat)
    requires i < |history| && Opening(history[i].msg, r) && Undisturbed(history, r, i + 1)
    ensures OpenedBy(history, r) == Some(history[i])
    ensures MessagesOf(TaggedSince(history, r)) == Named(MessagesOf(history)[i + 1..], r)
    decreases |history|
  {
    hide MarkOf;
    hide Opening;
    hide Closing;
    hide Enclosing;
    hide Named;
    var before, last := history[..|history| - 1], history[|history| - 1];
    MarksInWords(last.msg, r);
    if i == |history| - 1 {
      assert MessagesOf(history)[i + 1..] == [];
      NoneNamed(r);
    } else {
      HeldSince(before, r, i);
      TaggedInWords(TaggedSince(before, r), last, MessagesOf(before)[i + 1..], r);
      assert MessagesOf(history)[i + 1..] == MessagesOf(before)[i + 1..] + [last.msg];
    }
  }

  lemma NoneNamed(r: Text)
    ensures Named([], r) == [] && MessagesOf([]) == []
  {
  }

  lemma {:induction false} OpenedSomewhere(history: History, r: Text)
    ensures OpenedBy(history, r).Some? ==>
              exists i :: 0 <= i < |history| && Opening(history[i].msg, r) && Undisturbed(history, r, i + 1)
  {
    hide MarkOf;
    hide Opening;
    hide Closing;
    if history == [] {
    } else {
      var before, last := history[..|history| - 1], history[|history| - 1];
      MarksInWords(last.msg, r);
      OpenedSomewhere(before, r);
      if OpenedBy(history, r).Some? && MarkOf(last.msg) != Opens(r) {
        var i :| 0 <= i < |before| && Opening(before[i].msg, r) && Undisturbed(before, r, i + 1);
        assert Opening(history[i].msg, r) && Undisturbed(history, r, i + 1);
      } else if OpenedBy(history, r).Some? {
        assert Opening(history[|history| - 1].msg, r) && Undisturbed(history, r, |history|);
      }
    }
  }

  /**
    * Over every run, for both trackers: `r` is open exactly when some `BATCH +r`
    * was followed by no BATCH command about `r`. It is the batch that command
    * announced, with the messages tagged `r` after it, in order; the reducer has
    * counted as many.
    */
  lemma OpenInWords(history: History, r: Text)
    ensures r in RunTracker(history) <==>
              exists i :: 0 <= i < |history| && Opening(history[i].msg, r) && Undisturbed(history, r, i + 1)
    ensures RunCounts(history).Keys == RunTracker(history).Keys
    ensures forall i | 0 <= i < |history| && Opening(history[i].msg, r) && Undisturbed(history, r, i + 1) ::
              && RunTracker(history)[r] == Announced(history[i].msg, r, Named(MessagesOf(history)[i + 1..], r))
              && RunCounts(history)[r].count == |Named(MessagesOf(history)[i + 1..], r)|
  {
    hide RunTracker;
    hide RunCounts;
    hide Opening;
    hide Closing;
    hide Undisturbed;
    OpenedSomewhere(history, r);
    TrackerHoldsTagged(history, r);
    TrackersAgree(history);
    forall i | 0 <= i < |history| && Opening(history[i].msg, r) && Undisturbed(history, r, i + 1)
      ensures r in RunTracker(history)
      ensures RunTracker(history)[r] == Announced(history[i].msg, r, Named(MessagesOf(history)[i + 1..], r))
      ensures RunCounts(history)[r].count == |Named(MessagesOf(history)[i + 1..], r)|
    {
      HeldSince(history, r, i);
      MarksInWords(history[i].msg, r);
    }
  }

  /** What `BATCH -r` hands over: the batch announced, with the messages tagged since then, and with that it is gone. */
  lemma CloseInWords(history: History, msg: Message, at: int, live: Option<int>, r: Text, i: nat)
    requires i < |history| && Opening(history[i].msg, r) && Undisturbed(history, r, i + 1)
    requires Closing(msg, r)
    ensures var (next, event) := TrackerStep(RunTracker(history), msg);
            && event == Closed(Announced(history[i].msg, r, Named(MessagesOf(history)[i + 1..], r)))
            && r !in next && r !in CountStep(RunCounts(history), msg, at, live)
  {
    hide TrackerStep;
    hide CountStep;
    hide Opening;
    hide Closing;
    hide Announced;
    OpenInWords(history, r);
    CommandsOpenAndClose(RunTracker(history), msg, r);
    MarksInWords(msg, r);
    CountsOpenAndClose(RunCounts(history), msg, at, live, r);
  }
}
