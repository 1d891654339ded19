/** The reducer's batches over whole runs, against the protocol layer's tracker. */
module BatchSimulation {
  import opened Units
  import opened Messages
  import opened NetworkState
  import opened Reducer
  import Batches

  /** A run as the batch bookkeeping sees it: each message with its time and the anchor noted beside it. */
  function HistoryOf(s: Network, arrivals: seq<Arrived>, ctx: Context): (history: Batches.History)
    ensures |history| == |arrivals|
    decreases |arrivals|
  {
    if arrivals == [] then []
    else
      var last := arrivals[|arrivals| - 1];
      var counted := Counted(ReduceAll(s, arrivals[..|arrivals| - 1], ctx), last.msg, ctx, last.now);
      HistoryOf(s, arrivals[..|arrivals| - 1], ctx)
        + [Batches.Arrival(last.msg, TimeOf(last.msg, ctx, last.now), LiveOldest(counted, last.msg, ctx))]
  }

  lemma {:induction false} HistoryKeepsMessages(s: Network, arrivals: seq<Arrived>, ctx: Context)
    ensures forall i | 0 <= i < |arrivals| :: HistoryOf(s, arrivals, ctx)[i].msg == arrivals[i].msg
    decreases |arrivals|
  {
    hide ReduceAll;
    hide LiveOldest;
    if arrivals == [] {
    } else {
      HistoryKeepsMessages(s, arrivals[..|arrivals| - 1], ctx);
    }
  }

  lemma HandledBatches(s: Network, msg: Message, ctx: Context)
    ensures BatchHandled(s, msg, ctx).batches == Batches.Marked(s.batches, msg, LiveOldest(s, msg, ctx))
  {
    hide LiveOldest;
    hide PageDone;
    hide Batches.Marked;
  }

  /** One message moves the reducer's batches as the bookkeeping alone would, muted or not. */
  lemma ReduceCounts(s: Network, msg: Message, ctx: Context, now: int)
    ensures Reduce(s, msg, ctx, now).state.batches
         == Batches.CountStep(s.batches, msg, TimeOf(msg, ctx, now), LiveOldest(Counted(s, msg, ctx, now), msg, ctx))
  {
    hide Apply;
    hide BatchHandled;
    hide LiveOldest;
    var counted := Counted(s, msg, ctx, now);
    ApplyFrame(counted, msg, ctx, now);
    HandledBatches(counted, msg, ctx);
  }

  lemma {:induction false} RunsCount(s: Network, arrivals: seq<Arrived>, ctx: Context)
    requires s.batches == map[]
    ensures ReduceAll(s, arrivals, ctx).batches == Batches.RunCounts(HistoryOf(s, arrivals, ctx))
    decreases |arrivals|
  {
    hide Reduce;
    hide LiveOldest;
    if arrivals == [] {
    } else {
      var last := arrivals[|arrivals| - 1];
      var before := ReduceAll(s, arrivals[..|arrivals| - 1], ctx);
      RunsCount(s, arrivals[..|arrivals| - 1], ctx);
      ReduceCounts(before, last.msg, ctx, last.now);
      var history := HistoryOf(s, arrivals, ctx);
      assert history[..|history| - 1] == HistoryOf(s, arrivals[..|arrivals| - 1], ctx);
    }
  }

  /**
    * The whole reducer against the tracker, over every run of messages from a
    * state with no open batch - mutes, history pages and all other commands
    * included: the open batches have the same references, types, parameters and
    * parents, and the reducer's count is the number of messages the tracker
    * holds. The tracker is fed the very messages the reducer is.
    */
  lemma ReducerSimulatesTracker(s: Network, arrivals: seq<Arrived>, ctx: Context)
    requires s.batches == map[]
    ensures forall i | 0 <= i < |arrivals| :: HistoryOf(s, arrivals, ctx)[i].msg == arrivals[i].msg
    ensures var counts := ReduceAll(s, arrivals, ctx).batches;
            var open := Batches.RunTracker(HistoryOf(s, arrivals, ctx));
            && counts.Keys == open.Keys
            && forall r | r in open :: Batches.SameBatch(counts[r], open[r])
  {
    HistoryKeepsMessages(s, arrivals, ctx);
    RunsCount(s, arrivals, ctx);
    Batches.TrackersAgree(HistoryOf(s, arrivals, ctx));
  }

  function MessagesIn(arrivals: seq<Arrived>): (messages: seq<Message>)
    ensures |messages| == |arrivals|
  {
    seq(|arrivals|, i requires 0 <= i < |arrivals| => arrivals[i].msg)
  }

  /** From the arrival `i`, which opens `r`, on: no BATCH command about `r`. */
  ghost predicate OpenedAt(arrivals: seq<Arrived>, r: Text, i: nat) {
    && i < |arrivals| && Batches.Opening(arrivals[i].msg, r)
    && forall k | i < k < |arrivals| :: !Batches.Opening(arrivals[k].msg, r) && !Batches.Closing(arrivals[k].msg, r)
  }

  lemma MessagesOfRun(s: Network, arrivals: seq<Arrived>, ctx: Context)
    ensures Batches.MessagesOf(HistoryOf(s, arrivals, ctx)) == MessagesIn(arrivals)
  {
    HistoryKeepsMessages(s, arrivals, ctx);
    hide HistoryOf;
  }

  lemma SameOpening(history: Batches.History, arrivals: seq<Arrived>, r: Text, i: nat)
    requires Batches.MessagesOf(history) == MessagesIn(arrivals)
    ensures OpenedAt(arrivals, r, i) <==>
              (i < |history| && Batches.Opening(history[i].msg, r) && Batches.Undisturbed(history, r, i + 1))
  {
    hide Batches.Opening;
    hide Batches.Closing;
    assert |history| == |arrivals|;
    assert forall k | 0 <= k < |arrivals| ::
        MessagesIn(arrivals)[k] == arrivals[k].msg && Batches.MessagesOf(history)[k] == history[k].msg;
    if i < |history| {
      assert arrivals[i].msg == history[i].msg;
    }
  }

  /**
    * The same in the messages' own words, for the whole reducer over every run:
    * `r` is open exactly when some `BATCH +r` was followed by no BATCH command
    * about `r`.
    */
  lemma BatchesInWords(s: Network, arrivals: seq<Arrived>, ctx: Context, r: Text)
    requires s.batches == map[]
    ensures r in ReduceAll(s, arrivals, ctx).batches <==> exists i: nat :: OpenedAt(arrivals, r, i)
  {
    hide ReduceAll;
    hide OpenedAt;
    hide Batches.Opening;
    hide Batches.Undisturbed;
    hide Batches.SameBatch;
    hide Batches.RunTracker;
    var history := HistoryOf(s, arrivals, ctx);
    ReducerSimulatesTracker(s, arrivals, ctx);
    MessagesOfRun(s, arrivals, ctx);
    hide HistoryOf;
    hide MessagesIn;
    hide Batches.MessagesOf;
    Batches.OpenInWords(history, r);
    forall i: nat
      ensures OpenedAt(arrivals, r, i) <==>
                (i < |history| && Batches.Opening(history[i].msg, r) && Batches.Undisturbed(history, r, i + 1))
    {
      SameOpening(history, arrivals, r, i);
    }
  }

  /** It has the type, parameters and enclosing batch announced, and counts the messages that carry its tag since. */
  lemma CountsInWords(s: Network, arrivals: seq<Arrived>, ctx: Context, r: Text, i: nat)
    requires s.batches == map[] && OpenedAt(arrivals, r, i)
    ensures r in ReduceAll(s, arrivals, ctx).batches
    ensures Batches.SameBatch(
              ReduceAll(s, arrivals, ctx).batches[r],
              Batches.Announced(arrivals[i].msg, r, Batches.Named(MessagesIn(arrivals)[i + 1..], r)))
  {
    hide ReduceAll;
    hide Batches.SameBatch;
    hide Batches.Announced;
    hide Batches.Named;
    hide Batches.Opening;
    hide Batches.Closing;
    hide Batches.Undisturbed;
    hide Batches.RunTracker;
    var history := HistoryOf(s, arrivals, ctx);
    ReducerSimulatesTracker(s, arrivals, ctx);
    MessagesOfRun(s, arrivals, ctx);
    hide HistoryOf;
    SameOpening(history, arrivals, r, i);
    assert MessagesIn(arrivals)[i] == arrivals[i].msg && Batches.MessagesOf(history)[i] == history[i].msg;
    Batches.OpenInWords(history, r);
  }

  /** One message at a time, from any state: what `BATCH +r` and `BATCH -r` leave open in the reducer. */
  lemma ReduceOpensAndCloses(s: Network, msg: Message, ctx: Context, now: int, r: Text)
    ensures var next := Reduce(s, msg, ctx, now).state.batches;
            var announced := Batches.Announced(msg, r, []);
            && (Batches.Opening(msg, r) ==> r in next && Batches.SameBatch(next[r], announced))
            && (Batches.Closing(msg, r) ==> r !in next)
            && (!Batches.Opening(msg, r) && !Batches.Closing(msg, r) ==> (r in next <==> r in s.batches))
  {
    hide Reduce;
    hide LiveOldest;
    hide Batches.CountStep;
    hide Batches.Opening;
    hide Batches.Closing;
    var live := LiveOldest(Counted(s, msg, ctx, now), msg, ctx);
    ReduceCounts(s, msg, ctx, now);
    Batches.CountsOpenAndClose(s.batches, msg, TimeOf(msg, ctx, now), live, r);
  }
}
