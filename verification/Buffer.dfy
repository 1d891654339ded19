/**
  * The message buffer of one conversation: merging by id, placement by time
  * with a binary search, and a bounded length. Times are milliseconds.
  */
module MessageBuffer {
  import opened Units
  import opened MessageTags
  import opened Messages

  datatype EntryKind =
    | PrivmsgLine | NoticeLine | ActionLine | JoinLine | PartLine | QuitLine | NickLine
    | KickLine | ModeLine | TopicLine | ServerLine | ErrorLine

  datatype Entry = Entry(
    id: Text, kind: EntryKind, at: int, fromServerTime: bool, source: Option<Source>,
    target: Text, text: Text, account: Option<Text>, replyTo: Option<Text>,
    pending: bool, tags: Tags)

  type Buffer = seq<Entry>

  const MESSAGE_LIMIT: nat := 10_000

  // ---------- Inserting ----------

  function IndexFrom(buffer: Buffer, id: Text, i: nat): (r: nat)
    requires i <= |buffer|
    ensures i <= r <= |buffer|
    ensures forall k | i <= k < r :: buffer[k].id != id
    ensures r < |buffer| ==> buffer[r].id == id
    decreases |buffer| - i
  {
    if i == |buffer| || buffer[i].id == id then i else IndexFrom(buffer, id, i + 1)
  }

  /** A copy of a known message: its values win, but what it lacks is kept. */
  function Merge(existing: Entry, copy: Entry): Entry {
    copy.(source := if copy.source.Some? then copy.source else existing.source,
          account := if copy.account.Some? then copy.account else existing.account,
          replyTo := if copy.replyTo.Some? then copy.replyTo else existing.replyTo,
          pending := false)
  }

  /** The newest `limit` entries. */
  function Newest(buffer: Buffer, limit: nat): Buffer {
    if |buffer| > limit then buffer[|buffer| - limit..] else buffer
  }

  function Middle(low: nat, high: nat): (middle: nat)
    requires low < high
    ensures low <= middle < high
  {
    (low + high) / 2
  }

  function Search(buffer: Buffer, target: int, low: nat, high: nat): (r: nat)
    requires low <= high <= |buffer|
    ensures low <= r <= high
    decreases high - low
  {
    if low == high then low
    else
      var middle := Middle(low, high);
      if buffer[middle].at <= target then Search(buffer, target, middle + 1, high)
      else Search(buffer, target, low, middle)
  }

  function InsertAt(buffer: Buffer, i: nat, entry: Entry): Buffer
    requires i <= |buffer|
  {
    buffer[..i] + [entry] + buffer[i..]
  }

  function Insert(buffer: Buffer, entry: Entry, limit: nat): Buffer {
    var existing := IndexFrom(buffer, entry.id, 0);
    if existing < |buffer| then
      if !buffer[existing].pending && entry.pending then buffer
      else buffer[existing := Merge(buffer[existing], entry)]
    else if buffer == [] || buffer[|buffer| - 1].at <= entry.at then Newest(buffer + [entry], limit)
    else Newest(InsertAt(buffer, Search(buffer, entry.at, 0, |buffer|), entry), limit)
  }

  method InsertMessage(buffer: Buffer, entry: Entry, limit: nat) returns (r: Buffer)
    ensures r == Insert(buffer, entry, limit)
  {
    var existing := 0;
    while existing < |buffer| && buffer[existing].id != entry.id
      invariant 0 <= existing <= |buffer|
      invariant IndexFrom(buffer, entry.id, 0) == IndexFrom(buffer, entry.id, existing)
    {
      existing := existing + 1;
    }
    if existing < |buffer| {
      if !buffer[existing].pending && entry.pending {
        return buffer;
      }
      return buffer[existing := Merge(buffer[existing], entry)];
    }
    if buffer == [] || buffer[|buffer| - 1].at <= entry.at {
      return Newest(buffer + [entry], limit);
    }
    var low, high := 0, |buffer|;
    while low < high
      invariant 0 <= low <= high <= |buffer|
      invariant Search(buffer, entry.at, 0, |buffer|) == Search(buffer, entry.at, low, high)
    {
      var middle := (low + high) / 2;
      if buffer[middle].at <= entry.at {
        low := middle + 1;
      } else {
        high := middle;
      }
    }
    r := Newest(buffer[..low] + [entry] + buffer[low..], limit);
  }

  // ---------- Echoes ----------

  predicate Awaits(candidate: Entry, echoed: Entry) {
    candidate.pending && candidate.target == echoed.target && candidate.text == echoed.text
  }

  /** One past the newest entry before `i` that awaits this echo; 0 when there is none. */
  function AwaitingBefore(buffer: Buffer, echoed: Entry, i: nat): (r: nat)
    requires i <= |buffer|
    ensures r <= i && (r > 0 ==> Awaits(buffer[r - 1], echoed))
    ensures forall k | r <= k < i :: !Awaits(buffer[k], echoed)
  {
    if i == 0 || Awaits(buffer[i - 1], echoed) then i else AwaitingBefore(buffer, echoed, i - 1)
  }

  function Reconcile(buffer: Buffer, echoed: Entry): Buffer {
    var awaiting := AwaitingBefore(buffer, echoed, |buffer|);
    if IndexFrom(buffer, echoed.id, 0) < |buffer| || awaiting == 0 then Insert(buffer, echoed, MESSAGE_LIMIT)
    else buffer[awaiting - 1 := echoed.(pending := false)]
  }

  method ReconcileEcho(buffer: Buffer, echoed: Entry) returns (r: Buffer)
    ensures r == Reconcile(buffer, echoed)
  {
    if IndexFrom(buffer, echoed.id, 0) < |buffer| {
      r := InsertMessage(buffer, echoed, MESSAGE_LIMIT);
      return;
    }
    var index := |buffer| - 1;
    while index >= 0
      invariant -1 <= index < |buffer|
      invariant AwaitingBefore(buffer, echoed, |buffer|) == AwaitingBefore(buffer, echoed, index + 1)
    {
      if Awaits(buffer[index], echoed) {
        return buffer[index := echoed.(pending := false)];
      }
      index := index - 1;
    }
    r := InsertMessage(buffer, echoed, MESSAGE_LIMIT);
  }

  // ---------- A reference: the stable sort by time ----------

  ghost predicate Sorted(buffer: Buffer) {
    forall i, j | 0 <= i <= j < |buffer| :: buffer[i].at <= buffer[j].at
  }

  /** Places an entry after everything that is not later. */
  function Place(buffer: Buffer, entry: Entry): Buffer {
    if buffer == [] || buffer[|buffer| - 1].at <= entry.at then buffer + [entry]
    else Place(buffer[..|buffer| - 1], entry) + [buffer[|buffer| - 1]]
  }

  function StableSort(history: Buffer): Buffer {
    if history == [] then [] else Place(StableSort(history[..|history| - 1]), history[|history| - 1])
  }

  function IfAt(entry: Entry, t: int): Buffer {
    if entry.at == t then [entry] else []
  }

  /** The entries of one moment, in the order they stand. */
  function AtTime(buffer: Buffer, t: int): Buffer {
    if buffer == [] then [] else AtTime(buffer[..|buffer| - 1], t) + IfAt(buffer[|buffer| - 1], t)
  }

  lemma AtTimeSnoc(buffer: Buffer, entry: Entry, t: int)
    ensures AtTime(buffer + [entry], t) == AtTime(buffer, t) + IfAt(entry, t)
  {
    assert (buffer + [entry])[..|buffer|] == buffer;
  }

  lemma {:induction false} PlacePermutes(buffer: Buffer, entry: Entry)
    ensures multiset(Place(buffer, entry)) == multiset(buffer) + multiset{entry}
  {
    if buffer != [] && buffer[|buffer| - 1].at > entry.at {
      PlacePermutes(buffer[..|buffer| - 1], entry);
      assert buffer == buffer[..|buffer| - 1] + [buffer[|buffer| - 1]];
    }
  }

  lemma {:induction false} PlaceSorts(buffer: Buffer, entry: Entry)
    requires Sorted(buffer)
    ensures Sorted(Place(buffer, entry))
  {
    if buffer != [] && buffer[|buffer| - 1].at > entry.at {
      var before, last := buffer[..|buffer| - 1], buffer[|buffer| - 1];
      var placed := Place(before, entry);
      PlaceSorts(before, entry);
      PlacePermutes(before, entry);
      forall e | e in placed ensures e.at <= last.at {
        assert e in multiset(placed);
        assert e in before || e == entry;
      }
      SortedSnoc(placed, last);
    }
  }

  lemma SortedSnoc(buffer: Buffer, last: Entry)
    requires Sorted(buffer) && forall e | e in buffer :: e.at <= last.at
    ensures Sorted(buffer + [last])
  {
  }

  lemma {:induction false} PlaceIsStable(buffer: Buffer, entry: Entry, t: int)
    requires Sorted(buffer)
    ensures AtTime(Place(buffer, entry), t) == AtTime(buffer, t) + IfAt(entry, t)
  {
    if buffer == [] || buffer[|buffer| - 1].at <= entry.at {
      AtTimeSnoc(buffer, entry, t);
    } else {
      var before, last := buffer[..|buffer| - 1], buffer[|buffer| - 1];
      PlaceIsStable(before, entry, t);
      AtTimeSnoc(Place(before, entry), last, t);
      assert IfAt(last, t) == [] || IfAt(entry, t) == [];
    }
  }

  lemma {:induction false} StableSortPermutes(history: Buffer)
    ensures multiset(StableSort(history)) == multiset(history)
  {
    if history == [] {
    } else {
      var before, last := history[..|history| - 1], history[|history| - 1];
      StableSortPermutes(before);
      PlacePermutes(StableSort(before), last);
      assert history == before + [last];
    }
  }

  lemma {:induction false} StableSortSorts(history: Buffer)
    ensures Sorted(StableSort(history)) && multiset(StableSort(history)) == multiset(history)
  {
    StableSortPermutes(history);
    if history != [] {
      hide Place;
      hide Sorted;
      StableSortSorts(history[..|history| - 1]);
      PlaceSorts(StableSort(history[..|history| - 1]), history[|history| - 1]);
    } else {
      assert StableSort(history) == [];
    }
  }

  lemma {:induction false} StableSortKeepsMoments(history: Buffer, t: int)
    ensures AtTime(StableSort(history), t) == AtTime(history, t)
  {
    if history == [] {
    } else {
      var before, last := history[..|history| - 1], history[|history| - 1];
      StableSortKeepsMoments(before, t);
      StableSortSorts(before);
      PlaceIsStable(StableSort(before), last, t);
    }
  }

  /** `StableSort` is what its name says: sorted, a permutation, and stable. */
  lemma StableSortIsStable(history: Buffer)
    ensures Sorted(StableSort(history)) && multiset(StableSort(history)) == multiset(history)
    ensures forall t :: AtTime(StableSort(history), t) == AtTime(history, t)
  {
    StableSortSorts(history);
    forall t ensures AtTime(StableSort(history), t) == AtTime(history, t) {
      StableSortKeepsMoments(history, t);
    }
  }

  // ---------- The bounded buffer refines the stable sort ----------

  /** On a sorted buffer the binary search stops between the not-later and the later. */
  lemma {:induction false} SearchOnSorted(buffer: Buffer, target: int, low: nat, high: nat)
    requires Sorted(buffer) && low <= high <= |buffer|
    requires forall k | 0 <= k < low :: buffer[k].at <= target
    requires forall k | high <= k < |buffer| :: buffer[k].at > target
    ensures var p := Search(buffer, target, low, high);
            && (forall k | 0 <= k < p :: buffer[k].at <= target)
            && (forall k | p <= k < |buffer| :: buffer[k].at > target)
    decreases high - low
  {
    hide Middle;
    if low < high {
      var middle := Middle(low, high);
      if buffer[middle].at <= target {
        SearchOnSorted(buffer, target, middle + 1, high);
      } else {
        SearchOnSorted(buffer, target, low, middle);
      }
    }
  }

  lemma {:induction false} PlaceIsInsertAt(buffer: Buffer, entry: Entry, p: nat)
    requires p <= |buffer|
    requires forall k | 0 <= k < p :: buffer[k].at <= entry.at
    requires forall k | p <= k < |buffer| :: buffer[k].at > entry.at
    ensures Place(buffer, entry) == InsertAt(buffer, p, entry)
  {
    if p == |buffer| {
      assert buffer[..p] + [entry] + buffer[p..] == buffer + [entry];
    } else {
      var before := buffer[..|buffer| - 1];
      PlaceIsInsertAt(before, entry, p);
      assert InsertAt(buffer, p, entry) == InsertAt(before, p, entry) + [buffer[|buffer| - 1]];
    }
  }

  lemma InsertFreshIsPlace(buffer: Buffer, entry: Entry, limit: nat)
    requires Sorted(buffer)
    requires forall e | e in buffer :: e.id != entry.id
    ensures Insert(buffer, entry, limit) == Newest(Place(buffer, entry), limit)
  {
    assert forall k | 0 <= k < |buffer| :: buffer[k].id != entry.id;
    if buffer != [] && buffer[|buffer| - 1].at > entry.at {
      SearchOnSorted(buffer, entry.at, 0, |buffer|);
      PlaceIsInsertAt(buffer, entry, Search(buffer, entry.at, 0, |buffer|));
    }
  }

  lemma NewestSnoc(buffer: Buffer, entry: Entry, limit: nat)
    requires limit > 0
    ensures Newest(buffer + [entry], limit) == Newest(buffer, limit - 1) + [entry]
  {
  }

  /** Forgetting the oldest before placing does not show in the newest. */
  lemma {:induction false} NewestOfPlace(sorted: Buffer, entry: Entry, limit: nat)
    ensures Newest(Place(Newest(sorted, limit), entry), limit) == Newest(Place(sorted, entry), limit)
    decreases |sorted|
  {
    if |sorted| > limit > 0 {
      var kept, last := Newest(sorted, limit), sorted[|sorted| - 1];
      assert kept[|kept| - 1] == last;
      if last.at <= entry.at {
        NewestSnoc(sorted, entry, limit);
        NewestSnoc(kept, entry, limit);
      } else {
        var before := sorted[..|sorted| - 1];
        NewestOfPlace(before, entry, limit - 1);
        assert kept[..|kept| - 1] == Newest(before, limit - 1);
        NewestSnoc(Place(before, entry), last, limit);
        NewestSnoc(Place(Newest(before, limit - 1), entry), last, limit);
      }
    }
  }

  /** Every message of a history inserted in turn. */
  function InsertAll(buffer: Buffer, history: Buffer, limit: nat): Buffer {
    if history == [] then buffer
    else Insert(InsertAll(buffer, history[..|history| - 1], limit), history[|history| - 1], limit)
  }

  ghost predicate DistinctIds(history: Buffer) {
    forall i, j | 0 <= i < j < |history| :: history[i].id != history[j].id
  }

  /**
    * The bounded buffer refines the stable sort: after any history of messages
    * with distinct ids, in any order of time, the buffer is the newest `limit`
    * of everything ever inserted, stably sorted - although what was evicted is
    * forgotten and places are found by binary search.
    */
  lemma {:induction false} BufferRefinesStableSort(history: Buffer, limit: nat)
    requires DistinctIds(history)
    ensures InsertAll([], history, limit) == Newest(StableSort(history), limit)
  {
    if history == [] {
    } else {
      var before, last := history[..|history| - 1], history[|history| - 1];
      var sorted := StableSort(before);
      BufferRefinesStableSort(before, limit);
      StableSortSorts(before);
      KeptComesFrom(before, limit);
      InsertFreshIsPlace(Newest(sorted, limit), last, limit);
      NewestOfPlace(sorted, last, limit);
    }
  }

  lemma KeptComesFrom(history: Buffer, limit: nat)
    ensures forall e | e in Newest(StableSort(history), limit) :: e in history
  {
    StableSortSorts(history);
    forall e | e in Newest(StableSort(history), limit) ensures e in history {
      assert e in StableSort(history);
      assert e in multiset(StableSort(history));
    }
  }

  // ---------- Ids and length, for every history ----------

  lemma InsertAtKeepsIds(buffer: Buffer, p: nat, entry: Entry)
    requires DistinctIds(buffer) && p <= |buffer|
    requires forall k | 0 <= k < |buffer| :: buffer[k].id != entry.id
    ensures DistinctIds(InsertAt(buffer, p, entry))
  {
    var all := InsertAt(buffer, p, entry);
    forall i, j | 0 <= i < j < |all| ensures all[i].id != all[j].id {
      assert i == p || all[i] == buffer[if i < p then i else i - 1];
      assert j == p || all[j] == buffer[if j < p then j else j - 1];
    }
  }

  lemma NewestKeepsIds(buffer: Buffer, limit: nat)
    requires DistinctIds(buffer)
    ensures DistinctIds(Newest(buffer, limit)) && |Newest(buffer, limit)| <= limit
  {
  }

  /** A message new to the buffer is put in at some place, at the end when it is the latest. */
  lemma InsertFresh(buffer: Buffer, entry: Entry, limit: nat) returns (p: nat)
    requires IndexFrom(buffer, entry.id, 0) == |buffer|
    ensures p <= |buffer| && Insert(buffer, entry, limit) == Newest(InsertAt(buffer, p, entry), limit)
    ensures p == 0 || buffer[p - 1].at <= entry.at
    ensures p == |buffer| || entry.at < buffer[p].at
  {
    hide Newest;
    if buffer == [] || buffer[|buffer| - 1].at <= entry.at {
      p := |buffer|;
      assert InsertAt(buffer, p, entry) == buffer + [entry];
    } else {
      SearchOnAny(buffer, entry.at, 0, |buffer|);
      p := Search(buffer, entry.at, 0, |buffer|);
    }
  }

  lemma InsertKeepsIds(buffer: Buffer, entry: Entry, limit: nat)
    requires DistinctIds(buffer) && |buffer| <= limit
    ensures DistinctIds(Insert(buffer, entry, limit)) && |Insert(buffer, entry, limit)| <= limit
  {
    if IndexFrom(buffer, entry.id, 0) == |buffer| {
      hide Newest;
      hide InsertAt;
      var p := InsertFresh(buffer, entry, limit);
      InsertAtKeepsIds(buffer, p, entry);
      NewestKeepsIds(InsertAt(buffer, p, entry), limit);
    }
  }

  /** Neither operation ever lets two entries share an id or the buffer outgrow its limit. */
  lemma ReconcileKeepsIds(buffer: Buffer, echoed: Entry)
    requires DistinctIds(buffer) && |buffer| <= MESSAGE_LIMIT
    ensures DistinctIds(Reconcile(buffer, echoed)) && |Reconcile(buffer, echoed)| <= MESSAGE_LIMIT
  {
    InsertKeepsIds(buffer, echoed, MESSAGE_LIMIT);
  }

  datatype Operation = Inserted(entry: Entry) | Echoed(entry: Entry)

  function Operate(buffer: Buffer, operations: seq<Operation>): Buffer {
    if operations == [] then buffer
    else
      var before := Operate(buffer, operations[..|operations| - 1]);
      match operations[|operations| - 1]
      case Inserted(entry) => Insert(before, entry, MESSAGE_LIMIT)
      case Echoed(entry) => Reconcile(before, entry)
  }

  /** Over every run of both operations, ids stay unique and the length bounded. */
  lemma {:induction false} RunsKeepIds(operations: seq<Operation>)
    ensures DistinctIds(Operate([], operations)) && |Operate([], operations)| <= MESSAGE_LIMIT
  {
    if operations == [] {
    } else {
      var before := Operate([], operations[..|operations| - 1]);
      RunsKeepIds(operations[..|operations| - 1]);
      match operations[|operations| - 1]
      case Inserted(entry) => InsertKeepsIds(before, entry, MESSAGE_LIMIT);
      case Echoed(entry) => ReconcileKeepsIds(before, entry);
    }
  }

  // ---------- Order to the second ----------

  function Second(at: int): int {
    at / 1000
  }

  ghost predicate SortedBySecond(buffer: Buffer) {
    forall i, j | 0 <= i <= j < |buffer| :: Second(buffer[i].at) <= Second(buffer[j].at)
  }

  /**
    * On any buffer at all, the search stops with a not-later entry just before
    * the place and a later one just after it.
    */
  lemma {:induction false} SearchOnAny(buffer: Buffer, target: int, low: nat, high: nat)
    requires low <= high <= |buffer|
    requires low == 0 || buffer[low - 1].at <= target
    requires high == |buffer| || buffer[high].at > target
    ensures var p := Search(buffer, target, low, high);
            (p == 0 || buffer[p - 1].at <= target) && (p == |buffer| || buffer[p].at > target)
    decreases high - low
  {
    hide Middle;
    if low < high {
      var middle := Middle(low, high);
      if buffer[middle].at <= target {
        assert buffer[(middle + 1) - 1].at <= target;
        SearchOnAny(buffer, target, middle + 1, high);
      } else {
        SearchOnAny(buffer, target, low, middle);
      }
    }
  }

  lemma InsertAtKeepsSeconds(buffer: Buffer, p: nat, entry: Entry)
    requires SortedBySecond(buffer) && p <= |buffer|
    requires p == 0 || Second(buffer[p - 1].at) <= Second(entry.at)
    requires p == |buffer| || Second(entry.at) <= Second(buffer[p].at)
    ensures SortedBySecond(InsertAt(buffer, p, entry))
  {
    var all := InsertAt(buffer, p, entry);
    forall i, j | 0 <= i <= j < |all| ensures Second(all[i].at) <= Second(all[j].at) {
      assert i < p ==> all[i] == buffer[i] && Second(buffer[i].at) <= Second(buffer[p - 1].at);
      assert j > p ==> all[j] == buffer[j - 1] && Second(buffer[p].at) <= Second(buffer[j - 1].at);
      assert i > p ==> all[i] == buffer[i - 1];
      assert j < p ==> all[j] == buffer[j];
    }
  }

  /**
    * Inserting keeps the order to the second, even where merges have broken it
    * to the millisecond and the binary search runs on an unsorted list -
    * provided a copy of a known message falls in the same second.
    */
  lemma InsertKeepsSeconds(buffer: Buffer, entry: Entry, limit: nat)
    requires SortedBySecond(buffer)
    requires forall e | e in buffer && e.id == entry.id :: Second(e.at) == Second(entry.at)
    ensures SortedBySecond(Insert(buffer, entry, limit))
  {
    var existing := IndexFrom(buffer, entry.id, 0);
    if existing == |buffer| {
      hide InsertAt;
      var p := InsertFresh(buffer, entry, limit);
      InsertAtKeepsSeconds(buffer, p, entry);
    } else {
      assert buffer[existing] in buffer;
    }
  }

  /** Equal ids mean the same whole second. */
  ghost predicate IdsAgreeOnSecond(history: Buffer) {
    forall e, f | e in history && f in history && e.id == f.id :: Second(e.at) == Second(f.at)
  }

  /** Where the entries of a buffer come from: an entry of the history with this id and time. */
  ghost predicate DrawnFrom(buffer: Buffer, history: Buffer) {
    forall e | e in buffer :: exists f :: f in history && f.id == e.id && f.at == e.at
  }

  lemma InsertDraws(buffer: Buffer, entry: Entry, limit: nat, history: Buffer)
    requires DrawnFrom(buffer, history)
    ensures DrawnFrom(Insert(buffer, entry, limit), history + [entry])
  {
    var all := history + [entry];
    assert entry in all;
    forall e | e in Insert(buffer, entry, limit)
      ensures exists f :: f in all && f.id == e.id && f.at == e.at
    {
      if e in buffer {
        var f :| f in history && f.id == e.id && f.at == e.at;
        assert f in all;
      } else {
        assert e.id == entry.id && e.at == entry.at;
      }
    }
  }

  /** Near-order over every run of insertions, merges and evictions included. */
  lemma {:induction false} RunsKeepSeconds(history: Buffer, limit: nat)
    requires IdsAgreeOnSecond(history)
    ensures SortedBySecond(InsertAll([], history, limit))
    ensures DrawnFrom(InsertAll([], history, limit), history)
  {
    if history == [] {
    } else {
      var before, last := history[..|history| - 1], history[|history| - 1];
      assert history == before + [last];
      RunsKeepSeconds(before, limit);
      var buffer := InsertAll([], before, limit);
      forall e | e in buffer && e.id == last.id ensures Second(e.at) == Second(last.at) {
        var f :| f in before && f.id == e.id && f.at == e.at;
        assert f in history && last in history;
      }
      InsertKeepsSeconds(buffer, last, limit);
      InsertDraws(buffer, last, limit, before);
    }
  }

  /** Replacing an awaited entry in place keeps that order exactly when the echo fits its neighbours. */
  lemma EchoInPlaceKeepsSeconds(buffer: Buffer, echoed: Entry)
    requires SortedBySecond(buffer)
    requires IndexFrom(buffer, echoed.id, 0) == |buffer| && AwaitingBefore(buffer, echoed, |buffer|) > 0
    ensures var i := AwaitingBefore(buffer, echoed, |buffer|) - 1;
            SortedBySecond(Reconcile(buffer, echoed)) <==>
              (i == 0 || Second(buffer[i - 1].at) <= Second(echoed.at))
              && (i == |buffer| - 1 || Second(echoed.at) <= Second(buffer[i + 1].at))
  {
    var i := AwaitingBefore(buffer, echoed, |buffer|) - 1;
    var next := Reconcile(buffer, echoed);
    assert next == buffer[i := echoed.(pending := false)];
    if SortedBySecond(next) {
      if i > 0 {
        assert Second(next[i - 1].at) <= Second(next[i].at);
      }
      if i < |buffer| - 1 {
        assert Second(next[i].at) <= Second(next[i + 1].at);
      }
    }
  }

  /** Whether an echo that will take the place of a waiting entry fits between its neighbours. */
  predicate EchoFits(buffer: Buffer, echoed: Entry) {
    var awaiting := AwaitingBefore(buffer, echoed, |buffer|);
    IndexFrom(buffer, echoed.id, 0) == |buffer| && awaiting > 0 ==>
      (awaiting == 1 || Second(buffer[awaiting - 2].at) <= Second(echoed.at))
      && (awaiting == |buffer| || Second(echoed.at) <= Second(buffer[awaiting].at))
  }

  lemma EchoKeepsSeconds(buffer: Buffer, echoed: Entry)
    requires SortedBySecond(buffer)
    requires forall e | e in buffer && e.id == echoed.id :: Second(e.at) == Second(echoed.at)
    ensures SortedBySecond(Reconcile(buffer, echoed)) <==> EchoFits(buffer, echoed)
  {
    hide SortedBySecond;
    if IndexFrom(buffer, echoed.id, 0) < |buffer| || AwaitingBefore(buffer, echoed, |buffer|) == 0 {
      InsertKeepsSeconds(buffer, echoed, MESSAGE_LIMIT);
    } else {
      EchoInPlaceKeepsSeconds(buffer, echoed);
    }
  }

  lemma EchoDraws(buffer: Buffer, echoed: Entry, history: Buffer)
    requires DrawnFrom(buffer, history)
    ensures DrawnFrom(Reconcile(buffer, echoed), history + [echoed])
  {
    InsertDraws(buffer, echoed, MESSAGE_LIMIT, history);
    var all := history + [echoed];
    assert echoed in all;
    forall e | e in Reconcile(buffer, echoed)
      ensures exists f :: f in all && f.id == e.id && f.at == e.at
    {
      if e in buffer {
        var f :| f in history && f.id == e.id && f.at == e.at;
        assert f in all;
      }
    }
  }

  /** Every entry that was handed to an operation, in order. */
  function Handed(operations: seq<Operation>): Buffer {
    if operations == [] then []
    else Handed(operations[..|operations| - 1]) + [operations[|operations| - 1].entry]
  }

  /** The buffer was in order to the second after every operation so far. */
  ghost predicate AlwaysSorted(operations: seq<Operation>) {
    SortedBySecond(Operate([], operations))
    && (operations != [] ==> AlwaysSorted(operations[..|operations| - 1]))
  }

  /** Every echo so far fitted where it was placed. */
  predicate EchoesFit(operations: seq<Operation>) {
    operations == [] || (
      var before, last := operations[..|operations| - 1], operations[|operations| - 1];
      EchoesFit(before) && (last.Echoed? ==> EchoFits(Operate([], before), last.entry)))
  }

  /**
    * Over every run of insertions and echoes: if equal ids mean the same second,
    * the buffer stays in order to the second exactly when every echo fits
    * between the neighbours of the entry it takes the place of.
    */
  lemma {:induction false} MixedRunsKeepSeconds(operations: seq<Operation>)
    requires IdsAgreeOnSecond(Handed(operations))
    ensures AlwaysSorted(operations) <==> EchoesFit(operations)
    ensures DrawnFrom(Operate([], operations), Handed(operations))
  {
    if operations == [] {
      assert Operate([], operations) == [];
    } else {
      var before, last := operations[..|operations| - 1], operations[|operations| - 1];
      var history, buffer := Handed(before), Operate([], before);
      AgreementShrinks(history, last.entry);
      MixedRunsKeepSeconds(before);
      KnownAgrees(buffer, history, last.entry);
      hide DrawnFrom;
      hide SortedBySecond;
      hide EchoFits;
      hide IdsAgreeOnSecond;
      match last
      case Inserted(entry) =>
        InsertDraws(buffer, entry, MESSAGE_LIMIT, history);
        if AlwaysSorted(before) {
          InsertKeepsSeconds(buffer, entry, MESSAGE_LIMIT);
        }
      case Echoed(entry) =>
        EchoDraws(buffer, entry, history);
        if AlwaysSorted(before) {
          EchoKeepsSeconds(buffer, entry);
        }
    }
  }

  lemma AgreementShrinks(history: Buffer, last: Entry)
    requires IdsAgreeOnSecond(history + [last])
    ensures IdsAgreeOnSecond(history)
  {
    assert forall e | e in history :: e in history + [last];
  }

  /** A known message with the id of the next one falls in its second. */
  lemma KnownAgrees(buffer: Buffer, history: Buffer, last: Entry)
    requires DrawnFrom(buffer, history) && IdsAgreeOnSecond(history + [last])
    ensures forall e | e in buffer && e.id == last.id :: Second(e.at) == Second(last.at)
  {
    forall e | e in buffer && e.id == last.id ensures Second(e.at) == Second(last.at) {
      var f :| f in history && f.id == e.id && f.at == e.at;
      assert f in history + [last] && last in history + [last];
    }
  }

  // ---------- Derived ids ----------

  function SignedDecimal(n: int): Text {
    if n < 0 then [MINUS] + Decimal(-n) else Decimal(n)
  }

  function DerivedId(at: int, nick: Text, target: Text, text: Text): Text {
    [0x64, COLON] + SignedDecimal(Second(at)) + [COLON] + nick + [COLON] + target + [COLON] + text
  }

  lemma NoColonInDecimal(n: int)
    ensures COLON !in SignedDecimal(n)
  {
    forall i | 0 <= i < |SignedDecimal(n)| ensures SignedDecimal(n)[i] != COLON {
      assert SignedDecimal(n)[i] == MINUS || IsDigit(SignedDecimal(n)[i]);
    }
  }

  function SignedValue(s: Text): int {
    if s != [] && s[0] == MINUS && AllDigits(s[1..]) then -(DecimalValue(s[1..]) as int)
    else if AllDigits(s) then DecimalValue(s) else 0
  }

  lemma SignedRoundTrip(n: int)
    ensures SignedValue(SignedDecimal(n)) == n
  {
    if n < 0 {
      DecimalRoundTrip(-n);
      assert SignedDecimal(n)[1..] == Decimal(-n);
    } else {
      DecimalRoundTrip(n);
      assert IsDigit(SignedDecimal(n)[0]);
    }
  }

  /** Where a derived id's second stops. */
  lemma DerivedIdSecond(at: int, nick: Text, target: Text, text: Text)
    ensures var tail := DerivedId(at, nick, target, text)[2..];
            tail[..Find(tail, COLON)] == SignedDecimal(Second(at))
  {
    var digits := SignedDecimal(Second(at));
    var tail := DerivedId(at, nick, target, text)[2..];
    var rest := [COLON] + nick + [COLON] + target + [COLON] + text;
    NoColonInDecimal(Second(at));
    assert tail == digits + rest;
    FindUnique(tail, COLON, |digits|);
  }

  /** Messages that derive the same id fall in the same second, whatever their names and texts hold. */
  lemma DerivedIdsAgreeOnSecond(
      at: int, nick: Text, target: Text, text: Text, at': int, nick': Text, target': Text, text': Text)
    requires DerivedId(at, nick, target, text) == DerivedId(at', nick', target', text')
    ensures Second(at) == Second(at')
  {
    DerivedIdSecond(at, nick, target, text);
    DerivedIdSecond(at', nick', target', text');
    SignedRoundTrip(Second(at));
    SignedRoundTrip(Second(at'));
  }

  /** Two messages derive the same id exactly when they fall in the same second and read alike. */
  lemma DerivedIdsAreEqualWhen(
      at: int, nick: Text, target: Text, text: Text, at': int, nick': Text, target': Text, text': Text)
    ensures DerivedId(at, nick, target, text) == DerivedId(at', nick', target', text') <==>
              (Second(at) == Second(at')
               && nick + [COLON] + target + [COLON] + text == nick' + [COLON] + target' + [COLON] + text')
    ensures Second(at) * 1000 <= at < Second(at) * 1000 + 1000
  {
    var rest, rest' := nick + [COLON] + target + [COLON] + text, nick' + [COLON] + target' + [COLON] + text';
    var front, front' := Ascii("d:") + SignedDecimal(Second(at)) + Ascii(":"),
                         Ascii("d:") + SignedDecimal(Second(at')) + Ascii(":");
    IdParts(at, nick, target, text);
    IdParts(at', nick', target', text');
    if DerivedId(at, nick, target, text) == DerivedId(at', nick', target', text') {
      DerivedIdsAgreeOnSecond(at, nick, target, text, at', nick', target', text');
      assert (front + rest)[|front|..] == rest && (front' + rest')[|front'|..] == rest';
    }
  }

  lemma IdParts(at: int, nick: Text, target: Text, text: Text)
    ensures DerivedId(at, nick, target, text)
         == Ascii("d:") + SignedDecimal(Second(at)) + Ascii(":") + (nick + [COLON] + target + [COLON] + text)
  {
    hide SignedDecimal;
    assert Ascii("d:") == [0x64, COLON] && Ascii(":") == [COLON];
  }

  /** An entry whose id was derived because the server gave none. */
  predicate HasDerivedId(e: Entry) {
    e.id == DerivedId(e.at, if e.source.Some? then e.source.value.nick else [], e.target, e.text)
  }

  /** Where every id is derived the near-order needs no hypothesis: it holds over every run of insertions. */
  lemma DerivedRunsKeepSeconds(history: Buffer, limit: nat)
    requires forall e | e in history :: HasDerivedId(e)
    ensures SortedBySecond(InsertAll([], history, limit))
  {
    hide DerivedId;
    forall e, f | e in history && f in history && e.id == f.id ensures Second(e.at) == Second(f.at) {
      assert HasDerivedId(e) && HasDerivedId(f);
      var nick := if e.source.Some? then e.source.value.nick else [];
      var nick' := if f.source.Some? then f.source.value.nick else [];
      DerivedIdsAgreeOnSecond(e.at, nick, e.target, e.text, f.at, nick', f.target, f.text);
    }
    RunsKeepSeconds(history, limit);
  }

  // ---------- Copies and echoes, in full ----------

  /** The first entry with this id. */
  predicate IsFirstOf(buffer: Buffer, id: Text, i: nat) {
    i < |buffer| && buffer[i].id == id && forall k | 0 <= k < i :: buffer[k].id != id
  }

  predicate IsUnknown(buffer: Buffer, id: Text) {
    forall e | e in buffer :: e.id != id
  }

  lemma FirstIsFound(buffer: Buffer, id: Text, i: nat)
    requires IsFirstOf(buffer, id, i)
    ensures IndexFrom(buffer, id, 0) == i
  {
    if IndexFrom(buffer, id, 0) < i {
      assert false;
    }
  }

  lemma UnknownIsNotFound(buffer: Buffer, id: Text)
    requires IsUnknown(buffer, id)
    ensures IndexFrom(buffer, id, 0) == |buffer|
  {
  }

  /**
    * A copy of a known message stays where the message is, and confirms it. What
    * it says wins, but a source, an account or a reply it does not name is kept.
    * A pending copy of a message that is already confirmed is dropped.
    */
  lemma CopyIsMerged(buffer: Buffer, copy: Entry, limit: nat, i: nat)
    requires IsFirstOf(buffer, copy.id, i)
    ensures var after, known := Insert(buffer, copy, limit), buffer[i];
            && |after| == |buffer|
            && (forall k | 0 <= k < |buffer| && k != i :: after[k] == buffer[k])
            && if copy.pending && !known.pending then after[i] == known
               else
                 && after[i].id == copy.id && after[i].kind == copy.kind && after[i].at == copy.at
                 && after[i].fromServerTime == copy.fromServerTime && after[i].target == copy.target
                 && after[i].text == copy.text && after[i].tags == copy.tags && !after[i].pending
                 && after[i].source == (if copy.source.None? then known.source else copy.source)
                 && after[i].account == (if copy.account.None? then known.account else copy.account)
                 && after[i].replyTo == (if copy.replyTo.None? then known.replyTo else copy.replyTo)
  {
    FirstIsFound(buffer, copy.id, i);
  }

  /** The newest entry that waits for an echo of this text to this target. */
  predicate IsNewestAwaiting(buffer: Buffer, echoed: Entry, i: nat) {
    && i < |buffer| && buffer[i].pending && buffer[i].target == echoed.target && buffer[i].text == echoed.text
    && forall k | i < k < |buffer| ::
         !(buffer[k].pending && buffer[k].target == echoed.target && buffer[k].text == echoed.text)
  }

  lemma {:induction false} AwaitingIsFound(buffer: Buffer, echoed: Entry, i: nat, end: nat)
    requires IsNewestAwaiting(buffer, echoed, i) && i < end <= |buffer|
    ensures AwaitingBefore(buffer, echoed, end) == i + 1
  {
    if end > i + 1 {
      AwaitingIsFound(buffer, echoed, i, end - 1);
    }
  }

  /**
    * Our own message coming back takes the place of the newest entry that waits
    * for it; known by its id, or awaited by none, it is inserted like any other.
    */
  lemma EchoIsPlaced(buffer: Buffer, echoed: Entry)
    ensures forall i: nat | IsUnknown(buffer, echoed.id) && IsNewestAwaiting(buffer, echoed, i) ::
              Reconcile(buffer, echoed) == buffer[i := echoed.(pending := false)]
    ensures !IsUnknown(buffer, echoed.id) || (forall i: nat :: !IsNewestAwaiting(buffer, echoed, i)) ==>
              Reconcile(buffer, echoed) == Insert(buffer, echoed, 10_000)
  {
    hide Insert;
    forall i: nat | IsUnknown(buffer, echoed.id) && IsNewestAwaiting(buffer, echoed, i)
      ensures Reconcile(buffer, echoed) == buffer[i := echoed.(pending := false)]
    {
      UnknownIsNotFound(buffer, echoed.id);
      AwaitingIsFound(buffer, echoed, i, |buffer|);
    }
    var awaiting := AwaitingBefore(buffer, echoed, |buffer|);
    if awaiting > 0 {
      assert IsNewestAwaiting(buffer, echoed, awaiting - 1);
    }
  }
}
