/**
  * Receiving a file: one attempt's read loop, what becomes of its part-file,
  * and any number of attempts one after another. A file is its bytes. What the
  * socket, the disk and the user do is given as a sequence of arrivals.
  */
module Transfer {
  import opened Units
  import opened Utf8

  const MAX_UNKNOWN_SIZE: nat := 4 * 1024 * 1024 * 1024
  const PROGRESS_STEP: nat := 1024 * 1024

  datatype Error = Cancelled | Timeout | Network

  datatype Outcome = Done | Failed(error: Error)

  /** One turn of the loop as the outside decides it. */
  datatype Arrival =
    | Chunk(bytes: Bytes)                     // a read; empty when the peer has closed
    | ChunkNotWritten(bytes: Bytes, kept: nat) // a read the disk refuses after some bytes
    | Interrupted(error: Error)               // a cancel, a timeout or a socket error

  datatype Terms = Terms(size: Option<nat>, turbo: bool, resumeFrom: Option<nat>)

  function CapOf(terms: Terms): nat {
    if terms.size.Some? then terms.size.value else MAX_UNKNOWN_SIZE
  }

  function StartOf(terms: Terms): nat {
    if terms.resumeFrom.Some? then terms.resumeFrom.value else 0
  }

  /** What an attempt leaves behind: the part-file, its answer, and what it sent and reported. */
  datatype Attempt = Attempt(file: Option<Bytes>, outcome: Outcome, acks: seq<nat>, reports: seq<nat>)

  /** `set_len`: shorter files are extended with zeros. */
  function SetLength(file: Bytes, length: nat): (r: Bytes)
    ensures |r| == length
  {
    if length <= |file| then file[..length] else file + seq(length - |file|, i => 0)
  }

  function Take(bytes: Bytes, n: nat): Bytes {
    if n < |bytes| then bytes[..n] else bytes
  }

  /** `(received as u32)`, the value of the four bytes acknowledged. */
  function Acknowledgement(received: nat): nat {
    received % 0x1_0000_0000
  }

  // ---------- The loop as a function ----------

  datatype Progress = Progress(file: Bytes, received: nat, reported: nat, acks: seq<nat>, reports: seq<nat>)

  function Wrote(p: Progress, bytes: Bytes, turbo: bool): Progress {
    var received := p.received + |bytes|;
    var due := received - p.reported >= PROGRESS_STEP;
    Progress(p.file + bytes, received, if due then received else p.reported,
             if turbo then p.acks else p.acks + [Acknowledgement(received)],
             if due then p.reports + [received] else p.reports)
  }

  datatype Received = Received(progress: Progress, outcome: Outcome)

  /** The loop from arrival `i` on; running out of arrivals is the peer closing. */
  function Receive(p: Progress, terms: Terms, arrivals: seq<Arrival>, i: nat): Received
    requires i <= |arrivals|
    decreases |arrivals| - i
  {
    var cap := CapOf(terms);
    if p.received >= cap || i == |arrivals| then Received(p, Done)
    else
      match arrivals[i]
      case Interrupted(error) => Received(p, Failed(error))
      case ChunkNotWritten(bytes, kept) =>
        Received(p.(file := p.file + Take(Take(bytes, cap - p.received), kept)), Failed(Network))
      case Chunk(bytes) =>
        var taken := Take(bytes, cap - p.received);
        if bytes == [] then Received(p, Done)
        else if |taken| < |bytes| then Received(Wrote(p, taken, terms.turbo), Done)
        else Receive(Wrote(p, taken, terms.turbo), terms, arrivals, i + 1)
  }

  /** One turn of the loop on a read that is not empty: go on, or stop at the cap. */
  lemma ReceiveChunk(p: Progress, terms: Terms, arrivals: seq<Arrival>, i: nat)
    requires i < |arrivals| && p.received < CapOf(terms) && arrivals[i].Chunk? && arrivals[i].bytes != []
    ensures var bytes := arrivals[i].bytes;
            var taken := Take(bytes, CapOf(terms) - p.received);
            var next := Wrote(p, taken, terms.turbo);
            Receive(p, terms, arrivals, i)
              == if |taken| < |bytes| then Received(next, Done) else Receive(next, terms, arrivals, i + 1)
  {
    hide Take;
    hide Wrote;
    hide CapOf;
  }

  /** The turns that end the loop. */
  lemma ReceiveLast(p: Progress, terms: Terms, arrivals: seq<Arrival>, i: nat)
    requires i <= |arrivals|
    requires p.received < CapOf(terms) && i < |arrivals| ==> !arrivals[i].Chunk? || arrivals[i].bytes == []
    ensures Receive(p, terms, arrivals, i)
         == if p.received >= CapOf(terms) || i == |arrivals| || arrivals[i].Chunk? then Received(p, Done)
            else if arrivals[i].Interrupted? then Received(p, Failed(arrivals[i].error))
            else
              var taken := Take(arrivals[i].bytes, CapOf(terms) - p.received);
              Received(p.(file := p.file + Take(taken, arrivals[i].kept)), Failed(Network))
  {
    hide Take;
    hide Wrote;
    hide CapOf;
  }

  function Reopened(part: Option<Bytes>, terms: Terms): Option<Bytes> {
    if StartOf(terms) == 0 then Some([])
    else if part.None? then None
    else Some(SetLength(part.value, StartOf(terms)))
  }

  /** One call of `stream_to_file` on a given part-file; `flushed` says whether the last flush succeeds. */
  function Stream(part: Option<Bytes>, terms: Terms, arrivals: seq<Arrival>, flushed: bool): Attempt {
    var handle := Reopened(part, terms);
    if handle.None? then Attempt(None, Failed(Network), [], [])
    else
      var start := StartOf(terms);
      var Received(p, outcome) := Receive(Progress(handle.value, start, start, [], [start]), terms, arrivals, 0);
      if outcome != Done then Attempt(Some(p.file), outcome, p.acks, p.reports)
      else if !flushed || (terms.size.Some? && p.received < terms.size.value)
      then Attempt(Some(p.file), Failed(Network), p.acks, p.reports)
      else Attempt(Some(p.file), Done, p.acks, p.reports + [p.received])
  }

  /** What one transfer has on disk: its part-file, and the finished file. */
  datatype Stored = Stored(part: Option<Bytes>, finished: Option<Bytes>)

  function Settled(disk: Stored, outcome: Outcome, renames: bool): Stored {
    match outcome
    case Done => if renames then Stored(None, disk.part) else disk
    case Failed(error) => if error == Cancelled then Stored(None, disk.finished) else disk
  }

  /** The disk as one transfer sees it: its part-file, and the finished file it is renamed to. */
  class Disk {
    var part: Option<Bytes>
    var finished: Option<Bytes>

    constructor ()
      ensures part == None && finished == None
    {
      part, finished := None, None;
    }

    method StreamToFile(terms: Terms, arrivals: seq<Arrival>, flushed: bool)
      returns (outcome: Outcome, acks: seq<nat>, reports: seq<nat>)
      modifies this
      ensures finished == old(finished)
      ensures Attempt(part, outcome, acks, reports) == Stream(old(part), terms, arrivals, flushed)
    {
      acks, reports := [], [];
      if terms.resumeFrom.Some? && terms.resumeFrom.value > 0 {
        if part.None? {
          return Failed(Network), [], [];
        }
        part := Some(SetLength(part.value, terms.resumeFrom.value));
      } else {
        part := Some([]);
      }
      var received := StartOf(terms);
      reports := [received];
      outcome, received, acks, reports := ReadLoop(terms, arrivals, received);
      if outcome != Done {
        return;
      }
      if !flushed || (terms.size.Some? && received < terms.size.value) {
        return Failed(Network), acks, reports;
      }
      reports := reports + [received];
    }

    method ReadLoop(terms: Terms, arrivals: seq<Arrival>, start: nat)
      returns (outcome: Outcome, received: nat, acks: seq<nat>, reports: seq<nat>)
      requires part.Some?
      modifies this
      ensures finished == old(finished) && part.Some?
      ensures var end := Receive(Progress(old(part.value), start, start, [], [start]), terms, arrivals, 0);
              && end.outcome == outcome && end.progress.file == part.value
              && end.progress.received == received && end.progress.acks == acks && end.progress.reports == reports
    {
      hide Receive;
      hide Take;
      hide CapOf;
      var cap := CapOf(terms);
      var file := part.value;
      var reported := start;
      received, acks, reports := start, [], [start];
      var i := 0;
      while received < cap && i < |arrivals|
        invariant 0 <= i <= |arrivals| && part == Some(file) && finished == old(finished)
        invariant Receive(Progress(old(part.value), start, start, [], [start]), terms, arrivals, 0)
               == Receive(Progress(file, received, reported, acks, reports), terms, arrivals, i)
      {
        ghost var p := Progress(file, received, reported, acks, reports);
        if !arrivals[i].Chunk? || arrivals[i].bytes == [] {
          ReceiveLast(p, terms, arrivals, i);
          if arrivals[i].Interrupted? {
            return Failed(arrivals[i].error), received, acks, reports;
          }
          if arrivals[i].ChunkNotWritten? {
            part := Some(file + Take(Take(arrivals[i].bytes, cap - received), arrivals[i].kept));
            return Failed(Network), received, acks, reports;
          }
          return Done, received, acks, reports;
        }
        ReceiveChunk(p, terms, arrivals, i);
        var bytes := arrivals[i].bytes;
        var taken := Take(bytes, cap - received);
        file := file + taken;
        part := Some(file);
        received := received + |taken|;
        if !terms.turbo {
          acks := acks + [Acknowledgement(received)];
        }
        if received - reported >= PROGRESS_STEP {
          reported := received;
          reports := reports + [received];
        }
        if |taken| < |bytes| {
          return Done, received, acks, reports;
        }
        i := i + 1;
      }
      ReceiveLast(Progress(file, received, reported, acks, reports), terms, arrivals, i);
      outcome := Done;
    }

    /**
      * What becomes of the part-file: renamed when it is complete, if the disk
      * lets it; removed on a cancel; kept for the next attempt otherwise.
      */
    method Settle(outcome: Outcome, renames: bool) returns (answer: Outcome)
      modifies this
      ensures Stored(part, finished) == Settled(Stored(old(part), old(finished)), outcome, renames)
      ensures answer == if outcome == Done && !renames then Failed(Network) else outcome
    {
      answer := outcome;
      match outcome
      case Done =>
        if !renames {
          return Failed(Network);
        }
        finished := part;
        part := None;
      case Failed(error) =>
        if error == Cancelled {
          part := None;
        }
    }
  }

  // ---------- One attempt ----------

  /** The bytes the peer sends from arrival `i` on, as far as they are read at all. */
  function Sent(arrivals: seq<Arrival>, i: nat): Bytes
    requires i <= |arrivals|
    decreases |arrivals| - i
  {
    if i == |arrivals| then []
    else
      match arrivals[i]
      case Interrupted(_) => []
      case ChunkNotWritten(bytes, _) => bytes
      case Chunk(bytes) => if bytes == [] then [] else bytes + Sent(arrivals, i + 1)
  }

  /** The sent bytes are the source from `start` on; past the cap they may be anything. */
  predicate Faithful(sent: Bytes, source: Bytes, start: nat, cap: nat) {
    start <= |source| && (start < cap ==> Take(sent, cap - start) <= source[start..])
  }

  lemma FaithfulPiece(bytes: Bytes, rest: Bytes, source: Bytes, start: nat, cap: nat)
    requires start < cap && Faithful(bytes + rest, source, start, cap)
    ensures source[..start] + Take(bytes, cap - start) <= source
    ensures |bytes| <= cap - start ==> Faithful(rest, source, start + |bytes|, cap)
    ensures |bytes| <= cap - start ==>
              start + |bytes| <= |source| && source[..start] + bytes == source[..start + |bytes|]
  {
    var all, taken := Take(bytes + rest, cap - start), Take(bytes, cap - start);
    assert taken == all[..|taken|];
    assert taken == source[start..][..|taken|];
    assert source[start..][..|taken|] == source[start..start + |taken|];
    assert source[..start] + source[start..start + |taken|] == source[..start + |taken|];
    if start + |bytes| < cap {
      var more := Take(rest, cap - start - |bytes|);
      assert all == bytes + more;
      assert more == all[|bytes|..];
      assert source[start + |bytes|..] == source[start..][|bytes|..];
    }
  }

  lemma TakeIsPrefix(file: Bytes, bytes: Bytes, n: nat)
    ensures file + Take(bytes, n) <= file + bytes
  {
  }

  lemma PrefixTrans(a: Bytes, b: Bytes, c: Bytes)
    requires a <= b && b <= c
    ensures a <= c
  {
  }

  ghost predicate WritesSource(p: Progress, end: Received, cap: nat, source: Bytes) {
    && end.progress.file <= source
    && p.received <= end.progress.received
    && (p.received <= cap ==> end.progress.received <= cap)
    && (p.received >= cap ==> end.progress.received == p.received)
    && (end.outcome == Done ==> |end.progress.file| == end.progress.received)
  }

  /** A write that the disk cuts short still leaves the source's bytes. */
  lemma ShortWrite(file: Bytes, bytes: Bytes, kept: nat, source: Bytes, start: nat, cap: nat)
    requires start < cap && Faithful(bytes, source, start, cap) && file == source[..start]
    ensures file + Take(Take(bytes, cap - start), kept) <= source
  {
    assert bytes + [] == bytes;
    FaithfulPiece(bytes, [], source, start, cap);
    var taken := Take(bytes, cap - start);
    TakeIsPrefix(file, taken, kept);
    PrefixTrans(file + Take(taken, kept), file + taken, source);
  }

  lemma SentChunk(arrivals: seq<Arrival>, i: nat)
    requires i < |arrivals| && arrivals[i].Chunk? && arrivals[i].bytes != []
    ensures Sent(arrivals, i) == arrivals[i].bytes + Sent(arrivals, i + 1)
  {
  }

  /** What one read adds to the file, and what is left to be read, are the source's. */
  lemma ChunkWritesSource(p: Progress, bytes: Bytes, rest: Bytes, turbo: bool, source: Bytes, cap: nat)
    requires p.received < cap && p.received <= |source| && p.file == source[..p.received]
    requires Faithful(bytes + rest, source, p.received, cap)
    ensures var next := Wrote(p, Take(bytes, cap - p.received), turbo);
            && next.file <= source && |next.file| == next.received <= cap
            && next.received >= p.received
            && (|bytes| <= cap - p.received ==>
                  next.received <= |source| && next.file == source[..next.received]
                  && Faithful(rest, source, next.received, cap))
  {
    FaithfulPiece(bytes, rest, source, p.received, cap);
  }

  /** The loop writes the source, in order and no further than the cap. */
  lemma {:induction false} ReceiveWritesSource(p: Progress, terms: Terms, arrivals: seq<Arrival>, i: nat, source: Bytes)
    requires i <= |arrivals|
    requires p.received <= |source| && p.file == source[..p.received]
    requires Faithful(Sent(arrivals, i), source, p.received, CapOf(terms))
    ensures WritesSource(p, Receive(p, terms, arrivals, i), CapOf(terms), source)
    decreases |arrivals| - i
  {
    hide Receive;
    hide Faithful;
    hide Wrote;
    hide CapOf;
    var cap := CapOf(terms);
    if p.received < cap && i < |arrivals| && arrivals[i].Chunk? && arrivals[i].bytes != [] {
      var bytes := arrivals[i].bytes;
      SentChunk(arrivals, i);
      ReceiveChunk(p, terms, arrivals, i);
      ChunkWritesSource(p, bytes, Sent(arrivals, i + 1), terms.turbo, source, cap);
      if |bytes| <= cap - p.received {
        ReceiveWritesSource(Wrote(p, Take(bytes, cap - p.received), terms.turbo), terms, arrivals, i + 1, source);
      }
    } else {
      ReceiveLast(p, terms, arrivals, i);
      if p.received < cap && i < |arrivals| && arrivals[i].ChunkNotWritten? {
        ShortWrite(p.file, arrivals[i].bytes, arrivals[i].kept, source, p.received, cap);
      }
    }
  }

  /** A part-file that may be continued from: a prefix of the source, at least as long as the position. */
  predicate Continues(part: Option<Bytes>, terms: Terms, source: Bytes) {
    && (part.Some? ==> part.value <= source)
    && (part.Some? && StartOf(terms) > 0 ==> StartOf(terms) <= |part.value|)
  }

  /**
    * One attempt leaves a prefix of the source in the part-file, whatever cuts
    * it short. If it succeeds for a known size it leaves exactly that many bytes
    * of the source, even when the peer sends more - exactly if the position it
    * resumed from was not already past that size.
    */
  lemma AttemptKeepsPrefix(part: Option<Bytes>, terms: Terms, arrivals: seq<Arrival>, flushed: bool, source: Bytes)
    requires Continues(part, terms, source)
    requires Faithful(Sent(arrivals, 0), source, StartOf(terms), CapOf(terms))
    ensures var a := Stream(part, terms, arrivals, flushed);
            && (a.file.Some? ==> a.file.value <= source)
            && (a.outcome == Done ==> a.file.Some?)
            && (a.outcome == Done && terms.size.Some? ==>
                 var n := terms.size.value;
                 && n <= |source|
                 && (a.file.value == source[..n] <==> StartOf(terms) <= n))
  {
    var handle := Reopened(part, terms);
    if handle.Some? {
      var start := StartOf(terms);
      var p := Progress(handle.value, start, start, [], [start]);
      assert p.file == source[..start];
      ReceiveWritesSource(p, terms, arrivals, 0, source);
      var q := Receive(p, terms, arrivals, 0).progress;
      assert q.file == source[..|q.file|];
    }
  }

  // ---------- Acknowledgements ----------

  /** Where the unbroken run of reads from arrival `i` ends: at a close, an interruption or a refused write. */
  function RunEnd(arrivals: seq<Arrival>, i: nat): (end: nat)
    requires i <= |arrivals|
    ensures i <= end <= |arrivals|
    ensures forall k | i <= k < end :: arrivals[k].Chunk? && arrivals[k].bytes != []
    ensures end < |arrivals| ==> !arrivals[end].Chunk? || arrivals[end].bytes == []
    decreases |arrivals| - i
  {
    if i < |arrivals| && arrivals[i].Chunk? && arrivals[i].bytes != [] then RunEnd(arrivals, i + 1) else i
  }

  /** How many bytes the arrivals from `i` up to `j` carry. */
  function BytesIn(arrivals: seq<Arrival>, i: nat, j: nat): nat
    requires i <= j <= |arrivals|
    decreases j - i
  {
    if i == j then 0 else (if arrivals[i].Chunk? then |arrivals[i].bytes| else 0) + BytesIn(arrivals, i + 1, j)
  }

  function AtMost(n: nat, cap: nat): nat {
    if n < cap then n else cap
  }

  /** The acknowledgements the loop sends from arrival `i` on. */
  function Acks(received: nat, cap: nat, arrivals: seq<Arrival>, i: nat): seq<nat>
    requires i <= |arrivals|
    decreases |arrivals| - i
  {
    if received >= cap || i == |arrivals| || !arrivals[i].Chunk? || arrivals[i].bytes == [] then []
    else
      var total := AtMost(received + |arrivals[i].bytes|, cap);
      [Acknowledgement(total)] + Acks(total, cap, arrivals, i + 1)
  }

  function AcksUnlessTurbo(turbo: bool, received: nat, cap: nat, arrivals: seq<Arrival>, i: nat): seq<nat>
    requires i <= |arrivals|
  {
    if turbo then [] else Acks(received, cap, arrivals, i)
  }

  lemma AckOfChunk(p: Progress, terms: Terms, arrivals: seq<Arrival>, i: nat)
    requires p.received < CapOf(terms) && i < |arrivals| && arrivals[i].Chunk? && arrivals[i].bytes != []
    ensures var next := Wrote(p, Take(arrivals[i].bytes, CapOf(terms) - p.received), terms.turbo);
            p.acks + AcksUnlessTurbo(terms.turbo, p.received, CapOf(terms), arrivals, i)
              == next.acks + AcksUnlessTurbo(terms.turbo, next.received, CapOf(terms), arrivals, i + 1)
  {
  }

  lemma {:induction false} ReceiveAcks(p: Progress, terms: Terms, arrivals: seq<Arrival>, i: nat)
    requires i <= |arrivals|
    ensures Receive(p, terms, arrivals, i).progress.acks
         == p.acks + AcksUnlessTurbo(terms.turbo, p.received, CapOf(terms), arrivals, i)
    decreases |arrivals| - i
  {
    var cap := CapOf(terms);
    if p.received < cap && i < |arrivals| && arrivals[i].Chunk? && arrivals[i].bytes != [] {
      var next := Wrote(p, Take(arrivals[i].bytes, cap - p.received), terms.turbo);
      AckOfChunk(p, terms, arrivals, i);
      if next.received < cap || |arrivals[i].bytes| == cap - p.received {
        ReceiveAcks(next, terms, arrivals, i + 1);
      }
    }
  }

  /** The `k`th acknowledgement from arrival `i` on: sent while bytes are missing, with the total so far. */
  predicate IsRunningTotal(received: nat, cap: nat, arrivals: seq<Arrival>, i: nat, k: nat, ack: nat)
    requires i + k < |arrivals|
  {
    && received + BytesIn(arrivals, i, i + k) < cap
    && ack == Acknowledgement(AtMost(received + BytesIn(arrivals, i, i + k + 1), cap))
  }

  lemma NextRunningTotal(received: nat, cap: nat, arrivals: seq<Arrival>, i: nat, k: nat, ack: nat)
    requires i + k + 1 < |arrivals| && arrivals[i].Chunk? && received + |arrivals[i].bytes| < cap
    requires IsRunningTotal(received + |arrivals[i].bytes|, cap, arrivals, i + 1, k, ack)
    ensures IsRunningTotal(received, cap, arrivals, i, k + 1, ack)
  {
  }

  lemma {:induction false} AcksClosedForm(received: nat, cap: nat, arrivals: seq<Arrival>, i: nat)
    requires i <= |arrivals| && received <= cap
    ensures var acks := Acks(received, cap, arrivals, i);
            && i + |acks| <= RunEnd(arrivals, i)
            && (i + |acks| < RunEnd(arrivals, i) ==> received + BytesIn(arrivals, i, i + |acks|) >= cap)
            && forall k | 0 <= k < |acks| :: IsRunningTotal(received, cap, arrivals, i, k, acks[k])
    decreases |arrivals| - i
  {
    hide Acknowledgement;
    if received < cap && i < |arrivals| && arrivals[i].Chunk? && arrivals[i].bytes != [] {
      var total := AtMost(received + |arrivals[i].bytes|, cap);
      var acks, rest := Acks(received, cap, arrivals, i), Acks(total, cap, arrivals, i + 1);
      AcksClosedForm(total, cap, arrivals, i + 1);
      assert |acks| == 1 + |rest| && (total == cap ==> rest == []);
      assert BytesIn(arrivals, i, i + |acks|) == |arrivals[i].bytes| + BytesIn(arrivals, i + 1, i + |acks|);
      forall k | 0 <= k < |acks| ensures IsRunningTotal(received, cap, arrivals, i, k, acks[k]) {
        if k == 0 {
          assert BytesIn(arrivals, i, i + 1) == |arrivals[i].bytes| + BytesIn(arrivals, i + 1, i + 1);
        } else {
          assert acks[k] == rest[k - 1];
          NextRunningTotal(received, cap, arrivals, i, k - 1, acks[k]);
        }
      }
    }
  }

  lemma TotalFromStart(start: nat, cap: nat, arrivals: seq<Arrival>, k: nat, ack: nat)
    requires k < |arrivals| && IsRunningTotal(start, cap, arrivals, 0, k, ack)
    ensures start + BytesIn(arrivals, 0, k) < cap
    ensures ack == AtMost(start + BytesIn(arrivals, 0, k + 1), cap) % 0x1_0000_0000
  {
  }

  lemma StreamAcks(part: Option<Bytes>, terms: Terms, arrivals: seq<Arrival>, flushed: bool)
    ensures Stream(part, terms, arrivals, flushed).acks
         == if StartOf(terms) > 0 && part.None? then []
            else AcksUnlessTurbo(terms.turbo, StartOf(terms), CapOf(terms), arrivals, 0)
  {
    var handle := Reopened(part, terms);
    if handle.Some? {
      var start := StartOf(terms);
      ReceiveAcks(Progress(handle.value, start, start, [], [start]), terms, arrivals, 0);
    }
  }

  /**
    * Every acknowledgement is the running total modulo 2^32: where the attempt
    * began plus what has arrived so far, capped at the agreed size. There is one
    * for each read until the size is reached; a turbo sender gets none.
    */
  lemma AcksAreRunningTotals(part: Option<Bytes>, terms: Terms, arrivals: seq<Arrival>, flushed: bool)
    ensures var acks := Stream(part, terms, arrivals, flushed).acks;
            var start, cap, end := StartOf(terms), CapOf(terms), RunEnd(arrivals, 0);
            if terms.turbo || (start > 0 && part.None?) || start >= cap then acks == []
            else
              && |acks| <= end && (|acks| < end ==> start + BytesIn(arrivals, 0, |acks|) >= cap)
              && forall k | 0 <= k < |acks| ::
                   && start + BytesIn(arrivals, 0, k) < cap
                   && acks[k] == AtMost(start + BytesIn(arrivals, 0, k + 1), cap) % 0x1_0000_0000
  {
    StreamAcks(part, terms, arrivals, flushed);
    var start, cap := StartOf(terms), CapOf(terms);
    var acks := Acks(start, cap, arrivals, 0);
    hide Stream;
    hide CapOf;
    hide StartOf;
    hide Acks;
    if start < cap {
      AcksClosedForm(start, cap, arrivals, 0);
      hide RunEnd;
      hide AtMost;
      forall k | 0 <= k < |acks|
        ensures start + BytesIn(arrivals, 0, k) < cap
        ensures acks[k] == AtMost(start + BytesIn(arrivals, 0, k + 1), cap) % 0x1_0000_0000
      {
        TotalFromStart(start, cap, arrivals, k, acks[k]);
      }
    } else {
      NoAcksAtTheCap(start, cap, arrivals);
    }
  }

  lemma NoAcksAtTheCap(start: nat, cap: nat, arrivals: seq<Arrival>)
    requires start >= cap
    ensures Acks(start, cap, arrivals, 0) == []
  {
  }

  // ---------- When an attempt succeeds ----------

  /** The peer closes after the run, rather than anything going wrong. */
  predicate ClosesAfter(arrivals: seq<Arrival>, end: nat)
    requires end <= |arrivals|
  {
    end == |arrivals| || arrivals[end].Chunk?
  }

  /** The bytes of the arrivals from `i` up to `j`. */
  function Joined(arrivals: seq<Arrival>, i: nat, j: nat): (bytes: Bytes)
    requires i <= j <= |arrivals| && forall k | i <= k < j :: arrivals[k].Chunk?
    ensures |bytes| == BytesIn(arrivals, i, j)
    decreases j - i
  {
    if i == j then [] else arrivals[i].bytes + Joined(arrivals, i + 1, j)
  }

  lemma TakeJoined(file: Bytes, bytes: Bytes, rest: Bytes, room: nat)
    ensures |bytes| > room ==> file + Take(bytes, room) == file + Take(bytes + rest, room)
    ensures |bytes| <= room ==> (file + bytes) + Take(rest, room - |bytes|) == file + Take(bytes + rest, room)
    ensures |bytes| <= room ==> Take(bytes, room) == bytes
  {
    if |bytes| <= room {
      assert Take(bytes + rest, room) == bytes + Take(rest, room - |bytes|);
    } else {
      assert Take(bytes + rest, room) == bytes[..room];
    }
  }

  /** How the loop ends, after how many bytes, and with which in the file. */
  ghost predicate EndsAsRead(p: Progress, terms: Terms, arrivals: seq<Arrival>, i: nat, r: Received)
    requires i <= |arrivals|
  {
    var cap, end := CapOf(terms), RunEnd(arrivals, i);
    var got := p.received + BytesIn(arrivals, i, end);
    if p.received >= cap then r == Received(p, Done)
    else
      && (got >= cap || ClosesAfter(arrivals, end) ==> r.outcome == Done)
      && (got < cap && !ClosesAfter(arrivals, end) ==>
            r.outcome == Failed(if arrivals[end].Interrupted? then arrivals[end].error else Network))
      && r.progress.received == AtMost(got, cap)
      && (got >= cap || ClosesAfter(arrivals, end) || arrivals[end].Interrupted? ==>
            r.progress.file == p.file + Take(Joined(arrivals, i, end), cap - p.received))
  }

  lemma ChunkEndsAsRead(p: Progress, terms: Terms, arrivals: seq<Arrival>, i: nat, r: Received)
    requires i < |arrivals| && arrivals[i].Chunk? && arrivals[i].bytes != [] && p.received < CapOf(terms)
    requires var bytes, room := arrivals[i].bytes, CapOf(terms) - p.received;
             if |bytes| > room then r == Received(Wrote(p, Take(bytes, room), terms.turbo), Done)
             else EndsAsRead(Wrote(p, bytes, terms.turbo), terms, arrivals, i + 1, r)
    ensures EndsAsRead(p, terms, arrivals, i, r)
  {
    hide CapOf;
    TakeJoined(p.file, arrivals[i].bytes, Joined(arrivals, i + 1, RunEnd(arrivals, i)), CapOf(terms) - p.received);
    assert BytesIn(arrivals, i, RunEnd(arrivals, i)) >= |arrivals[i].bytes|;
    hide Take;
  }

  lemma {:induction false} ReceiveEndsAsRead(p: Progress, terms: Terms, arrivals: seq<Arrival>, i: nat)
    requires i <= |arrivals|
    ensures EndsAsRead(p, terms, arrivals, i, Receive(p, terms, arrivals, i))
    decreases |arrivals| - i
  {
    var cap := CapOf(terms);
    hide CapOf;
    hide Receive;
    if p.received < cap && i < |arrivals| && arrivals[i].Chunk? && arrivals[i].bytes != [] {
      var bytes := arrivals[i].bytes;
      ReceiveChunk(p, terms, arrivals, i);
      TakeJoined(p.file, bytes, [], cap - p.received);
      if |bytes| <= cap - p.received {
        ReceiveEndsAsRead(Wrote(p, bytes, terms.turbo), terms, arrivals, i + 1);
      }
      hide EndsAsRead;
      ChunkEndsAsRead(p, terms, arrivals, i, Receive(p, terms, arrivals, i));
    } else {
      ReceiveLast(p, terms, arrivals, i);
    }
  }

  /**
    * Exactly when an attempt succeeds: the part-file can be opened at the agreed
    * position, the flush succeeds, and what was there and what arrives in one run
    * of reads reach the agreed size - or, for an unknown size, reach the ceiling
    * or are followed by the peer closing. Then the file is the part-file cut to
    * the position and the bytes read, no further than the size.
    */
  lemma SucceedsExactly(part: Option<Bytes>, terms: Terms, arrivals: seq<Arrival>, flushed: bool)
    ensures var a := Stream(part, terms, arrivals, flushed);
            var start, end := StartOf(terms), RunEnd(arrivals, 0);
            var got := start + BytesIn(arrivals, 0, end);
            && (a.outcome == Done <==>
                 && (start == 0 || part.Some?) && flushed
                 && (if terms.size.Some? then got >= terms.size.value
                     else got >= MAX_UNKNOWN_SIZE || ClosesAfter(arrivals, end)))
            && (a.outcome == Done ==>
                 var room := if start < CapOf(terms) then CapOf(terms) - start else 0;
                 a.file == Some((if start == 0 then [] else SetLength(part.value, start))
                                + Take(Joined(arrivals, 0, end), room)))
  {
    if Reopened(part, terms).Some? {
      var start := StartOf(terms);
      var p := Progress(Reopened(part, terms).value, start, start, [], [start]);
      ReceiveEndsAsRead(p, terms, arrivals, 0);
      assert p.file + [] == p.file;
    }
  }

  /** Why an attempt fails: what interrupted it, or the network for anything else. */
  lemma FailsExactly(part: Option<Bytes>, terms: Terms, arrivals: seq<Arrival>, flushed: bool, error: Error)
    ensures var start, end := StartOf(terms), RunEnd(arrivals, 0);
            var got := start + BytesIn(arrivals, 0, end);
            var goingOn := (start == 0 || part.Some?) && got < CapOf(terms);
            var interrupted := goingOn && end < |arrivals| && arrivals[end].Interrupted?;
            Stream(part, terms, arrivals, flushed).outcome == Failed(error) <==>
              if interrupted then error == arrivals[end].error
              else error == Network && Stream(part, terms, arrivals, flushed).outcome != Done
  {
    if Reopened(part, terms).Some? {
      var start := StartOf(terms);
      var p := Progress(Reopened(part, terms).value, start, start, [], [start]);
      ReceiveEndsAsRead(p, terms, arrivals, 0);
    }
  }

  // ---------- Progress reports ----------

  /** The reports are a step or more apart, and the last is less than a step behind. */
  ghost predicate KeptUp(p: Progress) {
    && p.reports != [] && p.reports[|p.reports| - 1] == p.reported
    && 0 <= p.received - p.reported < PROGRESS_STEP
    && forall k | 0 < k < |p.reports| :: p.reports[k] >= p.reports[k - 1] + PROGRESS_STEP
  }

  /** One read: a report that is due is made at once. */
  lemma WroteKeepsUp(p: Progress, bytes: Bytes, turbo: bool)
    requires KeptUp(p)
    ensures KeptUp(Wrote(p, bytes, turbo)) && p.reports <= Wrote(p, bytes, turbo).reports
  {
  }

  lemma {:induction false} ReceiveKeepsUp(p: Progress, terms: Terms, arrivals: seq<Arrival>, i: nat)
    requires i <= |arrivals| && KeptUp(p)
    ensures var r := Receive(p, terms, arrivals, i).progress;
            KeptUp(r) && p.reports <= r.reports
    decreases |arrivals| - i
  {
    if p.received < CapOf(terms) && i < |arrivals| && arrivals[i].Chunk? && arrivals[i].bytes != [] {
      hide CapOf;
      hide Receive;
      hide Wrote;
      hide KeptUp;
      hide Take;
      var taken := Take(arrivals[i].bytes, CapOf(terms) - p.received);
      ReceiveChunk(p, terms, arrivals, i);
      WroteKeepsUp(p, taken, terms.turbo);
      ReceiveKeepsUp(Wrote(p, taken, terms.turbo), terms, arrivals, i + 1);
    } else {
      hide Receive;
      ReceiveLast(p, terms, arrivals, i);
    }
  }

  /** The reports made while reading, from a start to a total. */
  ghost predicate StepwiseReports(steps: seq<nat>, start: nat, total: nat) {
    && steps != [] && steps[0] == start
    && 0 <= total - steps[|steps| - 1] < PROGRESS_STEP
    && forall k | 0 < k < |steps| :: steps[k] >= steps[k - 1] + PROGRESS_STEP
  }

  lemma LoopReports(p: Progress, terms: Terms, arrivals: seq<Arrival>)
    requires p.reports == [p.received] && p.reported == p.received
    ensures var r := Receive(p, terms, arrivals, 0).progress;
            StepwiseReports(r.reports, p.received, r.received)
  {
    ReceiveKeepsUp(p, terms, arrivals, 0);
    hide Receive;
    var r := Receive(p, terms, arrivals, 0).progress;
    assert r.reports[0] == p.reports[0];
  }

  lemma LoopTotal(p: Progress, terms: Terms, arrivals: seq<Arrival>)
    ensures Receive(p, terms, arrivals, 0).progress.received
         == if p.received >= CapOf(terms) then p.received
            else AtMost(p.received + BytesIn(arrivals, 0, RunEnd(arrivals, 0)), CapOf(terms))
  {
    ReceiveEndsAsRead(p, terms, arrivals, 0);
    hide Receive;
    hide CapOf;
  }

  /**
    * Progress is told from where the attempt starts, in steps of a megabyte or
    * more, never lagging by a whole step, and at the end of a success as the size
    * of what is there.
    */
  lemma ReportsKeepUp(part: Option<Bytes>, terms: Terms, arrivals: seq<Arrival>, flushed: bool)
    requires StartOf(terms) == 0 || part.Some?
    ensures var a := Stream(part, terms, arrivals, flushed);
            var start, end := StartOf(terms), RunEnd(arrivals, 0);
            var received := start + BytesIn(arrivals, 0, end);
            var total := if start >= CapOf(terms) then start else AtMost(received, CapOf(terms));
            if a.outcome == Done then
              && a.reports != [] && a.reports[|a.reports| - 1] == total
              && StepwiseReports(a.reports[..|a.reports| - 1], start, total)
            else StepwiseReports(a.reports, start, total)
  {
    var start := StartOf(terms);
    var p := Progress(Reopened(part, terms).value, start, start, [], [start]);
    var r := Receive(p, terms, arrivals, 0).progress;
    LoopTotal(p, terms, arrivals);
    LoopReports(p, terms, arrivals);
    hide Receive;
    hide Reopened;
    hide StepwiseReports;
    hide CapOf;
    hide StartOf;
    hide RunEnd;
    hide BytesIn;
    hide AtMost;
    assert (r.reports + [r.received])[..|r.reports|] == r.reports;
  }

  // ---------- Any number of attempts ----------

  datatype Try = Try(terms: Terms, arrivals: seq<Arrival>, flushed: bool, renames: bool)

  /** An attempt and its settling. */
  function Tried(disk: Stored, attempt: Try): Stored {
    var a := Stream(disk.part, attempt.terms, attempt.arrivals, attempt.flushed);
    Settled(disk.(part := a.file), a.outcome, attempt.renames)
  }

  function TriedAll(disk: Stored, attempts: seq<Try>): Stored
    decreases |attempts|
  {
    if attempts == [] then disk else TriedAll(Tried(disk, attempts[0]), attempts[1..])
  }

  /** Each attempt resumes from within the part-file it finds, and is sent the same source from there. */
  predicate FromOneSource(disk: Stored, attempts: seq<Try>, source: Bytes)
    decreases |attempts|
  {
    attempts == [] || (
      var t := attempts[0].terms;
      && (disk.part.Some? && StartOf(t) > 0 ==> StartOf(t) <= |disk.part.value|)
      && Faithful(Sent(attempts[0].arrivals, 0), source, StartOf(t), CapOf(t))
      && FromOneSource(Tried(disk, attempts[0]), attempts[1..], source))
  }

  /**
    * Over any number of attempts that fail and are retried, the part-file is
    * always a prefix of the source, and so is a finished file.
    */
  lemma {:induction false} AttemptsKeepPrefix(disk: Stored, attempts: seq<Try>, source: Bytes)
    requires disk.part.Some? ==> disk.part.value <= source
    requires disk.finished.Some? ==> disk.finished.value <= source
    requires FromOneSource(disk, attempts, source)
    ensures var end := TriedAll(disk, attempts);
            && (end.part.Some? ==> end.part.value <= source)
            && (end.finished.Some? ==> end.finished.value <= source)
    decreases |attempts|
  {
    if attempts == [] {
    } else {
      var t := attempts[0];
      AttemptKeepsPrefix(disk.part, t.terms, t.arrivals, t.flushed, source);
      AttemptsKeepPrefix(Tried(disk, t), attempts[1..], source);
    }
  }

  /** Everything an attempt of known size needs to succeed and to be saved. */
  predicate IsComplete(disk: Stored, attempt: Try)
    requires attempt.terms.size.Some?
  {
    var start, end := StartOf(attempt.terms), RunEnd(attempt.arrivals, 0);
    && (start == 0 || disk.part.Some?) && attempt.flushed && attempt.renames
    && start + BytesIn(attempt.arrivals, 0, end) >= attempt.terms.size.value
  }

  /**
    * The attempt that at last brings the missing bytes, after any number that did
    * not, finishes with exactly the agreed number of source bytes - exactly if
    * the position it resumed from was not past them. Without them, or when they
    * cannot be saved, no file is finished.
    */
  lemma ResumedTransferIsWhole(attempts: seq<Try>, last: Try, source: Bytes)
    requires FromOneSource(Stored(None, None), attempts + [last], source)
    requires last.terms.size.Some?
    ensures var before := TriedAll(Stored(None, None), attempts);
            var after := Tried(before, last);
            var n := last.terms.size.value;
            if IsComplete(before, last) then
              && n <= |source| && after.part == None
              && (after.finished == Some(source[..n]) <==> StartOf(last.terms) <= n)
            else after.finished == before.finished
  {
    FromOneSourceSplit(Stored(None, None), attempts, last, source);
    var before := TriedAll(Stored(None, None), attempts);
    AttemptsKeepPrefix(Stored(None, None), attempts, source);
    AttemptKeepsPrefix(before.part, last.terms, last.arrivals, last.flushed, source);
    SucceedsExactly(before.part, last.terms, last.arrivals, last.flushed);
  }

  lemma {:induction false} FromOneSourceSplit(disk: Stored, attempts: seq<Try>, last: Try, source: Bytes)
    requires FromOneSource(disk, attempts + [last], source)
    ensures FromOneSource(disk, attempts, source)
    ensures FromOneSource(TriedAll(disk, attempts), [last], source)
    decreases |attempts|
  {
    if attempts == [] {
      assert attempts + [last] == [last];
    } else {
      assert (attempts + [last])[1..] == attempts[1..] + [last];
      FromOneSourceSplit(Tried(disk, attempts[0]), attempts[1..], last, source);
    }
  }

  // ---------- What is kept ----------

  /**
    * Nothing received is lost but by a cancel: otherwise the part-file is still
    * there, or has become the finished file, which only a success replaces. A
    * part-file is left behind exactly by a failure and by a rename that fails.
    */
  lemma OnlyACancelLoses(disk: Stored, outcome: Outcome, renames: bool)
    ensures var after := Settled(disk, outcome, renames);
            && (outcome != Failed(Cancelled) ==> disk.part in {after.part, after.finished})
            && (after.finished != disk.finished ==> outcome == Done && renames && after.finished == disk.part)
            && (outcome == Failed(Cancelled) || (outcome == Done && renames) ==> after.part == None)
            && (outcome == Done && renames ==> after.finished == disk.part)
            && (!(outcome == Failed(Cancelled) || (outcome == Done && renames)) ==> after.part == disk.part)
  {
  }
}
