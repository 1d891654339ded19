/**
  * AUTHENTICATE framing: a base64 payload cut into arguments of 400 units, an
  * exact multiple closed by a lone `+`, and the reassembler on the other side.
  */
module SaslFraming {
  import opened Units
  import opened Utf8
  import opened Base64

  const AUTHENTICATE_CHUNK: nat := 400

  const LONE_PLUS: Text := [PLUS]

  function Pieces(payload: Text): seq<Text>
    requires payload != []
    decreases |payload|
  {
    if |payload| <= AUTHENTICATE_CHUNK then [payload]
    else [payload[..AUTHENTICATE_CHUNK]] + Pieces(payload[AUTHENTICATE_CHUNK..])
  }

  function MorePieces(left: Text): seq<Text> {
    if left == [] then [] else Pieces(left)
  }

  lemma PiecesUnfold(payload: Text, end: nat)
    requires payload != []
    requires end == if |payload| <= AUTHENTICATE_CHUNK then |payload| else AUTHENTICATE_CHUNK
    ensures MorePieces(payload) == [payload[..end]] + MorePieces(payload[end..])
  {
    assert end == |payload| ==> payload[..end] == payload && payload[end..] == [];
  }

  function Chunks(payload: Text): seq<Text> {
    if payload == [] then [LONE_PLUS]
    else Pieces(payload) + (if |payload| % AUTHENTICATE_CHUNK == 0 then [LONE_PLUS] else [])
  }

  method ChunkAuthenticate(payload: Text) returns (chunks: seq<Text>)
    ensures chunks == Chunks(payload)
  {
    if payload == [] {
      return [LONE_PLUS];
    }
    chunks := [];
    var i := 0;
    ghost var left := payload;
    while i < |payload|
      invariant 0 <= i && left == if i < |payload| then payload[i..] else []
      invariant Pieces(payload) == chunks + MorePieces(left)
      decreases |payload| - i
    {
      var end := if i + AUTHENTICATE_CHUNK < |payload| then i + AUTHENTICATE_CHUNK else |payload|;
      assert payload[i..end] == left[..end - i];
      PiecesUnfold(left, end - i);
      chunks := chunks + [payload[i..end]];
      left := left[end - i..];
      i := i + AUTHENTICATE_CHUNK;
    }
    if |payload| % AUTHENTICATE_CHUNK == 0 {
      chunks := chunks + [LONE_PLUS];
    }
  }

  /** What the reassembler hands over: the decoded bytes, or nothing at all for bad base64. */
  function Delivered(buffer: Text): Bytes {
    match Decode64(buffer)
    case Some(bytes) => bytes
    case None => []
  }

  /** One argument: the new buffer, and the payload when it completes one. */
  function Feed(buffer: Text, argument: Text): (Text, Option<Bytes>) {
    if argument == LONE_PLUS then ([], Some(Delivered(buffer)))
    else if |argument| == AUTHENTICATE_CHUNK then (buffer + argument, None)
    else ([], Some(Delivered(buffer + argument)))
  }

  class AuthenticateReassembler {
    var buffer: Text

    constructor ()
      ensures buffer == []
    {
      buffer := [];
    }

    method Push(argument: Text) returns (r: Option<Bytes>)
      modifies this
      ensures (buffer, r) == Feed(old(buffer), argument)
    {
      if argument != LONE_PLUS {
        buffer := buffer + argument;
        if |argument| == AUTHENTICATE_CHUNK {
          return None;
        }
      }
      var decoded := DecodeBase64(buffer);
      buffer := [];
      r := Some(if decoded.Some? then decoded.value else []);
    }

    method Reset()
      modifies this
      ensures buffer == []
    {
      buffer := [];
    }
  }

  datatype Fed = Fed(buffer: Text, outputs: seq<Option<Bytes>>)

  /** Every argument in turn, from a given buffer. */
  function FeedAll(buffer: Text, arguments: seq<Text>): Fed
    decreases |arguments|
  {
    if arguments == [] then Fed(buffer, [])
    else
      var step := Feed(buffer, arguments[0]);
      var rest := FeedAll(step.0, arguments[1..]);
      Fed(rest.buffer, [step.1] + rest.outputs)
  }

  function Nothings(n: nat): seq<Option<Bytes>> {
    seq(n, i => None)
  }

  /** One payload's share of the output: silence until its last argument. */
  function Answer(payload: Bytes): seq<Option<Bytes>>
  {
    ChunksNotEmpty(Encode64(payload));
    Nothings(|Chunks(Encode64(payload))| - 1) + [Some(payload)]
  }

  lemma ChunksNotEmpty(payload: Text)
    ensures |Chunks(payload)| > 0
  {
  }

  function Arguments(payloads: seq<Bytes>): seq<Text> {
    if payloads == [] then [] else Chunks(Encode64(payloads[0])) + Arguments(payloads[1..])
  }

  function Answers(payloads: seq<Bytes>): seq<Option<Bytes>> {
    if payloads == [] then [] else Answer(payloads[0]) + Answers(payloads[1..])
  }

  lemma {:induction false} FeedAppend(buffer: Text, first: seq<Text>, second: seq<Text>)
    ensures var one := FeedAll(buffer, first);
            var two := FeedAll(one.buffer, second);
            FeedAll(buffer, first + second) == Fed(two.buffer, one.outputs + two.outputs)
    decreases |first|
  {
    if first == [] {
      assert first + second == second;
    } else {
      assert (first + second)[1..] == first[1..] + second;
      FeedAppend(Feed(buffer, first[0]).0, first[1..], second);
    }
  }

  lemma FeedOne(buffer: Text, argument: Text)
    ensures FeedAll(buffer, [argument]) == Fed(Feed(buffer, argument).0, [Feed(buffer, argument).1])
  {
    hide Feed;
    assert [argument][1..] == [];
  }

  /** A full argument is kept back. */
  lemma FeedFull(buffer: Text, argument: Text, more: seq<Text>)
    requires |argument| == AUTHENTICATE_CHUNK
    ensures var rest := FeedAll(buffer + argument, more);
            FeedAll(buffer, [argument] + more) == Fed(rest.buffer, [None] + rest.outputs)
  {
    hide Delivered;
    assert ([argument] + more)[1..] == more;
  }

  lemma MoreNothings(n: nat, answer: Option<Bytes>)
    ensures [None] + (Nothings(n) + [answer]) == Nothings(n + 1) + [answer]
    ensures Nothings(0) + [answer] == [answer]
  {
    assert [None] + Nothings(n) == Nothings(n + 1);
  }

  lemma ChunksOf(payload: Text)
    requires payload != []
    ensures |payload| < AUTHENTICATE_CHUNK ==> Chunks(payload) == [payload]
    ensures |payload| == AUTHENTICATE_CHUNK ==> Chunks(payload) == [payload] + [LONE_PLUS]
    ensures |payload| > AUTHENTICATE_CHUNK ==>
              Chunks(payload) == [payload[..AUTHENTICATE_CHUNK]] + Chunks(payload[AUTHENTICATE_CHUNK..])
  {
    if |payload| > AUTHENTICATE_CHUNK {
      assert (|payload| - AUTHENTICATE_CHUNK) % AUTHENTICATE_CHUNK == |payload| % AUTHENTICATE_CHUNK;
    }
  }

  /** The chunks of one payload are swallowed in silence, and the last one answers. */
  lemma {:induction false} FeedOnePayload(buffer: Text, payload: Text)
    requires payload != [] && |payload| % 4 == 0
    ensures FeedAll(buffer, Chunks(payload))
         == Fed([], Nothings(|Chunks(payload)| - 1) + [Some(Delivered(buffer + payload))])
    decreases |payload|
  {
    hide Chunks;
    hide FeedAll;
    hide Delivered;
    hide Nothings;
    var answer := Some(Delivered(buffer + payload));
    ChunksOf(payload);
    ChunksNotEmpty(payload);
    if |payload| < AUTHENTICATE_CHUNK {
      FeedOne(buffer, payload);
      MoreNothings(0, answer);
    } else if |payload| == AUTHENTICATE_CHUNK {
      FeedFull(buffer, payload, [LONE_PLUS]);
      FeedOne(buffer + payload, LONE_PLUS);
      MoreNothings(0, answer);
    } else {
      var head, rest := payload[..AUTHENTICATE_CHUNK], payload[AUTHENTICATE_CHUNK..];
      ChunksNotEmpty(rest);
      FeedOnePayload(buffer + head, rest);
      FeedFull(buffer, head, Chunks(rest));
      assert buffer + head + rest == buffer + payload;
      MoreNothings(|Chunks(rest)| - 1, answer);
    }
  }

  /**
    * The framing is uniquely decodable: feeding the arguments of any sequence of
    * byte payloads into one reassembler yields exactly those payloads, in order
    * and each at its last argument, nothing before that, and an empty buffer.
    */
  lemma {:induction false} PayloadsComeBack(payloads: seq<Bytes>)
    ensures FeedAll([], Arguments(payloads)) == Fed([], Answers(payloads))
  {
    if payloads == [] {
    } else {
      var p := payloads[0];
      var text := Encode64(p);
      EncodedShape(p);
      Base64RoundTrip(p);
      if text != [] {
        FeedOnePayload([], text);
        assert [] + text == text;
      } else {
        assert Chunks(text) == [LONE_PLUS] && Chunks(text)[1..] == [];
        assert Nothings(0) + [Some(p)] == [Some(p)];
      }
      assert FeedAll([], Chunks(text)) == Fed([], Answer(p));
      FeedAppend([], Chunks(text), Arguments(payloads[1..]));
      PayloadsComeBack(payloads[1..]);
    }
  }

  /** No argument of a base64 payload is over-long, and none but a closing one is a lone `+`. */
  lemma {:induction false} PiecesFit(payload: Text)
    requires payload != [] && |payload| % 4 == 0
    ensures forall c | c in Pieces(payload) :: 0 < |c| <= AUTHENTICATE_CHUNK && c != LONE_PLUS
    decreases |payload|
  {
    if |payload| > AUTHENTICATE_CHUNK {
      PiecesFit(payload[AUTHENTICATE_CHUNK..]);
    }
  }

  // ---------- Any arguments at all ----------

  function Concatenated(arguments: seq<Text>): Text {
    if arguments == [] then [] else arguments[0] + Concatenated(arguments[1..])
  }

  /**
    * Whatever the other side sends: full arguments are kept back in silence, and
    * the first that is not full completes the payload - all of them decoded
    * together, a lone `+` adding nothing, and nothing at all when that is not
    * base64. The next payload starts afresh.
    */
  lemma {:induction false} ArgumentsAreJoined(buffer: Text, full: seq<Text>, last: Text)
    requires (forall f | f in full :: |f| == 400) && |last| != 400
    ensures var text := buffer + Concatenated(full) + if last == Ascii("+") then [] else last;
            FeedAll(buffer, full + [last])
              == Fed([], Nothings(|full|) + [Some(if Decode64(text).Some? then Decode64(text).value else [])])
    decreases |full|
  {
    hide FeedAll;
    hide Nothings;
    assert Ascii("+") == LONE_PLUS;
    var rest := if last == LONE_PLUS then [] else last;
    if full == [] {
      assert full + [last] == [last] && buffer + [] == buffer && buffer + rest == buffer + Concatenated(full) + rest;
      FeedOne(buffer, last);
      MoreNothings(0, Some(Delivered(buffer + rest)));
    } else {
      var head, tail := full[0], full[1..];
      assert head in full && forall f | f in tail :: f in full;
      ArgumentsAreJoined(buffer + head, tail, last);
      FeedFull(buffer, head, tail + [last]);
      assert full + [last] == [head] + (tail + [last]);
      Regroup(buffer, head, Concatenated(tail));
      MoreNothings(|tail|, Some(Delivered(buffer + Concatenated(full) + rest)));
    }
  }
}
