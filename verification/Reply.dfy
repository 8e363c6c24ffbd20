/** A reply stream over NATS: what the server publishes for one prompt (nats/server.go,
    `processPrompt`, `sendResponse`), and what the client makes of what arrives
    (nats/client.go, `Stream.Text`). */
module Reply {
  import opened Messages
  import opened Utf8
  import Limits
  import Wire

  /** A message on the wire; `error` is its service error code, empty for none. */
  datatype Msg = Msg(data: seq<byte>, error: string)

  const ACK: Msg := Msg(Wire.Ascii("{\"type\":\"status\",\"data\":\"ack\"}"), "")
  const TERMINATOR: Msg := Msg([], "")
  const QUERY_PREFIX: seq<byte> := Wire.Ascii("{\"type\":\"query\"")

  predicate IsTerminator(m: Msg) {
    m.data == [] && m.error == ""
  }

  predicate IsServiceError(m: Msg) {
    m.error != ""
  }

  function Chunk(piece: seq<byte>): Msg {
    Msg(Wire.EncodeChunk(piece), "")
  }

  /** A service error with a JSON body. */
  function ErrorMsg(code: string): Msg {
    Msg(Wire.Ascii("{}"), code)
  }

  /** The codes a server may send. */
  const CODES: map<int, string> := map[
    400 := "400", 401 := "401", 403 := "403", 404 := "404", 409 := "409", 429 := "429", 500 := "500"]

  /** The code a failed run is reported with. */
  function SentCode(code: int): (s: string)
    ensures s != "" && s in CODES.Values
  {
    if code in CODES.Keys then CODES[code] else CODES[500]
  }

  /** A publish, and whether it reached the broker. */
  datatype Attempt = Attempt(msg: Msg, delivered: bool)

  /** How a prompt is handled: refused while draining, rejected, or run, with `acks` keepalives
      before the handler fails or answers. */
  datatype Handling =
    | Draining
    | BadRequest
    | RunFailed(acks: nat, code: int)
    | RunAnswered(acks: nat, text: seq<byte>)

  /** The n-th publish of a stream works or not. */
  type Works = nat -> bool

  class Publisher {
    const works: Works
    var attempts: seq<Attempt>

    constructor (works: Works)
      ensures this.works == works && attempts == []
    {
      this.works := works;
      attempts := [];
    }

    method Publish(m: Msg) returns (ok: bool)
      modifies this
      ensures ok == works(|old(attempts)|)
      ensures attempts == old(attempts) + [Attempt(m, ok)]
    {
      ok := works(|attempts|);
      attempts := attempts + [Attempt(m, ok)];
    }

    /** A service error, then the terminator. */
    method SendError(code: string)
      modifies this
      ensures attempts == old(attempts) + ErrorEnd(code, |old(attempts)|, works)
    {
      var sent := Publish(ErrorMsg(code));
      sent := Publish(TERMINATOR);
    }

    /** The answer in chunks, then the terminator; an error instead of the rest when one fails. */
    method SendResponse(text: seq<byte>, limit: int)
      modifies this
      ensures attempts == old(attempts) + Response(text, limit, |old(attempts)|, works)
    {
      var chunks, ok := Wire.EncodeResponseChunks(text, limit);
      if !ok {
        SendError("500");
        return;
      }
      ghost var pieces := Wire.Split(text, limit).value;
      EncodedEach(pieces);
      SendChunks(chunks, pieces);
    }

    method SendChunks(chunks: seq<seq<byte>>, ghost pieces: seq<seq<byte>>)
      requires |chunks| == |pieces| && forall i | 0 <= i < |chunks| :: chunks[i] == Wire.EncodeChunk(pieces[i])
      modifies this
      ensures attempts == old(attempts) + Chunks(pieces, |old(attempts)|, works)
    {
      hide Wire.EncodeChunk, ErrorEnd;
      ghost var goal := attempts + Chunks(pieces, |attempts|, works);
      assert pieces[0..] == pieces;
      for i := 0 to |chunks|
        invariant attempts + Chunks(pieces[i..], |attempts|, works) == goal
      {
        ChunksStep(attempts, pieces, i, works);
        var sent := Publish(Msg(chunks[i], ""));
        if !sent {
          SendError("500");
          return;
        }
      }
      assert pieces[|chunks|..] == [];
      var sent := Publish(TERMINATOR);
    }

    method HandlePrompt(h: Handling, limit: int)
      requires attempts == []
      modifies this
      ensures attempts == Stream(h, limit, works)
    {
      match h
      case Draining => SendError("500");
      case BadRequest => SendError("400");
      case RunFailed(acks, code) =>
        SendAcks(1 + acks);
        SendError(SentCode(code));
      case RunAnswered(acks, text) =>
        SendAcks(1 + acks);
        SendResponse(text, limit);
    }

    method SendAcks(n: nat)
      requires attempts == []
      modifies this
      ensures attempts == Acks(n, works)
    {
      for i := 0 to n
        invariant attempts == Acks(i, works)
      {
        var sent := Publish(ACK);
      }
    }
  }

  function Acks(n: nat, works: Works): (a: seq<Attempt>)
    ensures |a| == n
  {
    if n == 0 then [] else Acks(n - 1, works) + [Attempt(ACK, works(n - 1))]
  }

  function ErrorEnd(code: string, at: nat, works: Works): seq<Attempt> {
    [Attempt(ErrorMsg(code), works(at)), Attempt(TERMINATOR, works(at + 1))]
  }

  function Chunks(pieces: seq<seq<byte>>, at: nat, works: Works): seq<Attempt> {
    if pieces == [] then [Attempt(TERMINATOR, works(at))]
    else if works(at) then [Attempt(Chunk(pieces[0]), true)] + Chunks(pieces[1..], at + 1, works)
    else [Attempt(Chunk(pieces[0]), false)] + ErrorEnd("500", at + 1, works)
  }

  lemma ChunksStep(sent: seq<Attempt>, pieces: seq<seq<byte>>, i: nat, works: Works)
    requires i < |pieces|
    ensures var now := sent + [Attempt(Chunk(pieces[i]), works(|sent|))];
            sent + Chunks(pieces[i..], |sent|, works) ==
            now + if works(|sent|) then Chunks(pieces[i + 1..], |now|, works) else ErrorEnd("500", |now|, works)
  {
    hide Chunk, ErrorEnd, Chunks;
    assert pieces[i..][1..] == pieces[i + 1..] && pieces[i..][0] == pieces[i];
    ChunksOf(pieces[i..], |sent|, works);
    var first := [Attempt(Chunk(pieces[i]), works(|sent|))];
    Joins(sent, first, if works(|sent|) then Chunks(pieces[i + 1..], |sent| + 1, works)
                       else ErrorEnd("500", |sent| + 1, works));
  }

  lemma Joins(a: seq<Attempt>, b: seq<Attempt>, c: seq<Attempt>)
    ensures a + (b + c) == (a + b) + c
  {
  }

  lemma ChunksOf(pieces: seq<seq<byte>>, at: nat, works: Works)
    requires pieces != []
    ensures Chunks(pieces, at, works) == [Attempt(Chunk(pieces[0]), works(at))] +
            if works(at) then Chunks(pieces[1..], at + 1, works) else ErrorEnd("500", at + 1, works)
  {
  }

  function Response(text: seq<byte>, limit: int, at: nat, works: Works): seq<Attempt> {
    match Wire.Split(text, limit)
    case None => ErrorEnd("500", at, works)
    case Some(pieces) => Chunks(pieces, at, works)
  }

  /** Everything published for one prompt. */
  function Stream(h: Handling, limit: int, works: Works): seq<Attempt> {
    match h
    case Draining => ErrorEnd("500", 0, works)
    case BadRequest => ErrorEnd("400", 0, works)
    case RunFailed(acks, code) =>
      Acks(1 + acks, works) + ErrorEnd(SentCode(code), 1 + acks, works)
    case RunAnswered(acks, text) => Acks(1 + acks, works) + Response(text, limit, 1 + acks, works)
  }

  lemma {:induction false} EncodedEach(pieces: seq<seq<byte>>)
    ensures |Wire.Encoded(pieces)| == |pieces|
    ensures forall i | 0 <= i < |pieces| :: Wire.Encoded(pieces)[i] == Wire.EncodeChunk(pieces[i])
  {
    if pieces != [] {
      EncodedEach(pieces[..|pieces| - 1]);
    }
  }

  // ---- the shape of a reply

  predicate IsChunk(m: Msg) {
    m.error == "" && Wire.DecodeChunk(m.data).Some?
  }

  /** Perhaps one error, then the terminator. */
  predicate Ends(msgs: seq<Msg>) {
    || msgs == [TERMINATOR]
    || (|msgs| == 2 && IsServiceError(msgs[0]) && msgs[1] == TERMINATOR)
  }

  /** chunk* error? terminator */
  predicate Answered(msgs: seq<Msg>) {
    msgs != [] && if IsChunk(msgs[0]) then Answered(msgs[1..]) else Ends(msgs)
  }

  /** ack* chunk* error? terminator */
  predicate WellFormed(msgs: seq<Msg>) {
    msgs != [] && if msgs[0] == ACK then WellFormed(msgs[1..]) else Answered(msgs)
  }

  function Sent(attempts: seq<Attempt>): seq<Msg> {
    if attempts == [] then [] else [attempts[0].msg] + Sent(attempts[1..])
  }

  lemma EndsIsWellFormed(msgs: seq<Msg>)
    requires Ends(msgs)
    ensures WellFormed(msgs)
  {
    AckIsIgnored();
    NothingIsNoChunk();
  }

  /** An empty message is no chunk. */
  lemma NothingIsNoChunk()
    ensures Wire.DecodeChunk([]) == None
  {
    assert |Wire.RESPONSE_PREFIX| > 0;
  }

  lemma ErrorEndShape(code: string, at: nat, works: Works)
    requires code != ""
    ensures Ends(Sent(ErrorEnd(code, at, works)))
  {
    var end := ErrorEnd(code, at, works);
    var last := end[1..];
    assert last[1..] == [] && Sent(last) == [TERMINATOR];
    assert Sent(end) == [ErrorMsg(code)] + Sent(last);
  }

  lemma {:induction false} ChunksShape(pieces: seq<seq<byte>>, at: nat, works: Works)
    ensures Answered(Sent(Chunks(pieces, at, works)))
  {
    hide Wire.DecodeChunk, Wire.EncodeChunk;
    var chunks := Chunks(pieces, at, works);
    NothingIsNoChunk();
    if pieces == [] {
      assert chunks[1..] == [];
      assert Sent(chunks) == [TERMINATOR];
    } else {
      Wire.DecodeOfEncode(pieces[0]);
      assert chunks[0].msg == Chunk(pieces[0]) && IsChunk(Chunk(pieces[0]));
      if works(at) {
        ChunksShape(pieces[1..], at + 1, works);
        assert chunks[1..] == Chunks(pieces[1..], at + 1, works);
      } else {
        ErrorEndShape("500", at + 1, works);
        assert chunks[1..] == ErrorEnd("500", at + 1, works);
      }
      assert Sent(chunks)[1..] == Sent(chunks[1..]);
    }
  }

  lemma AnsweredIsWellFormed(msgs: seq<Msg>)
    requires Answered(msgs)
    ensures WellFormed(msgs)
  {
    AckIsNoChunk();
    AckIsIgnored();
  }

  lemma {:induction false} AcksShape(n: nat, works: Works, rest: seq<Attempt>)
    requires WellFormed(Sent(rest))
    ensures WellFormed(Sent(Acks(n, works) + rest))
  {
    hide Answered;
    if n == 0 {
      assert Acks(n, works) + rest == rest;
    } else {
      var more := [Attempt(ACK, works(n - 1))] + rest;
      assert Acks(n, works) + rest == Acks(n - 1, works) + more;
      assert more[1..] == rest && Sent(more)[1..] == Sent(rest);
      AcksShape(n - 1, works, more);
    }
  }

  /** Whatever publishes fail, the server publishes acks, chunks and at most one error, then
      exactly one terminator, last. */
  lemma StreamIsWellFormed(h: Handling, limit: int, works: Works)
    ensures WellFormed(Sent(Stream(h, limit, works)))
    ensures EndsOnce(Sent(Stream(h, limit, works)))
  {
    hide WellFormed, Answered, Ends, Wire.Split, Chunks, ErrorEnd, Sent, Acks;
    match h {
      case Draining => ErrorEndIsWellFormed("500", 0, works);
      case BadRequest => ErrorEndIsWellFormed("400", 0, works);
      case RunFailed(acks, code) =>
        ErrorEndIsWellFormed(SentCode(code), 1 + acks, works);
        AcksShape(1 + acks, works, ErrorEnd(SentCode(code), 1 + acks, works));
      case RunAnswered(acks, text) =>
        match Wire.Split(text, limit) {
          case None => ErrorEndIsWellFormed("500", 1 + acks, works);
          case Some(pieces) =>
            ChunksShape(pieces, 1 + acks, works);
            AnsweredIsWellFormed(Sent(Chunks(pieces, 1 + acks, works)));
        }
        AcksShape(1 + acks, works, Response(text, limit, 1 + acks, works));
    }
    OneTerminator(Sent(Stream(h, limit, works)));
  }

  lemma ErrorEndIsWellFormed(code: string, at: nat, works: Works)
    requires code != ""
    ensures WellFormed(Sent(ErrorEnd(code, at, works)))
  {
    ErrorEndShape(code, at, works);
    EndsIsWellFormed(Sent(ErrorEnd(code, at, works)));
  }

  /** One terminator, and it is last. */
  predicate EndsOnce(msgs: seq<Msg>) {
    && msgs != []
    && msgs[|msgs| - 1] == TERMINATOR
    && forall i | 0 <= i < |msgs| - 1 :: !IsTerminator(msgs[i])
  }

  lemma {:induction false} AnsweredEndsOnce(msgs: seq<Msg>)
    requires Answered(msgs)
    ensures EndsOnce(msgs)
  {
    hide Wire.DecodeChunk;
    NothingIsNoChunk();
    if IsChunk(msgs[0]) {
      AnsweredEndsOnce(msgs[1..]);
      assert !IsTerminator(msgs[0]);
      assert forall i | 1 <= i < |msgs| - 1 :: msgs[i] == msgs[1..][i - 1];
    }
  }

  lemma {:induction false} OneTerminator(msgs: seq<Msg>)
    requires WellFormed(msgs)
    ensures EndsOnce(msgs)
  {
    if msgs[0] == ACK {
      hide Answered;
      OneTerminator(msgs[1..]);
      AckIsIgnored();
      assert forall i | 1 <= i < |msgs| - 1 :: msgs[i] == msgs[1..][i - 1];
    } else {
      AnsweredEndsOnce(msgs);
    }
  }

  // ---- the client

  datatype Answer = Text(text: seq<byte>) | ServiceError(code: string) | Asked | TimedOut

  datatype Parsed = ResponseText(text: seq<byte>) | Query | Ignored

  /** A response chunk adds its text, a query ends the stream, anything else is ignored. */
  function Parse(data: seq<byte>): Parsed {
    if QUERY_PREFIX <= data then Query
    else
      match Wire.DecodeChunk(data)
      case Some(text) => ResponseText(text)
      case None => Ignored
  }

  function Read(so: seq<byte>, msgs: seq<Msg>): Answer
    decreases |msgs|
  {
    if msgs == [] then TimedOut
    else if IsTerminator(msgs[0]) then Answer.Text(so)
    else if IsServiceError(msgs[0]) then ServiceError(msgs[0].error)
    else
      match Parse(msgs[0].data)
      case ResponseText(text) => Read(so + text, msgs[1..])
      case Query => Asked
      case Ignored => Read(so, msgs[1..])
  }

  /** Reads the stream until it ends; when nothing more arrives, it times out. */
  method ReadText(arrived: seq<Msg>) returns (a: Answer)
    ensures a == Read([], arrived)
  {
    var sb: seq<byte> := [];
    var i := 0;
    while i < |arrived|
      invariant 0 <= i <= |arrived| && Read(sb, arrived[i..]) == Read([], arrived)
      decreases |arrived| - i
    {
      var m := arrived[i];
      assert arrived[i..][1..] == arrived[i + 1..];
      if IsTerminator(m) {
        return Answer.Text(sb);
      }
      if IsServiceError(m) {
        return ServiceError(m.error);
      }
      match Parse(m.data) {
        case ResponseText(text) => sb := sb + text;
        case Query => return Asked;
        case Ignored =>
      }
      i := i + 1;
    }
    return TimedOut;
  }

  function Arrived(attempts: seq<Attempt>): seq<Msg> {
    if attempts == [] then []
    else if attempts[0].delivered then [attempts[0].msg] + Arrived(attempts[1..])
    else Arrived(attempts[1..])
  }

  lemma AckIsIgnored()
    ensures !IsTerminator(ACK) && !IsServiceError(ACK) && Parse(ACK.data) == Ignored
  {
    assert ACK.data[9] == 's' as int && Wire.RESPONSE_PREFIX[9] == 'r' as int && QUERY_PREFIX[9] == 'q' as int;
  }

  lemma AckIsNoChunk()
    ensures !IsChunk(ACK)
  {
    assert ACK.data[9] == 's' as int && Wire.RESPONSE_PREFIX[9] == 'r' as int;
  }

  lemma ReadAck(so: seq<byte>, rest: seq<Msg>)
    ensures Read(so, [ACK] + rest) == Read(so, rest)
  {
    hide Parse;
    AckIsIgnored();
    assert ([ACK] + rest)[1..] == rest;
  }

  lemma ChunkIsRead(piece: seq<byte>)
    requires Valid(piece)
    ensures !IsTerminator(Chunk(piece)) && !IsServiceError(Chunk(piece))
    ensures Parse(Chunk(piece).data) == ResponseText(piece)
  {
    Wire.DecodeOfEncode(piece);
    assert Chunk(piece).data[9] == Wire.RESPONSE_PREFIX[9] == 'r' as int && QUERY_PREFIX[9] == 'q' as int;
  }

  lemma ReadChunk(so: seq<byte>, piece: seq<byte>, rest: seq<Msg>)
    requires Valid(piece)
    ensures Read(so, [Chunk(piece)] + rest) == Read(so + piece, rest)
  {
    hide Parse, Chunk;
    ChunkIsRead(piece);
    assert ([Chunk(piece)] + rest)[1..] == rest;
  }

  lemma {:induction false} AcksAreIgnored(n: nat, works: Works, rest: seq<Attempt>)
    ensures Read([], Arrived(Acks(n, works) + rest)) == Read([], Arrived(rest))
  {
    if n == 0 {
      assert Acks(n, works) + rest == rest;
    } else {
      hide Read;
      var more := [Attempt(ACK, works(n - 1))] + rest;
      assert Acks(n, works) + rest == Acks(n - 1, works) + more;
      AcksAreIgnored(n - 1, works, more);
      assert more[1..] == rest;
      ReadAck([], Arrived(rest));
    }
  }

  /** The first chunk that fails to publish; the number of chunks when none does. */
  function FirstFailure(pieces: seq<seq<byte>>, at: nat, works: Works): (f: nat)
    ensures f <= |pieces|
    ensures f < |pieces| ==> !works(at + f)
  {
    if pieces == [] || !works(at) then 0 else 1 + FirstFailure(pieces[1..], at + 1, works)
  }

  /** FirstFailure is the least position whose publish fails. */
  lemma {:induction false} FirstFailureIsFirst(pieces: seq<seq<byte>>, at: nat, works: Works, n: nat)
    requires at <= n < at + FirstFailure(pieces, at, works)
    ensures works(n)
  {
    if n > at {
      FirstFailureIsFirst(pieces[1..], at + 1, works, n);
    }
  }

  /** What the client makes of an answer's chunks, by what was delivered. */
  function Outcome(so: seq<byte>, pieces: seq<seq<byte>>, at: nat, works: Works): Answer {
    var f := FirstFailure(pieces, at, works);
    if f == |pieces| then (if works(at + f) then Answer.Text(so + Wire.Joined(pieces)) else TimedOut)
    else if works(at + f + 1) then ServiceError("500")
    else if works(at + f + 2) then Answer.Text(so + Wire.Joined(pieces[..f]))
    else TimedOut
  }

  lemma OutcomeStep(so: seq<byte>, pieces: seq<seq<byte>>, at: nat, works: Works)
    requires pieces != [] && works(at)
    ensures Outcome(so, pieces, at, works) == Outcome(so + pieces[0], pieces[1..], at + 1, works)
  {
    var f := FirstFailure(pieces[1..], at + 1, works);
    assert FirstFailure(pieces, at, works) == f + 1;
    hide FirstFailure;
    assert pieces[..f + 1][1..] == pieces[1..][..f];
    assert Wire.Joined(pieces) == pieces[0] + Wire.Joined(pieces[1..]);
    assert Wire.Joined(pieces[..f + 1]) == pieces[0] + Wire.Joined(pieces[1..][..f]);
    hide Wire.Joined;
    assert so + pieces[0] + Wire.Joined(pieces[1..]) == so + Wire.Joined(pieces);
    assert so + pieces[0] + Wire.Joined(pieces[1..][..f]) == so + Wire.Joined(pieces[..f + 1]);
  }

  lemma {:induction false} ReadChunks(so: seq<byte>, pieces: seq<seq<byte>>, at: nat, works: Works)
    requires forall i | 0 <= i < |pieces| :: Valid(pieces[i])
    ensures Read(so, Arrived(Chunks(pieces, at, works))) == Outcome(so, pieces, at, works)
    decreases |pieces|
  {
    hide Read, Valid, Chunk;
    var chunks := Chunks(pieces, at, works);
    if pieces == [] {
      ReadEnd(so, works(at));
      assert so + Wire.Joined(pieces) == so;
      assert chunks[1..] == [];
    } else if !works(at) {
      assert so + Wire.Joined(pieces[..0]) == so;
      ReadErrorEnd(so, "500", at + 1, works);
      assert chunks[1..] == ErrorEnd("500", at + 1, works);
    } else {
      OutcomeStep(so, pieces, at, works);
      hide Outcome;
      ReadChunks(so + pieces[0], pieces[1..], at + 1, works);
      assert chunks[1..] == Chunks(pieces[1..], at + 1, works);
      assert Arrived(chunks) == [Chunk(pieces[0])] + Arrived(chunks[1..]);
      ReadChunk(so, pieces[0], Arrived(chunks[1..]));
    }
  }

  lemma ReadEnd(so: seq<byte>, delivered: bool)
    ensures Read(so, Arrived([Attempt(TERMINATOR, delivered)])) == if delivered then Answer.Text(so) else TimedOut
  {
    assert [Attempt(TERMINATOR, delivered)][1..] == [];
  }

  lemma ReadErrorEnd(so: seq<byte>, code: string, at: nat, works: Works)
    requires code != ""
    ensures Read(so, Arrived(ErrorEnd(code, at, works))) ==
            if works(at) then ServiceError(code) else if works(at + 1) then Answer.Text(so) else TimedOut
  {
    var end := ErrorEnd(code, at, works);
    assert end[1..] == [Attempt(TERMINATOR, works(at + 1))];
    ReadEnd(so, works(at + 1));
    if works(at) {
      assert Arrived(end)[0] == ErrorMsg(code);
    }
  }

  /** When every publish works, the client reads the whole answer, or the error that says it could
      not be sent: never that, from the limit on that fits every valid text. */
  lemma WholeAnswerArrives(acks: nat, text: seq<byte>, limit: int, works: Works)
    requires Valid(text) && forall n :: works(n)
    ensures var got := Read([], Arrived(Stream(RunAnswered(acks, text), limit, works)));
            && got == (if Wire.Split(text, limit).Some? then Answer.Text(text) else ServiceError("500"))
            && (limit >= Limits.ENOUGH_FOR_VALID ==> got == Answer.Text(text))
  {
    hide Read, Acks, Chunks, Arrived, Wire.Split, Valid, Wire.EncodeChunk;
    Limits.ValidSplitAlwaysSucceeds(limit);
    AcksAreIgnored(1 + acks, works, Response(text, limit, 1 + acks, works));
    match Wire.Split(text, limit) {
      case None => ReadErrorEnd([], "500", 1 + acks, works);
      case Some(pieces) =>
        Wire.SplitJoins(text, limit);
        Wire.SplitKeepsCharacters(text, limit);
        ReadChunks([], pieces, 1 + acks, works);
        assert [] + Wire.Joined(pieces) == text;
    }
  }

  /** A handler's error reaches the client exactly when it is delivered, with its own code when that is
      one a server may send and as an internal error otherwise. When it is lost and the terminator is
      not, the client reads an empty answer. */
  lemma HandlerErrorArrivesExactly(acks: nat, code: int, limit: int, works: Works)
    ensures var got := Read([], Arrived(Stream(RunFailed(acks, code), limit, works)));
            && (got == ServiceError(if code in CODES.Keys then CODES[code] else "500") <==> works(1 + acks))
            && (got == Answer.Text([]) <==> !works(1 + acks) && works(2 + acks))
  {
    var sent := SentCode(code);
    AcksAreIgnored(1 + acks, works, ErrorEnd(sent, 1 + acks, works));
    ReadErrorEnd([], sent, 1 + acks, works);
  }

  /** An answer failed, the error that reports it was lost, and the terminator was delivered: a
      chunk was lost, or the text was refused, from publish `at` on. */
  predicate ReportLost(text: seq<byte>, limit: int, at: nat, works: Works) {
    match Wire.Split(text, limit)
    case None => !works(at) && works(at + 1)
    case Some(pieces) =>
      var lost := at + FirstFailure(pieces, at, works);
      lost < at + |pieces| && !works(lost + 1) && works(lost + 2)
  }

  predicate ReportArrives(text: seq<byte>, limit: int, at: nat, works: Works) {
    match Wire.Split(text, limit)
    case None => works(at)
    case Some(pieces) =>
      var lost := at + FirstFailure(pieces, at, works);
      lost < at + |pieces| && works(lost + 1)
  }

  /** Exactly when the client takes less than the answer for the whole: its report was lost. With
      the report delivered, the client returns it whatever text came before. */
  lemma PartialAnswerExactly(acks: nat, text: seq<byte>, limit: int, works: Works)
    requires Valid(text)
    ensures var got := Read([], Arrived(Stream(RunAnswered(acks, text), limit, works)));
            && (got.Text? && got.text != text <==> text != [] && ReportLost(text, limit, 1 + acks, works))
            && (ReportArrives(text, limit, 1 + acks, works) ==> got == ServiceError("500"))
  {
    hide Read, Acks, Chunks, Arrived, Wire.Split, Valid, FirstFailure, Outcome, Wire.Joined, Wire.EncodeChunk;
    var at := 1 + acks;
    AcksAreIgnored(at, works, Response(text, limit, at, works));
    match Wire.Split(text, limit) {
      case None =>
        EmptyIsSent(limit);
        ReadErrorEnd([], "500", at, works);
      case Some(pieces) =>
        Wire.SplitJoins(text, limit);
        Wire.SplitKeepsCharacters(text, limit);
        ReadChunks([], pieces, at, works);
        if text != [] && FirstFailure(pieces, at, works) < |pieces| {
          PrefixIsShorter(text, limit, FirstFailure(pieces, at, works));
        }
        PrefixOfNothing(pieces, FirstFailure(pieces, at, works));
        OutcomeReads(text, pieces, at, works);
    }
  }

  /** An empty answer is never refused. */
  lemma EmptyIsSent(limit: int)
    ensures Wire.Split([], limit).Some?
  {
  }

  lemma {:induction false} PrefixOfNothing(pieces: seq<seq<byte>>, f: nat)
    requires f <= |pieces|
    ensures Wire.Joined(pieces) == [] ==> Wire.Joined(pieces[..f]) == []
  {
    if f > 0 {
      assert pieces[..f][1..] == pieces[1..][..f - 1];
      PrefixOfNothing(pieces[1..], f - 1);
    }
  }

  lemma OutcomeReads(text: seq<byte>, pieces: seq<seq<byte>>, at: nat, works: Works)
    requires Wire.Joined(pieces) == text
    requires var f := FirstFailure(pieces, at, works);
             f < |pieces| ==> (Wire.Joined(pieces[..f]) != text <==> text != [])
    ensures var got := Outcome([], pieces, at, works);
            var lost := at + FirstFailure(pieces, at, works);
            && (got.Text? && got.text != text <==>
                text != [] && lost < at + |pieces| && !works(lost + 1) && works(lost + 2))
            && (lost < at + |pieces| && works(lost + 1) ==> got == ServiceError("500"))
  {
    hide Wire.Joined, FirstFailure;
    var f := FirstFailure(pieces, at, works);
    assert [] + text == text;
    assert [] + Wire.Joined(pieces[..f]) == Wire.Joined(pieces[..f]);
  }

  lemma PrefixIsShorter(text: seq<byte>, limit: int, f: nat)
    requires text != [] && Wire.Split(text, limit).Some? && f < |Wire.Split(text, limit).value|
    ensures Wire.Joined(Wire.Split(text, limit).value[..f]) != text
  {
    var pieces := Wire.Split(text, limit).value;
    Wire.SplitJoins(text, limit);
    if |Wire.EncodeChunk(text)| <= limit {
      assert pieces[..0] == [];
    } else {
      Wire.PiecesJoin(text, limit);
      JoinedLength(pieces, f);
    }
  }

  lemma {:induction false} JoinedLength(pieces: seq<seq<byte>>, f: nat)
    requires f < |pieces| && forall i | 0 <= i < |pieces| :: pieces[i] != []
    ensures |Wire.Joined(pieces[..f])| < |Wire.Joined(pieces)|
  {
    if f > 0 {
      assert pieces[..f][1..] == pieces[1..][..f - 1];
      JoinedLength(pieces[1..], f - 1);
    }
  }

  // ---- what a prompt that is not run, and one that is, gets first

  /** The code a prompt is refused with: a server that drains may be tried again elsewhere, a request
      that cannot be read may not. */
  function RefusalCode(h: Handling): string
    requires h.Draining? || h.BadRequest?
  {
    if h.Draining? then "500" else "400"
  }

  /** A prompt that is refused gets no ack, and its client reads the refusal exactly when that is
      delivered; an empty answer exactly when it is lost and the terminator is not. */
  lemma RefusalArrivesExactly(h: Handling, limit: int, works: Works)
    requires h.Draining? || h.BadRequest?
    ensures var got := Read([], Arrived(Stream(h, limit, works)));
            && (got == ServiceError(RefusalCode(h)) <==> works(0))
            && (got == Answer.Text([]) <==> !works(0) && works(1))
            && (got == TimedOut <==> !works(0) && !works(1))
    ensures Sent(Stream(h, limit, works)) == [ErrorMsg(RefusalCode(h)), TERMINATOR]
    ensures ACK !in Sent(Stream(h, limit, works))
  {
    hide Read, Arrived;
    ReadErrorEnd([], RefusalCode(h), 0, works);
    var end := ErrorEnd(RefusalCode(h), 0, works);
    assert end[1..][1..] == [] && Sent(end[1..]) == [end[1].msg];
    assert Sent(end) == [end[0].msg] + Sent(end[1..]);
  }

  lemma {:induction false} AcksSent(n: nat, works: Works, rest: seq<Attempt>, i: nat)
    requires i < n
    ensures (Acks(n, works) + rest)[i] == Attempt(ACK, works(i))
  {
    if i < n - 1 {
      AcksSent(n - 1, works, [Attempt(ACK, works(n - 1))] + rest, i);
    }
  }

  /** A prompt that is run is acknowledged before anything else, once and then with every keepalive;
      the first publish after those is a chunk of the answer, an error or the terminator. */
  lemma AcksComeFirst(h: Handling, limit: int, works: Works)
    requires h.RunFailed? || h.RunAnswered?
    ensures var stream := Stream(h, limit, works);
            && |stream| > 1 + h.acks
            && (forall i | 0 <= i <= h.acks :: stream[i] == Attempt(ACK, works(i)))
            && stream[1 + h.acks].msg != ACK
  {
    hide Acks;
    var rest := if h.RunFailed? then ErrorEnd(SentCode(h.code), 1 + h.acks, works)
                else Response(h.text, limit, 1 + h.acks, works);
    forall i | 0 <= i <= h.acks
      ensures Stream(h, limit, works)[i] == Attempt(ACK, works(i))
    {
      AcksSent(1 + h.acks, works, rest, i);
    }
    FirstIsNoAck(h, limit, works);
  }

  lemma FirstIsNoAck(h: Handling, limit: int, works: Works)
    requires h.RunFailed? || h.RunAnswered?
    ensures var rest := if h.RunFailed? then ErrorEnd(SentCode(h.code), 1 + h.acks, works)
                        else Response(h.text, limit, 1 + h.acks, works);
            rest != [] && rest[0].msg != ACK
  {
    AckIsIgnored();
    AckIsNoChunk();
    if h.RunAnswered? && Wire.Split(h.text, limit).Some? && Wire.Split(h.text, limit).value != [] {
      Wire.DecodeOfEncode(Wire.Split(h.text, limit).value[0]);
    }
  }

  // ---- where the client stops reading

  /** A message that ends a stream. */
  predicate EndsStream(m: Msg) {
    m.error != "" || m.data == [] || QUERY_PREFIX <= m.data
  }

  function ChunkText(m: Msg): seq<byte> {
    match Wire.DecodeChunk(m.data)
    case Some(text) => text
    case None => []
  }

  /** The text the chunks among `msgs` carry, in order. */
  function TextOf(msgs: seq<Msg>): seq<byte> {
    if msgs == [] then [] else ChunkText(msgs[0]) + TextOf(msgs[1..])
  }

  /** The client reads up to the first message that ends the stream: an error is returned with its
      code, a terminator gives the text of the chunks before it, a query stops the answer, and
      without any of them the client waits in vain. */
  lemma {:induction false} ReadsUpToTheEnd(so: seq<byte>, before: seq<Msg>, rest: seq<Msg>)
    requires forall m <- before :: !EndsStream(m)
    requires rest == [] || EndsStream(rest[0])
    ensures Read(so, before + rest) ==
            if rest == [] then TimedOut
            else if rest[0].error != "" then ServiceError(rest[0].error)
            else if rest[0].data == [] then Answer.Text(so + TextOf(before))
            else Asked
    decreases |before|
  {
    hide Wire.DecodeChunk;
    if before == [] {
      assert before + rest == rest && so + TextOf(before) == so;
    } else {
      var m := before[0];
      assert m in before && !EndsStream(m);
      assert (before + rest)[1..] == before[1..] + rest;
      assert so + ChunkText(m) + TextOf(before[1..]) == so + TextOf(before);
      ReadsUpToTheEnd(so + ChunkText(m), before[1..], rest);
      assert so + [] == so;
    }
  }
}
