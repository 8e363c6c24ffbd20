/** Retrying a model call (llm/middleware/retry.go): buffered, and streamed to a consumer that may
    stop reading. Waiting between attempts is left out; `contextDone(n)` says that the context is
    done before attempt `n`, or ends while waiting for it. */
module Retry {
  import opened Messages

  datatype Error = Failure(reason: string) | ContextDone | MaxAttemptsExceeded(attempts: nat, cause: Error)

  /** A chunk of an answer; the terminal one carries the whole. */
  datatype Chunk = Delta(text: string) | Terminal(whole: string)

  datatype Result = Ok(text: string) | Err(error: Error)

  /** How an attempt streams: chunks, then perhaps an error. */
  datatype Attempt = Attempt(chunks: seq<Chunk>, error: Option<Error>)

  /** A retrying model over another one. `wants(i)` is what the consumer answers to item `i`. */
  datatype Config = Config(
    maxAttempts: nat, retryable: Error -> bool, contextDone: nat -> bool, inner: nat -> Attempt, wants: nat -> bool)

  datatype Item = Piece(chunk: Chunk) | Problem(error: Error)

  /** An attempt's end: as the model ended it, or because the consumer stopped reading. */
  datatype End = Whole | Failed(error: Error) | Stopped

  /** A consumer, and what it was given. */
  class Consumer {
    const wants: nat -> bool
    var got: seq<Item>

    constructor (wants: nat -> bool)
      ensures this.wants == wants && got == []
    {
      this.wants, got := wants, [];
    }

    /** It has not stopped reading, and was given no error. */
    ghost predicate Reading()
      reads this
    {
      forall i | 0 <= i < |got| :: wants(i) && got[i].Piece?
    }

    method Yield(item: Item) returns (more: bool)
      requires Reading()
      modifies this
      ensures got == old(got) + [item] && more == wants(|old(got)|)
    {
      more := wants(|got|);
      got := got + [item];
    }

    /** Streams one attempt. */
    method StreamAttempt(a: Attempt) returns (yielded: bool, end: End)
      requires got == []
      modifies this
      ensures yielded <==> got != []
      ensures got == Pieces(a.chunks[..Taken(a.chunks, wants)])
      ensures end == EndOf(a, wants)
      ensures !end.Stopped? ==> Reading()
    {
      var i := 0;
      while i < |a.chunks|
        invariant i <= |a.chunks| && got == Pieces(a.chunks[..i]) && Reading()
        invariant forall k | 0 <= k < i :: wants(k)
      {
        assert a.chunks[..i + 1] == a.chunks[..i] + [a.chunks[i]];
        var more := Yield(Piece(a.chunks[i]));
        if !more {
          TakenIs(a.chunks, wants, i + 1);
          return true, Stopped;
        }
        i := i + 1;
      }
      TakenIs(a.chunks, wants, i);
      return a.chunks != [], if a.error.Some? then Failed(a.error.value) else Whole;
    }

    /** Streams with retries; returns the number of attempts made. */
    method ExecuteStream(cfg: Config) returns (attempts: nat)
      requires got == [] && wants == cfg.wants && cfg.maxAttempts >= 1
      modifies this
      ensures got == Streamed(cfg, 1)
      ensures attempts <= cfg.maxAttempts
    {
      attempts := 0;
      while true
        invariant attempts < cfg.maxAttempts && got == [] && Streamed(cfg, attempts + 1) == Streamed(cfg, 1)
        decreases cfg.maxAttempts - attempts
      {
        if cfg.contextDone(attempts + 1) {
          var more := Yield(Problem(ContextDone));
          return;
        }
        attempts := attempts + 1;
        var yielded, end := StreamAttempt(cfg.inner(attempts));
        var stop, final := StreamOutcome(cfg, attempts, yielded, end);
        if stop {
          if final.Some? {
            var more := Yield(Problem(final.value));
          }
          return;
        }
      }
    }
  }

  method StreamOutcome(cfg: Config, attempt: nat, yielded: bool, end: End) returns (stop: bool, final: Option<Error>)
    ensures !stop <==> end.Failed? && !yielded && cfg.retryable(end.error) && attempt < cfg.maxAttempts
    ensures stop ==> final == Final(cfg, attempt, yielded, end)
  {
    if !end.Failed? {
      return true, None;
    }
    if yielded || !cfg.retryable(end.error) {
      return true, Some(end.error);
    }
    if attempt >= cfg.maxAttempts {
      return true, Some(MaxAttemptsExceeded(cfg.maxAttempts, end.error));
    }
    return false, None;
  }

  /** The error that follows the chunks of the last attempt, if any. */
  function Final(cfg: Config, attempt: nat, yielded: bool, end: End): Option<Error> {
    if !end.Failed? then None
    else if yielded || !cfg.retryable(end.error) then Some(end.error)
    else Some(MaxAttemptsExceeded(cfg.maxAttempts, end.error))
  }

  function Pieces(chunks: seq<Chunk>): seq<Item> {
    seq(|chunks|, i requires 0 <= i < |chunks| => Piece(chunks[i]))
  }

  /** How many of the chunks are delivered: up to the first the consumer does not want more after. */
  function Taken(chunks: seq<Chunk>, wants: nat -> bool): (n: nat)
    ensures n <= |chunks|
  {
    TakenFrom(chunks, wants, 0)
  }

  function TakenFrom(chunks: seq<Chunk>, wants: nat -> bool, i: nat): (n: nat)
    requires i <= |chunks|
    ensures i <= n <= |chunks|
    decreases |chunks| - i
  {
    if i == |chunks| then i else if wants(i) then TakenFrom(chunks, wants, i + 1) else i + 1
  }

  function EndOf(a: Attempt, wants: nat -> bool): End {
    var n := Taken(a.chunks, wants);
    if n > 0 && !wants(n - 1) then Stopped else if a.error.Some? then Failed(a.error.value) else Whole
  }

  /** `n` chunks are delivered when all before the last are wanted, and it is the last or is not. */
  lemma TakenIs(chunks: seq<Chunk>, wants: nat -> bool, n: nat)
    requires n <= |chunks| && (forall k | 0 <= k < n - 1 :: wants(k))
    requires n == |chunks| || (n > 0 && !wants(n - 1))
    ensures Taken(chunks, wants) == n
  {
    TakenOn(chunks, wants, n, 0);
  }

  lemma {:induction false} TakenOn(chunks: seq<Chunk>, wants: nat -> bool, n: nat, i: nat)
    requires i <= n <= |chunks| && (forall k | 0 <= k < n - 1 :: wants(k))
    requires n == |chunks| || (n > 0 && !wants(n - 1))
    requires i < n || n == |chunks|
    ensures TakenFrom(chunks, wants, i) == n
    decreases n - i
  {
    if i < n && wants(i) {
      TakenOn(chunks, wants, n, i + 1);
    }
  }

  /** Everything the consumer is given from attempt `n` on. */
  function Streamed(cfg: Config, n: nat): seq<Item>
    decreases cfg.maxAttempts - n
  {
    if cfg.contextDone(n) then [Problem(ContextDone)]
    else
      var a := cfg.inner(n);
      var pieces := Pieces(a.chunks[..Taken(a.chunks, cfg.wants)]);
      var end := EndOf(a, cfg.wants);
      if end.Failed? && pieces == [] && cfg.retryable(end.error) && n < cfg.maxAttempts then Streamed(cfg, n + 1)
      else
        match Final(cfg, n, pieces != [], end)
        case None => pieces
        case Some(e) => pieces + [Problem(e)]
  }

  // ---- what a retried stream promises

  /** Attempt `n` failed before any chunk, with an error worth another attempt. */
  predicate FailsEarly(cfg: Config, n: nat) {
    var a := cfg.inner(n);
    !cfg.contextDone(n) && a.chunks == [] && a.error.Some? && cfg.retryable(a.error.value)
  }

  /** What the consumer is given when attempt `n` is the last one. */
  function LastAttempt(cfg: Config, n: nat): seq<Item> {
    if cfg.contextDone(n) then [Problem(ContextDone)]
    else
      var a := cfg.inner(n);
      Pieces(a.chunks[..Taken(a.chunks, cfg.wants)]) +
      match EndOf(a, cfg.wants)
      case Stopped => []
      case Whole => []
      case Failed(e) =>
        if a.chunks == [] && cfg.retryable(e) then [Problem(MaxAttemptsExceeded(cfg.maxAttempts, e))] else [Problem(e)]
  }

  /** The attempt that is delivered is the first that does not fail early, or the last allowed. */
  predicate IsLast(cfg: Config, from: nat, n: nat) {
    && from <= n <= cfg.maxAttempts
    && (forall k | from <= k < n :: FailsEarly(cfg, k))
    && (n == cfg.maxAttempts || !FailsEarly(cfg, n))
  }

  /** Chunks of one attempt only, the first that does not fail early, then at most one error. */
  lemma {:induction false} StreamsOneAttempt(cfg: Config, from: nat) returns (n: nat)
    requires from <= cfg.maxAttempts
    ensures IsLast(cfg, from, n)
    ensures Streamed(cfg, from) == LastAttempt(cfg, n)
    decreases cfg.maxAttempts - from
  {
    var a := cfg.inner(from);
    if FailsEarly(cfg, from) && from < cfg.maxAttempts {
      assert Pieces(a.chunks[..Taken(a.chunks, cfg.wants)]) == [];
      n := StreamsOneAttempt(cfg, from + 1);
    } else {
      n := from;
      TakenSome(a.chunks, cfg.wants);
      var pieces := Pieces(a.chunks[..Taken(a.chunks, cfg.wants)]);
      assert pieces + [] == pieces;
    }
  }

  lemma TakenSome(chunks: seq<Chunk>, wants: nat -> bool)
    ensures Taken(chunks, wants) == 0 <==> chunks == []
  {
  }

  lemma {:induction false} TakenWanted(chunks: seq<Chunk>, wants: nat -> bool, i: nat)
    requires i <= |chunks|
    ensures forall k | i <= k < TakenFrom(chunks, wants, i) - 1 :: wants(k)
    ensures var n := TakenFrom(chunks, wants, i); n == |chunks| || (n > i && !wants(n - 1))
    decreases |chunks| - i
  {
    if i < |chunks| && wants(i) {
      TakenWanted(chunks, wants, i + 1);
    }
  }

  /** Nothing is delivered after the consumer stopped reading, an error is delivered last, and
      what is delivered of an attempt is a prefix of its chunks. */
  lemma NothingAfterStop(cfg: Config, i: nat)
    requires cfg.maxAttempts >= 1 && i + 1 < |Streamed(cfg, 1)|
    ensures cfg.wants(i) && Streamed(cfg, 1)[i].Piece?
  {
    var n := StreamsOneAttempt(cfg, 1);
    TakenWanted(cfg.inner(n).chunks, cfg.wants, 0);
  }

  // ---- the buffered call

  method Execute(cfg: Config, call: nat -> Result) returns (r: Result)
    requires cfg.maxAttempts >= 1
    ensures r == Executed(cfg, call, 1)
  {
    if cfg.contextDone(1) {
      return Err(ContextDone);
    }
    r := call(1);
    if r.Ok? {
      return;
    }
    var attempt := 2;
    while attempt <= cfg.maxAttempts
      invariant 2 <= attempt <= cfg.maxAttempts + 1 && r == call(attempt - 1) && r.Err?
      invariant !cfg.contextDone(attempt - 1) && Executed(cfg, call, attempt - 1) == Executed(cfg, call, 1)
    {
      if !cfg.retryable(r.error) {
        return;
      }
      if cfg.contextDone(attempt) {
        return Err(ContextDone);
      }
      r := call(attempt);
      if r.Ok? {
        return;
      }
      attempt := attempt + 1;
    }
    if !cfg.retryable(r.error) {
      return;
    }
    return Err(MaxAttemptsExceeded(cfg.maxAttempts, r.error));
  }

  function Executed(cfg: Config, call: nat -> Result, n: nat): Result
    decreases cfg.maxAttempts - n
  {
    if cfg.contextDone(n) then Err(ContextDone)
    else
      match call(n)
      case Ok(text) => Ok(text)
      case Err(e) =>
        if !cfg.retryable(e) then Err(e)
        else if n < cfg.maxAttempts then Executed(cfg, call, n + 1)
        else Err(MaxAttemptsExceeded(cfg.maxAttempts, e))
  }

  /** How a model that does not stream is streamed: its answer as one terminal chunk. */
  function Buffered(r: Result): Attempt {
    match r
    case Ok(text) => Attempt([Terminal(text)], None)
    case Err(e) => Attempt([], Some(e))
  }

  function Delivered(r: Result): seq<Item> {
    match r
    case Ok(text) => [Piece(Terminal(text))]
    case Err(e) => [Problem(e)]
  }

  /** Over a model that does not stream, streaming gives what the buffered call gives. */
  lemma {:induction false} StreamedIsExecuted(cfg: Config, call: nat -> Result, n: nat)
    requires forall k :: cfg.inner(k) == Buffered(call(k))
    ensures Streamed(cfg, n) == Delivered(Executed(cfg, call, n))
    decreases cfg.maxAttempts - n
  {
    if !cfg.contextDone(n) {
      var a := cfg.inner(n);
      match call(n) {
        case Ok(text) =>
          TakenIs(a.chunks, cfg.wants, 1);
          assert a.chunks[..1] == a.chunks;
        case Err(e) =>
          if cfg.retryable(e) && n < cfg.maxAttempts {
            StreamedIsExecuted(cfg, call, n + 1);
          }
          assert Pieces(a.chunks[..0]) == [];
      }
    }
  }
}
