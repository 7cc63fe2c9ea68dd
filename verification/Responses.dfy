/** Gateway responses, the mapping of an execution to a response, and the three client classifiers
    (src/lib.rs, src/bin/load/retry.rs, src/bin/dispatcher.rs, python/ai_protocol). */
module Responses {
  import opened Wrappers

  /** A parsed JSON value. `Int` is an integer literal other than `-0`, and `Float` any other number. */
  datatype Json =
    | Null
    | Bool(b: bool)
    | Int(n: int)
    | Float(r: real)
    | Str(s: string)
    | Arr(items: seq<Json>)
    | Obj(fields: map<string, Json>)

  /** Indexing a JSON value by a field name yields null where there is no such field. */
  function Field(j: Json, name: string): Json {
    if j.Obj? && name in j.fields then j.fields[name] else Null
  }

  function Code(j: Json): Json { Field(Field(j, "error"), "code") }

  function ExecutionMarker(j: Json): Json { Field(Field(j, "error"), "execution") }

  /** `body` is `None` when the bytes are not JSON. */
  datatype Response = Response(status: nat, retryAfter: Option<string>, body: Option<Json>)

  // ---------- Responses the gateway makes itself ----------

  function ErrorBody(code: string, execution: string): Json {
    Obj(map["error" := Obj(map["code" := Str(code), "execution" := Str(execution)])])
  }

  function ProtocolError(status: nat, code: string, execution: string): Response {
    Response(status, None, Some(ErrorBody(code, execution)))
  }

  function Overloaded(code: string, delay: string): Response {
    ProtocolError(429, code, "not_started").(retryAfter := Some(delay))
  }

  function QueueTimeout(): Response {
    ProtocolError(503, "queue_timeout", "not_started").(retryAfter := Some("1"))
  }

  function GatewayClosed(): Response {
    ProtocolError(503, "gateway_closed", "not_started")
  }

  function LostReply(): Response {
    ProtocolError(500, "internal_error", "unknown")
  }

  /** Refusals made before the queue lock is taken: authentication, routing, validation, and the
      startup-selected test rejection. */
  predicate RefusedEarly(r: Response) {
    || r == Overloaded("test_rejection", "2")
    || (r.status in {400, 401, 403, 404, 405, 413, 415, 422}
        && r.body.Some? && Code(r.body.value).Str?
        && r == ProtocolError(r.status, Code(r.body.value).s, "not_started"))
  }

  // ---------- After hand-off ----------

  datatype Chunk = Data(bytes: seq<int>) | Broken

  /** What the upstream service or native handler does; chosen by the environment. */
  datatype Upstream =
    | Native(reply: Response)
    | Unconfigured
    | SendFailed(timedOut: bool)
    | Replied(status: nat, declared: Option<nat>, chunks: seq<Chunk>, parsed: Option<Json>)

  /** One execution: it may pass the execution timeout, and a completed body may be too large to buffer. */
  datatype Execution = TimedOut | Completed(upstream: Upstream, fits: bool)

  predicate IsSuccess(status: nat) {
    200 <= status < 300
  }

  function Bytes(chunk: Chunk): seq<int> {
    if chunk.Data? then chunk.bytes else []
  }

  function Concat(chunks: seq<Chunk>): seq<int> {
    if chunks == [] then [] else Bytes(chunks[0]) + Concat(chunks[1..])
  }

  lemma {:induction false} ConcatAppend(chunks: seq<Chunk>, chunk: Chunk)
    ensures Concat(chunks + [chunk]) == Concat(chunks) + Bytes(chunk)
  {
    if chunks == [] {
      assert chunks + [chunk] == [chunk];
    } else {
      var head, tail := Bytes(chunks[0]), chunks[1..];
      calc {
        Concat(chunks + [chunk]);
        { assert (chunks + [chunk])[1..] == tail + [chunk]; }
        head + Concat(tail + [chunk]);
        { ConcatAppend(tail, chunk); }
        head + (Concat(tail) + Bytes(chunk));
        (head + Concat(tail)) + Bytes(chunk);
      }
    }
  }

  datatype BodyError = TooLarge | BrokenBody

  /** The body arrives whole and within `maximum`, or the first chunk that fails decides the error. */
  function Body(chunks: seq<Chunk>, maximum: nat): Result<seq<int>, BodyError> {
    if chunks == [] then Ok([]) else
    var init := Body(chunks[..|chunks| - 1], maximum);
    var last := chunks[|chunks| - 1];
    if init.Err? then init
    else if last.Broken? then Err(BrokenBody)
    else if |init.value| + |last.bytes| > maximum then Err(TooLarge)
    else Ok(init.value + last.bytes)
  }

  lemma {:induction false} BodyPrefix(chunks: seq<Chunk>, i: nat, maximum: nat)
    requires i <= |chunks| && Body(chunks[..i], maximum).Err?
    ensures Body(chunks, maximum) == Body(chunks[..i], maximum)
    decreases |chunks|
  {
    if i == |chunks| {
      assert chunks[..i] == chunks;
    } else {
      var init := chunks[..|chunks| - 1];
      assert init[..i] == chunks[..i];
      BodyPrefix(init, i, maximum);
    }
  }

  /** The buffered body is exactly the concatenation of the chunks, and it is refused exactly when a
      chunk breaks or the whole would pass the limit. */
  lemma {:induction false} BodyIsConcatenation(chunks: seq<Chunk>, maximum: nat)
    ensures Body(chunks, maximum).Ok? <==>
            (forall i | 0 <= i < |chunks| :: chunks[i].Data?) && |Concat(chunks)| <= maximum
    ensures Body(chunks, maximum).Ok? ==> Body(chunks, maximum).value == Concat(chunks)
    decreases |chunks|
  {
    if chunks != [] {
      var init, last := chunks[..|chunks| - 1], chunks[|chunks| - 1];
      assert chunks == init + [last];
      ConcatAppend(init, last);
      BodyIsConcatenation(init, maximum);
    }
  }

  /** The buffering loop. */
  method ReadBody(chunks: seq<Chunk>, maximum: nat) returns (r: Result<seq<int>, BodyError>)
    ensures r == Body(chunks, maximum)
    ensures r.Ok? ==> r.value == Concat(chunks)
  {
    BodyIsConcatenation(chunks, maximum);
    var body: seq<int> := [];
    for i := 0 to |chunks|
      invariant Body(chunks[..i], maximum) == Ok(body) && |body| <= maximum
    {
      assert chunks[..i + 1][..i] == chunks[..i];
      if chunks[i].Broken? {
        BodyPrefix(chunks, i + 1, maximum);
        return Err(BrokenBody);
      }
      if |chunks[i].bytes| > maximum - |body| {
        BodyPrefix(chunks, i + 1, maximum);
        return Err(TooLarge);
      }
      body := body + chunks[i].bytes;
    }
    assert chunks[..|chunks|] == chunks;
    r := Ok(body);
  }

  function CallUpstream(u: Upstream, maximum: nat): Response {
    match u
    case Native(reply) =>
      if IsSuccess(reply.status) then reply else ProtocolError(502, "operation_failed", "unknown")
    case Unconfigured => LostReply()
    case SendFailed(timedOut) =>
      if timedOut then ProtocolError(504, "execution_timeout", "unknown")
      else ProtocolError(502, "upstream_unavailable", "unknown")
    case Replied(status, declared, chunks, parsed) =>
      if status != 200 then ProtocolError(502, "upstream_status", "unknown")
      else if declared.Some? && declared.value > maximum then ProtocolError(502, "response_too_large", "unknown")
      else match Body(chunks, maximum)
        case Err(TooLarge) => ProtocolError(502, "response_too_large", "unknown")
        case Err(BrokenBody) => ProtocolError(502, "upstream_body_error", "unknown")
        case Ok(_) => Response(200, None, parsed)
  }

  function Execute(e: Execution, maximum: nat): Response {
    match e
    case TimedOut => ProtocolError(504, "execution_timeout", "unknown")
    case Completed(upstream, fits) =>
      if fits then CallUpstream(upstream, maximum) else ProtocolError(502, "response_too_large", "unknown")
  }

  // ---------- Classifiers ----------

  /** src/bin/load/retry.rs */
  predicate SafeToRetry(r: Response) {
    if r.status == 429 then true
    else if r.status != 503 then false
    else r.body.Some? && Code(r.body.value) == Str("queue_timeout")
         && ExecutionMarker(r.body.value) == Str("not_started")
  }

  /** src/bin/dispatcher.rs */
  predicate NotStarted(r: Response) {
    || r.status in {400, 401, 403, 404, 405, 413, 415, 422, 429}
    || (r.status == 503 && r.body.Some?
        && Code(r.body.value) in {Str("queue_timeout"), Str("gateway_closed")}
        && ExecutionMarker(r.body.value) == Str("not_started"))
  }

  /** python/ai_protocol/protocol.py: the isinstance checks are written out. */
  predicate PySafeToRetry(r: Response) {
    if r.status == 429 then true
    else if r.status != 503 then false
    else if r.body.None? then false
    else
      var body := r.body.value;
      var error := if body.Obj? && "error" in body.fields then body.fields["error"] else Null;
      && error.Obj?
      && "code" in error.fields && error.fields["code"] == Str("queue_timeout")
      && "execution" in error.fields && error.fields["execution"] == Str("not_started")
  }

  /** python/ai_protocol/client.py: `.get` on a body that is no object falls back to an empty object. */
  predicate PyKnown(r: Response) {
    var error :=
      if r.body.Some? && r.body.value.Obj?
      then (if "error" in r.body.value.fields then r.body.value.fields["error"] else Obj(map[]))
      else Obj(map[]);
    || r.status in {400, 401, 403, 404, 405, 413, 415, 422, 429}
    || (r.status == 503 && error.Obj?
        && "code" in error.fields && error.fields["code"] in {Str("queue_timeout"), Str("gateway_closed")}
        && "execution" in error.fields && error.fields["execution"] == Str("not_started"))
  }

  /** The Rust and the Python classifiers agree on every parsed response, and whatever may be retried
      is known not to have started. */
  lemma ClassifiersAgree(r: Response)
    ensures SafeToRetry(r) == PySafeToRetry(r)
    ensures NotStarted(r) == PyKnown(r)
    ensures SafeToRetry(r) ==> NotStarted(r)
    ensures NotStarted(r) ==> !IsSuccess(r.status)
  {
  }

  /** What a caller may be told once its job has been handed to an executor. */
  predicate AfterHandOff(r: Response) {
    || IsSuccess(r.status)
    || (r.status in {500, 502, 504} && r.body.Some? && ExecutionMarker(r.body.value) == Str("unknown"))
  }

  /** Whatever the upstream answers, even 429 or a forged queue expiry, the caller of a handed-off job sees
      a success or an error marked unknown, which no classifier takes for not started. */
  lemma ExecutionsAreNeverRetryable(e: Execution, maximum: nat)
    ensures AfterHandOff(Execute(e, maximum)) && AfterHandOff(LostReply())
    ensures !NotStarted(Execute(e, maximum)) && !SafeToRetry(Execute(e, maximum))
  {
  }

  /** The execution met its timeout and its result fits, and the handler succeeded or the upstream replied 200 with a
      body that arrived whole and within the limit. */
  predicate Genuine(e: Execution, maximum: nat) {
    && e.Completed? && e.fits
    && match e.upstream
       case Native(reply) => 200 <= reply.status < 300
       case Replied(status, declared, chunks, _) =>
         && status == 200 && (declared.Some? ==> declared.value <= maximum)
         && (forall i | 0 <= i < |chunks| :: chunks[i].Data?) && |Concat(chunks)| <= maximum
       case _ => false
  }

  /** A success reaches the caller exactly then, and it is the handler's own reply or carries the upstream's own
      document. */
  lemma SuccessIsGenuine(e: Execution, maximum: nat)
    ensures IsSuccess(Execute(e, maximum).status) <==> Genuine(e, maximum)
    ensures Genuine(e, maximum) && e.upstream.Native? ==> Execute(e, maximum) == e.upstream.reply
    ensures Genuine(e, maximum) && e.upstream.Replied? ==> Execute(e, maximum) == Response(200, None, e.upstream.parsed)
  {
    if e.Completed? && e.upstream.Replied? {
      BodyIsConcatenation(e.upstream.chunks, maximum);
    }
  }

  /** An error answer as it stands in the documentation: status, Retry-After, and the code and execution marker of its
      body, which holds nothing else. */
  predicate IsError(r: Response, status: nat, code: string, execution: string, retryAfter: Option<string>) {
    && r.status == status && r.retryAfter == retryAfter
    && r.body == Some(Obj(map["error" := Obj(map["code" := Str(code), "execution" := Str(execution)])]))
  }

  /** Chunk `i` is the first that cannot be buffered: it breaks, or takes the body past the limit. */
  predicate FirstFault(chunks: seq<Chunk>, maximum: nat, i: nat) {
    && i < |chunks|
    && (forall k | 0 <= k < i :: chunks[k].Data?) && |Concat(chunks[..i])| <= maximum
    && (chunks[i].Broken? || |Concat(chunks[..i])| + |chunks[i].bytes| > maximum)
  }

  predicate StopsAt(chunks: seq<Chunk>, maximum: nat, broken: bool) {
    exists i | 0 <= i < |chunks| :: FirstFault(chunks, maximum, i) && chunks[i].Broken? == broken
  }

  lemma {:induction false} FaultFound(chunks: seq<Chunk>, maximum: nat) returns (i: nat)
    requires Body(chunks, maximum).Err?
    ensures FirstFault(chunks, maximum, i)
    ensures Body(chunks, maximum) == Err(if chunks[i].Broken? then BrokenBody else TooLarge)
    decreases |chunks|
  {
    var last := |chunks| - 1;
    var init := chunks[..last];
    if Body(init, maximum).Err? {
      i := FaultFound(init, maximum);
      assert init[..i] == chunks[..i];
    } else {
      i := last;
      BodyIsConcatenation(init, maximum);
    }
  }

  lemma OneFault(chunks: seq<Chunk>, maximum: nat, i: nat, j: nat)
    requires FirstFault(chunks, maximum, i) && FirstFault(chunks, maximum, j)
    ensures i == j
  {
    if i < j {
      ConcatAppend(chunks[..i], chunks[i]);
      assert chunks[..i + 1] == chunks[..i] + [chunks[i]];
      assert chunks[..j][..i + 1] == chunks[..i + 1];
      ConcatGrows(chunks[..j], i + 1);
    } else if j < i {
      OneFault(chunks, maximum, j, i);
    }
  }

  lemma {:induction false} ConcatGrows(chunks: seq<Chunk>, n: nat)
    requires n <= |chunks|
    ensures |Concat(chunks[..n])| <= |Concat(chunks)|
    decreases |chunks|
  {
    if n == |chunks| {
      assert chunks[..n] == chunks;
    } else {
      var last := |chunks| - 1;
      assert chunks == chunks[..last] + [chunks[last]] && chunks[..last][..n] == chunks[..n];
      ConcatAppend(chunks[..last], chunks[last]);
      ConcatGrows(chunks[..last], n);
    }
  }

  lemma FaultDecides(chunks: seq<Chunk>, maximum: nat)
    ensures StopsAt(chunks, maximum, true) <==> Body(chunks, maximum) == Err(BrokenBody)
    ensures StopsAt(chunks, maximum, false) <==> Body(chunks, maximum) == Err(TooLarge)
  {
    if Body(chunks, maximum).Err? {
      var i := FaultFound(chunks, maximum);
      forall j | FirstFault(chunks, maximum, j)
        ensures j == i
      {
        OneFault(chunks, maximum, i, j);
      }
    } else {
      forall i | 0 <= i < |chunks|
        ensures !FirstFault(chunks, maximum, i)
      {
        BodyIsConcatenation(chunks, maximum);
        assert chunks[..i + 1] == chunks[..i] + [chunks[i]];
        ConcatAppend(chunks[..i], chunks[i]);
        ConcatGrows(chunks, i + 1);
      }
    }
  }

  datatype Failure =
    | PastTimeout
    | NoUpstream
    | HandlerFailed
    | Unreachable
    | BadStatus
    | BodyBroke
    | BodyTooLarge

  /** Why an execution that is no genuine success failed. */
  predicate FailsFor(e: Execution, maximum: nat, f: Failure) {
    if e.TimedOut? then f.PastTimeout?
    else if !e.fits then f.BodyTooLarge?
    else match e.upstream
      case Native(reply) => f.HandlerFailed? && !(200 <= reply.status < 300)
      case Unconfigured => f.NoUpstream?
      case SendFailed(timedOut) => if timedOut then f.PastTimeout? else f.Unreachable?
      case Replied(status, declared, chunks, _) =>
        if status != 200 then f.BadStatus?
        else if declared.Some? && declared.value > maximum then f.BodyTooLarge?
        else (f.BodyTooLarge? && StopsAt(chunks, maximum, false)) || (f.BodyBroke? && StopsAt(chunks, maximum, true))
  }

  /** What the caller is told of it. */
  predicate Reports(r: Response, f: Failure) {
    match f
    case PastTimeout => IsError(r, 504, "execution_timeout", "unknown", None)
    case NoUpstream => IsError(r, 500, "internal_error", "unknown", None)
    case HandlerFailed => IsError(r, 502, "operation_failed", "unknown", None)
    case Unreachable => IsError(r, 502, "upstream_unavailable", "unknown", None)
    case BadStatus => IsError(r, 502, "upstream_status", "unknown", None)
    case BodyBroke => IsError(r, 502, "upstream_body_error", "unknown", None)
    case BodyTooLarge => IsError(r, 502, "response_too_large", "unknown", None)
  }

  function ErrorFor(f: Failure): Response {
    match f
    case PastTimeout => ProtocolError(504, "execution_timeout", "unknown")
    case NoUpstream => ProtocolError(500, "internal_error", "unknown")
    case HandlerFailed => ProtocolError(502, "operation_failed", "unknown")
    case Unreachable => ProtocolError(502, "upstream_unavailable", "unknown")
    case BadStatus => ProtocolError(502, "upstream_status", "unknown")
    case BodyBroke => ProtocolError(502, "upstream_body_error", "unknown")
    case BodyTooLarge => ProtocolError(502, "response_too_large", "unknown")
  }

  lemma ErrorReports(f: Failure)
    ensures Reports(ErrorFor(f), f)
  {
  }

  lemma UpstreamFails(u: Upstream, maximum: nat) returns (f: Failure)
    requires !Genuine(Completed(u, true), maximum)
    ensures FailsFor(Completed(u, true), maximum, f) && CallUpstream(u, maximum) == ErrorFor(f)
    ensures forall g | FailsFor(Completed(u, true), maximum, g) :: g == f
  {
    SuccessIsGenuine(Completed(u, true), maximum);
    hide Genuine, ProtocolError, Body, StopsAt;
    match u
    case Native(_) => f := HandlerFailed;
    case Unconfigured => f := NoUpstream;
    case SendFailed(timedOut) => f := if timedOut then PastTimeout else Unreachable;
    case Replied(status, declared, chunks, parsed) =>
      FaultDecides(chunks, maximum);
      f := if status != 200 then BadStatus
           else if declared.Some? && declared.value > maximum then BodyTooLarge
           else if StopsAt(chunks, maximum, true) then BodyBroke
           else BodyTooLarge;
  }

  /** Every execution that is no genuine success fails for one reason, and is answered with the error of that reason. */
  lemma FailureIsNamed(e: Execution, maximum: nat) returns (f: Failure)
    requires !Genuine(e, maximum)
    ensures FailsFor(e, maximum, f) && Reports(Execute(e, maximum), f)
    ensures forall g | FailsFor(e, maximum, g) :: g == f
  {
    if e.Completed? && e.fits {
      f := UpstreamFails(e.upstream, maximum);
      hide FailsFor;
    } else {
      f := if e.TimedOut? then PastTimeout else BodyTooLarge;
    }
    ErrorReports(f);
    hide ProtocolError, Reports, CallUpstream, Genuine;
  }

  /** What the caller of an execution is told. */
  ghost predicate Outcome(e: Execution, maximum: nat, r: Response) {
    if Genuine(e, maximum) then
      r == if e.upstream.Native? then e.upstream.reply else Response(200, None, e.upstream.parsed)
    else exists f :: FailsFor(e, maximum, f) && Reports(r, f)
  }

  lemma ExecutionOutcome(e: Execution, maximum: nat)
    ensures Outcome(e, maximum, Execute(e, maximum))
  {
    SuccessIsGenuine(e, maximum);
    if !Genuine(e, maximum) {
      var f := FailureIsNamed(e, maximum);
    }
    hide FailsFor, Reports, Execute;
  }

  /** Every answer given before hand-off is known not to have started; of those, exactly the overload
      statuses and the queue expiry may be retried. */
  lemma EarlyAnswersAreNotStarted(r: Response)
    requires RefusedEarly(r) || r == QueueTimeout() || r == GatewayClosed() || r.status == 429
    ensures NotStarted(r) && !AfterHandOff(r)
    ensures SafeToRetry(r) <==> r.status == 429 || r == QueueTimeout()
  {
  }
}
