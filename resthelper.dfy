/** The response helpers shared by the wrappers, the reply a wrapper
    produces for each handler outcome, and the original pair of wrappers
    (RestJsonWrapper, RestNoContentWrapper). */
module RestHelper {
  import opened GoRuntime
  import opened Errors
  import opened NetHttp
  import opened Hooks

  const AllowOrigin := "Access-Control-Allow-Origin"
  const AllowMethods := "Access-Control-Allow-Methods"
  const AllowHeaders := "Access-Control-Allow-Headers"
  const ContentType := "Content-Type"
  const TextPlain := "text/plain"
  const ApplicationJson := "application/json"
  const PanicMessage := "panic"

  /** The cross-origin headers every response carries. */
  const CommonHeaders: map<string, string> := map[
    AllowOrigin := "*",
    AllowMethods := "POST, GET, OPTIONS, PUT, DELETE",
    AllowHeaders := "Accept, Content-Type, Content-Length, Accept-Encoding, X-CSRF-Token, Authorization"
  ]

  /** `writeCommonHeaders(w)` */
  method WriteCommonHeaders(w: ResponseWriter)
    requires w.Valid()
    modifies w
    ensures w.Valid()
    ensures w.header == old(w.header) + CommonHeaders
    ensures w.status == old(w.status) && w.sent == old(w.sent)
    ensures w.body == old(w.body) && w.statusCalls == old(w.statusCalls)
    ensures w.rejectedCalls == old(w.rejectedCalls)
  {
    w.SetHeader(AllowOrigin, "*");
    w.SetHeader(AllowMethods, "POST, GET, OPTIONS, PUT, DELETE");
    w.SetHeader(AllowHeaders, "Accept, Content-Type, Content-Length, Accept-Encoding, X-CSRF-Token, Authorization");
  }

  /** `callAllHooks(hooks, statusCode)`: each hook is started once, in index
      order, on its own goroutine, with the status code. */
  method CallAllHooks<H>(hooks: seq<H>, statusCode: int, g: Goroutines<int>)
    modifies g
    ensures g.started == old(g.started) + Dispatches(|hooks|, statusCode)
  {
    var i := 0;
    while i < |hooks|
      invariant 0 <= i <= |hooks|
      invariant g.started == old(g.started) + Dispatches(i, statusCode)
    {
      g.Go(i, statusCode);
      i := i + 1;
    }
  }

  /** `respondWithError(w, code, msg, afterResponseHooks)`: a plain-text
      reply with status `code` and body `msg` (dropped when the status in
      effect allows no body), then the hooks with `code`.  When
      `WriteHeader(code)` panics, the Content-Type and the count of rejected
      calls are all that has changed, and the panic goes on to the caller
      (`panicked`). */
  method RespondWithError<H>(w: ResponseWriter, code: int, msg: string, afterResponseHooks: seq<H>,
                             g: Goroutines<int>)
    returns (panicked: bool)
    requires w.Valid()
    modifies w, g
    ensures w.Valid()
    ensures w.header == old(w.header)[ContentType := TextPlain]
    ensures panicked <==> old(w.status).None? && !ValidStatusCode(code)
    ensures panicked ==> w.status == old(w.status) && w.sent == old(w.sent) && w.body == old(w.body)
    ensures panicked ==> w.statusCalls == old(w.statusCalls) && g.started == old(g.started)
    ensures w.rejectedCalls == old(w.rejectedCalls) + (if panicked then 1 else 0)
    ensures !panicked ==> w.statusCalls == old(w.statusCalls) + 1
    ensures !panicked && old(w.status).None? ==> w.status == Some(code) && w.sent == w.header
    ensures old(w.status).Some? ==> w.status == old(w.status) && w.sent == old(w.sent)
    ensures !panicked ==> w.status.Some? &&
                          w.body == old(w.body) + (if BodyAllowed(w.status.value) then msg else [])
    ensures !panicked ==> g.started == old(g.started) + Dispatches(|afterResponseHooks|, code)
  {
    w.SetHeader(ContentType, TextPlain);
    panicked := w.WriteHeader(code);
    if panicked {
      return;
    }
    var _ := w.Write(msg);
    CallAllHooks(afterResponseHooks, code, g);
  }

  /** `recoverToErrorResponse(w, afterResponseHooks)`, deferred by the
      wrappers; `panicking` says whether `recover()` finds a panic. */
  method RecoverToErrorResponse<H>(w: ResponseWriter, afterResponseHooks: seq<H>, g: Goroutines<int>,
                                   panicking: bool)
    requires w.Valid()
    modifies w, g
    ensures w.Valid()
    ensures !panicking ==> unchanged(w) && unchanged(g)
    ensures panicking ==> w.header == old(w.header)[ContentType := TextPlain]
    ensures panicking ==> w.statusCalls == old(w.statusCalls) + 1
    ensures w.rejectedCalls == old(w.rejectedCalls)
    ensures panicking && old(w.status).None? ==>
      w.status == Some(StatusInternalServerError) && w.sent == w.header
    ensures panicking && old(w.status).Some? ==> w.status == old(w.status) && w.sent == old(w.sent)
    ensures panicking ==>
              w.status.Some? && w.body == old(w.body) + (if BodyAllowed(w.status.value) then PanicMessage else [])
    ensures panicking ==>
      g.started == old(g.started) + Dispatches(|afterResponseHooks|, StatusInternalServerError)
  {
    if panicking {
      // 500 is a valid code, so this WriteHeader does not panic
      var _ := RespondWithError(w, StatusInternalServerError, PanicMessage, afterResponseHooks, g);
    }
  }

  /** What one request's response amounts to: the status written (and given
      to the after-response hooks), the Content-Type set next to the common
      headers, and the body. */
  datatype Reply = Reply(status: int, contentType: Option<string>, body: string)

  /** The plain-text reply `respondWithError(w, code, msg, ...)` makes on a
      fresh writer; net/http drops `msg` when `code` allows no body. */
  function ErrorReply(code: int, msg: string): Reply {
    Reply(code, Some(TextPlain), if BodyAllowed(code) then msg else [])
  }

  /** The reply of a recovered panic. */
  const PanicReply := ErrorReply(StatusInternalServerError, PanicMessage)

  /** Whether a handler's error reaches `WriteHeader` with a code it
      rejects: `Error()` returned the text and the status is outside 100..999. */
  predicate StatusRejected(err: Option<HttpError>) {
    err.Some? && err.value.Error().Returned? && !ValidStatusCode(err.value.status)
  }

  /** The reply to a handler's error `e`: its status and text, or the panic
      reply when `e.Error()` itself panics or `WriteHeader` rejects the status. */
  function HandlerErrorReply(e: HttpError): Reply {
    match e.Error()
    case Returned(msg) => if ValidStatusCode(e.status) then ErrorReply(e.status, msg) else PanicReply
    case Panicked => PanicReply
  }

  /** The reply of a JSON-answering wrapper whose handler call had `outcome`;
      `encode` stands for `json.Marshal`, which may panic (a payload's own
      `MarshalJSON` panicking) and otherwise gives the body (an empty one
      when Marshal fails with an error). */
  function JsonReply<P>(outcome: Call<(P, Option<HttpError>)>, encode: P -> Call<string>): Reply {
    match outcome
    case Panicked => PanicReply
    case Returned((payload, None)) =>
      (match encode(payload)
       case Returned(response) => Reply(StatusOK, Some(ApplicationJson), response)
       case Panicked => PanicReply)
    case Returned((_, Some(e))) => HandlerErrorReply(e)
  }

  /** The reply of a no-content wrapper whose handler call had `outcome`. */
  function NoContentReply(outcome: Call<Option<HttpError>>): Reply {
    match outcome
    case Panicked => PanicReply
    case Returned(None) => Reply(StatusNoContent, None, [])
    case Returned(Some(e)) => HandlerErrorReply(e)
  }

  /** The header map after a wrapper has produced `rep` on a writer whose
      header map was `before`. */
  function HeaderAfter(before: map<string, string>, rep: Reply): map<string, string> {
    match rep.contentType
    case None => before + CommonHeaders
    case Some(ct) => (before + CommonHeaders)[ContentType := ct]
  }

  /** Whatever the reply, the three common headers are in it with their fixed values. */
  lemma CommonHeadersKept(before: map<string, string>, rep: Reply)
    ensures forall k :: k in CommonHeaders ==> k in HeaderAfter(before, rep) && HeaderAfter(before, rep)[k] == CommonHeaders[k]
    ensures ContentType in HeaderAfter(before, rep) <==> rep.contentType.Some? || ContentType in before
  {
    assert ContentType !in CommonHeaders by {
      assert ContentType != AllowOrigin && ContentType != AllowMethods && ContentType != AllowHeaders;
    }
  }

  /** A handler error's reply: its status and text as plain text when its
      `Error()` returns and the status is one `WriteHeader` accepts (the text
      dropped for a status that allows no body), and 500 with "panic"
      otherwise. */
  lemma HandlerErrorReplyCases(e: HttpError)
    ensures e.Error().Returned? && ValidStatusCode(e.status) ==>
            HandlerErrorReply(e).status == e.status && HandlerErrorReply(e).contentType == Some(TextPlain)
    ensures e.Error().Returned? && ValidStatusCode(e.status) && BodyAllowed(e.status) ==>
            HandlerErrorReply(e).body == e.Error().value
    ensures e.Error().Returned? && !BodyAllowed(e.status) && ValidStatusCode(e.status) ==>
            HandlerErrorReply(e).body == []
    ensures e.Error().Panicked? || StatusRejected(Some(e)) ==> HandlerErrorReply(e) == PanicReply
    ensures ValidStatusCode(HandlerErrorReply(e).status)
    ensures HandlerErrorReply(e).body != [] ==> BodyAllowed(HandlerErrorReply(e).status)
  {
  }

  /** The JSON reply, case by case: success is 200 with the encoded payload
      as JSON; a handler error is its status and text as plain text; a panic,
      in the handler, in Marshal, in the error's `Error()` (a nil cause, or a
      cause whose own `Error()` panics) or in `WriteHeader` (a status outside
      100..999), is 500 with "panic".  Every reply sets a Content-Type, and it
      is JSON exactly on success. */
  lemma JsonReplyCases<P>(outcome: Call<(P, Option<HttpError>)>, encode: P -> Call<string>)
    ensures JsonReply(outcome, encode).contentType.Some?
    ensures JsonReply(outcome, encode).contentType == Some(ApplicationJson) <==>
            outcome.Returned? && outcome.value.1.None? && encode(outcome.value.0).Returned?
    ensures outcome.Returned? && outcome.value.1.None? && encode(outcome.value.0).Returned? ==>
            JsonReply(outcome, encode) == Reply(StatusOK, Some(ApplicationJson), encode(outcome.value.0).value)
    ensures outcome.Returned? && outcome.value.1.None? && encode(outcome.value.0).Panicked? ==>
            JsonReply(outcome, encode) == PanicReply
    ensures outcome.Returned? && outcome.value.1.Some? ==>
            JsonReply(outcome, encode) == HandlerErrorReply(outcome.value.1.value)
    ensures outcome.Panicked? ==> JsonReply(outcome, encode) == PanicReply
    ensures ValidStatusCode(JsonReply(outcome, encode).status)
    ensures JsonReply(outcome, encode).body != [] ==> BodyAllowed(JsonReply(outcome, encode).status)
  {
    if outcome.Returned? && outcome.value.1.Some? {
      HandlerErrorReplyCases(outcome.value.1.value);
    }
  }

  /** The no-content reply, case by case: success is 204 with no body and no
      Content-Type; a handler error gives the reply of HandlerErrorReplyCases;
      a panic is 500 with "panic".  Only the success reply leaves Content-Type
      unset. */
  lemma NoContentReplyCases(outcome: Call<Option<HttpError>>)
    ensures NoContentReply(outcome).contentType.None? <==> outcome == Returned(None)
    ensures outcome == Returned(None) ==> NoContentReply(outcome) == Reply(StatusNoContent, None, [])
    ensures outcome.Returned? && outcome.value.Some? ==>
            NoContentReply(outcome) == HandlerErrorReply(outcome.value.value)
    ensures outcome.Panicked? ==> NoContentReply(outcome) == PanicReply
    ensures ValidStatusCode(NoContentReply(outcome).status)
    ensures NoContentReply(outcome).body != [] ==> BodyAllowed(NoContentReply(outcome).status)
  {
    if outcome.Returned? && outcome.value.Some? {
      HandlerErrorReplyCases(outcome.value.value);
    }
  }

  /** The closure `RestJsonWrapper(toWrap, afterResponseHooks...)` returns,
      applied to the writer `w` and the request `r`.  `encode` stands for
      `json.Marshal`. */
  method RestJsonWrapper<Rq, P, H>(toWrap: Rq -> Call<(P, Option<HttpError>)>, encode: P -> Call<string>,
                                   afterResponseHooks: seq<H>, w: ResponseWriter, r: Rq, g: Goroutines<int>)
    requires w.Valid() && w.status.None?
    modifies w, g
    ensures w.Valid()
    ensures var rep := JsonReply(toWrap(r), encode);
      w.status == Some(rep.status) && w.statusCalls == old(w.statusCalls) + 1 &&
      w.rejectedCalls == old(w.rejectedCalls) + (if toWrap(r).Returned? && StatusRejected(toWrap(r).value.1) then 1 else 0) &&
      w.sent == w.header == HeaderAfter(old(w.header), rep) &&
      w.body == rep.body &&
      g.started == old(g.started) + Dispatches(|afterResponseHooks|, rep.status)
  {
    var panicking := false;
    WriteCommonHeaders(w);
    match toWrap(r) {
      case Panicked =>
        panicking := true;
      case Returned((payload, err)) =>
        if err.Some? {
          match err.value.Error() {
            case Panicked =>
              panicking := true;
            case Returned(msg) =>
              panicking := RespondWithError(w, err.value.status, msg, afterResponseHooks, g);
          }
        } else {
          match encode(payload) {
            case Panicked =>
              panicking := true;
            case Returned(response) =>
              w.SetHeader(ContentType, ApplicationJson);
              var _ := w.WriteHeader(StatusOK);
              var _ := w.Write(response);
              CallAllHooks(afterResponseHooks, StatusOK, g);
          }
        }
    }
    RecoverToErrorResponse(w, afterResponseHooks, g, panicking);
  }

  /** The closure `RestNoContentWrapper(toWrap, afterResponseHooks...)`
      returns, applied to the writer `w` and the request `r`. */
  method RestNoContentWrapper<Rq, H>(toWrap: Rq -> Call<Option<HttpError>>, afterResponseHooks: seq<H>,
                                     w: ResponseWriter, r: Rq, g: Goroutines<int>)
    requires w.Valid() && w.status.None?
    modifies w, g
    ensures w.Valid()
    ensures var rep := NoContentReply(toWrap(r));
      w.status == Some(rep.status) && w.statusCalls == old(w.statusCalls) + 1 &&
      w.rejectedCalls == old(w.rejectedCalls) + (if toWrap(r).Returned? && StatusRejected(toWrap(r).value) then 1 else 0) &&
      w.sent == w.header == HeaderAfter(old(w.header), rep) &&
      w.body == rep.body &&
      g.started == old(g.started) + Dispatches(|afterResponseHooks|, rep.status)
  {
    var panicking := false;
    WriteCommonHeaders(w);
    match toWrap(r) {
      case Panicked =>
        panicking := true;
      case Returned(err) =>
        if err.Some? {
          match err.value.Error() {
            case Panicked =>
              panicking := true;
            case Returned(msg) =>
              panicking := RespondWithError(w, err.value.status, msg, afterResponseHooks, g);
          }
        } else {
          var _ := w.WriteHeader(StatusNoContent);
          CallAllHooks(afterResponseHooks, StatusNoContent, g);
        }
    }
    RecoverToErrorResponse(w, afterResponseHooks, g, panicking);
  }
}
