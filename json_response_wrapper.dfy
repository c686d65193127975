/** The wrapper that turns a typed handler into an HTTP handler answering
    with JSON, and what the decode-then-handle pipeline answers end to end. */
module JsonResponse {
  import opened GoRuntime
  import opened Errors
  import opened NetHttp
  import opened Hooks
  import opened RestHelper
  import opened JsonRequest

  /** The closure `JsonResponseWrapper(toWrap, afterResponseHooks...)`
      returns, applied to the writer `w` and the request `r`.  The deferred
      recovery runs last, on every path.  `encode` stands for `json.Marshal`. */
  method JsonResponseWrapper<Rq, P, H>(toWrap: Rq -> Call<(P, Option<HttpError>)>, encode: P -> Call<string>,
                                       afterResponseHooks: seq<H>, w: ResponseWriter, r: Rq,
                                       g: Goroutines<int>)
    requires w.Valid() && w.status.None?
    modifies w, g
    ensures w.Valid()
    ensures var rep := JsonReply(toWrap(r), encode);
      w.status == Some(rep.status) && w.statusCalls == old(w.statusCalls) + 1 &&
      w.rejectedCalls == old(w.rejectedCalls) + (if toWrap(r).Returned? && StatusRejected(toWrap(r).value.1) then 1 else 0) &&
      w.sent == w.header == HeaderAfter(old(w.header), rep) &&
      w.body == rep.body &&
      g.started == old(g.started) + Dispatches(|afterResponseHooks|, rep.status)
  {
    var panicking := false;
    WriteCommonHeaders(w);
    match toWrap(r) {
      case Panicked =>
        panicking := true;
      case Returned((payload, err)) =>
        if err.Some? {
          // err.Error() is evaluated before respondWithError runs
          match err.value.Error() {
            case Panicked =>
              panicking := true;
            case Returned(msg) =>
              panicking := RespondWithError(w, err.value.status, msg, afterResponseHooks, g);
          }
        } else {
          match encode(payload) {
            case Panicked =>
              panicking := true;
            case Returned(response) =>
              w.SetHeader(ContentType, ApplicationJson);
              var _ := w.WriteHeader(StatusOK);
              var _ := w.Write(response);
              CallAllHooks(afterResponseHooks, StatusOK, g);
          }
        }
    }
    RecoverToErrorResponse(w, afterResponseHooks, g, panicking);
  }

  /** A handler that answers with its input and no error. */
  function Echo<T>(input: T): Call<(T, Option<HttpError>)> {
    Returned((input, None))
  }

  /** `JsonResponseWrapper(JsonRequestWrapper(toWrap))` on a body the decoder
      rejects: the reply is 400 with the decoder's message as plain text
      (or the panic reply should that message panic), whatever `toWrap`
      would have done; a panicking decoder gives the panic reply. */
  lemma DecodeFailureReply<Rq, Req, P>(toWrap: Req -> Call<(P, Option<HttpError>)>,
                                       decode: Rq -> Call<(Req, ErrorValue)>, zero: P,
                                       encode: P -> Call<string>, r: Rq)
    requires decode(r).Panicked? || decode(r).value.1 != Nil
    ensures decode(r).Returned? && decode(r).value.1.message.Returned? ==>
            JsonReply(JsonRequestWrapper(toWrap, decode, zero, r), encode)
            == ErrorReply(StatusBadRequest, decode(r).value.1.message.value)
    ensures decode(r).Panicked? || decode(r).value.1.message.Panicked? ==>
            JsonReply(JsonRequestWrapper(toWrap, decode, zero, r), encode) == PanicReply
  {
  }

  /** `JsonResponseWrapper(JsonRequestWrapper(testHandler))` with the echoing
      handler: a request whose body decodes to `v`, when `v` encodes without
      panicking, gets 200 and the encoding of `v`, so a client decoder
      inverse to `encode` reads back `v`. */
  lemma RoundTrip<Rq, T>(decode: Rq -> Call<(T, ErrorValue)>, encode: T -> Call<string>,
                         parse: string -> T, zero: T, r: Rq, v: T)
    requires decode(r) == Returned((v, Nil))
    requires encode(v).Returned? && parse(encode(v).value) == v
    ensures var rep := JsonReply(JsonRequestWrapper(Echo, decode, zero, r), encode);
      rep.status == StatusOK && rep.contentType == Some(ApplicationJson) && parse(rep.body) == v
  {
  }
}
