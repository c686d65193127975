/** The wrapper that turns an error-only handler into an HTTP handler
    answering 204 No Content on success. */
module NoContent {
  import opened GoRuntime
  import opened Errors
  import opened NetHttp
  import opened Hooks
  import opened RestHelper

  /** The closure `NoContentWrapper(toWrap, afterResponseHooks...)` returns,
      applied to the writer `w` and the request `r`.  The deferred recovery
      runs last, on every path. */
  method NoContentWrapper<Rq, H>(toWrap: Rq -> Call<Option<HttpError>>, afterResponseHooks: seq<H>,
                                 w: ResponseWriter, r: Rq, g: Goroutines<int>)
    requires w.Valid() && w.status.None?
    modifies w, g
    ensures w.Valid()
    ensures var rep := NoContentReply(toWrap(r));
      w.status == Some(rep.status) && w.statusCalls == old(w.statusCalls) + 1 &&
      w.rejectedCalls == old(w.rejectedCalls) + (if toWrap(r).Returned? && StatusRejected(toWrap(r).value) then 1 else 0) &&
      w.sent == w.header == HeaderAfter(old(w.header), rep) &&
      w.body == rep.body &&
      g.started == old(g.started) + Dispatches(|afterResponseHooks|, rep.status)
  {
    var panicking := false;
    WriteCommonHeaders(w);
    match toWrap(r) {
      case Panicked =>
        panicking := true;
      case Returned(err) =>
        if err.Some? {
          // err.Error() is evaluated before respondWithError runs
          match err.value.Error() {
            case Panicked =>
              panicking := true;
            case Returned(msg) =>
              panicking := RespondWithError(w, err.value.status, msg, afterResponseHooks, g);
          }
        } else {
          var _ := w.WriteHeader(StatusNoContent);
          CallAllHooks(afterResponseHooks, StatusNoContent, g);
        }
    }
    RecoverToErrorResponse(w, afterResponseHooks, g, panicking);
  }
}
