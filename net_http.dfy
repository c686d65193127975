/** The part of net/http's `http.ResponseWriter` contract the wrappers use. */
module NetHttp {
  import opened GoRuntime

  const StatusOK := 200
  const StatusNoContent := 204
  const StatusNotModified := 304
  const StatusBadRequest := 400
  const StatusInternalServerError := 500

  /** The codes net/http's `WriteHeader` accepts. */
  predicate ValidStatusCode(code: int) {
    100 <= code <= 999
  }

  /** Whether net/http lets a response with status `code` carry a body: not
      for an informational 1xx code, 204 No Content or 304 Not Modified. */
  predicate BodyAllowed(code: int) {
    !(100 <= code <= 199) && code != StatusNoContent && code != StatusNotModified
  }

  /** A response sink for one request.  `header` is the map `Header()`
      returns; `status` is the code that went out with the response head and
      `sent` the header map as it was at that moment (changes made to `header`
      afterwards have no effect on the response); `body` is everything
      written; `statusCalls` counts the calls of `WriteHeader` that did not
      panic, superfluous ones included, and `rejectedCalls` the calls that
      panicked on a code outside 100..999. */
  class ResponseWriter {
    var header: map<string, string>
    var status: Option<int>
    var sent: map<string, string>
    var body: string
    var statusCalls: nat
    var rejectedCalls: nat

    /** What net/http guarantees of every writer: until a status has gone
        out, nothing has been written and no call of `WriteHeader` has
        succeeded; a status that allows no body keeps the body empty. */
    predicate Valid()
      reads this
    {
      && (status.None? ==> body == [] && sent == map[] && statusCalls == 0)
      && (status.Some? && !BodyAllowed(status.value) ==> body == [])
    }

    /** The sink the transport hands to a handler: nothing written yet. */
    constructor ()
      ensures Valid()
      ensures header == map[] && status == None && sent == map[]
      ensures body == [] && statusCalls == 0 && rejectedCalls == 0
    {
      header, status, sent, body, statusCalls, rejectedCalls := map[], None, map[], [], 0, 0;
    }

    /** `w.Header().Set(key, value)` */
    method SetHeader(key: string, value: string)
      requires Valid()
      modifies this
      ensures Valid()
      ensures header == old(header)[key := value]
      ensures status == old(status) && sent == old(sent)
      ensures body == old(body) && statusCalls == old(statusCalls)
      ensures rejectedCalls == old(rejectedCalls)
    {
      header := header[key := value];
    }

    /** `w.WriteHeader(code)`: a later call than the first is superfluous and
        ignored; otherwise a code outside 100..999 makes the call panic and
        changes nothing, and a valid code sends the head. */
    method WriteHeader(code: int) returns (panicked: bool)
      requires Valid()
      modifies this
      ensures Valid()
      ensures panicked <==> old(status).None? && !ValidStatusCode(code)
      ensures panicked ==> status == old(status) && sent == old(sent) && statusCalls == old(statusCalls)
      ensures rejectedCalls == old(rejectedCalls) + (if panicked then 1 else 0)
      ensures !panicked ==> statusCalls == old(statusCalls) + 1
      ensures !panicked && old(status).None? ==> status == Some(code) && sent == header
      ensures old(status).Some? ==> status == old(status) && sent == old(sent)
      ensures header == old(header) && body == old(body)
    {
      if status.None? && !ValidStatusCode(code) {
        rejectedCalls := rejectedCalls + 1;
        return true;
      }
      statusCalls := statusCalls + 1;
      if status.None? {
        status := Some(code);
        sent := header;
      }
      return false;
    }

    /** `w.Write(data)`: a write before any `WriteHeader` sends status 200;
        under a status that allows no body, non-empty data is dropped and the
        call fails with `ErrBodyNotAllowed` (`refused`). */
    method Write(data: string) returns (refused: bool)
      requires Valid()
      modifies this
      ensures Valid()
      ensures old(status).None? ==> status == Some(StatusOK) && sent == header
      ensures old(status).Some? ==> status == old(status) && sent == old(sent)
      ensures status.Some?
      ensures refused <==> data != [] && !BodyAllowed(status.value)
      ensures body == if BodyAllowed(status.value) then old(body) + data else old(body)
      ensures header == old(header) && statusCalls == old(statusCalls)
      ensures rejectedCalls == old(rejectedCalls)
    {
      if status.None? {
        status := Some(StatusOK);
        sent := header;
      }
      if !BodyAllowed(status.value) {
        return data != [];
      }
      body := body + data;
      return false;
    }
  }
}
