/** Decoding a request body into a typed value, and putting a typed handler
    behind that decoding step. */
module JsonRequest {
  import opened GoRuntime
  import opened Errors
  import opened NetHttp

  /** `DecodeRequest[T](r)`.  `decode` stands for
      `json.NewDecoder(r.Body).Decode(&req)` on a zero `req`: it gives the
      value left in `req` and the decoder's error, or panics (a target's own
      `UnmarshalJSON` panicking), and the panic goes on to the caller.  The
      value is returned on both other paths, as the decoder left it. */
  function DecodeRequest<Rq, T>(r: Rq, decode: Rq -> Call<(T, ErrorValue)>): (res: Call<(T, Option<HttpError>)>)
    ensures res.Panicked? <==> decode(r).Panicked?
    ensures res.Returned? ==> res.value.0 == decode(r).value.0
    ensures res.Returned? ==> (res.value.1.Some? <==> decode(r).value.1 != Nil)
    ensures res.Returned? && res.value.1.Some? ==>
      res.value.1.value.status == StatusBadRequest && res.value.1.value.Unwrap() == decode(r).value.1
  {
    match decode(r)
    case Panicked => Panicked
    case Returned((req, err)) =>
      if err != Nil then Returned((req, Some(NewHttpErr(StatusBadRequest, err)))) else Returned((req, None))
  }

  /** `JsonRequestWrapper(toWrap)` applied to a request `r`: decode the body
      and hand it to `toWrap`, or answer with the zero value of the response
      type and the 400 error when decoding fails.  A panic while decoding
      goes on to the caller. */
  function JsonRequestWrapper<Rq, Req, Resp>(toWrap: Req -> Call<(Resp, Option<HttpError>)>,
                                             decode: Rq -> Call<(Req, ErrorValue)>, zero: Resp, r: Rq)
    : (res: Call<(Resp, Option<HttpError>)>)
    ensures decode(r).Panicked? ==> res.Panicked?
    ensures decode(r).Returned? && decode(r).value.1 != Nil ==>
      res == Returned((zero, Some(NewHttpErr(StatusBadRequest, decode(r).value.1))))
    ensures decode(r).Returned? && decode(r).value.1 == Nil ==> res == toWrap(decode(r).value.0)
  {
    match DecodeRequest(r, decode)
    case Panicked => Panicked
    case Returned((body, httpErr)) =>
      if httpErr.Some? then Returned((zero, httpErr)) else toWrap(body)
  }

  /** When decoding fails or panics `toWrap` is not called: the result is the
      same whatever handler is wrapped, and a failure is not a panic. */
  lemma HandlerSkippedOnDecodeFailure<Rq, Req, Resp>(toWrap: Req -> Call<(Resp, Option<HttpError>)>,
                                                     other: Req -> Call<(Resp, Option<HttpError>)>,
                                                     decode: Rq -> Call<(Req, ErrorValue)>, zero: Resp, r: Rq)
    requires decode(r).Panicked? || decode(r).value.1 != Nil
    ensures JsonRequestWrapper(toWrap, decode, zero, r) == JsonRequestWrapper(other, decode, zero, r)
    ensures decode(r).Returned? ==> JsonRequestWrapper(toWrap, decode, zero, r).Returned?
  {
  }

  /** Every error the wrapped handler returns is either the 400 error
      wrapping the decoder's error or the error `toWrap` returned. */
  lemma WrapperErrorOrigin<Rq, Req, Resp>(toWrap: Req -> Call<(Resp, Option<HttpError>)>,
                                          decode: Rq -> Call<(Req, ErrorValue)>, zero: Resp, r: Rq)
    requires JsonRequestWrapper(toWrap, decode, zero, r).Returned?
    requires JsonRequestWrapper(toWrap, decode, zero, r).value.1.Some?
    ensures decode(r).Returned?
    ensures var e := JsonRequestWrapper(toWrap, decode, zero, r).value.1.value;
      (decode(r).value.1 != Nil && e.status == StatusBadRequest && e.Unwrap() == decode(r).value.1) ||
      (decode(r).value.1 == Nil &&
       toWrap(decode(r).value.0) == Returned((JsonRequestWrapper(toWrap, decode, zero, r).value.0, Some(e))))
  {
  }
}
