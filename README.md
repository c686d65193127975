# go-resthelper: a verified model of the net/http adapter

go-resthelper lets a Go service write route handlers as plain typed
functions. Its adapters decode the JSON request body, call the handler,
and turn the result into an HTTP response: 200 with a JSON body, 204 with
no body, or the handler error's status with a plain-text message. They
set three fixed cross-origin headers, recover a handler panic into a 500
"panic" reply, and start the after-response hooks with the status that
was written.

The model has one Dafny module per source file, plus two modules for the
Go and net/http notions the code relies on.

- `GoRuntime` (go_runtime.dfy): a nil-able pointer is `Option`. Go's
  `error` interface is `ErrorValue` (`Nil` or `Failure(message)`). A call
  that returns or panics is `Call` (`Returned(value)` or `Panicked`).
  A non-nil error carries the `Call` its own `Error()` makes, so the model
  can hold a non-nil error whose `Error()` panics.
  `Goroutines` is the log of `go` statements: one entry per started
  goroutine, holding the hook index and its argument.
- `NetHttp` (net_http.dfy): `ResponseWriter` has the header map, the
  status sent, a snapshot of the header map taken when the status went
  out, the body, and two counts of `WriteHeader` calls: `statusCalls` for
  those that did not panic and `rejectedCalls` for those that did. It
  follows the net/http rules: the first `WriteHeader` wins, `Write` implies
  200, and header edits made after the status are not sent. A first
  `WriteHeader` with a code outside 100..999 panics, and it changes nothing
  but `rejectedCalls`. Under a status that allows no body (1xx, 204, 304),
  `Write` drops its data and fails with `ErrBodyNotAllowed`. `Valid()`
  states the net/http invariant: a writer with no status sent has no body
  and has had no successful `WriteHeader` call, and a status that allows
  no body keeps the body empty. The constructor establishes it, and every
  writer operation keeps it.
- `Errors` (error.go): the `HttpError` datatype with `Error`, `Unwrap`,
  `NewHttpErr` and `NewHttpErrF`. resthelper.go:9-34 holds an identical
  earlier copy of this code, and this one datatype models both.
- `Hooks` (hooks.go): the pre-request chain, where the first failure wins,
  and the post-response dispatch loop.
- `JsonRequest` (json_request_wrapper.go): `DecodeRequest` and
  `JsonRequestWrapper`.
- `RestHelper` (resthelper.go): the response helpers, the original
  `RestJsonWrapper` and `RestNoContentWrapper`, and `Reply`. For each
  handler outcome, `Reply` gives the status, Content-Type and body that a
  wrapper produces, as the functions `JsonReply` and `NoContentReply`.
- `JsonResponse` (json_response_wrapper.go) and `NoContent`
  (no_content_wrapper.go): the current wrappers. `JsonResponse` also holds
  the end-to-end lemmas about decoding followed by handling.

Each wrapper's closure is modelled as a method called with the wrapper's
arguments and the closure's `(w, r)`. Its postcondition gives the final
writer state and the goroutine log, both in terms of the reply for
`toWrap(r)`:
- the written status is the reply's status, and exactly one `WriteHeader`
  call did not panic. One more call, which panicked, was made when the
  handler's error carries a status outside 100..999;
- the header map that went out with the status equals the final header
  map. It holds the common headers and the reply's Content-Type, so every
  header was set before the status;
- the body is the reply's body, which is empty for a status that allows
  no body;
- the after-response hooks were each started once, in index order, with
  the written status.

Each wrapper requires a valid writer on which no status has been written
yet. The transport hands every request such a writer.

JSON encoding and decoding, `fmt.Errorf` formatting and the handler are
function parameters (`encode`, `decode`, `sprintf`, `toWrap`).

Points where the code behaves differently from what its names and doc
comments (hooks.go:7-8, hooks.go:21-22) suggest. The model follows the
code:
- The wrappers take `...func(int)` after-response hooks, which receive
  only the status. `PreRequestHook` and `PostResponseHook` are not used by
  any wrapper. The pre-request chain is therefore modelled on its own, and
  no wrapper runs it.
- The package itself range-checks no status code, and `NewHttpErr` stores
  any integer. A handler error whose status is outside 100..999 makes
  `WriteHeader` panic inside `respondWithError`, after Content-Type is set.
  The deferred recovery then answers 500 "panic" and starts the hooks with
  500.
- `HttpError.Error()` forwards to the wrapped error, so it panics when
  `Err` is nil or when the wrapped error's own `Error()` panics. Examples are
  `NewHttpErr(404, NewHttpErr(500, nil))` and a nil `*HttpError` used as the
  cause. The wrappers evaluate `err.Error()` as an argument of
  `respondWithError`, while the deferred recovery is armed and before
  they write anything. Such an error is therefore
  answered with the 500 "panic" reply, not with its own status.
- json_response_wrapper_test.go passes two-argument handlers
  `(r, input)` to `JsonRequestWrapper`, but the code's `toWrap` takes one
  argument. The model follows the one-argument code.

## Model

| member | source | states |
|---|---|---|
| `Errors.HttpError.Error` | error.go:12-14 | does exactly what the wrapped error's `Error()` does: returns its text or panics; panics when the wrapped error is nil |
| `Errors.HttpError.Unwrap` | error.go:16-18 | returns exactly the stored `Err` |
| `Errors.AsError` | error.go:12-14 | a `*HttpError` used as an `error` is a non-nil interface value; its `Error()` is the `HttpError`'s, and panics when the pointer is nil |
| `Errors.NewHttpErr` | error.go:20-25 | a non-nil error with `Status == status` and `Unwrap() == err`, for any status; `Error()` does what the cause's `Error()` does, and panics when the cause is nil |
| `Errors.NestedHttpErrorText` | error.go:13 | an `HttpError` wrapping another answers `Error()` with the inner one's text, so it panics when the inner cause is nil or the inner pointer is nil |
| `Errors.NewHttpErrF` | error.go:27-32 | the status is stored unchanged; the cause is the never-nil formatted error, so `Error()` always returns the formatted text |
| `GoRuntime.Goroutines.Go` | hooks.go:26 | a `go hooks[i](arg)` statement appends exactly one (i, arg) dispatch to the log |
| `NetHttp.ResponseWriter.SetHeader` | json_response_wrapper.go:18 | `Header().Set` changes one header entry and nothing else |
| `NetHttp.ResponseWriter.WriteHeader` | json_response_wrapper.go:19 | the first call sends the status with a snapshot of the headers, or panics and changes nothing but the rejected-call count when the code is outside 100..999; later calls change nothing but the call count |
| `NetHttp.ResponseWriter.Write` | json_response_wrapper.go:20 | a write before any status sends 200; appends to the body when the status in effect allows one, and otherwise leaves the body as it was and fails exactly when the data is non-empty |
| `Hooks.VetoIndex` | hooks.go:11-19 | the index of the first pre-request hook that fails: every earlier hook returns nil, and the hook at that index returns an error, unless no hook fails |
| `Hooks.VetoIndexUnique` | hooks.go:8 | the first failing hook is unique: any index with those properties is `VetoIndex` |
| `Hooks.CallPreRequestHooks` | hooks.go:11-19 | nil exactly when every hook returns nil (so also for no hooks), and then each hook runs exactly once, in index order; otherwise the result is the error of the lowest-index failing hook, and no hook after it runs |
| `Hooks.Dispatches` | hooks.go:24-28 | the dispatch log of the hook loop: hook i once, at position i, with the same argument |
| `Hooks.CallPostResponseHooks` | hooks.go:24-28 | every hook is started exactly once, in index order, with the same (httpErr, status) pair, and nothing else is started |
| `JsonRequest.DecodeRequest` | json_request_wrapper.go:10-18 | panics exactly when the decoder panics; otherwise an error exactly when the decoder fails, with status 400 and wrapping the decoder's error; the decoded value is returned on both of those paths |
| `JsonRequest.JsonRequestWrapper` | json_request_wrapper.go:20-28 | a decoder panic passes through; a decode failure gives the zero value with the 400 error that wraps the decoder's error; otherwise the result is exactly `toWrap(body)` |
| `JsonRequest.HandlerSkippedOnDecodeFailure` | json_request_wrapper.go:22-25 | when decoding fails or panics, the result does not depend on `toWrap`, because it is never called; a decode failure is not a panic |
| `JsonRequest.WrapperErrorOrigin` | json_request_wrapper.go:22-26 | every error returned is the 400 error wrapping the decoder's error, or the error `toWrap` returned together with that result |
| `RestHelper.WriteCommonHeaders` | resthelper.go:69-73 | sets exactly the three fixed cross-origin header values; status, body and every other header are unchanged |
| `RestHelper.CallAllHooks` | resthelper.go:75-79 | every hook is started exactly once, in index order, with the given status, and nothing else is started |
| `RestHelper.RespondWithError` | resthelper.go:81-86 | sets Content-Type text/plain, calls `WriteHeader(code)` once, appends `msg` to the body unless the status in effect allows no body, then starts the hooks with `code`; when `WriteHeader` panics on a code outside 100..999, only the Content-Type and the rejected-call count have changed, no hook is started, and the panic goes on |
| `RestHelper.RecoverToErrorResponse` | resthelper.go:88-93 | with no panic pending, writer and log are unchanged; with a panic pending, responds as `respondWithError` does with 500 and "panic" and starts the hooks with 500; its own `WriteHeader(500)` never panics, so `rejectedCalls` is unchanged on both paths |
| `RestHelper.CommonHeadersKept` | resthelper.go:69-73 | every wrapper reply keeps the three common headers with their fixed values; Content-Type is present only if the reply sets it or it was already there |
| `RestHelper.HandlerErrorReplyCases` | resthelper.go:81-91 | a handler error gets its status and text/plain when its `Error()` returns and the status is within 100..999, with its text as the body exactly when the status allows a body (so not for 101, 204 or 304); otherwise (a panicking `Error()`, or a status `WriteHeader` rejects) it gets 500 "panic"; the status is always one `WriteHeader` accepts, and a non-empty body only goes with a status that allows one |
| `RestHelper.JsonReplyCases` | json_response_wrapper.go:13-21 | success gives 200, application/json and the encoded payload; a handler error gives its `HandlerErrorReplyCases` reply; a panic in the handler or in Marshal gives 500 "panic"; Content-Type is always set, and is JSON exactly on success; a non-empty body only goes with a status that allows one |
| `RestHelper.NoContentReplyCases` | no_content_wrapper.go:12-18 | success gives 204 with an empty body and no Content-Type, and is the only reply without one; a handler error gives its `HandlerErrorReplyCases` reply; a panic gives 500 "panic"; a non-empty body only goes with a status that allows one |
| `RestHelper.RestJsonWrapper` | resthelper.go:37-52 | the same postcondition as `JsonResponse.JsonResponseWrapper` |
| `RestHelper.RestNoContentWrapper` | resthelper.go:55-67 | the same postcondition as `NoContent.NoContentWrapper` |
| `JsonResponse.JsonResponseWrapper` | json_response_wrapper.go:9-24 | on every path, including a panic: exactly one `WriteHeader` call that did not panic, with the `JsonReply` status, and one more, rejected, call exactly when the handler error's status is outside 100..999; the headers sent with it are the common headers and the reply's Content-Type; the body is the reply's body; the hooks are started once each with the status written |
| `JsonResponse.DecodeFailureReply` | json_request_wrapper.go:22-25 | `JsonResponseWrapper(JsonRequestWrapper(toWrap))` answers a body the decoder rejects with 400 and the decoder's message as plain text, whatever `toWrap` is; a panicking decoder, or a decoder error whose text panics, gives 500 "panic" |
| `JsonResponse.RoundTrip` | resthelper_test.go:44-57 | with the echoing handler, a body that decodes to `v`, where `v` encodes without panicking, gets 200, application/json and a body that a decoder inverse to the encoder reads back as `v` |
| `NoContent.NoContentWrapper` | no_content_wrapper.go:8-20 | on every path, including a panic: exactly one `WriteHeader` call that did not panic, with the `NoContentReply` status, and one more, rejected, call exactly when the handler error's status is outside 100..999; on success that is 204 with no body and only the common headers; the hooks are started once each with the status written |

## Left out

- HTTP transport: `http.Server`, the router and the tests' server on port 9876 are I/O and are not modelled. The expectations the Go tests assert are stated as lemmas and postconditions instead: the 200 round trip of resthelper_test.go (`JsonResponse.RoundTrip`), the 404 error reply of json_response_wrapper_test.go (`RestHelper.JsonReplyCases` with `HandlerErrorReplyCases`), and the 204 reply of no_content_wrapper_test.go (`RestHelper.NoContentReplyCases`).
- JSON: `encoding/json` is a foreign library. It is the parameters `decode` and `encode`, each of which may return or panic. When `json.Marshal` fails with an error, that error is ignored, and the body is whatever `encode` returns. The decoder reads only the first JSON value; the model does not capture this.
- Goroutines: a hook's execution, its completion and its ordering relative to other goroutines are not modelled. The model records only that the hook was started, and with which argument. Each request runs on its own goroutine, which the model does not represent either.
- The `fmt.Println` line in the recovery path is output only.
- `fmt.Errorf`: formatting is the parameter `sprintf`. Errors wrapped with `%w`, and unwrapping past the `HttpError`, are not modelled.
- testing_helpers.go: `AssertErrorStatusCode` is a test assertion over a foreign error type.
- Panics: Go's `panic`/`recover` is the `Panicked` outcome of a call. A `panic(nil)` under Go versions before 1.21 looks like no panic to `recover()`. The model treats every panic as recovered.
- net/http details the writer model does not capture:
  - 1xx informational statuses do not end the response head (see the lines below);
  - header keys are canonicalised (every key used here is already canonical);
  - the transport leaves some headers out of a body-less response (Content-Type for a 304); `sent` is the header map as the handler left it;
  - the Content-Type is sniffed when none is set;
  - `Write` can fail on a broken connection; the model covers only `ErrBodyNotAllowed`.
- Pre-request hooks are function values that return an error or nil. A pre-hook that panics, and a hook's other side effects, are not modelled. `calls` stands for the invocations that `callPreRequestHooks` makes.
- `JsonResponse.JsonResponseWrapper`: `toWrap` is a pure function value. "Called exactly once" is therefore shown only by the shape of the code: the reply is a function of the single outcome `toWrap(r)`. The call count itself is not stated.
- After-response hooks are recorded by their index in the hook slice. What a hook does is not modelled.
- `RestHelper.CallAllHooks`: assumes every after-response hook is non-nil. A nil function in the slice makes `go hooks[i](statusCode)` (resthelper.go:77) a fatal runtime error. `recover()` cannot catch it, and the process exits. The model does not capture this crash.
- `Hooks.CallPostResponseHooks`: assumes every hook is non-nil. A nil hook makes `go hooks[i](httpErr, status)` (hooks.go:26) a fatal runtime error that exits the process. The model does not capture this crash.
- `RestHelper.RespondWithError`: a code from 100 to 199 other than 101 is modelled as the final status, with the error text dropped. Since Go 1.19, net/http sends such a code as an informational head only, and the `Write` that follows sends 200. The client then gets 200 with the error text, while the hooks get the 1xx code.
- `JsonResponse.JsonResponseWrapper`: a handler error with a 1xx status (other than 101) is modelled as sent with that status. net/http sends it as an informational head followed by 200, as the `RestHelper.RespondWithError` line says.
- `NoContent.NoContentWrapper`: the same 1xx limitation as `JsonResponse.JsonResponseWrapper`.
- `RestHelper.RestJsonWrapper`: the same 1xx limitation as `JsonResponse.JsonResponseWrapper`.
- `RestHelper.RestNoContentWrapper`: the same 1xx limitation as `JsonResponse.JsonResponseWrapper`.
