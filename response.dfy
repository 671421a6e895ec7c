/**
 * Response envelopes (src/shared/http/response.js): the `res.status(s).json(b)`
 * sink is modelled as returning the pair of status and body.
 */
module Responses {
  import opened Wrappers
  import opened JsValues
  import opened Errors

  datatype Body<D> =
    | SuccessBody(data: D, meta: Option<JsValue>)
    | ErrorBody(code: ErrorCode, message: string)
      /** The rate limiter's own 429 body, `{ error }`. */
    | PlainError(error: string)

  /** A written response; `retryAfter` is the Retry-After header when one was set. */
  datatype Reply<D> = Reply(status: int, retryAfter: Option<int>, body: Body<D>)

  /** `meta && typeof meta === "object"` */
  predicate IsMetaObject(meta: JsValue) {
    Truthy(meta) && TypeOf(meta) == "object"
  }

  function SuccessPayload<D>(data: D, meta: JsValue): Body<D> {
    SuccessBody(data, if IsMetaObject(meta) then Some(meta) else None)
  }

  /** `ok(res, data, meta)`: status 200, the data, and meta only when it is a non-null object. */
  function OkReply<D>(data: D, meta: JsValue): (r: Reply<D>)
    ensures r.status == 200 && r.retryAfter.None? && r.body.SuccessBody? && r.body.data == data
    ensures r.body.meta.Some? <==> meta.Arr? || meta.Obj?
    ensures r.body.meta.Some? ==> r.body.meta.value == meta
  {
    Reply(200, None, SuccessPayload(data, meta))
  }

  /** `created(res, data, meta)`: the same body shape as `ok`, under status 201. */
  function CreatedReply<D>(data: D, meta: JsValue): (r: Reply<D>)
    ensures r.status == 201 && r.retryAfter.None? && r.body.SuccessBody? && r.body.data == data
    ensures r.body.meta.Some? <==> meta.Arr? || meta.Obj?
    ensures r.body == OkReply(data, meta).body
  {
    Reply(201, None, SuccessPayload(data, meta))
  }

  /**
   * `fail(res, { statusCode, code, message })`: the error envelope; an option left
   * undefined takes its default (500, INTERNAL_ERROR, "Erro interno do servidor.").
   */
  function FailReply<D>(statusCode: Option<int>, code: Option<ErrorCode>, message: Option<string>): (r: Reply<D>)
    ensures r.retryAfter.None? && r.body.ErrorBody?
    ensures r.status == (if statusCode.Some? then statusCode.value else 500)
    ensures code.None? ==> r.body.code == INTERNAL_ERROR
    ensures code.Some? ==> r.body.code == code.value
    ensures message.None? ==> r.body.message == "Erro interno do servidor."
    ensures message.Some? ==> r.body.message == message.value
  {
    Reply(if statusCode.Some? then statusCode.value else 500, None,
          ErrorBody(if code.Some? then code.value else INTERNAL_ERROR,
                    if message.Some? then message.value else "Erro interno do servidor."))
  }

  /**
   * The application's final error handler (api.js): an error's status, code and
   * message become the error envelope; a zero status, or an empty message, falls
   * back to the defaults through `||`.
   */
  function ErrorReply<D>(e: AppError): (r: Reply<D>)
    ensures r.body == ErrorBody(e.code, if e.message == "" then "Erro interno do servidor." else e.message)
    ensures r.status == (if e.statusCode == 0 then 500 else e.statusCode)
    ensures r.retryAfter.None?
  {
    FailReply(Some(if e.statusCode == 0 then 500 else e.statusCode), Some(e.code),
              Some(if e.message == "" then "Erro interno do servidor." else e.message))
  }
}
