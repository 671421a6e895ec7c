/**
 * The HTTP controller of the logs resource
 * (src/modules/logs/interfaces/http/logsController.js): each handler turns a use
 * case's answer into a response, or hands its error on to the error handler.
 */
module LogsController {
  import opened Wrappers
  import opened JsValues
  import opened Errors
  import opened Responses
  import opened LogStorage
  import opened LogUseCases

  /** The `data` of a successful response. */
  datatype Data = LogsPage(logs: seq<StoredLog>) | CreatedLog(log: StoredLog) | Deleted(ack: Ack)

  /** A handler either writes a response or calls `next(err)` without writing one. */
  datatype Handled = Respond(reply: Reply<Data>) | PassOn(error: AppError)

  /** `{ currentPage, totalPages }` */
  function PageMeta(p: Page): JsValue {
    Obj(map["currentPage" := Num(p.currentPage), "totalPages" := Num(p.totalPages)])
  }

  /**
   * `getList`: the query's page and search go to the list use case, and its page
   * comes back with status 200 and the paging numbers as meta.
   */
  function GetList(records: seq<StoredLog>, query: JsValue, matches: Matcher): (h: Handled)
    ensures h.Respond? && h.reply.status == 200 && h.reply.retryAfter.None?
    ensures var p := GetLogs(records, Get(query, "page"), Get(query, "search"), matches);
            h.reply.body == SuccessBody(LogsPage(p.data), Some(PageMeta(p)))
  {
    var result := GetLogs(records, Get(query, "page"), Get(query, "search"), matches);
    Respond(OkReply(LogsPage(result.data), PageMeta(result)))
  }

  /** The listing always answers; its meta carries the page asked for (at least 1) and the page count. */
  lemma ListingMetaIsAPageNumber(records: seq<StoredLog>, query: JsValue, matches: Matcher)
    ensures var meta := GetList(records, query, matches).reply.body.meta.value;
            meta.Obj? && "currentPage" in meta.fields && meta.fields["currentPage"].Num? &&
            meta.fields["currentPage"].n >= 1
  {
  }

  /** `req.body || {}`, destructured into `{ title, content, tags }`. */
  function CreateArgs(body: JsValue): (args: (JsValue, JsValue, JsValue)) {
    var b := Or(body, Obj(map[]));
    (Get(b, "title"), Get(b, "content"), Get(b, "tags"))
  }

  /** `create`: the stored document with status 201 and no meta, or the error passed on as it is. */
  function Create(result: Result<StoredLog, AppError>): (h: Handled)
    ensures result.Ok? ==> h == Respond(Reply(201, None, SuccessBody(CreatedLog(result.value), None)))
    ensures result.Err? ==> h == PassOn(result.error)
  {
    match result
    case Ok(stored) => Respond(CreatedReply(CreatedLog(stored), Undefined))
    case Err(e) => PassOn(e)
  }

  /** `remove`: the acknowledgement with status 200 and no meta, or the error passed on as it is. */
  function Remove(result: Result<Ack, AppError>): (h: Handled)
    ensures result.Ok? ==> h == Respond(Reply(200, None, SuccessBody(Deleted(result.value), None)))
    ensures result.Err? ==> h == PassOn(result.error)
  {
    match result
    case Ok(ack) => Respond(OkReply(Deleted(ack), Undefined))
    case Err(e) => PassOn(e)
  }

  /** What the client finally receives: the handler's response, or the error handler's rendering of the error. */
  function Render(h: Handled): (r: Reply<Data>)
    ensures h.Respond? ==> r == h.reply
    ensures h.PassOn? ==> r == ErrorReply(h.error)
  {
    match h
    case Respond(reply) => reply
    case PassOn(e) => ErrorReply(e)
  }

  /** An error a use case raises reaches the client with its own status and code. */
  lemma ErrorsKeepStatusAndCode(e: AppError)
    requires e.statusCode != 0
    ensures Render(Create(Err(e))).status == e.statusCode && Render(Create(Err(e))).body.code == e.code
    ensures Render(Remove(Err(e))).status == e.statusCode && Render(Remove(Err(e))).body.code == e.code
  {
  }
}
