/**
 * The three use cases of the logs resource
 * (src/modules/logs/application/useCases/getLogsUseCase.js,
 * createLogUseCase.js and softDeleteLogUseCase.js), each with the repository
 * check its constructor makes. The repository is the in-memory `LogStore`.
 */
module LogUseCases {
  import opened Wrappers
  import opened JsValues
  import opened Errors
  import opened ObjectIds
  import opened Contracts
  import opened LogEntities
  import opened LogStorage

  const RepositoryName: string := "logRepository"
  const PageSize: int := 5
  const NotFoundMessage: string := "Log não encontrado."

  /** The constructors' checks: each use case needs one repository method. */
  function GetLogsRepositoryCheck(logRepository: Dependency): (r: Outcome)
    ensures r.Pass? <==> logRepository.Some? && "findPaginated" in logRepository.value
  {
    AssertRepositoryContract(RepositoryName, logRepository, ["findPaginated"])
  }

  function CreateLogRepositoryCheck(logRepository: Dependency): (r: Outcome)
    ensures r.Pass? <==> logRepository.Some? && "create" in logRepository.value
  {
    AssertRepositoryContract(RepositoryName, logRepository, ["create"])
  }

  function SoftDeleteLogRepositoryCheck(logRepository: Dependency): (r: Outcome)
    ensures r.Pass? <==> logRepository.Some? && "softDeleteById" in logRepository.value
  {
    AssertRepositoryContract(RepositoryName, logRepository, ["softDeleteById"])
  }

  /**
   * A repository lacking `create` is refused by the create use case with the
   * contract error that names it, whatever else it offers.
   */
  lemma MissingCreateIsNamed(methods: set<string>)
    requires "create" !in methods
    ensures CreateLogRepositoryCheck(Some(methods)) ==
              Fail(Raise(MissingMethodsMessage(RepositoryName, ["create"]), 500, DEPENDENCY_CONTRACT_ERROR))
  {
    assert MissingMethods(methods, ["create"]) == ["create"] + MissingMethods(methods, []);
  }

  /** The arguments handed to `findPaginated`. */
  datatype FindQuery = FindQuery(page: int, limit: int, searchTerm: string)

  /**
   * `execute({ page, search })` before the call: the page read by `parseInt(page, 10)`
   * when that is a number of at least 1, else 1; always five per page; the search
   * term is `String(search || "")`.
   */
  function GetLogsQuery(page: JsValue, search: JsValue): (q: FindQuery)
    ensures q.page >= 1 && q.limit == PageSize
    ensures ParseInt(ToJsString(page)).Some? && ParseInt(ToJsString(page)).value >= 1 ==>
              q.page == ParseInt(ToJsString(page)).value
    ensures ParseInt(ToJsString(page)).None? || ParseInt(ToJsString(page)).value < 1 ==> q.page == 1
    ensures Truthy(search) ==> q.searchTerm == ToJsString(search)
    ensures !Truthy(search) ==> q.searchTerm == ""
  {
    var parsed := ParseInt(ToJsString(page));
    var safePage := if parsed.None? || parsed.value < 1 then 1 else parsed.value;
    FindQuery(safePage, PageSize, ToJsString(Or(search, Str(""))))
  }

  /** A page given as a positive number, or as its numeral, is asked for as that page. */
  lemma PositivePageIsKept(n: int, search: JsValue)
    requires n >= 1
    ensures GetLogsQuery(Num(n), search).page == n
    ensures GetLogsQuery(Str(IntString(n)), search).page == n
  {
    assert ToJsString(Num(n)) == IntString(n) == ToJsString(Str(IntString(n)));
    ParseIntOfIntString(n);
  }

  /** A page that is not a number ("abc") or is absent becomes the first page. */
  lemma UnreadablePageIsFirst(search: JsValue)
    ensures GetLogsQuery(Str("abc"), search).page == 1
    ensures GetLogsQuery(Undefined, search).page == 1
  {
    var abc := "abc";
    assert abc[0] == 'a';
    NoLeadingNumeral(abc);
    var undef := "undefined";
    assert undef[0] == 'u';
    NoLeadingNumeral(undef);
  }

  /** `execute` of the list use case: the query above, answered by the repository unchanged. */
  function GetLogs(records: seq<StoredLog>, page: JsValue, search: JsValue, matches: Matcher): (p: Page)
    ensures p == FindPaginated(records, GetLogsQuery(page, search).page, PageSize,
                               GetLogsQuery(page, search).searchTerm, matches)
  {
    var q := GetLogsQuery(page, search);
    FindPaginated(records, q.page, q.limit, q.searchTerm, matches)
  }

  /** A listing answer is a page of at most five live documents, newest first, numbered from 1. */
  lemma GetLogsAnswer(records: seq<StoredLog>, page: JsValue, search: JsValue, matches: Matcher)
    ensures var p := GetLogs(records, page, search, matches);
            p.currentPage >= 1 && |p.data| <= PageSize && NewestFirst(p.data) &&
            forall x :: x in p.data ==> x in records && Live(x)
  {
    var q := GetLogsQuery(page, search);
    PageIsNewestFirst(records, q.page, PageSize, q.searchTerm, matches);
    PageHoldsOnlySelected(records, q.page, PageSize, q.searchTerm, matches);
  }

  /**
   * `execute({ title, content, tags })` of the create use case, as a value: the
   * entity is built first, and only a built entity is inserted, under the next
   * identifier.
   */
  function CreateLog(nextId: nat, title: JsValue, content: JsValue, tags: JsValue, now: int): (r: Result<StoredLog, AppError>)
    ensures BuildLogEntity(title, content, tags, now).Err? ==> r == Err(BuildLogEntity(title, content, tags, now).error)
    ensures BuildLogEntity(title, content, tags, now).Ok? ==> r == Ok(StoredLog(nextId, BuildLogEntity(title, content, tags, now).value))
  {
    match BuildLogEntity(title, content, tags, now)
    case Err(e) => Err(e)
    case Ok(entity) => Ok(StoredLog(nextId, entity))
  }

  /** A created document is live, has trimmed, non-empty text, and was created and updated at one instant. */
  lemma CreatedLogIsFresh(nextId: nat, title: JsValue, content: JsValue, tags: JsValue, now: int)
    requires CreateLog(nextId, title, content, tags, now).Ok?
    ensures var x := CreateLog(nextId, title, content, tags, now).value;
            && x.id == nextId && Live(x) && x.log.deletedAt.None?
            && x.log.title == Trim(title.s) && x.log.content == Trim(content.s)
            && x.log.title != "" && x.log.content != ""
            && x.log.createdAt == now == x.log.updatedAt
  {
  }

  /** The create use case against the store: nothing is written when the entity cannot be built. */
  method ExecuteCreate(store: LogStore, title: JsValue, content: JsValue, tags: JsValue, now: int)
    returns (r: Result<StoredLog, AppError>)
    requires store.Valid()
    modifies store
    ensures store.Valid()
    ensures r == CreateLog(old(store.nextId), title, content, tags, now)
    ensures r.Err? ==> store.records == old(store.records) && store.nextId == old(store.nextId)
    ensures r.Ok? ==> store.records == old(store.records) + [r.value] && store.nextId == old(store.nextId) + 1
  {
    var built := BuildLogEntity(title, content, tags, now);
    if built.Err? {
      return Err(built.error);
    }
    var stored := store.Create(built.value);
    return Ok(stored);
  }

  /** The acknowledgement `{ success: true }`. */
  datatype Ack = Ack(success: bool)

  /** The repository's answer to a soft delete, as the use case passes it on. */
  function DeleteAnswer(answer: Result<bool, AppError>): (r: Result<Ack, AppError>)
    ensures r.Ok? <==> answer == Ok(true)
    ensures r.Ok? ==> r.value.success
    ensures answer == Ok(false) ==> r == Err(Raise(NotFoundMessage, 404, LOG_NOT_FOUND))
    ensures answer.Err? ==> r == Err(answer.error)
  {
    match answer
    case Err(e) => Err(e)
    case Ok(wasDeleted) => if wasDeleted then Ok(Ack(true)) else Err(Raise(NotFoundMessage, 404, LOG_NOT_FOUND))
  }

  /**
   * `execute({ id })` of the soft-delete use case, as a value on the documents: an
   * id that is not a non-blank string is refused before the repository is asked;
   * otherwise the repository's soft delete runs, and "nothing matched" becomes
   * LOG_NOT_FOUND.
   */
  function SoftDeleteLog(records: seq<StoredLog>, id: JsValue, now: int): (r: (Result<Ack, AppError>, seq<StoredLog>))
    ensures !IsNonBlankString(id) ==> r == (Err(Raise(InvalidIdMessage, 400, INVALID_ID)), records)
    ensures IsNonBlankString(id) && ParseObjectId(id.s).None? ==> r == (Err(Raise(InvalidIdMessage, 400, INVALID_ID)), records)
    ensures IsNonBlankString(id) && ParseObjectId(id.s).Some? ==>
              r.1 == SoftDeleted(records, ParseObjectId(id.s).value, now).0 &&
              r.0 == DeleteAnswer(Ok(SoftDeleted(records, ParseObjectId(id.s).value, now).1))
  {
    if !IsNonBlankString(id) then (Err(Raise(InvalidIdMessage, 400, INVALID_ID)), records)
    else
      match ParseObjectId(id.s)
      case None => (Err(Raise(InvalidIdMessage, 400, INVALID_ID)), records)
      case Some(n) =>
        var (after, wasDeleted) := SoftDeleted(records, n, now);
        (DeleteAnswer(Ok(wasDeleted)), after)
  }

  /**
   * Deleting the same log twice: the first answers success, and the second, with
   * the documents the first left behind, answers LOG_NOT_FOUND and changes nothing.
   */
  lemma SecondDeleteIsNotFound(records: seq<StoredLog>, id: JsValue, t1: int, t2: int)
    requires DistinctIds(records)
    requires SoftDeleteLog(records, id, t1).0.Ok?
    ensures SoftDeleteLog(SoftDeleteLog(records, id, t1).1, id, t2) ==
              (Err(Raise(NotFoundMessage, 404, LOG_NOT_FOUND)), SoftDeleteLog(records, id, t1).1)
  {
    SoftDeleteTwiceFindsNothing(records, ParseObjectId(id.s).value, t1, t2);
  }

  /** A failed delete, whatever the reason, leaves the documents as they were. */
  lemma FailedDeleteChangesNothing(records: seq<StoredLog>, id: JsValue, now: int)
    requires SoftDeleteLog(records, id, now).0.Err?
    ensures SoftDeleteLog(records, id, now).1 == records
  {
  }

  /**
   * A created document can be deleted by the 24-digit identifier it is sent back
   * under: the delete succeeds and marks exactly that document, and the documents
   * stored before it are left as they were.
   */
  lemma CreatedLogIsDeletableById(records: seq<StoredLog>, nextId: nat, title: JsValue, content: JsValue,
                                  tags: JsValue, now: int, later: int)
    requires IdsBelow(records, nextId) && nextId < Pow16(24)
    requires CreateLog(nextId, title, content, tags, now).Ok?
    ensures var x := CreateLog(nextId, title, content, tags, now).value;
            SoftDeleteLog(records + [x], Str(ObjectIdString(nextId)), later) ==
              (Ok(Ack(true)), records + [MarkDeleted(x, later)])
  {
    var x := CreateLog(nextId, title, content, tags, now).value;
    ObjectIdStringAccepted(nextId);
    SoftDeleteAppended(records, x, later);
  }

  /** The 24-digit text of an identifier is a non-blank string that reads back as it. */
  lemma ObjectIdStringAccepted(n: nat)
    requires n < Pow16(24)
    ensures IsNonBlankString(Str(ObjectIdString(n))) && ParseObjectId(ObjectIdString(n)) == Some(n)
  {
    var text := ObjectIdString(n);
    ParseObjectIdString(n);
    assert IsHexDigit(text[0]);
    NonBlankWitness(text, 0);
  }

  /** The soft-delete use case against the store. */
  method ExecuteSoftDelete(store: LogStore, id: JsValue, now: int) returns (r: Result<Ack, AppError>)
    requires store.Valid()
    modifies store
    ensures store.Valid() && store.nextId == old(store.nextId)
    ensures (r, store.records) == SoftDeleteLog(old(store.records), id, now)
  {
    if !IsNonBlankString(id) {
      return Err(Raise(InvalidIdMessage, 400, INVALID_ID));
    }
    var answer := store.SoftDeleteById(id.s, now);
    r := DeleteAnswer(answer);
  }
}
