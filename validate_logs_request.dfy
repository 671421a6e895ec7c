/**
 * The request validators of the logs routes
 * (src/modules/logs/interfaces/http/validateLogsRequest.js): pure checks on the
 * query, the body and the path parameters that either let the request go on or
 * stop it with a 400 error. They read the request and never change it.
 */
module LogsValidation {
  import opened Wrappers
  import opened JsValues
  import opened Errors
  import opened ObjectIds

  const PageMessage: string := "O parâmetro 'page' deve ser um inteiro positivo."
  const SearchMessage: string := "O parâmetro 'search' deve ser uma string."
  const TitleMessage: string := "Título é obrigatório."
  const ContentMessage: string := "Conteúdo é obrigatório."
  const TagsArrayMessage: string := "Tags deve ser um array."
  const TagItemsMessage: string := "Todos os itens de tags devem ser strings."
  const IdMessage: string := "ID inválido."

  /** `req.query || {}` and the like: a missing container reads as an empty object. */
  function OrEmpty(v: JsValue): JsValue {
    Or(v, Obj(map[]))
  }

  /** `Number.parseInt(page, 10)` is a number of at least 1. */
  predicate PageAccepted(page: JsValue) {
    var parsed := ParseInt(ToJsString(page));
    parsed.Some? && parsed.value >= 1
  }

  /** Every element of the tags array is a string. */
  predicate AllStrings(items: seq<JsValue>) {
    forall i :: 0 <= i < |items| ==> items[i].Str?
  }

  /**
   * `validateGetList`: a present page must parse to an integer of at least 1 and a
   * present search must be a string; the page is checked first.
   */
  function ValidateGetList(query: JsValue): (r: Outcome)
    ensures r.Pass? <==> (Get(OrEmpty(query), "page").Undefined? || PageAccepted(Get(OrEmpty(query), "page")))
                         && (Get(OrEmpty(query), "search").Undefined? || Get(OrEmpty(query), "search").Str?)
    ensures r.Fail? ==> r.error.statusCode == 400 && r.error.code == INVALID_QUERY
    ensures !Get(OrEmpty(query), "page").Undefined? && !PageAccepted(Get(OrEmpty(query), "page")) ==>
              r == Fail(Raise(PageMessage, 400, INVALID_QUERY))
    ensures (Get(OrEmpty(query), "page").Undefined? || PageAccepted(Get(OrEmpty(query), "page"))) &&
            !Get(OrEmpty(query), "search").Undefined? && !Get(OrEmpty(query), "search").Str? ==>
              r == Fail(Raise(SearchMessage, 400, INVALID_QUERY))
  {
    var q := OrEmpty(query);
    var page := Get(q, "page");
    var search := Get(q, "search");
    if !page.Undefined? && !PageAccepted(page) then
      Fail(Raise(PageMessage, 400, INVALID_QUERY))
    else if !search.Undefined? && !search.Str? then
      Fail(Raise(SearchMessage, 400, INVALID_QUERY))
    else
      Pass
  }

  /** A page given as a number of at least 1 is accepted: `parseInt(String(n), 10)` is `n`. */
  lemma NumericPageAccepted(n: int)
    requires n >= 1
    ensures PageAccepted(Num(n))
  {
    ParseIntOfIntString(n);
  }

  /** A page of "0" is refused with INVALID_QUERY (it parses, but to less than 1). */
  lemma ZeroPageRejected()
    ensures ValidateGetList(Obj(map["page" := Str("0")])) == Fail(Raise(PageMessage, 400, INVALID_QUERY))
  {
    var q := Obj(map["page" := Str("0")]);
    assert Get(q, "page") == Str("0");
    ZeroPageNotAccepted();
  }

  /** "0" parses, to 0, which is not a page. */
  lemma ZeroPageNotAccepted()
    ensures ParseInt(ToJsString(Str("0"))) == Some(0)
    ensures !PageAccepted(Str("0"))
  {
    assert !IsWhitespace('0');
    assert TrimStart("0") == "0";
    assert LeadingDigits("0") == "0";
  }

  /**
   * `validateCreateLog`: title, then content, must be strings that are not blank;
   * tags, when present, must be an array and then hold only strings. Only the
   * first failed check is reported.
   */
  function ValidateCreateLog(body: JsValue): (r: Outcome)
    ensures r.Pass? <==> var b := OrEmpty(body);
                         && IsNonBlankString(Get(b, "title"))
                         && IsNonBlankString(Get(b, "content"))
                         && (Get(b, "tags").Undefined? || (Get(b, "tags").Arr? && AllStrings(Get(b, "tags").items)))
    ensures r.Fail? ==> r.error.statusCode == 400 && r.error.code == VALIDATION_ERROR
    ensures !IsNonBlankString(Get(OrEmpty(body), "title")) ==> r == Fail(Raise(TitleMessage, 400, VALIDATION_ERROR))
    ensures IsNonBlankString(Get(OrEmpty(body), "title")) && !IsNonBlankString(Get(OrEmpty(body), "content")) ==>
              r == Fail(Raise(ContentMessage, 400, VALIDATION_ERROR))
    ensures IsNonBlankString(Get(OrEmpty(body), "title")) && IsNonBlankString(Get(OrEmpty(body), "content")) &&
            !Get(OrEmpty(body), "tags").Undefined? && !Get(OrEmpty(body), "tags").Arr? ==>
              r == Fail(Raise(TagsArrayMessage, 400, VALIDATION_ERROR))
    ensures IsNonBlankString(Get(OrEmpty(body), "title")) && IsNonBlankString(Get(OrEmpty(body), "content")) &&
            Get(OrEmpty(body), "tags").Arr? && !AllStrings(Get(OrEmpty(body), "tags").items) ==>
              r == Fail(Raise(TagItemsMessage, 400, VALIDATION_ERROR))
  {
    var b := OrEmpty(body);
    var title := Get(b, "title");
    var content := Get(b, "content");
    var tags := Get(b, "tags");
    if !IsNonBlankString(title) then
      Fail(Raise(TitleMessage, 400, VALIDATION_ERROR))
    else if !IsNonBlankString(content) then
      Fail(Raise(ContentMessage, 400, VALIDATION_ERROR))
    else if !tags.Undefined? && !tags.Arr? then
      Fail(Raise(TagsArrayMessage, 400, VALIDATION_ERROR))
    else if tags.Arr? && exists i :: 0 <= i < |tags.items| && !tags.items[i].Str? then
      Fail(Raise(TagItemsMessage, 400, VALIDATION_ERROR))
    else
      Pass
  }

  /**
   * Tags that are present but not an array (a string such as "invalid", say) are
   * refused as not being an array once title and content are fine.
   */
  lemma NonArrayTagsRejected(body: JsValue)
    requires IsNonBlankString(Get(OrEmpty(body), "title")) && IsNonBlankString(Get(OrEmpty(body), "content"))
    requires !Get(OrEmpty(body), "tags").Undefined? && !Get(OrEmpty(body), "tags").Arr?
    ensures ValidateCreateLog(body) == Fail(Raise(TagsArrayMessage, 400, VALIDATION_ERROR))
  {
  }

  /** `validateDeleteLog`: the id must be a string of exactly 24 hexadecimal digits, in either case. */
  function ValidateDeleteLog(params: JsValue): (r: Outcome)
    ensures r.Pass? <==> Get(OrEmpty(params), "id").Str? && IsObjectIdHex(Get(OrEmpty(params), "id").s)
    ensures r.Fail? ==> r == Fail(Raise(IdMessage, 400, INVALID_ID))
  {
    var id := Get(OrEmpty(params), "id");
    if !id.Str? || !IsObjectIdHex(id.s) then Fail(Raise(IdMessage, 400, INVALID_ID)) else Pass
  }
}
