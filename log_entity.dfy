/**
 * The log record as the domain builds it (src/modules/logs/domain/buildLogEntity.js).
 * Timestamps are milliseconds; `new Date()` is the parameter `now`.
 */
module LogEntities {
  import opened Wrappers
  import opened JsValues
  import opened Errors

  datatype LogEntity = LogEntity(
    title: string,
    content: string,
    tags: seq<string>,
    createdAt: int,
    updatedAt: int,
    deletedAt: Option<int>,
    isDeleted: bool)

  const RequiredMessage: string := "Título e conteúdo são obrigatórios."

  /** `tags.map(String)` */
  function TagStrings(items: seq<JsValue>): (r: seq<string>)
    ensures |r| == |items| && forall i :: 0 <= i < |items| ==> r[i] == ToJsString(items[i])
  {
    seq(|items|, i requires 0 <= i < |items| => ToJsString(items[i]))
  }

  /**
   * `buildLogEntity({ title, content, tags })`: title and content must be non-blank
   * strings (the title is checked first, both failures are the same error); the
   * record keeps them trimmed, turns an array of tags into their strings and any
   * other tags value into no tags, stamps both timestamps with one instant, and
   * starts out not deleted.
   */
  function BuildLogEntity(title: JsValue, content: JsValue, tags: JsValue, now: int): (r: Result<LogEntity, AppError>)
    ensures r.Err? <==> !IsNonBlankString(title) || !IsNonBlankString(content)
    ensures r.Err? ==> r.error == Raise(RequiredMessage, 400, VALIDATION_ERROR)
    ensures r.Ok? ==> r.value.title == Trim(title.s) && r.value.content == Trim(content.s)
    ensures r.Ok? ==> r.value.title != "" && r.value.content != ""
    ensures r.Ok? && tags.Arr? ==> r.value.tags == TagStrings(tags.items)
    ensures r.Ok? && !tags.Arr? ==> r.value.tags == []
    ensures r.Ok? ==> r.value.createdAt == now && r.value.updatedAt == now
    ensures r.Ok? ==> r.value.deletedAt.None? && !r.value.isDeleted
  {
    if !IsNonBlankString(title) then
      Err(Raise(RequiredMessage, 400, VALIDATION_ERROR))
    else if !IsNonBlankString(content) then
      Err(Raise(RequiredMessage, 400, VALIDATION_ERROR))
    else
      Ok(LogEntity(
        Trim(title.s),
        Trim(content.s),
        if tags.Arr? then TagStrings(tags.items) else [],
        now, now, None, false))
  }

  /** Tags of mixed kinds become their strings in order: `["a", 2]` gives `["a", "2"]`. */
  lemma MixedTagsBecomeStrings(title: string, content: string, now: int)
    requires Trim(title) != "" && Trim(content) != ""
    ensures BuildLogEntity(Str(title), Str(content), Arr([Str("a"), Num(2)]), now).Ok?
    ensures BuildLogEntity(Str(title), Str(content), Arr([Str("a"), Num(2)]), now).value.tags == ["a", "2"]
  {
    var tags := [Str("a"), Num(2)];
    var r := TagStrings(tags);
    assert r[1] == "2" by {
      assert IntString(2) == [DigitChar(2)];
    }
    assert r == [r[0], r[1]];
  }
}
