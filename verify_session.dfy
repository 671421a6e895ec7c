/**
 * Session verification (src/modules/auth/application/useCases/verifySessionUseCase.js):
 * the decoded token names a user, the user must exist, and the user must be active.
 * The repository's `findById` is the parameter `findById`, answering the user
 * document, or a falsy value when there is none.
 */
module Sessions {
  import opened Wrappers
  import opened JsValues
  import opened Errors
  import opened Contracts

  /** What a verified session carries: the user found, and the id and role from the token. */
  datatype Session = Session(user: JsValue, usId: JsValue, usRole: JsValue)

  const InvalidSessionMessage: string := "Sessão inválida."
  const InactiveUserMessage: string := "Usuário bloqueado ou inativo."

  /** The constructor's check: the user repository must offer `findById`. */
  function SessionRepositoryCheck(userRepository: Dependency): (r: Outcome)
    ensures r.Pass? <==> userRepository.Some? && "findById" in userRepository.value
    ensures r.Fail? ==> r.error.code == DEPENDENCY_CONTRACT_ERROR && r.error.statusCode == 500
  {
    AssertRepositoryContract("userRepository", userRepository, ["findById"])
  }

  /**
   * `execute({ tokenPayload })`: a payload without a truthy `usId` is an invalid
   * session and the repository is not asked; a user that is not found is an
   * invalid session too; a user whose `usStatus` is not exactly "active" is refused
   * as inactive; otherwise the session holds the user and the payload's id and role.
   */
  function VerifySession(tokenPayload: JsValue, findById: JsValue -> JsValue): (r: Result<Session, AppError>)
    ensures !Truthy(Get(tokenPayload, "usId")) ==> r == Err(Raise(InvalidSessionMessage, 401, INVALID_SESSION))
    ensures Truthy(Get(tokenPayload, "usId")) && !Truthy(findById(Get(tokenPayload, "usId"))) ==>
              r == Err(Raise(InvalidSessionMessage, 401, INVALID_SESSION))
    ensures Truthy(Get(tokenPayload, "usId")) && Truthy(findById(Get(tokenPayload, "usId"))) &&
            Get(findById(Get(tokenPayload, "usId")), "usStatus") != Str("active") ==>
              r == Err(Raise(InactiveUserMessage, 403, USER_INACTIVE))
    ensures r.Ok? <==>
              Truthy(Get(tokenPayload, "usId")) && Truthy(findById(Get(tokenPayload, "usId"))) &&
              Get(findById(Get(tokenPayload, "usId")), "usStatus") == Str("active")
    ensures r.Ok? ==>
              r.value == Session(findById(Get(tokenPayload, "usId")), Get(tokenPayload, "usId"), Get(tokenPayload, "usRole"))
  {
    var userId := Get(tokenPayload, "usId");
    if !Truthy(userId) then
      Err(Raise(InvalidSessionMessage, 401, INVALID_SESSION))
    else
      var user := findById(userId);
      if !Truthy(user) then
        Err(Raise(InvalidSessionMessage, 401, INVALID_SESSION))
      else if Get(user, "usStatus") != Str("active") then
        Err(Raise(InactiveUserMessage, 403, USER_INACTIVE))
      else
        Ok(Session(user, userId, Get(tokenPayload, "usRole")))
  }

  /** Without a user id the lookup is never made: any two repositories give the same answer. */
  lemma NoLookupWithoutUserId(tokenPayload: JsValue, find1: JsValue -> JsValue, find2: JsValue -> JsValue)
    requires !Truthy(Get(tokenPayload, "usId"))
    ensures VerifySession(tokenPayload, find1) == VerifySession(tokenPayload, find2)
  {
  }

  /** The answer depends on the repository only through the one user it is asked for. */
  lemma OnlyTheNamedUserMatters(tokenPayload: JsValue, find1: JsValue -> JsValue, find2: JsValue -> JsValue)
    requires find1(Get(tokenPayload, "usId")) == find2(Get(tokenPayload, "usId"))
    ensures VerifySession(tokenPayload, find1) == VerifySession(tokenPayload, find2)
  {
  }

  /** A status that differs from "active" only in letter case is still refused. */
  lemma StatusIsCaseSensitive(usId: JsValue, findById: JsValue -> JsValue)
    requires Truthy(usId)
    requires findById(usId) == Obj(map["usStatus" := Str("Active")])
    ensures VerifySession(Obj(map["usId" := usId]), findById) == Err(Raise(InactiveUserMessage, 403, USER_INACTIVE))
  {
    assert Get(Obj(map["usId" := usId]), "usId") == usId;
    assert Str("Active") != Str("active") by {
      assert "Active"[0] != "active"[0];
    }
  }
}
