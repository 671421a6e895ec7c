/**
 * The logs router (app/logs.js): three routes, each an ordered list of
 * middleware followed by a controller action. The first middleware that answers,
 * with a response or an error, ends the request; otherwise the action answers.
 * One rate-limit table and one collection serve every request, and requests are
 * served one at a time.
 */
module LogsRoutes {
  import opened Wrappers
  import opened JsValues
  import opened Errors
  import opened Responses
  import opened RateLimiting
  import opened WriteToken
  import opened ObjectIds
  import opened LogsValidation
  import opened LogStorage
  import opened LogUseCases
  import opened LogsController

  datatype Route = ListRoute | InsertRoute | DeleteRoute(id: string)

  /**
   * `GET /getList`, `POST /insertTask` and `DELETE /:id`, where `:id` is one
   * non-empty path segment; a `HEAD /getList` is served by the GET route, as
   * Express does for a route without a HEAD handler. Any other request is not
   * for this router.
   */
  function MatchRoute(verb: string, path: string): (r: Option<Route>)
    ensures r == Some(ListRoute) <==> (verb == "GET" || verb == "HEAD") && path == "/getList"
    ensures r == Some(InsertRoute) <==> verb == "POST" && path == "/insertTask"
    ensures r.Some? && r.value.DeleteRoute? <==> verb == "DELETE" && |path| >= 2 && path[0] == '/' && '/' !in path[1..]
    ensures r.Some? && r.value.DeleteRoute? ==> path == "/" + r.value.id
  {
    if (verb == "GET" || verb == "HEAD") && path == "/getList" then Some(ListRoute)
    else if verb == "POST" && path == "/insertTask" then Some(InsertRoute)
    else if verb == "DELETE" && |path| >= 2 && path[0] == '/' && '/' !in path[1..] then Some(DeleteRoute(path[1..]))
    else None
  }

  /** `rateLimit({ windowMs: 60 * 1000, max: 5 })` on the insert route. */
  const InsertLimit: Options := Options(60 * 1000, 5)

  /** The middleware a route runs before its action. */
  datatype Guard =
    | TokenCheck
    | RateLimit(opts: Options)
    | CheckListQuery
    | CheckCreateBody
    | CheckDeleteParams

  /** The controller action that ends a route. */
  datatype Handler = ListHandler | CreateHandler | RemoveHandler

  /** A route as registered: its middleware in order, then its action. */
  datatype Pipeline = Pipeline(guards: seq<Guard>, handler: Handler)

  /**
   * The routes as registered: the list route only validates its query; the insert
   * route checks the write token before it consults the rate limiter, and both
   * before the body is validated; the delete route checks the write token before
   * it validates the id and has no rate limit.
   */
  function RoutePipeline(route: Route): (p: Pipeline)
    ensures route.ListRoute? <==> TokenCheck !in p.guards
    ensures !route.ListRoute? ==> p.guards[0] == TokenCheck
    ensures !route.InsertRoute? ==> forall i :: 0 <= i < |p.guards| ==> !p.guards[i].RateLimit?
    ensures route.ListRoute? ==> p.guards == [CheckListQuery]
    ensures route.InsertRoute? ==> p.guards == [TokenCheck, RateLimit(InsertLimit), CheckCreateBody]
    ensures route.DeleteRoute? ==> p.guards == [TokenCheck, CheckDeleteParams]
    ensures p.handler == match route
                         case ListRoute => ListHandler
                         case InsertRoute => CreateHandler
                         case DeleteRoute(_) => RemoveHandler
  {
    match route
    case ListRoute => Pipeline([CheckListQuery], ListHandler)
    case InsertRoute => Pipeline([TokenCheck, RateLimit(InsertLimit), CheckCreateBody], CreateHandler)
    case DeleteRoute(_) => Pipeline([TokenCheck, CheckDeleteParams], RemoveHandler)
  }

  datatype Headers = Headers(writeToken: Option<string>, authorization: Option<string>, forwardedFor: Option<string>)

  datatype Request = Request(
    verb: string,
    path: string,
    query: JsValue,
    body: JsValue,
    headers: Headers,
    remoteAddress: string,
    now: int)

  /** The process environment the middleware reads: WRITE_TOKEN and NODE_ENV. */
  datatype Env = Env(writeToken: Option<string>, nodeEnv: Option<string>)

  /** Everything a request can change: the rate-limit table and the collection. */
  datatype World = World(limits: map<string, Entry>, records: seq<StoredLog>, nextId: nat)

  /** A middleware either calls `next()`, or ends the request with a response. */
  datatype Passage = Next(w: World) | Done(reply: Reply<Data>, w: World)

  /** `req.params` */
  function Params(route: Route): JsValue {
    match route
    case DeleteRoute(id) => Obj(map["id" := Str(id)])
    case _ => Obj(map[])
  }

  /** A validator or guard: `next()` goes on, `next(err)` ends the request with the rendered error. */
  function Gate(o: Outcome, w: World): (r: Passage)
    ensures r.w == w
    ensures r.Next? <==> o.Pass?
    ensures o.Fail? ==> r.reply == ErrorReply(o.error)
  {
    match o
    case Pass => Next(w)
    case Fail(e) => Done(ErrorReply(e), w)
  }

  /** The limiter's refusal: status 429, a Retry-After header and the `{ error }` body. */
  function TooManyRequests(retryAfter: int): Reply<Data> {
    Reply(429, Some(retryAfter), PlainError(TooManyRequestsMessage))
  }

  /** The limiter: in development every request goes on; otherwise the table decides and is updated. */
  function LimitStep(opts: Options, req: Request, env: Env, w: World): (r: Passage)
    ensures r.w.records == w.records && r.w.nextId == w.nextId
    ensures DevelopmentMode(env.nodeEnv) ==> r == Next(w)
    ensures !DevelopmentMode(env.nodeEnv) ==>
              var (decision, table) := Step(w.limits, ClientIdentity(req.headers.forwardedFor, req.remoteAddress), req.now, opts);
              r.w.limits == table && (r.Next? <==> decision.Admit?) &&
              (decision.Deny? ==> r.reply == TooManyRequests(decision.retryAfter))
  {
    if DevelopmentMode(env.nodeEnv) then Next(w)
    else
      var (decision, table) := Step(w.limits, ClientIdentity(req.headers.forwardedFor, req.remoteAddress), req.now, opts);
      if decision.Admit? then Next(w.(limits := table))
      else Done(TooManyRequests(decision.retryAfter), w.(limits := table))
  }

  /** One middleware applied to the state: only the limiter changes anything, and only its table. */
  function RunGuard(guard: Guard, route: Route, req: Request, env: Env, w: World): (r: Passage)
    ensures !guard.RateLimit? ==> r.w == w
    ensures r.w.records == w.records && r.w.nextId == w.nextId
  {
    match guard
    case TokenCheck =>
      Gate(RequireWriteToken(req.headers.writeToken, req.headers.authorization, env.writeToken), w)
    case RateLimit(opts) => LimitStep(opts, req, env, w)
    case CheckListQuery => Gate(ValidateGetList(req.query), w)
    case CheckCreateBody => Gate(ValidateCreateLog(req.body), w)
    case CheckDeleteParams => Gate(ValidateDeleteLog(Params(route)), w)
  }

  /** Middleware in order until one answers. No middleware ever touches the collection. */
  function RunGuards(guards: seq<Guard>, route: Route, req: Request, env: Env, w: World): (r: Passage)
    ensures r.w.records == w.records && r.w.nextId == w.nextId
    decreases |guards|
  {
    if guards == [] then Next(w)
    else
      match RunGuard(guards[0], route, req, env, w)
      case Done(reply, after) => Done(reply, after)
      case Next(after) => RunGuards(guards[1..], route, req, env, after)
  }

  /** The create action: the document is stored only when the use case succeeds. */
  function CreateStep(req: Request, w: World): (r: (Reply<Data>, World))
    ensures r.1.limits == w.limits
  {
    var args := CreateArgs(req.body);
    var result := CreateLog(w.nextId, args.0, args.1, args.2, req.now);
    (Render(Create(result)),
     if result.Ok? then w.(records := w.records + [result.value], nextId := w.nextId + 1) else w)
  }

  /** The create action in terms of the create use case's answer. */
  lemma CreateStepOutcome(req: Request, w: World, result: Result<StoredLog, AppError>)
    requires result == CreateLog(w.nextId, CreateArgs(req.body).0, CreateArgs(req.body).1, CreateArgs(req.body).2, req.now)
    ensures CreateStep(req, w).0 == Render(Create(result))
    ensures result.Err? ==> CreateStep(req, w).1 == w
    ensures result.Ok? ==> CreateStep(req, w).1 == World(w.limits, w.records + [result.value], w.nextId + 1)
  {
  }

  /** The delete action: the use case's answer and the documents it leaves. */
  function RemoveStep(route: Route, req: Request, w: World): (r: (Reply<Data>, World))
    ensures r.1.limits == w.limits && r.1.nextId == w.nextId
  {
    var (result, after) := SoftDeleteLog(w.records, Get(Params(route), "id"), req.now);
    (Render(Remove(result)), w.(records := after))
  }

  /** The list action: the page the list use case answers; nothing changes. */
  function ListStep(req: Request, matches: Matcher, w: World): (r: (Reply<Data>, World))
    ensures r.1 == w && r.0.status == 200
  {
    (Render(GetList(w.records, req.query, matches)), w)
  }

  /** A controller action applied to the state: actions never touch the rate-limit table. */
  function RunHandler(handler: Handler, route: Route, req: Request, matches: Matcher, w: World): (r: (Reply<Data>, World))
    ensures r.1.limits == w.limits
    ensures handler.ListHandler? ==> r.1 == w
  {
    match handler
    case ListHandler => ListStep(req, matches, w)
    case CreateHandler => CreateStep(req, w)
    case RemoveHandler => RemoveStep(route, req, w)
  }

  /**
   * A request through the router: the matched route's middleware, then its action
   * unless a middleware answered. Every matched request is answered; `None` means
   * no route matched (the application then answers 404).
   */
  function Serve(req: Request, env: Env, matches: Matcher, w: World): (r: (Option<Reply<Data>>, World))
    ensures r.0.Some? <==> MatchRoute(req.verb, req.path).Some?
    ensures r.0.None? ==> r.1 == w
  {
    match MatchRoute(req.verb, req.path)
    case None => (None, w)
    case Some(route) =>
      var p := RoutePipeline(route);
      match RunGuards(p.guards, route, req, env, w)
      case Done(reply, after) => (Some(reply), after)
      case Next(after) =>
        var (reply, final) := RunHandler(p.handler, route, req, matches, after);
        (Some(reply), final)
  }

  /**
   * Running two lists of middleware one after the other is running their
   * concatenation: the second list runs only when the first lets the request through.
   */
  lemma {:induction false} GuardsCompose(g1: seq<Guard>, g2: seq<Guard>, route: Route, req: Request, env: Env, w: World)
    ensures RunGuards(g1 + g2, route, req, env, w) ==
              match RunGuards(g1, route, req, env, w)
              case Done(reply, after) => Done(reply, after)
              case Next(after) => RunGuards(g2, route, req, env, after)
    decreases |g1|
  {
    if g1 == [] {
      assert g1 + g2 == g2;
    } else {
      assert (g1 + g2)[0] == g1[0];
      assert (g1 + g2)[1..] == g1[1..] + g2;
      match RunGuard(g1[0], route, req, env, w)
      case Done(_, _) =>
      case Next(after) =>
        GuardsCompose(g1[1..], g2, route, req, env, after);
    }
  }

  /** Listing changes nothing: neither the rate-limit table nor the collection. */
  lemma ListingChangesNothing(req: Request, env: Env, matches: Matcher, w: World)
    requires (req.verb == "GET" || req.verb == "HEAD") && req.path == "/getList"
    ensures Serve(req, env, matches, w).1 == w
  {
    assert RoutePipeline(ListRoute).guards[1..] == [];
  }

  /**
   * The list route validates its query and only then lists: a query the validator
   * refuses is answered with its error, any other with the listing, and neither
   * changes anything.
   */
  lemma ListQueryIsChecked(req: Request, env: Env, matches: Matcher, w: World)
    requires (req.verb == "GET" || req.verb == "HEAD") && req.path == "/getList"
    ensures ValidateGetList(req.query).Pass? ==> Serve(req, env, matches, w) == (Some(ListStep(req, matches, w).0), w)
    ensures ValidateGetList(req.query).Fail? ==>
              Serve(req, env, matches, w) == (Some(ErrorReply(ValidateGetList(req.query).error)), w)
  {
    assert RoutePipeline(ListRoute).guards[1..] == [];
  }

  /** `GET /getList?page=0` is answered 400 INVALID_QUERY and never reaches the listing. */
  lemma ZeroPageListingIsRefused(req: Request, env: Env, matches: Matcher, w: World)
    requires (req.verb == "GET" || req.verb == "HEAD") && req.path == "/getList"
    requires req.query == Obj(map["page" := Str("0")])
    ensures Serve(req, env, matches, w) == (Some(ErrorReply(Raise(PageMessage, 400, INVALID_QUERY))), w)
  {
    ZeroPageRejected();
    ListQueryIsChecked(req, env, matches, w);
  }

  /**
   * On the insert and delete routes a request the write-token guard refuses gets
   * that error and changes nothing: it reaches neither the rate-limit table nor
   * the collection.
   */
  lemma TokenRefusalChangesNothing(req: Request, env: Env, matches: Matcher, w: World)
    requires MatchRoute(req.verb, req.path).Some? && !MatchRoute(req.verb, req.path).value.ListRoute?
    requires RequireWriteToken(req.headers.writeToken, req.headers.authorization, env.writeToken).Fail?
    ensures Serve(req, env, matches, w) ==
              (Some(ErrorReply(RequireWriteToken(req.headers.writeToken, req.headers.authorization, env.writeToken).error)), w)
  {
  }

  /**
   * A delete without any credential, while a write token is configured, is answered
   * 401 TOKEN_MISSING even when its id is malformed: the token is checked first.
   */
  lemma DeleteWithoutCredentialIsTokenMissing(id: string, req: Request, env: Env, matches: Matcher, w: World)
    requires req.verb == "DELETE" && req.path == "/" + id && id != [] && '/' !in id
    requires req.headers.writeToken.None? && !HasBearerPrefix(req.headers.authorization)
    requires env.writeToken.Some? && env.writeToken.value != ""
    ensures Serve(req, env, matches, w).0 == Some(Reply(401, None, ErrorBody(TOKEN_MISSING, MissingMessage)))
    ensures Serve(req, env, matches, w).1 == w
  {
    assert ("/" + id)[1..] == id;
    TokenRefusalChangesNothing(req, env, matches, w);
  }

  /**
   * A delete whose token is accepted but whose id is not 24 hexadecimal digits is
   * answered 400 INVALID_ID and changes nothing.
   */
  lemma MalformedIdIsRefused(req: Request, env: Env, matches: Matcher, w: World)
    requires MatchRoute(req.verb, req.path).Some? && MatchRoute(req.verb, req.path).value.DeleteRoute?
    requires RequireWriteToken(req.headers.writeToken, req.headers.authorization, env.writeToken).Pass?
    requires !IsObjectIdHex(MatchRoute(req.verb, req.path).value.id)
    ensures Serve(req, env, matches, w) == (Some(ErrorReply(Raise(IdMessage, 400, INVALID_ID))), w)
  {
    var route := MatchRoute(req.verb, req.path).value;
    DeletePassesToken(route, req, env, w);
    MalformedIdFailsValidation(route.id);
  }

  /** The delete route past its write-token check: only the id validator remains. */
  lemma DeletePassesToken(route: Route, req: Request, env: Env, w: World)
    requires route.DeleteRoute?
    requires RequireWriteToken(req.headers.writeToken, req.headers.authorization, env.writeToken).Pass?
    ensures RunGuards(RoutePipeline(route).guards, route, req, env, w) == Gate(ValidateDeleteLog(Params(route)), w)
  {
    assert RoutePipeline(route).guards == [TokenCheck] + [CheckDeleteParams];
    TokenLetsThrough(route, req, env, w);
    GuardLetsThrough(TokenCheck, [CheckDeleteParams], route, req, env, w, w);
    LastGuard(CheckDeleteParams, route, req, env, w);
  }

  /** A write-token guard that passes lets the request through with the state as it was. */
  lemma TokenLetsThrough(route: Route, req: Request, env: Env, w: World)
    requires RequireWriteToken(req.headers.writeToken, req.headers.authorization, env.writeToken).Pass?
    ensures RunGuard(TokenCheck, route, req, env, w) == Next(w)
  {
  }

  /** A single middleware run as a list is that middleware. */
  lemma LastGuard(g: Guard, route: Route, req: Request, env: Env, w: World)
    ensures RunGuards([g], route, req, env, w) == RunGuard(g, route, req, env, w)
  {
    assert [g][1..] == [];
  }

  /** The id validator refuses a path segment that is not 24 hexadecimal digits. */
  lemma MalformedIdFailsValidation(id: string)
    requires !IsObjectIdHex(id)
    ensures ValidateDeleteLog(Params(DeleteRoute(id))) == Fail(Raise(IdMessage, 400, INVALID_ID))
  {
    assert Get(OrEmpty(Params(DeleteRoute(id))), "id") == Str(id);
  }

  /** Middleware that includes no rate limit leaves the rate-limit table as it was. */
  lemma {:induction false} LimitsKeptWithoutRateLimit(guards: seq<Guard>, route: Route, req: Request, env: Env, w: World)
    requires forall i :: 0 <= i < |guards| ==> !guards[i].RateLimit?
    ensures RunGuards(guards, route, req, env, w).w.limits == w.limits
    decreases |guards|
  {
    if guards != [] {
      match RunGuard(guards[0], route, req, env, w)
      case Done(_, _) =>
      case Next(after) =>
        LimitsKeptWithoutRateLimit(guards[1..], route, req, env, after);
    }
  }

  /** Only the insert route touches the rate-limit table. */
  lemma OnlyInsertsAreCounted(req: Request, env: Env, matches: Matcher, w: World)
    requires MatchRoute(req.verb, req.path) != Some(InsertRoute)
    ensures Serve(req, env, matches, w).1.limits == w.limits
  {
    match MatchRoute(req.verb, req.path)
    case None =>
    case Some(route) =>
      LimitsKeptWithoutRateLimit(RoutePipeline(route).guards, route, req, env, w);
  }

  /** The insert route past its write-token check: the limiter, then the body check. */
  lemma InsertPassesToken(req: Request, env: Env, w: World)
    requires RequireWriteToken(req.headers.writeToken, req.headers.authorization, env.writeToken).Pass?
    ensures RunGuards(RoutePipeline(InsertRoute).guards, InsertRoute, req, env, w) ==
            RunGuards([RateLimit(InsertLimit), CheckCreateBody], InsertRoute, req, env, w)
  {
    assert RoutePipeline(InsertRoute).guards[1..] == [RateLimit(InsertLimit), CheckCreateBody];
  }

  /**
   * An insert the token admits but the limiter refuses is answered 429 with the
   * limiter's Retry-After, and the collection is not touched.
   */
  lemma RateLimitedInsertWritesNothing(req: Request, env: Env, matches: Matcher, w: World)
    requires req.verb == "POST" && req.path == "/insertTask"
    requires RequireWriteToken(req.headers.writeToken, req.headers.authorization, env.writeToken).Pass?
    requires !DevelopmentMode(env.nodeEnv)
    requires Step(w.limits, ClientIdentity(req.headers.forwardedFor, req.remoteAddress), req.now, InsertLimit).0.Deny?
    ensures Serve(req, env, matches, w).0 ==
              Some(TooManyRequests(Step(w.limits, ClientIdentity(req.headers.forwardedFor, req.remoteAddress), req.now, InsertLimit).0.retryAfter))
    ensures Serve(req, env, matches, w).1.records == w.records && Serve(req, env, matches, w).1.nextId == w.nextId
  {
    InsertPassesToken(req, env, w);
  }

  /** A body the validator accepts always builds an entity: the create action then always stores it. */
  lemma ValidatedBodyBuilds(body: JsValue, nextId: nat, now: int)
    requires ValidateCreateLog(body).Pass?
    ensures var (title, content, tags) := CreateArgs(body);
            CreateLog(nextId, title, content, tags, now).Ok?
  {
  }

  /** The create action on a valid body answers 201 with the document it appends under the next identifier. */
  lemma ValidBodyIsCreated(req: Request, w: World)
    requires ValidateCreateLog(req.body).Pass?
    ensures var (reply, after) := CreateStep(req, w);
            reply.status == 201 && reply.body.SuccessBody? && reply.body.data.CreatedLog? &&
            reply.body.data.log.id == w.nextId &&
            after.records == w.records + [reply.body.data.log] && after.nextId == w.nextId + 1
  {
    ValidatedBodyBuilds(req.body, w.nextId, req.now);
  }

  /** Past the token, an admitted insert with a valid body reaches the create action with the limiter's new table. */
  lemma InsertReachesHandler(req: Request, env: Env, w: World)
    requires LimitStep(InsertLimit, req, env, w).Next?
    requires ValidateCreateLog(req.body).Pass?
    ensures RunGuards([RateLimit(InsertLimit), CheckCreateBody], InsertRoute, req, env, w) ==
            Next(LimitStep(InsertLimit, req, env, w).w)
  {
    var w1 := LimitStep(InsertLimit, req, env, w).w;
    LimiterLetsThrough(InsertLimit, [CheckCreateBody], InsertRoute, req, env, w);
    assert [RateLimit(InsertLimit)] + [CheckCreateBody] == [RateLimit(InsertLimit), CheckCreateBody];
    BodyCheckLetsThrough(req, env, w1);
  }

  /** A limiter that admits the request hands it on with the updated table. */
  lemma LimiterLetsThrough(opts: Options, rest: seq<Guard>, route: Route, req: Request, env: Env, w: World)
    requires LimitStep(opts, req, env, w).Next?
    ensures RunGuards([RateLimit(opts)] + rest, route, req, env, w) ==
            RunGuards(rest, route, req, env, LimitStep(opts, req, env, w).w)
  {
    GuardLetsThrough(RateLimit(opts), rest, route, req, env, w, LimitStep(opts, req, env, w).w);
  }

  /** A body the validator accepts lets the request through unchanged. */
  lemma BodyCheckLetsThrough(req: Request, env: Env, w: World)
    requires ValidateCreateLog(req.body).Pass?
    ensures RunGuards([CheckCreateBody], InsertRoute, req, env, w) == Next(w)
  {
    GuardLetsThrough(CheckCreateBody, [], InsertRoute, req, env, w, w);
    assert [CheckCreateBody] + [] == [CheckCreateBody];
  }

  /** A middleware that calls `next()` hands the request, and its new state, to the rest. */
  lemma GuardLetsThrough(g: Guard, rest: seq<Guard>, route: Route, req: Request, env: Env, w: World, w1: World)
    requires RunGuard(g, route, req, env, w) == Next(w1)
    ensures RunGuards([g] + rest, route, req, env, w) == RunGuards(rest, route, req, env, w1)
  {
    assert ([g] + rest)[1..] == rest;
  }

  /**
   * An insert the token and the limiter admit and whose body is valid is answered
   * 201 with the document stored under the next identifier, which is appended to
   * the collection.
   */
  lemma AcceptedInsertIsStored(req: Request, env: Env, matches: Matcher, w: World)
    requires req.verb == "POST" && req.path == "/insertTask"
    requires RequireWriteToken(req.headers.writeToken, req.headers.authorization, env.writeToken).Pass?
    requires DevelopmentMode(env.nodeEnv) ||
             Step(w.limits, ClientIdentity(req.headers.forwardedFor, req.remoteAddress), req.now, InsertLimit).0.Admit?
    requires ValidateCreateLog(req.body).Pass?
    ensures var (reply, after) := Serve(req, env, matches, w);
            reply.Some? && reply.value.status == 201 &&
            reply.value.body.SuccessBody? && reply.value.body.data.CreatedLog? &&
            reply.value.body.data.log.id == w.nextId &&
            after.records == w.records + [reply.value.body.data.log] &&
            after.nextId == w.nextId + 1
  {
    var w1 := LimitStep(InsertLimit, req, env, w).w;
    assert LimitStep(InsertLimit, req, env, w).Next?;
    InsertPassesToken(req, env, w);
    InsertReachesHandler(req, env, w);
    ServeInsert(req, env, matches, w);
    ValidBodyIsCreated(req, w1);
  }

  /** A request for the insert route: its middleware, then the create action if they let it through. */
  lemma ServeInsert(req: Request, env: Env, matches: Matcher, w: World)
    requires req.verb == "POST" && req.path == "/insertTask"
    ensures Serve(req, env, matches, w) ==
              match RunGuards(RoutePipeline(InsertRoute).guards, InsertRoute, req, env, w)
              case Done(reply, after) => (Some(reply), after)
              case Next(after) => (Some(CreateStep(req, after).0), CreateStep(req, after).1)
  {
  }

  /** The application's state and the router over it. */
  class LogsApp {
    const limiter: RateLimitTable
    const store: LogStore

    constructor (firstId: nat)
      ensures fresh(limiter) && fresh(store)
      ensures limiter.entries == map[] && store.records == [] && store.nextId == firstId && store.Valid()
    {
      limiter := new RateLimitTable();
      store := new LogStore(firstId);
    }

    function State(): World
      reads this, limiter, store
    {
      World(limiter.entries, store.records, store.nextId)
    }

    /**
     * One middleware carried out on the objects. Only the limiter updates anything;
     * the write-token guard and the validators read the request and are the
     * functions themselves.
     */
    method PerformGuard(guard: Guard, route: Route, req: Request, env: Env)
      returns (stop: Option<Reply<Data>>)
      modifies limiter
      ensures RunGuard(guard, route, req, env, old(State())) ==
              if stop.Some? then Done(stop.value, State()) else Next(State())
    {
      if guard.RateLimit? {
        var d := limiter.Handle(guard.opts, env.nodeEnv, req.headers.forwardedFor, req.remoteAddress, req.now);
        stop := if d.Deny? then Some(TooManyRequests(d.retryAfter)) else None;
      } else {
        var r := RunGuard(guard, route, req, env, State());
        stop := if r.Done? then Some(r.reply) else None;
      }
    }

    /** The list action on the objects: it only reads the store. */
    method PerformList(req: Request, matches: Matcher) returns (reply: Reply<Data>)
      ensures (reply, State()) == ListStep(req, matches, State())
    {
      reply := Render(GetList(store.records, req.query, matches));
    }

    /** The create action on the store, through the create use case. */
    method PerformCreate(req: Request) returns (reply: Reply<Data>)
      requires store.Valid()
      modifies store
      ensures store.Valid()
      ensures (reply, State()) == CreateStep(req, old(State()))
    {
      var args := CreateArgs(req.body);
      var result := ExecuteCreate(store, args.0, args.1, args.2, req.now);
      reply := Render(Create(result));
      CreateStepOutcome(req, old(State()), result);
    }

    /** The delete action on the store, through the soft-delete use case. */
    method PerformRemove(route: Route, req: Request) returns (reply: Reply<Data>)
      requires store.Valid()
      modifies store
      ensures store.Valid()
      ensures (reply, State()) == RemoveStep(route, req, old(State()))
    {
      var result := ExecuteSoftDelete(store, Get(Params(route), "id"), req.now);
      reply := Render(Remove(result));
    }

    /** One controller action carried out on the store through its use case. */
    method PerformHandler(handler: Handler, route: Route, req: Request, matches: Matcher)
      returns (reply: Reply<Data>)
      requires store.Valid()
      modifies store
      ensures store.Valid()
      ensures (reply, State()) == RunHandler(handler, route, req, matches, old(State()))
    {
      match handler
      case ListHandler =>
        reply := PerformList(req, matches);
      case CreateHandler =>
        reply := PerformCreate(req);
      case RemoveHandler =>
        reply := PerformRemove(route, req);
    }

    /**
     * One request: the route is matched, its middleware runs in order until one
     * answers, and otherwise its action answers. The answer and the new state are
     * those `Serve` gives.
     */
    method Handle(req: Request, env: Env, matches: Matcher) returns (reply: Option<Reply<Data>>)
      requires store.Valid()
      modifies limiter, store
      ensures store.Valid()
      ensures (reply, State()) == Serve(req, env, matches, old(State()))
    {
      var route := MatchRoute(req.verb, req.path);
      if route.None? {
        return None;
      }
      var p := RoutePipeline(route.value);
      var i := 0;
      while i < |p.guards|
        invariant 0 <= i <= |p.guards|
        invariant store.Valid()
        invariant RunGuards(p.guards[i..], route.value, req, env, State()) ==
                  RunGuards(p.guards, route.value, req, env, old(State()))
        decreases |p.guards| - i
      {
        assert p.guards[i..][1..] == p.guards[i + 1..];
        var stop := PerformGuard(p.guards[i], route.value, req, env);
        if stop.Some? {
          return stop;
        }
        i := i + 1;
      }
      var r := PerformHandler(p.handler, route.value, req, matches);
      return Some(r);
    }
  }
}
