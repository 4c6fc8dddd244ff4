/** The Potty Trainer API (pottytrainer/server.go): `Run` mounts the `/eat`
    and `/poop` handlers under `/api/v1/`; `wrapHandler` puts an API token
    gate in front of each, taking the token from the `Authorization` header
    or the `token` query parameter and resolving it to a user; `poopHandler`
    decodes its JSON body before logging. */
module PottyServer {
  import opened Wrappers
  import opened Text

  const BearerPrefix: string := "Bearer "

  /** The text of the 401 answer to a request without a token. */
  const MissingToken: string := "missing token, please pass it like `?token=changeme` or `Authorization: Bearer changeme`"

  const StatusOK: nat := 200
  const StatusBadRequest: nat := 400
  const StatusUnauthorized: nat := 401
  const StatusNotFound: nat := 404
  const StatusInternalServerError: nat := 500

  // ---- Token selection ----

  /** The token of a request: the `Authorization` header with one leading
      "Bearer " removed, or, when that leaves nothing, the `token` query
      parameter. */
  function Token(authorization: string, tokenParam: string): (token: string)
    ensures token == "" <==> TrimPrefix(authorization, BearerPrefix) == "" && tokenParam == ""
  {
    var token := TrimPrefix(authorization, BearerPrefix);
    if token == "" then tokenParam else token
  }

  /** A bearer header carries its token, and the query parameter is not looked at. */
  lemma BearerHeaderWins(credential: string, tokenParam: string)
    requires credential != ""
    ensures Token(BearerPrefix + credential, tokenParam) == credential
  {
    assert (BearerPrefix + credential)[..|BearerPrefix|] == BearerPrefix;
  }

  /** A non-empty header without the prefix is used verbatim. */
  lemma PlainHeaderVerbatim(authorization: string, tokenParam: string)
    requires authorization != "" && !HasPrefix(authorization, BearerPrefix)
    ensures Token(authorization, tokenParam) == authorization
  {
  }

  /** An empty header, or a header of exactly "Bearer ", falls back to the query parameter. */
  lemma EmptyHeaderFallsBack(tokenParam: string)
    ensures Token("", tokenParam) == tokenParam
    ensures Token(BearerPrefix, tokenParam) == tokenParam
  {
    assert BearerPrefix[..|BearerPrefix|] == BearerPrefix;
  }

  /** Only one prefix is removed: "Bearer Bearer x" gives "Bearer x". */
  lemma OnePrefixRemoved(credential: string, tokenParam: string)
    ensures Token(BearerPrefix + BearerPrefix + credential, tokenParam) == BearerPrefix + credential
  {
    BearerHeaderWins(BearerPrefix + credential, tokenParam);
    assert BearerPrefix + BearerPrefix + credential == BearerPrefix + (BearerPrefix + credential);
  }

  // ---- Requests, replies and the handlers ----

  datatype User = User(id: string)

  /** The DynamoDB client as far as the API uses it: `UserFromToken`, and
      `LogPoop` given the user's id, the time and the quality flag (its
      error, `None` for nil). */
  datatype Ddb = Ddb(userFromToken: string -> Result<User>, logPoop: (string, int, bool) -> Option<string>)

  datatype Endpoint = Eat | Poop

  /** The body of a /poop request, once decoded. */
  datatype PoopRequest = PoopRequest(poopedAt: int, bad: bool)

  /** A request: its path, its `Authorization` header, its `token` query
      parameter, and what decoding its body as a /poop request gives. */
  datatype Request = Request(path: string, authorization: string, tokenParam: string, body: Result<PoopRequest>)

  /** A call the server makes on behalf of a request. */
  datatype Call =
    | HandlerCalled(endpoint: Endpoint, user: User)
    | LogPoopCalled(userID: string, poopedAt: int, bad: bool)

  /** What the server does with a request: it answers with a status and a
      body after making some calls, or hands it to a handler mounted
      elsewhere on the mux. */
  datatype Reply = Answered(status: nat, body: string, calls: seq<Call>) | HandedOver(handler: string)

  /** http.Error: the status and the message followed by a newline. */
  function Error(message: string, status: nat): (r: Reply)
    ensures r.Answered? && r.status == status && r.calls == []
    ensures HasPrefix(r.body, message)
  {
    assert (message + "\n")[..|message|] == message;
    Answered(status, message + "\n", [])
  }

  /** The handler behind a route, once the user is known: eatHandler
      answers "yum"; poopHandler answers 400 when the body does not decode,
      and otherwise calls `LogPoop` and answers 500 with its error if it
      fails, or 200 with an empty body. */
  function Handle(endpoint: Endpoint, req: Request, user: User, db: Ddb): (r: Reply)
    ensures r.Answered?
    ensures endpoint == Eat ==> r == Answered(StatusOK, "yum", [])
    ensures endpoint == Poop && req.body.Failure? ==> r == Error(req.body.error, StatusBadRequest)
    ensures endpoint == Poop && req.body.Success? ==>
              var p := req.body.value;
              && r.calls == [LogPoopCalled(user.id, p.poopedAt, p.bad)]
              && (r.status == StatusOK <==> db.logPoop(user.id, p.poopedAt, p.bad).None?)
              && (r.status != StatusOK ==>
                    r.status == StatusInternalServerError && HasPrefix(r.body, db.logPoop(user.id, p.poopedAt, p.bad).value))
  {
    match endpoint
    case Eat => Answered(StatusOK, "yum", [])
    case Poop =>
      match req.body
      case Failure(e) => Error(e, StatusBadRequest)
      case Success(p) =>
        var call := LogPoopCalled(user.id, p.poopedAt, p.bad);
        match db.logPoop(user.id, p.poopedAt, p.bad)
        case None => Answered(StatusOK, "", [call])
        case Some(e) =>
          var failed := Error(e, StatusInternalServerError);
          Answered(failed.status, failed.body, [call])
  }

  /** wrapHandler: the token gate in front of `endpoint`. */
  function Gate(endpoint: Endpoint, req: Request, db: Ddb): (r: Reply)
    ensures r.Answered?
  {
    var token := Token(req.authorization, req.tokenParam);
    if token == "" then Error(MissingToken, StatusUnauthorized)
    else match db.userFromToken(token)
      case Failure(e) => Error(e, StatusUnauthorized)
      case Success(user) =>
        var handled := Handle(endpoint, req, user, db);
        Answered(handled.status, handled.body, [HandlerCalled(endpoint, user)] + handled.calls)
  }

  /** Without a token the answer is 401 with the fixed message and nothing is called. */
  lemma MissingTokenRejected(endpoint: Endpoint, req: Request, db: Ddb)
    requires TrimPrefix(req.authorization, BearerPrefix) == "" && req.tokenParam == ""
    ensures Gate(endpoint, req, db) == Answered(StatusUnauthorized, MissingToken + "\n", [])
  {
  }

  /** A token the lookup refuses gets 401 with the lookup's error text, and
      nothing is called; a token it resolves calls the handler exactly once,
      first, with the resolved user. */
  lemma {:induction false} TokenLookupDecides(endpoint: Endpoint, req: Request, db: Ddb)
    requires Token(req.authorization, req.tokenParam) != ""
    ensures var r := Gate(endpoint, req, db);
            match db.userFromToken(Token(req.authorization, req.tokenParam))
            case Failure(e) => r == Answered(StatusUnauthorized, e + "\n", [])
            case Success(user) =>
              var h := Handle(endpoint, req, user, db);
              && r == Answered(h.status, h.body, [HandlerCalled(endpoint, user)] + h.calls)
              && |r.calls| >= 1 && r.calls[0] == HandlerCalled(endpoint, user)
              && (forall i :: 1 <= i < |r.calls| ==> !r.calls[i].HandlerCalled?)
  {
    var token := Token(req.authorization, req.tokenParam);
    match db.userFromToken(token)
    case Failure(e) =>
    case Success(user) =>
      var handled := Handle(endpoint, req, user, db);
      assert handled.calls == [] || handled.calls == [LogPoopCalled(user.id, req.body.value.poopedAt, req.body.value.bad)];
  }

  /** A /poop body that does not decode gets 400 and `LogPoop` is not called;
      a body that decodes is logged under the resolved user, whatever
      `LogPoop` then answers. */
  lemma PoopDecodeGate(req: Request, user: User, db: Ddb)
    ensures req.body.Failure? ==>
              Handle(Poop, req, user, db) == Answered(StatusBadRequest, req.body.error + "\n", [])
    ensures req.body.Success? ==>
              LogPoopCalled(user.id, req.body.value.poopedAt, req.body.value.bad) in Handle(Poop, req, user, db).calls
  {
  }

  // ---- Routing ----

  /** A `ServeMux` pattern matches a path: a pattern ending in "/" names the
      whole subtree below it, any other pattern only itself. */
  predicate PatternMatches(pattern: string, path: string) {
    if |pattern| > 0 && pattern[|pattern| - 1] == '/' then HasPrefix(path, pattern) else path == pattern
  }

  /** The longest registered pattern that matches `path`, with its handler. */
  function Longest<H>(entries: seq<(string, H)>, path: string): (r: Option<(string, H)>)
    ensures r.None? <==> forall i :: 0 <= i < |entries| ==> !PatternMatches(entries[i].0, path)
    ensures r.Some? ==> r.value in entries && PatternMatches(r.value.0, path)
    ensures r.Some? ==> forall i :: 0 <= i < |entries| && PatternMatches(entries[i].0, path) ==> |entries[i].0| <= |r.value.0|
  {
    if entries == [] then None
    else
      var rest := Longest(entries[1..], path);
      if PatternMatches(entries[0].0, path) && (rest.None? || |entries[0].0| > |rest.value.0|) then Some(entries[0])
      else rest
  }

  /** What a mux can hold: the API mounted by `Run` (a `StripPrefix` in front
      of a mux of gated endpoints) or a handler mounted by other code. */
  datatype Handler = Mounted(prefix: string, api: seq<(string, Endpoint)>) | Elsewhere(name: string)

  function NotFound(): (r: Reply)
    ensures r.Answered? && r.status == StatusNotFound && r.calls == []
  {
    Error("404 page not found", StatusNotFound)
  }

  /** Serving a request on the mux. */
  function Serve(entries: seq<(string, Handler)>, req: Request, db: Ddb): (r: Reply)
    ensures Longest(entries, req.path).None? ==> r == NotFound()
    ensures r.HandedOver? ==> exists i :: 0 <= i < |entries| && entries[i].1 == Elsewhere(r.handler)
                                                && PatternMatches(entries[i].0, req.path)
  {
    match Longest(entries, req.path)
    case None => NotFound()
    case Some((_, Elsewhere(name))) => HandedOver(name)
    case Some((_, Mounted(prefix, api))) =>
      if !HasPrefix(req.path, prefix) then NotFound()
      else
        var inner := req.(path := req.path[|prefix|..]);
        match Longest(api, inner.path)
        case None => NotFound()
        case Some((_, endpoint)) => Gate(endpoint, inner, db)
  }

  /** An `http.ServeMux`: its registrations in order. */
  class ServeMux<H> {
    var entries: seq<(string, H)>

    constructor ()
      ensures entries == []
    {
      entries := [];
    }

    predicate Registered(pattern: string)
      reads this
    {
      exists i :: 0 <= i < |entries| && entries[i].0 == pattern
    }

    /** mux.Handle; registering a pattern twice is a panic in Go, so it is excluded. */
    method Handle(pattern: string, handler: H)
      requires !Registered(pattern)
      modifies this
      ensures entries == old(entries) + [(pattern, handler)]
    {
      entries := entries + [(pattern, handler)];
    }
  }

  const ApiPrefix: string := "/api/v1"
  const ApiRoutes: seq<(string, Endpoint)> := [("/eat", Eat), ("/poop", Poop)]

  /** Run.  `ddbFailure` is the error of creating the DynamoDB client, if any;
      then nothing is mounted. */
  method Run(mux: ServeMux<Handler>, ddbFailure: Option<string>) returns (err: Option<string>)
    requires !mux.Registered(ApiPrefix + "/")
    modifies mux
    ensures ddbFailure.Some? ==> err == Some("failed to create ddb client: " + ddbFailure.value) && mux.entries == old(mux.entries)
    ensures ddbFailure.None? ==> err == None && mux.entries == old(mux.entries) + [(ApiPrefix + "/", Mounted(ApiPrefix, ApiRoutes))]
  {
    if ddbFailure.Some? {
      return Some("failed to create ddb client: " + ddbFailure.value);
    }
    var apiMux := new ServeMux<Endpoint>();
    apiMux.Handle("/eat", Eat);
    apiMux.Handle("/poop", Poop);
    assert apiMux.entries == ApiRoutes;
    mux.Handle(ApiPrefix + "/", Mounted(ApiPrefix, apiMux.entries));
    err := None;
  }

  lemma {:induction false} StripApiPrefix(rest: string)
    ensures HasPrefix(ApiPrefix + rest, ApiPrefix) && (ApiPrefix + rest)[|ApiPrefix|..] == rest
  {
    assert (ApiPrefix + rest)[..|ApiPrefix|] == ApiPrefix;
  }

  /** After `Run`, /api/v1/eat and /api/v1/poop reach the gated eat and poop
      handlers with "/api/v1" stripped, unless the mux already held a longer
      pattern for the path. */
  lemma {:induction false} ApiRoutesReachHandlers(before: seq<(string, Handler)>, req: Request, db: Ddb)
    requires req.path == "/api/v1/eat" || req.path == "/api/v1/poop"
    requires forall i :: 0 <= i < |before| && PatternMatches(before[i].0, req.path) ==> |before[i].0| < |ApiPrefix + "/"|
    ensures var after := before + [(ApiPrefix + "/", Mounted(ApiPrefix, ApiRoutes))];
            var endpoint := if req.path == "/api/v1/eat" then Eat else Poop;
            Serve(after, req, db) == Gate(endpoint, req.(path := req.path[|ApiPrefix|..]), db)
  {
    var after := before + [(ApiPrefix + "/", Mounted(ApiPrefix, ApiRoutes))];
    var rest := req.path[|ApiPrefix|..];
    assert rest == "/eat" || rest == "/poop" by {
      if req.path == "/api/v1/eat" {
        assert req.path == ApiPrefix + "/eat";
        StripApiPrefix("/eat");
      } else {
        assert req.path == ApiPrefix + "/poop";
        StripApiPrefix("/poop");
      }
    }
    assert req.path == ApiPrefix + rest;
    StripApiPrefix(rest);
    assert HasPrefix(req.path, ApiPrefix + "/") by {
      assert req.path[..|ApiPrefix + "/"|] == ApiPrefix + "/";
    }
    var n := |after| - 1;
    assert after[n] == (ApiPrefix + "/", Mounted(ApiPrefix, ApiRoutes));
    assert PatternMatches(after[n].0, req.path);
    var found := Longest(after, req.path);
    assert found.Some?;
    assert found.value.0 == ApiPrefix + "/" by {
      var j :| 0 <= j < |after| && after[j] == found.value;
    }
    assert found.value.1 == Mounted(ApiPrefix, ApiRoutes);
  }
}
