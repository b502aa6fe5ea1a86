/**
 * The gateway assembled by src/server.ts: the cross-origin middleware, a
 * health route, the API-key gate when a key is configured, and the nine
 * alias mounts; and what the assembled gateway does with one request.
 *
 * The cross-origin middleware answers every `OPTIONS` request itself (a
 * preflight reply), ahead of everything registered after it; on other
 * requests it only decorates the response. Request logging only observes,
 * so it is not modelled.
 */
module Gateway {
  import opened Wrappers
  import opened Admission
  import opened Aliases

  /** The parts of an incoming request the gateway looks at. */
  datatype Request = Request(
    verb: string,                  // the HTTP method
    path: string,
    xApiKey: Option<string>,       // the `x-api-key` header
    authorization: Option<string>) // the `Authorization` header

  /** How a request leaves the gateway. */
  datatype Outcome =
    | Preflight         // answered by the cross-origin middleware
    | Health(body: string)
    | Unauthorized      // rejected by the API-key gate
    | NotFound          // admitted, but no alias serves the path
    | Routed(group: Group)

  /** The body of the health response. */
  const HealthText: string := "Server running"

  /**
   * The framework answers `HEAD` with the `GET` handler and drops the body,
   * so `GET` and `HEAD` both reach the health route.
   */
  predicate ReadsHealth(req: Request) {
    (req.verb == "GET" || req.verb == "HEAD") && req.path == HealthPath
  }

  /** The health body as sent: the fixed text for `GET`, nothing for `HEAD`. */
  function HealthBody(verb: string): string {
    if verb == "HEAD" then "" else HealthText
  }

  /**
   * The declared pipeline: the preflight reply first, then the health route,
   * then the gate, then the alias lookup. The gate is mounted on every path, so it runs before the
   * lookup and an unauthenticated request to an unknown path is rejected
   * rather than reported missing.
   */
  function Dispatch(secret: Option<string>, table: seq<Alias>, req: Request,
                    bearerOk: BearerCheck): (o: Outcome)
    ensures o == Preflight <==> req.verb == "OPTIONS"
    ensures o.Health? <==> req.verb != "OPTIONS" && ReadsHealth(req)
    ensures o.Health? ==> o.body == (if req.verb == "GET" then "Server running" else "")
    ensures o == Unauthorized <==>
      req.verb != "OPTIONS" && !ReadsHealth(req)
      && !Admit(secret, req.path, req.xApiKey, req.authorization, bearerOk)
    ensures o.Routed? ==>
      Admit(secret, req.path, req.xApiKey, req.authorization, bearerOk)
      && Resolve(table, req.path) == Some(o.group)
    ensures o == NotFound ==> Resolve(table, req.path) == None
  {
    if req.verb == "OPTIONS" then Preflight
    else if ReadsHealth(req) then Health(HealthBody(req.verb))
    else if !Admit(secret, req.path, req.xApiKey, req.authorization, bearerOk) then Unauthorized
    else match Resolve(table, req.path)
      case None => NotFound
      case Some(g) => Routed(g)
  }

  /** The application object, as the registrations have left it. */
  class Server {
    /** Whether the cross-origin middleware has been installed. */
    var cors: bool
    /** Whether `GET /` has been registered. */
    var healthRoute: bool
    /** The key the installed API-key middleware checks, if it is installed. */
    var gateKey: Option<string>
    /** The alias mounts, in registration order. */
    var aliases: seq<Alias>

    constructor ()
      ensures !cors && !healthRoute && gateKey == None && aliases == []
    {
      cors := false;
      healthRoute := false;
      gateKey := None;
      aliases := [];
    }

    /** Installs the cross-origin middleware on every path. */
    method UseCors()
      modifies this
      ensures cors
      ensures healthRoute == old(healthRoute) && gateKey == old(gateKey) && aliases == old(aliases)
    {
      cors := true;
    }

    /** Registers the health route `GET /`. */
    method ServeHealth()
      modifies this
      ensures healthRoute
      ensures cors == old(cors) && gateKey == old(gateKey) && aliases == old(aliases)
    {
      healthRoute := true;
    }

    /** Installs the API-key middleware on every path, checking `key`. */
    method UseGate(key: string)
      modifies this
      ensures gateKey == Some(key)
      ensures cors == old(cors) && healthRoute == old(healthRoute) && aliases == old(aliases)
    {
      gateKey := Some(key);
    }

    /** Mounts the handler group `group` under `prefix`. */
    method Register(prefix: string, group: Group)
      modifies this
      ensures aliases == old(aliases) + [Alias(prefix, group)]
      ensures cors == old(cors) && healthRoute == old(healthRoute) && gateKey == old(gateKey)
    {
      aliases := aliases + [Alias(prefix, group)];
    }

    /**
     * What the server does with a request: the cross-origin middleware
     * answers `OPTIONS`, the health handler answers `GET /` and `HEAD /`, and every other
     * request passes the API-key middleware, if installed, and then the
     * mounts.
     *
     * The framework runs handlers in registration order; this fixed order
     * (cross-origin, health, gate, mounts) is the source's registration
     * order, which `Build` follows. It is not derived from the order in
     * which the mutators were called.
     */
    function Handle(req: Request, bearerOk: BearerCheck): (o: Outcome)
      reads this
    {
      if cors && req.verb == "OPTIONS" then Preflight
      else if healthRoute && ReadsHealth(req) then Health(HealthBody(req.verb))
      else if gateKey.Some?
              && !GateAdmits(gateKey.value, req.path, req.xApiKey, req.authorization, bearerOk)
      then Unauthorized
      else match Resolve(aliases, req.path)
        case None => NotFound
        case Some(g) => Routed(g)
    }
  }

  /**
   * Builds the server as the module does at start-up: the cross-origin
   * middleware, the health route, the
   * gate only when the key is truthy, then the nine mounts in source order.
   * The result behaves, on every request, as the declared pipeline.
   */
  method Build(apiKey: Option<string>) returns (s: Server)
    ensures fresh(s)
    ensures s.cors && s.healthRoute && s.aliases == CanonicalTable
    ensures s.gateKey == if Gated(apiKey) then apiKey else None
    ensures forall req, bearerOk :: s.Handle(req, bearerOk) == Dispatch(apiKey, CanonicalTable, req, bearerOk)
  {
    s := new Server();
    s.UseCors();
    s.ServeHealth();
    if Gated(apiKey) {
      s.UseGate(apiKey.value);
    }
    s.Register("/chat/completions", ChatCompletions);
    s.Register("/models", Models);
    s.Register("/embeddings", Embeddings);
    s.Register("/usage", Usage);
    s.Register("/token", Token);
    s.Register("/v1/chat/completions", ChatCompletions);
    s.Register("/v1/models", Models);
    s.Register("/v1/embeddings", Embeddings);
    s.Register("/v1/messages", Messages);
  }

  /**
   * The health probe answers `GET /` with its fixed text, and `HEAD /` with
   * an empty body, whatever the key and the credentials.
   */
  lemma HealthAlways(secret: Option<string>, table: seq<Alias>, xApiKey: Option<string>,
                     authorization: Option<string>, bearerOk: BearerCheck)
    ensures Dispatch(secret, table, Request("GET", HealthPath, xApiKey, authorization), bearerOk)
            == Health("Server running")
    ensures Dispatch(secret, table, Request("HEAD", HealthPath, xApiKey, authorization), bearerOk)
            == Health("")
  {
  }

  /**
   * Every `OPTIONS` request gets the preflight reply before the gate and the
   * mounts: no credentials are needed and no handler group is reached.
   */
  lemma PreflightBeforeGate(secret: Option<string>, table: seq<Alias>, path: string,
                            xApiKey: Option<string>, authorization: Option<string>,
                            bearerOk: BearerCheck)
    ensures Dispatch(secret, table, Request("OPTIONS", path, xApiKey, authorization), bearerOk)
            == Preflight
  {
  }

  /**
   * With a key set, a request other than a preflight, off the health path,
   * that fails both the header and the bearer check is rejected, whether or
   * not an alias serves its path.
   */
  lemma GatedRejectsRegardlessOfRoute(key: string, table: seq<Alias>, req: Request,
                                      bearerOk: BearerCheck)
    requires key != "" && req.path != HealthPath && req.verb != "OPTIONS"
    requires req.xApiKey != Some(key) && !bearerOk(req.authorization, key)
    ensures Dispatch(Some(key), table, req, bearerOk) == Unauthorized
  {
  }

  /**
   * Methods on the root path other than `GET`, `HEAD` and `OPTIONS` are admitted but
   * reach no handler group.
   */
  lemma RootOtherMethodsNotFound(secret: Option<string>, req: Request, bearerOk: BearerCheck)
    requires req.path == HealthPath
    requires req.verb != "GET" && req.verb != "HEAD" && req.verb != "OPTIONS"
    ensures Dispatch(secret, CanonicalTable, req, bearerOk) == NotFound
  {
    CanonicalUnaliased(req.path);
  }

  /** A key configured in the header routes `/chat/completions` to its group. */
  lemma ScenarioHeaderKey(bearerOk: BearerCheck)
    ensures Dispatch(Some("s3cr3t"), CanonicalTable,
                     Request("GET", "/chat/completions", Some("s3cr3t"), None), bearerOk)
            == Routed(ChatCompletions)
  {
    CanonicalRoutes("/chat/completions");
  }

  /** A bearer credential the framework accepts routes `/v1/messages` to its group. */
  lemma ScenarioBearer(bearerOk: BearerCheck)
    requires bearerOk(Some("Bearer s3cr3t"), "s3cr3t")
    ensures Dispatch(Some("s3cr3t"), CanonicalTable,
                     Request("GET", "/v1/messages", None, Some("Bearer s3cr3t")), bearerOk)
            == Routed(Messages)
  {
    CanonicalRoutes("/v1/messages");
  }

  /** `/v1/usage` has no alias: a valid credential gets it only as far as not found. */
  lemma ScenarioUnaliasedUsage(bearerOk: BearerCheck)
    ensures Dispatch(Some("s3cr3t"), CanonicalTable,
                     Request("GET", "/v1/usage", Some("s3cr3t"), None), bearerOk)
            == NotFound
  {
    CanonicalUnaliased("/v1/usage");
  }

  /** With no key, a request without credentials reaches the embeddings group. */
  lemma ScenarioOpen(bearerOk: BearerCheck)
    ensures Dispatch(None, CanonicalTable, Request("GET", "/embeddings", None, None), bearerOk)
            == Routed(Embeddings)
  {
    CanonicalRoutes("/embeddings");
  }
}
