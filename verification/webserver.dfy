/**
 * The handler registry (`webserver.WebServer`): two maps keyed by path,
 * updated together, and the start-up step that turns each registered path
 * into exactly one route.  The router itself and its middleware are not
 * modelled.
 */
module WebServer {
  import opened Wrappers

  /** An `http.HandlerFunc`; only its identity matters here. */
  type HandlerFunc(==)

  datatype WebServer = WebServer(handlers: map<string, HandlerFunc>, methods: map<string, string>, port: string)

  /** How the router is asked to serve a path. */
  datatype RouteKind = PostOnly | GetOnly | AnyMethod

  datatype Route = Route(kind: RouteKind, handler: HandlerFunc)

  /** What `Start` hands to the HTTP server: the routes and the listen address. */
  datatype Started = Started(routes: map<string, Route>, address: string)

  /** One `AddHandler(method, path, handler)` call. */
  datatype Registration = Registration(verb: string, path: string, handler: HandlerFunc)

  /** The two maps always have the same paths. */
  ghost predicate Valid(s: WebServer)
  {
    s.handlers.Keys == s.methods.Keys
  }

  /** `NewWebServer(port)`: nothing registered yet. */
  function NewWebServer(port: string): (s: WebServer)
    ensures |s.handlers| == 0 && |s.methods| == 0
    ensures s.port == port
    ensures Valid(s)
  {
    WebServer(map[], map[], port)
  }

  /** `AddHandler`: set both entries for `path`; every other path keeps its entries. */
  function AddHandler(s: WebServer, verb: string, path: string, handler: HandlerFunc): (r: WebServer)
    ensures path in r.handlers && r.handlers[path] == handler
    ensures path in r.methods && r.methods[path] == verb
    ensures r.handlers.Keys == s.handlers.Keys + {path}
    ensures r.methods.Keys == s.methods.Keys + {path}
    ensures forall p :: p in s.handlers && p != path ==> r.handlers[p] == s.handlers[p]
    ensures forall p :: p in s.methods && p != path ==> r.methods[p] == s.methods[p]
    ensures r.port == s.port
    ensures Valid(s) ==> Valid(r)
  {
    s.(handlers := s.handlers[path := handler], methods := s.methods[path := verb])
  }

  /** `s.Methods[path]`, with Go's zero value "" for a path that has no entry. */
  function MethodOf(s: WebServer, path: string): string
  {
    if path in s.methods then s.methods[path] else ""
  }

  /** The dispatch in `Start`: exact, case-sensitive comparison with "POST" and "GET". */
  function KindOf(verb: string): (k: RouteKind)
    ensures k == PostOnly <==> verb == "POST"
    ensures k == GetOnly <==> verb == "GET"
    ensures k == AnyMethod <==> verb != "POST" && verb != "GET"
  {
    if verb == "POST" then PostOnly
    else if verb == "GET" then GetOnly
    else AnyMethod
  }

  /**
   * `Start` without serving: every registered path gets one route, of the
   * kind its method selects, and the server listens on ":" + port.  Go visits
   * the map in no fixed order; each path is registered independently, so the
   * order does not matter.
   */
  function Start(s: WebServer): (st: Started)
    ensures st.routes.Keys == s.handlers.Keys
    ensures forall p :: p in st.routes ==>
      st.routes[p].handler == s.handlers[p] && st.routes[p].kind == KindOf(MethodOf(s, p))
    ensures st.address == ":" + s.port
  {
    Started(map p | p in s.handlers :: Route(KindOf(MethodOf(s, p)), s.handlers[p]), ":" + s.port)
  }

  /** Registering the same path twice keeps only the second registration. */
  lemma ReRegistrationKeepsLast(s: WebServer, m1: string, m2: string, path: string, h1: HandlerFunc, h2: HandlerFunc)
    ensures AddHandler(AddHandler(s, m1, path, h1), m2, path, h2) == AddHandler(s, m2, path, h2)
  {
  }

  /** A sequence of `AddHandler` calls, in order. */
  function AddAll(s: WebServer, regs: seq<Registration>): WebServer
    decreases |regs|
  {
    if |regs| == 0 then s
    else AddAll(AddHandler(s, regs[0].verb, regs[0].path, regs[0].handler), regs[1..])
  }

  /** The last registration for `path`, if any. */
  function LastFor(regs: seq<Registration>, path: string): Option<Registration>
    decreases |regs|
  {
    if |regs| == 0 then None
    else if regs[|regs| - 1].path == path then Some(regs[|regs| - 1])
    else LastFor(regs[..|regs| - 1], path)
  }

  lemma {:induction false} AddAllSnoc(s: WebServer, regs: seq<Registration>, last: Registration)
    ensures AddAll(s, regs + [last]) == AddHandler(AddAll(s, regs), last.verb, last.path, last.handler)
    decreases |regs|
  {
    if |regs| == 0 {
      assert regs + [last] == [last];
    } else {
      assert (regs + [last])[1..] == regs[1..] + [last];
      AddAllSnoc(AddHandler(s, regs[0].verb, regs[0].path, regs[0].handler), regs[1..], last);
    }
  }

  /**
   * After any sequence of registrations on a fresh server, both maps hold
   * exactly the registered paths, each with its last registration's entries.
   */
  lemma {:induction false} AddAllKeepsLast(port: string, regs: seq<Registration>, path: string)
    ensures var s := AddAll(NewWebServer(port), regs);
      && Valid(s)
      && (path in s.handlers <==> LastFor(regs, path).Some?)
      && (LastFor(regs, path).Some? ==>
            && s.handlers[path] == LastFor(regs, path).value.handler
            && s.methods[path] == LastFor(regs, path).value.verb)
    decreases |regs|
  {
    if |regs| > 0 {
      var init, last := regs[..|regs| - 1], regs[|regs| - 1];
      assert regs == init + [last];
      AddAllSnoc(NewWebServer(port), init, last);
      AddAllKeepsLast(port, init, path);
    }
  }

  /**
   * After any sequence of registrations on a fresh server, the routes are
   * exactly the registered paths, and each path is served by its last
   * registration's handler with the kind that registration's method selects.
   */
  lemma RoutesFollowLastRegistration(port: string, regs: seq<Registration>, path: string)
    ensures var st := Start(AddAll(NewWebServer(port), regs));
      && (path in st.routes <==> LastFor(regs, path).Some?)
      && (LastFor(regs, path).Some? ==>
            st.routes[path] == Route(KindOf(LastFor(regs, path).value.verb), LastFor(regs, path).value.handler))
  {
    AddAllKeepsLast(port, regs, path);
  }
}
