/**
 * TypedMounter itself: the Flask application it is bound to, and
 * attach_endpoint, which checks its arguments and registers the
 * documentation route and the API route of a handler.
 */
module Mounter {
  import opened Wrappers
  import opened Values
  import opened Keywords

  /** The view function a route dispatches to. */
  datatype View =
    | Documentation(fun: Handler)
    /** service(), which reads the full option dictionary of its registration. */
    | Api(fun: Handler, options: Options)

  /** One call of app.route(rule, endpoint=..., **options) applied to a view. */
  datatype Route = Route(rule: string, endpoint: string, options: Options, view: View)

  /** Why attaching an endpoint raises. */
  datatype MountError =
    | AppNotInitiated
    /** The ValueError for a method list other than ['POST'], with the value given. */
    | NotOnlyPost(methods: OptValue)
    /** The TypeError of app.route when `endpoint` is given twice. */
    | EndpointGivenTwice

  /** The routes one attach_endpoint registers, and the error it raises, if any. */
  datatype Mounted = Mounted(added: seq<Route>, error: Option<MountError>)

  /** The Flask application: the routes registered so far, in order. */
  class App {
    var routes: seq<Route>

    constructor ()
      ensures routes == []
    {
      routes := [];
    }

    /** app.route(...)(view): registers one more route. */
    method AddRoute(route: Route)
      modifies this
      ensures routes == old(routes) + [route]
    {
      routes := routes + [route];
    }
  }

  /**
   * attach_endpoint(rule, **options)(fun) on a mounter that has an
   * application or not: the two guards, then the documentation route when
   * auto_document (default True) is truthy, then the API route.
   */
  function Attach(hasApp: bool, rule: string, options: Options, fun: Handler): (r: Mounted)
    ensures r.error.Some? ==> r.added == []
    ensures r.error.None? ==> && hasApp
                              && 1 <= |r.added| <= 2
                              && r.added[|r.added| - 1].endpoint == ApiEndpoint(rule)
                              && r.added[|r.added| - 1].view == Api(fun, options)
                              && forall route :: route in r.added ==> route.rule == rule
  {
    if !hasApp then Mounted([], Some(AppNotInitiated))
    else if Get(options, "methods", PostOnly) != PostOnly then Mounted([], Some(NotOnlyPost(options["methods"])))
    else
      var docRoutes :=
        if Truthy(Get(options, "auto_document", Bool(true)))
        then [Route(rule, DocEndpoint(rule), DocumentOptions(options), Documentation(fun))]
        else [];
      if "endpoint" in options then Mounted([], Some(EndpointGivenTwice))
      else Mounted(docRoutes + [Route(rule, ApiEndpoint(rule), ApiOptions(options), Api(fun, options))], None)
  }

  /**
   * The guards run before anything is registered, the missing application
   * first: a mounter without an application raises whatever the methods.
   * An attach that raises registers no route at all.
   */
  lemma AttachGuards(hasApp: bool, rule: string, options: Options, fun: Handler)
    ensures Attach(hasApp, rule, options, fun).error == Some(AppNotInitiated) <==> !hasApp
    ensures var e := Attach(hasApp, rule, options, fun).error;
            e.Some? && e.value.NotOnlyPost? <==> hasApp && "methods" in options && options["methods"] != PostOnly
    ensures var e := Attach(hasApp, rule, options, fun).error;
            e.Some? && e.value.NotOnlyPost? ==> e.value.methods == options["methods"]
    ensures Attach(hasApp, rule, options, fun).error.Some? ==> Attach(hasApp, rule, options, fun).added == []
    ensures Attach(hasApp, rule, options, fun).error.None? <==>
              hasApp && Get(options, "methods", PostOnly) == PostOnly && "endpoint" !in options
  {
  }

  /**
   * A successful attach registers the API route last, for POST only and
   * without the wrapper's own keys, its view keeping the full options; it
   * is preceded by the GET documentation route exactly when auto_document
   * is truthy, and the two endpoints differ.
   */
  lemma AttachRegistersRoutes(rule: string, options: Options, fun: Handler)
    requires Get(options, "methods", PostOnly) == PostOnly && "endpoint" !in options
    ensures var added := Attach(true, rule, options, fun).added;
            && |added| == (if Truthy(Get(options, "auto_document", Bool(true))) then 2 else 1)
            && forall r :: r in added ==> r.rule == rule && r.view.fun == fun
    ensures var api := Attach(true, rule, options, fun).added[|Attach(true, rule, options, fun).added| - 1];
            && api.endpoint == "api_" + rule
            && api.options["methods"] == PostOnly
            && (forall k :: IsOwnKey(k) ==> k !in api.options)
            && (forall k :: k in options && k != "methods" && !IsOwnKey(k) ==> k in api.options && api.options[k] == options[k])
            && api.view == Api(fun, options)
    ensures var added := Attach(true, rule, options, fun).added;
            |added| == 2 ==> && added[0].endpoint == "doc_" + rule
                             && added[0].options["methods"] == GetOnly
                             && (forall k :: IsOwnKey(k) ==> k !in added[0].options)
                             && added[0].view == Documentation(fun)
                             && added[0].endpoint != added[1].endpoint
  {
    RouteOptions(options);
    EndpointsDistinct(rule, rule);
  }

  /** The mounter: the application it registers routes on, once there is one. */
  class TypedMounter {
    var app: App?

    /** TypedMounter(app=None) */
    constructor (app: App?)
      ensures this.app == app
    {
      this.app := app;
    }

    /** init_app(app); passing None unbinds the application. */
    method InitApp(app: App?)
      modifies this
      ensures this.app == app
    {
      this.app := app;
    }

    /**
     * attach_endpoint(rule, **options) applied to `fun`: raises, or adds
     * the documentation route (when asked for) and the API route to the
     * application.
     */
    method AttachEndpoint(rule: string, options: Options, fun: Handler) returns (error: Option<MountError>)
      modifies app
      ensures app == old(app)
      ensures var m := Attach(old(app) != null, rule, options, fun);
              && error == m.error
              && (app != null ==> app.routes == old(app.routes) + m.added)
    {
      if app == null {
        return Some(AppNotInitiated);
      }
      RouteOptions(options);
      if Get(options, "methods", PostOnly) != PostOnly {
        return Some(NotOnlyPost(options["methods"]));
      }
      if Truthy(Get(options, "auto_document", Bool(true))) {
        var documentOptions := ExtractDocumentOptions(options);
        if "endpoint" in documentOptions {
          return Some(EndpointGivenTwice);
        }
        app.AddRoute(Route(rule, DocEndpoint(rule), documentOptions, Documentation(fun)));
      }
      var apiOptions := options;
      apiOptions := apiOptions["methods" := PostOnly];
      apiOptions := PopOwnKeys(apiOptions);
      if "endpoint" in apiOptions {
        assert !Truthy(Get(options, "auto_document", Bool(true)));
        return Some(EndpointGivenTwice);
      }
      app.AddRoute(Route(rule, ApiEndpoint(rule), apiOptions, Api(fun, options)));
      error := None;
    }
  }
}
