/**
 * The view override of src/server/plugins/vision/index.ts: the context every
 * template receives (`extractEjsContext`) and the `h.view` wrapper that adds
 * `page` and `layout` and forces an html content type. Template rendering
 * itself (EJS through @hapi/vision) is not modelled.
 */
module Vision {
  import opened Common
  import opened JsString
  import opened JsValue

  /** What the context is built from: the request's query, params, payload and `app` state. */
  datatype ViewRequest = ViewRequest(query: Object, params: Object, payload: Value, app: Object)

  /** `{...array}`: an array spreads into its indices. */
  function IndexEntries(items: seq<Value>): (r: Object)
    ensures forall i :: 0 <= i < |items| ==> NatToString(i) in r && r[NatToString(i)] == items[i]
    decreases |items|
  {
    if items == [] then map[]
    else
      var n := |items| - 1;
      var prev := IndexEntries(items[..n]);
      IndexNamesDistinct(n);
      prev[NatToString(n) := items[n]]
  }

  /** The key of index `n` differs from the keys of the indices before it. */
  lemma IndexNamesDistinct(n: nat)
    ensures forall i :: 0 <= i < n ==> NatToString(i) != NatToString(n)
  {
    forall i | 0 <= i < n ensures NatToString(i) != NatToString(n) {
      if NatToString(i) == NatToString(n) {
        NatToStringInjective(i, n);
      }
    }
  }

  /**
   * The payload as it is spread into `reqData`: a missing payload defaults to
   * `{}`, a non-object payload is replaced by `{}`, and `null` spreads to nothing.
   * Host objects (buffers, streams) are taken to spread to nothing as well.
   */
  function PayloadEntries(payload: Value): (r: Object)
    ensures payload.Obj? ==> r == payload.fields
    ensures !payload.Obj? && !payload.Arr? ==> r == map[]
  {
    match payload
    case Obj(fields) => fields
    case Arr(items) => IndexEntries(items)
    case _ => map[]
  }

  /** `reqData`: query, then params, then payload, later keys winning. */
  function ReqData(req: ViewRequest): Object {
    Spread(Spread(req.query, req.params), PayloadEntries(req.payload))
  }

  /** `server.methods.watchHtml?.() || ''`: the method's result when it exists and is truthy. */
  function WatchHtml(watch: Option<Value>): (r: Value)
    ensures watch.None? || !Truthy(watch.value) ==> r == Str("")
    ensures watch.Some? && Truthy(watch.value) ==> r == watch.value
  {
    if watch.Some? && Truthy(watch.value) then watch.value else Str("")
  }

  /** `extractEjsContext`: caller context, then `request.app`, then `reqData` and `watchHtml`. */
  function ExtractEjsContext(req: ViewRequest, context: Object, watch: Option<Value>): Object {
    Spread(Spread(context, req.app), map["reqData" := Obj(ReqData(req)), "watchHtml" := WatchHtml(watch)])
  }

  /** Payload keys override params, which override query keys. */
  lemma ReqDataPrecedence(req: ViewRequest, key: string)
    requires req.payload.Obj? || !req.payload.Arr?
    ensures var d := ReqData(req);
      var payload := PayloadEntries(req.payload);
      && (key in payload ==> key in d && d[key] == payload[key])
      && (key !in payload && key in req.params ==> key in d && d[key] == req.params[key])
      && (key !in payload && key !in req.params && key in req.query ==> key in d && d[key] == req.query[key])
      && (key !in payload && key !in req.params && key !in req.query ==> key !in d)
      && (!req.payload.Obj? ==> payload == map[])
  {
  }

  /** `reqData` and `watchHtml` are always the computed ones; `request.app` overrides the caller's context. */
  lemma ContextPrecedence(req: ViewRequest, context: Object, watch: Option<Value>, key: string)
    ensures var c := ExtractEjsContext(req, context, watch);
      && "reqData" in c && c["reqData"] == Obj(ReqData(req))
      && "watchHtml" in c && c["watchHtml"] == WatchHtml(watch)
      && (key != "reqData" && key != "watchHtml" && key in req.app ==> key in c && c[key] == req.app[key])
      && (key != "reqData" && key != "watchHtml" && key !in req.app && key in context ==> key in c && c[key] == context[key])
  {
  }

  /** What the wrapped `h.view` is called with, and the content type it sets. */
  datatype ViewCall = ViewCall(page: string, context: Object, options: Object, contentType: string)

  /** `options?.layout || 'none'`. */
  function Layout(options: Option<Object>): (r: Value)
    ensures options.Some? && Truthy(Get(options.value, "layout")) ==> r == Get(options.value, "layout")
    ensures !(options.Some? && Truthy(Get(options.value, "layout"))) ==> r == Str("none")
  {
    if options.Some? && Truthy(Get(options.value, "layout")) then Get(options.value, "layout") else Str("none")
  }

  /** The overriding `h.view(page, context = {}, options)`. */
  function ViewOverride(req: ViewRequest, page: string, context: Option<Object>, options: Option<Object>, watch: Option<Value>): ViewCall {
    var extracted := ExtractEjsContext(req, context.GetOr(map[]), watch);
    ViewCall(page, Spread(extracted, map["page" := Str(page), "layout" := Layout(options)]),
             options.GetOr(map[]), "text/html; charset=utf-8")
  }

  /** `page` is always the requested page, `layout` the option or `'none'`, and the content type html. */
  lemma ViewOverrideSpec(req: ViewRequest, page: string, context: Option<Object>, options: Option<Object>, watch: Option<Value>)
    ensures var v := ViewOverride(req, page, context, options, watch);
      && "page" in v.context && v.context["page"] == Str(page)
      && "layout" in v.context && v.context["layout"] == Layout(options)
      && (options.None? ==> v.context["layout"] == Str("none") && v.options == map[])
      && v.contentType == "text/html; charset=utf-8"
      && "reqData" in v.context && v.context["reqData"] == Obj(ReqData(req))
  {
  }
}
