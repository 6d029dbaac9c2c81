/**
 * The request logger plugin (src/server/plugins/logger/index.ts): the option
 * checks of `register`, the record `extractRequestData` builds for every
 * response, the stack filter, the records of the other server events, and the
 * `loggable`/`colored` text helpers.
 *
 * Values of the request are JavaScript values (`JsValue.Value`); the filter
 * functions a user supplies are opaque functions over them. Pretty and JSON
 * printing and the clock are outside the model: the time is an input.
 */
module Logger {
  import opened Common
  import opened JsString
  import opened JsValue

  // ---------------------------------------------------------------- options

  /** A per-field filter: the identity default, or a user function. */
  datatype Filter = Identity | UserFilter(apply: Value -> Value)

  function ApplyFilter(f: Filter, v: Value): Value {
    match f
    case Identity => v
    case UserFilter(g) => g(v)
  }

  /** A function-valued option as passed: absent, a function, or any other value. */
  datatype FnOpt = NoFn | Fn(f: Value -> Value) | NotFn(v: Value)

  /** An array-valued option as passed: absent, an array of keys, or any other value. */
  datatype ListOpt = NoList | List(keys: seq<Field>) | NotList(v: Value)

  datatype LoggerOpts = LoggerOpts(
    handler: FnOpt,
    filter: FnOpt,
    queryFilter: FnOpt,
    payloadFilter: FnOpt,
    headersFilter: FnOpt,
    paramsFilter: FnOpt,
    stateFilter: FnOpt,
    omit: ListOpt,
    pick: ListOpt,
    stripStack: Value)

  /** Where log records go: `console.info` unless a handler is given. */
  datatype Handler = ConsoleInfo | UserHandler(f: Value -> Value)

  /**
   * The options `extractRequestData` works with, after registration or after a
   * route's `plugins.logger` settings are laid over them; `None` is `undefined`.
   */
  datatype Filters = Filters(
    queryFilter: Option<Filter>,
    payloadFilter: Option<Filter>,
    paramsFilter: Option<Filter>,
    headersFilter: Option<Filter>,
    stateFilter: Option<Filter>,
    omit: Option<seq<Field>>,
    pick: Option<seq<Field>>,
    stripStack: Value)

  datatype Config = Config(handler: Handler, filters: Filters)

  /** `undefinedOrFunc`: absent or a function. */
  predicate FnOk(o: FnOpt) {
    !o.NotFn?
  }

  /** A per-field filter: its own option, else the generic `filter`, else the identity. */
  function FieldFilter(own: FnOpt, generic: FnOpt): Filter
    requires FnOk(own) && FnOk(generic)
  {
    match own
    case Fn(f) => UserFilter(f)
    case NoFn => if generic.Fn? then UserFilter(generic.f) else Identity
  }

  function ListValue(o: ListOpt): Option<seq<Field>> {
    if o.List? then Some(o.keys) else None
  }

  /** The assertions of `register`, in order; the first that fails throws its message. */
  function Register(opts: LoggerOpts): (r: Result<Config, string>)
    ensures r.Ok? <==>
      && FnOk(opts.handler) && FnOk(opts.filter) && FnOk(opts.queryFilter) && FnOk(opts.payloadFilter)
      && FnOk(opts.headersFilter) && FnOk(opts.paramsFilter) && FnOk(opts.stateFilter)
      && !opts.omit.NotList? && !opts.pick.NotList? && !(opts.omit.List? && opts.pick.List?)
    ensures opts.omit.List? && opts.pick.List? ==> r.Err?
  {
    if !FnOk(opts.handler) then Err("handler must be a function")
    else if !FnOk(opts.filter) then Err("filter must be a function")
    else if !FnOk(opts.queryFilter) then Err("queryFilter must be a function")
    else if !FnOk(opts.payloadFilter) then Err("payloadFilter must be a function")
    else if !FnOk(opts.headersFilter) then Err("headersFilter must be a function")
    else if !FnOk(opts.paramsFilter) then Err("paramsFilter must be a function")
    else if !FnOk(opts.stateFilter) then Err("stateFilter must be a function")
    else if opts.omit.NotList? then Err("omit must be an array")
    else if opts.pick.NotList? then Err("pick must be an array")
    else if opts.omit.List? && opts.pick.List? then Err("omit and pick cannot be used together")
    else
      var handler := if opts.handler.Fn? then UserHandler(opts.handler.f) else ConsoleInfo;
      Ok(Config(handler, Filters(
        Some(FieldFilter(opts.queryFilter, opts.filter)),
        Some(FieldFilter(opts.payloadFilter, opts.filter)),
        Some(FieldFilter(opts.paramsFilter, opts.filter)),
        Some(FieldFilter(opts.headersFilter, opts.filter)),
        Some(FieldFilter(opts.stateFilter, opts.filter)),
        ListValue(opts.omit), ListValue(opts.pick), opts.stripStack)))
  }

  /** Both lists given is refused, even when they are empty arrays. */
  lemma OmitAndPickExclusive(opts: LoggerOpts)
    requires opts.omit.List? && opts.pick.List? && !opts.handler.NotFn? && !opts.filter.NotFn?
    requires !opts.queryFilter.NotFn? && !opts.payloadFilter.NotFn? && !opts.headersFilter.NotFn?
    requires !opts.paramsFilter.NotFn? && !opts.stateFilter.NotFn?
    ensures Register(opts) == Err("omit and pick cannot be used together")
  {
  }

  /** Every per-field filter is set; each is its own option, else `filter`, else the identity. */
  lemma RegisterDefaultsFilters(opts: LoggerOpts, v: Value)
    requires Register(opts).Ok?
    ensures var f := Register(opts).value.filters;
      && f.queryFilter.Some? && f.payloadFilter.Some? && f.paramsFilter.Some?
      && f.headersFilter.Some? && f.stateFilter.Some?
      && ApplyFilter(f.queryFilter.value, v) ==
         (if opts.queryFilter.Fn? then opts.queryFilter.f(v) else if opts.filter.Fn? then opts.filter.f(v) else v)
      && ApplyFilter(f.stateFilter.value, v) ==
         (if opts.stateFilter.Fn? then opts.stateFilter.f(v) else if opts.filter.Fn? then opts.filter.f(v) else v)
      && f.omit == (if opts.omit.List? then Some(opts.omit.keys) else None)
      && f.pick == (if opts.pick.List? then Some(opts.pick.keys) else None)
  {
  }

  /**
   * `Hoek.applyToDefaults(filters, routeFilters)` on these flat options: a
   * route setting overrides unless it is `null` or `undefined`.
   */
  function ApplyRouteFilters(base: Filters, route: Filters): Filters {
    Filters(
      if route.queryFilter.Some? then route.queryFilter else base.queryFilter,
      if route.payloadFilter.Some? then route.payloadFilter else base.payloadFilter,
      if route.paramsFilter.Some? then route.paramsFilter else base.paramsFilter,
      if route.headersFilter.Some? then route.headersFilter else base.headersFilter,
      if route.stateFilter.Some? then route.stateFilter else base.stateFilter,
      if route.omit.Some? then route.omit else base.omit,
      if route.pick.Some? then route.pick else base.pick,
      if route.stripStack.Undefined? || route.stripStack.Null? then base.stripStack else route.stripStack)
  }

  /** A route without `plugins.logger` settings leaves the registered options as they are. */
  lemma NoRouteSettingsKeepOptions(base: Filters)
    ensures ApplyRouteFilters(base, Filters(None, None, None, None, None, None, None, Undefined)) == base
  {
  }

  // ---------------------------------------------------------------- error classification

  /** The error object a failed response carries (a Boom error). */
  datatype BoomError = BoomError(isBoom: bool, outputStatusCode: int, stack: string, data: Value)

  /** What the classification decides: the logged status code, stack, data and `isError`. */
  datatype Outcome = Outcome(statusCode: Value, stack: Option<string>, data: Value, isError: bool)

  /** `response.statusCode && response.statusCode >= 400`. */
  predicate ErrorStatus(status: Value) {
    Truthy(status) && status.Num? && status.n >= 400
  }

  /**
   * The classification as written: when the response is an error but carries no
   * error object (`_error` is absent), reading `err.stack` throws a TypeError.
   */
  function ClassifyAsWritten(status: Value, err: Option<BoomError>): (r: Result<Outcome, string>)
    ensures r.Err? <==> err.None? && ErrorStatus(status)
  {
    if (err.Some? && err.value.isBoom) || ErrorStatus(status) then
      if err.None? then Err("TypeError")
      else Ok(Outcome(if Truthy(status) then status else Num(err.value.outputStatusCode),
                      Some(err.value.stack), err.value.data, true))
    else Ok(Outcome(status, None, Undefined, false))
  }

  /** A plain 404 response without an error object makes the as-written classification throw. */
  lemma ClassifyAsWrittenThrowsOnPlain404()
    ensures ClassifyAsWritten(Num(404), None).Err?
  {
  }

  /**
   * The classification with the error object read optionally (`err?.stack`,
   * `err?.data`), as the surrounding `err?.isBoom` evidently intends.
   */
  function Classify(status: Value, err: Option<BoomError>): (r: Outcome)
    ensures r.isError <==> (err.Some? && err.value.isBoom) || ErrorStatus(status)
    ensures r.isError && Truthy(status) ==> r.statusCode == status
    ensures r.isError && !Truthy(status) ==> err.Some? && r.statusCode == Num(err.value.outputStatusCode)
    ensures r.isError ==> r.stack == (if err.Some? then Some(err.value.stack) else None)
    ensures !r.isError ==> r == Outcome(status, None, Undefined, false)
  {
    if (err.Some? && err.value.isBoom) || ErrorStatus(status) then
      if err.None? then Outcome(status, None, Undefined, true)
      else Outcome(if Truthy(status) then status else Num(err.value.outputStatusCode),
                   Some(err.value.stack), err.value.data, true)
    else Outcome(status, None, Undefined, false)
  }

  /** Wherever the as-written classification does not throw, the corrected one agrees with it. */
  lemma ClassifyAgreesWhereDefined(status: Value, err: Option<BoomError>)
    ensures ClassifyAsWritten(status, err).Ok? ==> ClassifyAsWritten(status, err).value == Classify(status, err)
    ensures ClassifyAsWritten(status, err).Err? ==> Classify(status, err).isError && Classify(status, err).statusCode == status
  {
  }

  // ---------------------------------------------------------------- stack filtering

  /** The lines that do not mention `node_modules`, in order. */
  function KeepLines(lines: seq<string>): (r: seq<string>)
    ensures |r| <= |lines|
    ensures forall k :: 0 <= k < |r| ==> !Includes(r[k], "node_modules")
    decreases |lines|
  {
    if lines == [] then []
    else if Includes(lines[0], "node_modules") then KeepLines(lines[1..])
    else [lines[0]] + KeepLines(lines[1..])
  }

  /** Every line without `node_modules` is kept. */
  lemma {:induction false} KeepLinesComplete(lines: seq<string>, k: nat)
    requires k < |lines| && !Includes(lines[k], "node_modules")
    ensures lines[k] in KeepLines(lines)
    decreases |lines|
  {
    if k > 0 {
      KeepLinesComplete(lines[1..], k - 1);
    }
  }

  /** Kept lines are lines of the input. */
  lemma {:induction false} KeepLinesSound(lines: seq<string>)
    ensures forall l :: l in KeepLines(lines) ==> l in lines
    decreases |lines|
  {
    if lines != [] {
      KeepLinesSound(lines[1..]);
    }
  }

  /** `stripStack`: drop every stack line that mentions `node_modules`. */
  function StripStack(stack: string): string {
    Join(KeepLines(Split(stack, "\n")), "\n")
  }

  /** The lines of the stripped stack are exactly the kept lines (when at least one is kept). */
  lemma StripStackLines(stack: string)
    requires KeepLines(Split(stack, "\n")) != []
    ensures Split(StripStack(stack), "\n") == KeepLines(Split(stack, "\n"))
    ensures forall l :: l in Split(StripStack(stack), "\n") ==> !Includes(l, "node_modules")
  {
    var lines := Split(stack, "\n");
    var kept := KeepLines(lines);
    forall k | 0 <= k < |kept| ensures '\n' !in kept[k] {
      KeepLinesSound(lines);
      assert kept[k] in kept;
      SplitPartsHaveNoSeparator(stack, '\n', kept[k]);
    }
    SplitJoin(kept, '\n');
  }

  /** No piece of a split holds the separator character. */
  lemma {:induction false} SplitPartsHaveNoSeparator(s: string, c: char, part: string)
    requires part in Split(s, [c])
    ensures c !in part
    decreases |s|
  {
    match IndexOf(s, [c])
    case None =>
      forall j | 0 <= j < |s| ensures s[j] != c {
        assert !OccursAt(s, [c], j);
        assert s[j..j + 1] == [s[j]];
      }
    case Some(i) =>
      if part != s[..i] {
        SplitPartsHaveNoSeparator(s[i + 1..], c, part);
      } else {
        forall j | 0 <= j < i ensures s[j] != c {
          assert !OccursAt(s, [c], j);
          assert s[j..j + 1] == [s[j]];
        }
      }
  }

  /** The logged stack: stripped and trimmed only when the option is on and a stack exists. */
  function StackField(stack: Option<string>, strip: bool): (r: Value)
    ensures stack.None? ==> r == Undefined
    ensures stack.Some? && strip && stack.value != "" ==> r == Str(Trim(StripStack(stack.value)))
    ensures stack.Some? && (!strip || stack.value == "") ==> r == Str(stack.value)
  {
    match stack
    case None => Undefined
    case Some(s) => if strip && s != "" then Str(Trim(StripStack(s))) else Str(s)
  }

  // ---------------------------------------------------------------- the request record

  /** The keys of a log record (the fields of `LogEvent`, and `timestamp` of 'log' events). */
  datatype Field =
    | Time | Type | IsError | Auth | Channel | Completed | Data | Headers | Host | Hostname
    | Ip | Message | Method | Params | Path | Payload | Pre | Query | Received | Referrer
    | RemotePort | Responded | RouteId | RoutePath | State | StatusCode | Tags | Stack | Timestamp

  /** A log record handed to the handler. */
  type Record = map<Field, Value>

  /** `record[key]`: `undefined` when the key is absent. */
  function Lookup(rec: Record, key: Field): Value {
    if key in rec then rec[key] else Undefined
  }

  /** What `extractRequestData` reads from the request; `time` is `Date.now()`. */
  datatype RequestData = RequestData(
    time: int,
    received: Value, completed: Value, hostname: Value, id: Value, remoteAddress: Value,
    responded: Value, referrer: Value, remotePort: Value, host: Value,
    routePath: Value, routeLogger: Filters,
    query: Value, params: Value, payload: Value, headers: Object, state: Value,
    auth: Value, pre: Value, path: Value, verb: Value,
    statusCode: Value, error: Option<BoomError>)

  /** `headers['x-forwarded-for'] || remoteAddress`. */
  function ClientIp(req: RequestData): (r: Value)
    ensures Truthy(Get(req.headers, "x-forwarded-for")) ==> r == Get(req.headers, "x-forwarded-for")
    ensures !Truthy(Get(req.headers, "x-forwarded-for")) ==> r == req.remoteAddress
  {
    var fwd := Get(req.headers, "x-forwarded-for");
    if Truthy(fwd) then fwd else req.remoteAddress
  }

  /** `filters.xFilter?.(value)`. */
  function Filtered(f: Option<Filter>, v: Value): Value {
    if f.Some? then ApplyFilter(f.value, v) else Undefined
  }

  /** The 25 keys of a request record. */
  const RequestFields: set<Field> := {
    Time, Type, Method, Path, RouteId, RoutePath, StatusCode, Hostname, Ip, RemotePort, Host,
    Received, Completed, Responded, Referrer, Query, Params, Payload, Headers, State, Auth, Pre,
    Data, Stack, IsError}

  /** `_log` before any key is omitted, under the corrected classification. */
  function FullRecord(req: RequestData, f: Filters): (r: Record)
    ensures r.Keys == RequestFields
  {
    FullRecordOf(req, f, Classify(req.statusCode, req.error))
  }

  /** `_log` for a given outcome of the classification. */
  function FullRecordOf(req: RequestData, f: Filters, o: Outcome): (r: Record)
    ensures r.Keys == RequestFields
  {
    map[
      Time := Num(req.time), Type := Str("request"), Method := req.verb, Path := req.path,
      RouteId := req.id, RoutePath := req.routePath,
      Hostname := req.hostname, RemotePort := req.remotePort,
      Host := req.host, Received := req.received, Completed := req.completed,
      Responded := req.responded, Referrer := req.referrer,
      Query := Filtered(f.queryFilter, req.query), Params := Filtered(f.paramsFilter, req.params),
      Payload := Filtered(f.payloadFilter, req.payload), Headers := Filtered(f.headersFilter, Obj(req.headers)),
      State := Filtered(f.stateFilter, req.state), Auth := req.auth, Pre := req.pre,
      Data := o.data, StatusCode := o.statusCode, Ip := ClientIp(req),
      Stack := StackField(o.stack, Truthy(f.stripStack)), IsError := Bool(o.isError)]
  }

  /** The record after deleting the keys one by one. */
  function Omitted(rec: Record, keys: seq<Field>): (r: Record)
    ensures forall k :: k in r <==> k in rec && k !in keys
    ensures forall k :: k in r ==> r[k] == rec[k]
    decreases |keys|
  {
    if keys == [] then rec else Omitted(rec, keys[..|keys| - 1]) - {keys[|keys| - 1]}
  }

  /** `picked[key] = _log[key]` for each key, in order (absent keys read as `undefined`). */
  function PickedFields(rec: Record, keys: seq<Field>): (r: Record)
    ensures forall k :: k in r <==> k in keys
    ensures forall k :: k in r ==> r[k] == Lookup(rec, k)
    decreases |keys|
  {
    if keys == [] then map[] else PickedFields(rec, keys[..|keys| - 1])[keys[|keys| - 1] := Lookup(rec, keys[|keys| - 1])]
  }

  /** Omitting, then picking when the pick list is not empty. */
  function Shaped(full: Record, omit: seq<Field>, pick: seq<Field>, isError: bool): Record {
    var omitted := Omitted(full, omit);
    if |pick| != 0 then PickedFields(omitted, pick)[Type := Str("request")][IsError := Bool(isError)]
    else omitted
  }

  /** The two loops of `extractRequestData` over a finished `_log`. */
  method OmitAndPick(full: Record, omit: seq<Field>, pick: seq<Field>, isError: bool) returns (log: Record)
    ensures log == Shaped(full, omit, pick, isError)
  {
    log := full;
    for i := 0 to |omit|
      invariant log == Omitted(full, omit[..i])
    {
      assert omit[..i + 1][..i] == omit[..i];
      log := log - {omit[i]};
    }
    assert omit[..|omit|] == omit;
    if |pick| != 0 {
      var picked: Record := map[];
      for i := 0 to |pick|
        invariant picked == PickedFields(log, pick[..i])
      {
        assert pick[..i + 1][..i] == pick[..i];
        picked := picked[pick[i] := Lookup(log, pick[i])];
      }
      assert pick[..|pick|] == pick;
      picked := picked[Type := Str("request")];
      picked := picked[IsError := Bool(isError)];
      log := picked;
    }
  }

  /** The record `extractRequestData` returns, when it does not throw, for the given (already merged) options. */
  function RequestRecord(req: RequestData, f: Filters): Record {
    Shaped(FullRecord(req, f), f.omit.GetOr([]), f.pick.GetOr([]), Classify(req.statusCode, req.error).isError)
  }

  /**
   * `extractRequestData` as written: lay the route's settings over the options,
   * classify (throwing on an error status without an error object), build
   * `_log`, omit, pick. Where it does not throw, the record is the one the
   * corrected classification specifies.
   */
  method ExtractRequestData(req: RequestData, opts: Filters) returns (r: Result<Record, string>)
    ensures r.Err? <==> req.error.None? && ErrorStatus(req.statusCode)
    ensures r.Ok? ==> r.value == RequestRecord(req, ApplyRouteFilters(opts, req.routeLogger))
  {
    var f := ApplyRouteFilters(opts, req.routeLogger);
    var c := ClassifyAsWritten(req.statusCode, req.error);
    if c.Err? {
      return Err(c.error);
    }
    ClassifyAgreesWhereDefined(req.statusCode, req.error);
    var full := FullRecordOf(req, f, c.value);
    var log := OmitAndPick(full, f.omit.GetOr([]), f.pick.GetOr([]), c.value.isError);
    r := Ok(log);
  }

  /** Every omitted key is absent; without a pick list every other key of the full record is kept. */
  lemma OmittedKeysAbsent(full: Record, omit: seq<Field>, isError: bool)
    ensures var r := Shaped(full, omit, [], isError);
      && (forall k :: k in omit ==> k !in r)
      && (forall k :: k in full && k !in omit ==> k in r && r[k] == full[k])
  {
  }

  /** With a non-empty pick list the record has exactly the picked keys plus `type` and `isError`. */
  lemma PickedKeysExactly(full: Record, omit: seq<Field>, pick: seq<Field>, isError: bool)
    requires pick != []
    ensures var r := Shaped(full, omit, pick, isError);
      && (forall k :: k in r <==> k in pick || k == Type || k == IsError)
      && r[Type] == Str("request")
      && r[IsError] == Bool(isError)
      && (forall k :: k in pick && k != Type && k != IsError ==>
            r[k] == (if k in full && k !in omit then full[k] else Undefined))
  {
  }

  /**
   * Omitting a key that is then picked gives `undefined` for it, and picking a
   * key a request record does not have (such as `message`) gives `undefined` too.
   */
  lemma PickAfterOmitIsUndefined(req: RequestData, f: Filters, k: Field)
    requires f.pick.Some? && k in f.pick.value && k != Type && k != IsError
    requires (f.omit.Some? && k in f.omit.value) || k !in RequestFields
    ensures k in RequestRecord(req, f) && RequestRecord(req, f)[k] == Undefined
  {
    PickedKeysExactly(FullRecord(req, f), f.omit.GetOr([]), f.pick.value, Classify(req.statusCode, req.error).isError);
  }

  /** The fields of `_log` that the classification and the headers decide. */
  lemma FullRecordAt(req: RequestData, f: Filters)
    ensures var r := FullRecord(req, f);
      var o := Classify(req.statusCode, req.error);
      && r[IsError] == Bool(o.isError) && r[StatusCode] == o.statusCode
      && r[Stack] == StackField(o.stack, Truthy(f.stripStack)) && r[Ip] == ClientIp(req)
  {
  }

  /** The classification, the address and the stack as a request record holds them. */
  lemma RequestRecordFields(req: RequestData, f: Filters)
    requires f.omit.None? && f.pick.None?
    ensures var r := RequestRecord(req, f);
      && r[IsError] == Bool((req.error.Some? && req.error.value.isBoom) || ErrorStatus(req.statusCode))
      && r[Ip] == (if Truthy(Get(req.headers, "x-forwarded-for")) then Get(req.headers, "x-forwarded-for") else req.remoteAddress)
      && (req.error.Some? && req.error.value.isBoom && Truthy(f.stripStack) && req.error.value.stack != "" ==>
            r[Stack] == Str(Trim(StripStack(req.error.value.stack))))
      && (req.error.Some? && req.error.value.isBoom && !Truthy(f.stripStack) ==> r[Stack] == Str(req.error.value.stack))
      && (!req.error.Some? && !ErrorStatus(req.statusCode) ==> r[Stack] == Undefined && r[StatusCode] == req.statusCode)
  {
    var full := FullRecord(req, f);
    assert RequestRecord(req, f) == full by {
      assert Omitted(full, []) == full;
    }
    FullRecordAt(req, f);
  }

  // ---------------------------------------------------------------- other events

  /** The record of a server 'log' event; `error` is the message of the error it carries. */
  function LogEventRecord(error: Option<string>, timestamp: Value, channel: Value, data: Value, tags: seq<string>): (r: Record)
    ensures Type in r && r[Type] == (if error.Some? then Str("error") else Str("log"))
    ensures Message in r && r[Message] == (if error.Some? then Str(error.value) else Undefined)
    ensures Tags in r && r[Tags] == Str(Join(tags, ", "))
    ensures IsError !in r && Time !in r
  {
    map[Type := if error.Some? then Str("error") else Str("log"),
        Message := if error.Some? then Str(error.value) else Undefined,
        Timestamp := timestamp, Channel := channel, Tags := Str(Join(tags, ", ")), Data := data]
  }

  /** The records of the 'start', 'stop' and 'route' events. */
  function StartRecord(uri: string, time: int): (r: Record)
    ensures r.Keys == {Type, Message, Time} && r[Type] == Str("server")
    ensures r[Message] == Str("Server started on " + uri)
  {
    map[Type := Str("server"), Message := Str("Server started on " + uri), Time := Num(time)]
  }

  function StopRecord(time: int): (r: Record)
    ensures r.Keys == {Type, Message, Time} && r[Type] == Str("server")
  {
    map[Type := Str("server"), Message := Str("Server stopped"), Time := Num(time)]
  }

  function RouteRecord(path: Value, verb: Value, auth: Value, time: int): (r: Record)
    ensures r.Keys == {Type, Message, Time, Path, Method, Auth} && r[Type] == Str("route")
  {
    map[Type := Str("route"), Message := Str("Route added"), Time := Num(time),
        Path := path, Method := verb, Auth := auth]
  }

  // ---------------------------------------------------------------- text helpers

  /** `txt.filter(Boolean)`. */
  function TruthyOnly(parts: seq<Value>): (r: seq<Value>)
    ensures |r| <= |parts|
    ensures forall k :: 0 <= k < |r| ==> Truthy(r[k])
    decreases |parts|
  {
    if parts == [] then []
    else if Truthy(parts[0]) then [parts[0]] + TruthyOnly(parts[1..])
    else TruthyOnly(parts[1..])
  }

  /** `String(x)` of each part. */
  function Texts(parts: seq<Value>): (r: seq<string>)
    ensures |r| == |parts| && forall k :: 0 <= k < |parts| ==> r[k] == ToString(parts[k])
    decreases |parts|
  {
    if parts == [] then [] else [ToString(parts[0])] + Texts(parts[1..])
  }

  /** `loggable(...txt)`: drop the falsy parts and join the rest with single spaces. */
  function Loggable(parts: seq<Value>): string {
    Join(Texts(TruthyOnly(parts)), " ")
  }

  /** Falsy parts make no difference, wherever they stand. */
  lemma {:induction false} LoggableIgnoresFalsy(a: seq<Value>, x: Value, b: seq<Value>)
    requires !Truthy(x)
    ensures Loggable(a + [x] + b) == Loggable(a + b)
    decreases |a|
  {
    TruthyOnlyAppend(a, [x] + b);
    TruthyOnlyAppend(a, b);
    assert a + [x] + b == a + ([x] + b);
    assert ([x] + b)[1..] == b;
  }

  lemma {:induction false} TruthyOnlyAppend(a: seq<Value>, b: seq<Value>)
    ensures TruthyOnly(a + b) == TruthyOnly(a) + TruthyOnly(b)
    decreases |a|
  {
    if a == [] {
      assert a + b == b;
    } else {
      TruthyOnlyAppend(a[1..], b);
      assert (a + b)[0] == a[0];
      assert (a + b)[1..] == a[1..] + b;
    }
  }

  /** Two truthy parts are joined by one space. */
  lemma LoggableTwo(x: Value, y: Value)
    requires Truthy(x) && Truthy(y)
    ensures Loggable([x, y]) == ToString(x) + " " + ToString(y)
  {
    assert [x, y][1..] == [y];
    assert TruthyOnly([y]) == [y];
    assert TruthyOnly([x, y]) == [x, y];
    assert Texts([x, y]) == [ToString(x), ToString(y)];
    assert Join([ToString(x), ToString(y)], " ") == ToString(x) + " " + Join([ToString(y)], " ");
  }

  const Reset: string := "\U{1B}[0m"

  /** `rgb(r, g, b)`: a 24-bit foreground colour escape. */
  function Rgb(r: nat, g: nat, b: nat): string {
    "\U{1B}[38;2;" + NatToString(r) + ";" + NatToString(g) + ";" + NatToString(b) + "m"
  }

  /**
   * `colored(color)(...txt)`: the arguments reach `loggable` as ONE array, so
   * the text is that array's string, its elements joined by commas with `null`
   * and `undefined` empty; empty text gives `''`.
   */
  function Colored(color: string, args: seq<Value>): string {
    var msg := Loggable([Arr(args)]);
    if msg == "" then "" else color + msg + Reset
  }

  /** The text of `colored` is the comma-joined arguments, not the space-joined ones. */
  lemma ColoredText(color: string, args: seq<Value>)
    ensures var msg := ToString(Arr(args));
      Colored(color, args) == if msg == "" then "" else color + msg + Reset
  {
    assert TruthyOnly([Arr(args)]) == [Arr(args)];
  }

  /** Two words are joined by a comma, and `undefined` alone colours nothing. */
  lemma ColoredExamples(color: string)
    ensures Colored(color, [Str("a"), Str("b")]) == color + "a,b" + Reset
    ensures Colored(color, [Undefined]) == ""
  {
    var w := Arr([Str("a"), Str("b")]);
    assert ArrayJoin([Str("a"), Str("b")][1..], w) == "b";
    assert ToString(w) == "a,b";
    ColoredText(color, [Str("a"), Str("b")]);
    assert [Str("a"), Str("b")][1..] == [Str("b")];
    ColoredText(color, [Undefined]);
  }
}
