/**
 * The hapi helpers of src/server/helpers/hapi.ts: `dependencyInjectServer`,
 * which resolves configuration units that need the server, and
 * `registerMethods`, which validates a list of server method configurations
 * as a whole and then registers them one after another.
 */
module HapiHelpers {
  import opened Common
  import opened JsValue

  /** A configuration unit: a plain value, or a function of the server. */
  datatype Thing<!S, T> = Plain(v: T) | ServerFn(f: S -> T)

  /** What one unit resolves to. */
  function Resolve<S, T>(server: S, thing: Thing<S, T>): T {
    match thing
    case Plain(v) => v
    case ServerFn(f) => f(server)
  }

  /**
   * `dependencyInjectServer(server, things)`: `Promise.all` over the units,
   * functions called with the server and everything else passed through,
   * results in the order of the units.
   */
  function DependencyInjectServer<S, T>(server: S, things: seq<Thing<S, T>>): (r: seq<T>)
    ensures |r| == |things|
    ensures forall i :: 0 <= i < |things| && things[i].Plain? ==> r[i] == things[i].v
    ensures forall i :: 0 <= i < |things| && things[i].ServerFn? ==> r[i] == things[i].f(server)
    decreases |things|
  {
    if things == [] then [] else [Resolve(server, things[0])] + DependencyInjectServer(server, things[1..])
  }

  /** Resolving a concatenation resolves each part. */
  lemma DependencyInjectAppend<S, T>(server: S, a: seq<Thing<S, T>>, b: seq<Thing<S, T>>)
    ensures DependencyInjectServer(server, a + b) == DependencyInjectServer(server, a) + DependencyInjectServer(server, b)
  {
    var whole := DependencyInjectServer(server, a + b);
    var parts := DependencyInjectServer(server, a) + DependencyInjectServer(server, b);
    forall i | 0 <= i < |whole| ensures whole[i] == parts[i] {
      if i < |a| {
        assert (a + b)[i] == a[i];
      } else {
        assert (a + b)[i] == b[i - |a|];
      }
    }
  }

  /** Results that are not functions, passed in again as plain values, come back unchanged. */
  lemma DependencyInjectIdempotent<S, T>(server: S, things: seq<Thing<S, T>>)
    ensures var once := DependencyInjectServer(server, things);
      DependencyInjectServer(server, seq(|once|, i requires 0 <= i < |once| => Plain(once[i]))) == once
  {
  }

  // ------------------------------------------------------------ registerMethods

  /** A property of a method configuration: absent, a function (by identity) or another value. */
  datatype Arg = Absent | Func(id: nat) | Val(v: Value)

  /** One array item: an object with the three known keys and the names of any others, or not an object. */
  datatype MethodConfig =
    | Config(name: Arg, fn: Arg, options: Arg, unknownKeys: seq<string>)
    | NotAnObject(item: Arg)

  /** Why `Joi.assert` rejects an item. */
  datatype Reason =
    | ItemNotObject
    | NameRequired | NameNotString | NameEmpty
    | MethodRequired | MethodNotFunction
    | OptionsNotObject
    | KeyNotAllowed(key: string)

  /** The first failure, with the index of the item that failed. */
  datatype ValidationError = ValidationError(index: nat, reason: Reason)

  /** `Joi.string().required()`: a non-empty string. */
  function CheckName(a: Arg): Option<Reason> {
    match a
    case Absent => Some(NameRequired)
    case Val(Undefined) => Some(NameRequired)
    case Val(Str(s)) => if s == "" then Some(NameEmpty) else None
    case _ => Some(NameNotString)
  }

  /** `Joi.func().required()`. */
  function CheckMethod(a: Arg): Option<Reason> {
    match a
    case Absent => Some(MethodRequired)
    case Val(Undefined) => Some(MethodRequired)
    case Func(_) => None
    case _ => Some(MethodNotFunction)
  }

  /** `Joi.object()`, optional. */
  function CheckOptions(a: Arg): Option<Reason> {
    match a
    case Absent => None
    case Val(Undefined) => None
    case Val(Obj(_)) => None
    case _ => Some(OptionsNotObject)
  }

  /** `methodSchema` on one item: the keys in schema order, then unknown keys. */
  function CheckItem(c: MethodConfig): (r: Option<Reason>)
    ensures r.None? <==> c.Config? && CheckName(c.name).None? && CheckMethod(c.fn).None?
                         && CheckOptions(c.options).None? && c.unknownKeys == []
  {
    match c
    case NotAnObject(_) => Some(ItemNotObject)
    case Config(name, fn, options, unknownKeys) =>
      if CheckName(name).Some? then CheckName(name)
      else if CheckMethod(fn).Some? then CheckMethod(fn)
      else if CheckOptions(options).Some? then CheckOptions(options)
      else if unknownKeys != [] then Some(KeyNotAllowed(unknownKeys[0]))
      else None
  }

  /** A valid item: a non-empty name, a function, and an object or nothing as options. */
  predicate ValidItem(c: MethodConfig) {
    && c.Config?
    && c.name.Val? && c.name.v.Str? && c.name.v.s != ""
    && c.fn.Func?
    && (c.options.Absent? || c.options == Val(Undefined) || (c.options.Val? && c.options.v.Obj?))
    && c.unknownKeys == []
  }

  lemma CheckItemIsValidItem(c: MethodConfig)
    ensures CheckItem(c).None? <==> ValidItem(c)
  {
  }

  /** `Joi.assert(methods, Joi.array().items(methodSchema))`: the first failing item, scanning from `from`. */
  function Validate(items: seq<MethodConfig>, from: nat): (r: Option<ValidationError>)
    requires from <= |items|
    ensures r.None? <==> forall i :: from <= i < |items| ==> CheckItem(items[i]).None?
    ensures r.Some? ==> from <= r.value.index < |items| && CheckItem(items[r.value.index]) == Some(r.value.reason)
                        && forall i :: from <= i < r.value.index ==> CheckItem(items[i]).None?
    decreases |items| - from
  {
    if from == |items| then None
    else if CheckItem(items[from]).Some? then Some(ValidationError(from, CheckItem(items[from]).value))
    else Validate(items, from + 1)
  }

  /** What `server.method(name, method, options)` records. */
  datatype Registration = Registration(name: string, fn: nat, options: Object)

  function RegistrationOf(c: MethodConfig): Registration
    requires ValidItem(c)
  {
    Registration(c.name.v.s, c.fn.id, if c.options.Val? && c.options.v.Obj? then c.options.v.fields else map[])
  }

  /** The registrations of valid items, in order. */
  function Registrations(items: seq<MethodConfig>): (r: seq<Registration>)
    requires forall i :: 0 <= i < |items| ==> ValidItem(items[i])
    ensures |r| == |items|
    ensures forall i :: 0 <= i < |items| ==> ValidItem(items[i]) && r[i].name == items[i].name.v.s && r[i].fn == items[i].fn.id
    decreases |items|
  {
    if items == [] then [] else
      Registrations(items[..|items| - 1]) + [RegistrationOf(items[|items| - 1])]
  }

  /** The server's method table: registrations in the order they were made. */
  class ServerMethods {
    var registered: seq<Registration>

    constructor ()
      ensures registered == []
    {
      registered := [];
    }

    /** `server.method(name, method, options)`. */
    method Add(r: Registration)
      modifies this
      ensures registered == old(registered) + [r]
    {
      registered := registered + [r];
    }

    /**
     * `registerMethods(server, methods)`: nothing is registered unless every
     * item is valid; then every item is registered, in order.
     */
    method RegisterMethods(items: seq<MethodConfig>) returns (err: Option<ValidationError>)
      modifies this
      ensures err == Validate(items, 0)
      ensures err.Some? ==> registered == old(registered)
      ensures err.None? ==> (forall i :: 0 <= i < |items| ==> ValidItem(items[i]))
                            && registered == old(registered) + Registrations(items)
    {
      err := Validate(items, 0);
      if err.Some? {
        return;
      }
      forall i | 0 <= i < |items| ensures ValidItem(items[i]) {
        CheckItemIsValidItem(items[i]);
      }
      var i := 0;
      while i < |items|
        invariant 0 <= i <= |items|
        invariant registered == old(registered) + Registrations(items[..i])
      {
        assert items[..i + 1][..i] == items[..i];
        Add(RegistrationOf(items[i]));
        i := i + 1;
      }
      assert items[..|items|] == items;
    }
  }

  /** One bad item anywhere rejects the whole list. */
  lemma {:induction false} OneBadItemRejectsAll(items: seq<MethodConfig>, k: nat)
    requires k < |items| && !ValidItem(items[k])
    ensures Validate(items, 0).Some? && Validate(items, 0).value.index <= k
  {
    CheckItemIsValidItem(items[k]);
  }
}
