/**
 * The development watcher of scripts/watch.ts: the file-change listener and its
 * debounced router, the backend port guard, the console command dispatcher and
 * the reload hub's message handler.
 *
 * Restarts are recorded as `Spawn` actions carrying the arguments of the
 * `spawnAndReload` call; the process table that serves them is the
 * `ProcessTable` module. The websocket hub, timers, the port probe and the
 * shell are outside the model: `publish`, `killPort`, `process.exit` and the
 * help text become recorded actions, and probe outcomes are an input.
 */
module Watch {
  import opened Common
  import opened JsString
  import opened EnvFile
  import PT = ProcessTable

  /** The synonym lists of `inputStrings` (scripts/_helpers.ts). */
  const RestartWords: seq<string> := ["rs", "reload", "restart"]
  const ServerWords: seq<string> := ["server", "srv", "s"]
  const ClientWords: seq<string> := ["client", "cl", "c"]
  const QuitWords: seq<string> := ["q", "quit", "exit"]

  /** No word belongs to two lists, so the order of the checks never decides a match. */
  lemma SynonymListsDisjoint()
    ensures forall w :: w in RestartWords ==> w !in ServerWords && w !in ClientWords && w !in QuitWords
    ensures forall w :: w in ServerWords ==> w !in ClientWords && w !in QuitWords
    ensures forall w :: w in ClientWords ==> w !in QuitWords
  {
  }

  /** The shell command of `killPort(port)`. */
  function KillPortCommand(port: nat): string {
    "kill -9 $(lsof -t -i:" + NatToString(port) + ")"
  }

  /** The port can be read back from the command: distinct ports give distinct commands. */
  lemma {:induction false} KillPortCommandNamesPort(port: nat)
    ensures var c := KillPortCommand(port);
      |c| == 22 + |NatToString(port)| && c[..21] == "kill -9 $(lsof -t -i:" && c[|c| - 1] == ')'
      && forall k :: 21 <= k < |c| - 1 ==> IsDigit(c[k])
    ensures DigitsValue(KillPortCommand(port)[21..|KillPortCommand(port)| - 1]) == port
  {
    var c := KillPortCommand(port);
    var d := NatToString(port);
    assert c[21..|c| - 1] == d;
    DigitsValueOfNatToString(port);
  }

  /** What the watcher asks of the outside world. */
  datatype Action =
    | Spawn(key: PT.Key, command: string, opts: PT.HookOpts)  // spawnAndReload(key, command, opts)
    | KillPort(port: string)                                   // killPort(Number(port))
    | Publish                                                  // watchServer.publish('/', { reload: true })
    | Exit(code: int)                                          // process.exit(code)
    | ShowHelp                                                 // log(helpText())

  const ServerRestart := Spawn(PT.Server, "run server", PT.HookOpts(None, None, None))
  const GuardedServerRestart := Spawn(PT.Server, "run server", PT.HookOpts(Some(PT.PortGuard), None, None))
  const ClientRestart := Spawn(PT.Client, "client", PT.HookOpts(None, None, Some(PT.Reload)))

  /**
   * The watcher's state: the `changed` set (a `null` file name is added as
   * such), the label of the pending debounced call, `debugMode`, `process.env`,
   * the text of the `.env` file, and the actions so far.
   */
  datatype WatchState = WatchState(
    changed: set<Option<string>>,
    pending: Option<string>,
    debugMode: bool,
    env: map<string, string>,
    envFile: string,
    actions: seq<Action>)

  // ---------------------------------------------------------------- change listener

  /** The listener of one watched directory, called with the changed file name. */
  function ListenerStep(st: WatchState, from: string, filename: Option<string>): WatchState {
    if filename.Some? && Includes(filename.value, "assets/build") then st
    else st.(changed := st.changed + {filename}, pending := Some(from))
  }

  /** The restarts `enactChanges(from)` asks for. */
  function Routes(from: string): (r: seq<Action>)
    ensures GuardedServerRestart in r <==> Includes(from, "server") || Includes(from, "docs") || Includes(from, "views")
    ensures ClientRestart in r <==> Includes(from, "client")
    ensures |r| <= 2 && forall a :: a in r ==> a == GuardedServerRestart || a == ClientRestart
    ensures |r| == 2 ==> r == [GuardedServerRestart, ClientRestart]
  {
    (if Includes(from, "server") || Includes(from, "docs") || Includes(from, "views") then [GuardedServerRestart] else [])
    + (if Includes(from, "client") then [ClientRestart] else [])
  }

  /** The debounce timer fires: the last label passed wins; `changed` is emptied. */
  function FlushStep(st: WatchState): WatchState {
    match st.pending
    case None => st
    case Some(from) => st.(pending := None, actions := st.actions + Routes(from), changed := {})
  }

  /** The hub's `onMessage`: a backend hello triggers a reload; a browser hello is only logged. */
  function MessageStep(st: WatchState, server: bool, browser: bool): WatchState {
    if server then st.(actions := st.actions + [Publish]) else st
  }

  /** A change under `assets/build` is ignored entirely. */
  lemma BuildOutputIgnored(st: WatchState, from: string, name: string)
    requires Includes(name, "assets/build")
    ensures ListenerStep(st, from, Some(name)) == st
  {
  }

  /** Any other change, including one without a file name, is recorded and arms the router for its label. */
  lemma OtherChangesRecorded(st: WatchState, from: string, filename: Option<string>)
    requires filename.None? || !Includes(filename.value, "assets/build")
    ensures var next := ListenerStep(st, from, filename);
      && next.changed == st.changed + {filename}
      && next.pending == Some(from)
      && next.actions == st.actions && next.env == st.env
  {
  }

  /** The four watched labels: server, docs and views restart the guarded server, client the client. */
  lemma WatchedLabelsRoute()
    ensures Routes("server") == [GuardedServerRestart]
    ensures Routes("docs") == [GuardedServerRestart]
    ensures Routes("views") == [GuardedServerRestart]
    ensures Routes("client") == [ClientRestart]
  {
    ServerLabelRoute();
    DocsLabelRoute();
    ViewsLabelRoute();
    ClientLabelRoute();
  }

  lemma ServerLabelRoute()
    ensures Routes("server") == [GuardedServerRestart]
  {
    assert OccursAt("server", "server", 0);
    NoLongerMatch("server", "client");
  }

  lemma DocsLabelRoute()
    ensures Routes("docs") == [GuardedServerRestart]
  {
    assert OccursAt("docs", "docs", 0);
    NoLongerMatch("docs", "client");
  }

  lemma ViewsLabelRoute()
    ensures Routes("views") == [GuardedServerRestart]
  {
    assert OccursAt("views", "views", 0);
    NoLongerMatch("views", "client");
  }

  lemma ClientLabelRoute()
    ensures Routes("client") == [ClientRestart]
  {
    assert OccursAt("client", "client", 0);
    NoLongerMatch("client", "server");
    MissingChar("client", "docs", 'd');
    MissingChar("client", "views", 'v');
  }

  /** A text lacking one of the pattern's characters does not contain the pattern. */
  lemma MissingChar(s: string, p: string, c: char)
    requires c in p && c !in s
    ensures !Includes(s, p)
  {
    var m :| 0 <= m < |p| && p[m] == c;
    forall j: nat ensures !OccursAt(s, p, j) {
      if j + |p| <= |s| {
        assert s[j..j + |p|][m] == s[j + m];
        assert s[j + m] in s;
      }
    }
  }

  /** A text of the same or smaller length that differs from the pattern does not contain it. */
  lemma NoLongerMatch(s: string, p: string)
    requires |s| <= |p| && s != p
    ensures !Includes(s, p)
  {
    forall j: nat ensures !OccursAt(s, p, j) {
      if j + |p| <= |s| {
        assert j == 0 && |s| == |p| && s[0..|p|] == s;
      }
    }
  }

  /** The router empties `changed` and appends exactly the routed restarts. */
  lemma FlushRoutesAndClears(st: WatchState)
    requires st.pending.Some?
    ensures var next := FlushStep(st);
      && next.changed == {} && next.pending.None?
      && |next.actions| >= |st.actions| && next.actions[..|st.actions|] == st.actions
      && next.actions[|st.actions|..] == Routes(st.pending.value)
  {
  }

  lemma MessagePublishesOnServerOnly(st: WatchState, server: bool, browser: bool)
    ensures MessageStep(st, server, browser).actions == if server then st.actions + [Publish] else st.actions
    ensures MessageStep(st, server, browser).changed == st.changed
  {
  }

  // ---------------------------------------------------------------- port guard

  /** What the guard does: probe the port, wait, or reclaim it. */
  datatype GuardStep = Probe(attempt: nat) | Wait(ms: nat) | Reclaim(port: string)

  /** `process.env.APP_PORT` when it is truthy. */
  function AppPort(env: map<string, string>): Option<string> {
    if "APP_PORT" in env && env["APP_PORT"] != "" then Some(env["APP_PORT"]) else None
  }

  /**
   * `beforeSpawn(attempt)`: with a port set, attempts 0..3 probe it and stop as
   * soon as it is free, waiting 1000 ms after each occupied probe; attempt 4
   * kills whatever holds the port and waits 500 ms.
   */
  function Guard(env: map<string, string>, occupied: nat -> bool, attempt: nat): seq<GuardStep>
    decreases if attempt > 3 then 0 else 4 - attempt
  {
    if AppPort(env).None? then []
    else if attempt > 3 then [Reclaim(AppPort(env).value), Wait(500)]
    else if occupied(attempt) then [Probe(attempt), Wait(1000)] + Guard(env, occupied, attempt + 1)
    else [Probe(attempt)]
  }

  /** The guard run with its attempt counter, as a loop. */
  method RunPortGuard(env: map<string, string>, occupied: nat -> bool) returns (trace: seq<GuardStep>)
    ensures trace == Guard(env, occupied, 0)
  {
    trace := [];
    if AppPort(env).None? {
      return;
    }
    var attempt := 0;
    var free := false;
    while attempt <= 3 && !free
      invariant attempt <= 4
      invariant free ==> trace == Guard(env, occupied, 0)
      invariant !free ==> trace + Guard(env, occupied, attempt) == Guard(env, occupied, 0)
      decreases 4 - attempt, if free then 0 else 1
    {
      if occupied(attempt) {
        assert Guard(env, occupied, attempt) == [Probe(attempt), Wait(1000)] + Guard(env, occupied, attempt + 1);
        trace := trace + [Probe(attempt), Wait(1000)];
        attempt := attempt + 1;
      } else {
        trace := trace + [Probe(attempt)];
        free := true;
      }
    }
    if !free {
      trace := trace + [Reclaim(AppPort(env).value), Wait(500)];
    }
  }

  /** Without a port the guard returns at once. */
  lemma GuardWithoutPort(env: map<string, string>, occupied: nat -> bool)
    requires "APP_PORT" !in env || env["APP_PORT"] == ""
    ensures Guard(env, occupied, 0) == []
  {
  }

  /** The port is free at attempt `k` (0..3) after `k` occupied probes: `k + 1` probes, no reclaim. */
  lemma {:induction false} GuardStopsWhenFree(env: map<string, string>, occupied: nat -> bool, k: nat, from: nat)
    requires AppPort(env).Some? && from <= k <= 3 && !occupied(k)
    requires forall j :: from <= j < k ==> occupied(j)
    ensures |Guard(env, occupied, from)| == 2 * (k - from) + 1
    ensures forall s :: s in Guard(env, occupied, from) ==> !s.Reclaim?
    ensures Guard(env, occupied, from)[|Guard(env, occupied, from)| - 1] == Probe(k)
    decreases k - from
  {
    if from < k {
      GuardStopsWhenFree(env, occupied, k, from + 1);
    }
  }

  /** Occupied on all four probes: exactly one reclaim, after the fourth wait. */
  lemma GuardReclaimsOnce(env: map<string, string>, occupied: nat -> bool)
    requires AppPort(env).Some? && occupied(0) && occupied(1) && occupied(2) && occupied(3)
    ensures var p := AppPort(env).value;
      Guard(env, occupied, 0) == [Probe(0), Wait(1000), Probe(1), Wait(1000), Probe(2), Wait(1000),
                                  Probe(3), Wait(1000), Reclaim(p), Wait(500)]
  {
  }

  // ---------------------------------------------------------------- console commands

  /** One `killPort` per token, in order. */
  function KillActions(tokens: seq<string>): (r: seq<Action>)
    ensures |r| == |tokens| && forall i :: 0 <= i < |tokens| ==> r[i] == KillPort(tokens[i])
    decreases |tokens|
  {
    if tokens == [] then [] else KillActions(tokens[..|tokens| - 1]) + [KillPort(tokens[|tokens| - 1])]
  }

  /** `process.env[key] = value` for every `KEY=VALUE` token but `NODE_ENV`, in order. */
  function VarsEnv(env: map<string, string>, tokens: seq<string>): map<string, string>
    decreases |tokens|
  {
    if tokens == [] then env
    else
      var prev := VarsEnv(env, tokens[..|tokens| - 1]);
      var e := SplitAssignment(tokens[|tokens| - 1]);
      if e.key == "NODE_ENV" then prev else prev[e.key := e.value]
  }

  /** `newEnvs[key] = value` for the same tokens. */
  function VarsRecord(tokens: seq<string>): seq<Entry>
    decreases |tokens|
  {
    if tokens == [] then []
    else
      var prev := VarsRecord(tokens[..|tokens| - 1]);
      var e := SplitAssignment(tokens[|tokens| - 1]);
      if e.key == "NODE_ENV" then prev else Assign(prev, e.key, e.value)
  }

  /** Token `i` is the last one assigning its key. */
  predicate LastForKey(tokens: seq<string>, i: nat)
    requires i < |tokens|
  {
    forall j :: i < j < |tokens| ==> SplitAssignment(tokens[j]).key != SplitAssignment(tokens[i]).key
  }

  /** A key no token assigns. */
  predicate Untouched(tokens: seq<string>, k: string) {
    forall j :: 0 <= j < |tokens| ==> SplitAssignment(tokens[j]).key != k
  }

  /** `NODE_ENV` is neither set nor changed. */
  lemma {:induction false} VarsEnvKeepsNodeEnv(env: map<string, string>, tokens: seq<string>)
    ensures var r := VarsEnv(env, tokens);
      && ("NODE_ENV" in r <==> "NODE_ENV" in env)
      && ("NODE_ENV" in env ==> r["NODE_ENV"] == env["NODE_ENV"])
    decreases |tokens|
  {
    if tokens != [] {
      VarsEnvKeepsNodeEnv(env, tokens[..|tokens| - 1]);
    }
  }

  /** Keys no token assigns keep their values. */
  lemma {:induction false} VarsEnvKeepsOthers(env: map<string, string>, tokens: seq<string>, k: string)
    requires Untouched(tokens, k)
    ensures var r := VarsEnv(env, tokens);
      (k in r <==> k in env) && (k in env ==> r[k] == env[k])
    decreases |tokens|
  {
    if tokens != [] {
      var init := tokens[..|tokens| - 1];
      assert SplitAssignment(tokens[|tokens| - 1]).key != k;
      assert Untouched(init, k) by {
        forall j | 0 <= j < |init| ensures SplitAssignment(init[j]).key != k {
          assert init[j] == tokens[j];
        }
      }
      VarsEnvKeepsOthers(env, init, k);
    }
  }

  /** Every assigned key other than `NODE_ENV` ends with the value of its last token. */
  lemma VarsEnvLastWins(env: map<string, string>, tokens: seq<string>, i: nat)
    requires i < |tokens| && LastForKey(tokens, i) && SplitAssignment(tokens[i]).key != "NODE_ENV"
    ensures var r := VarsEnv(env, tokens);
      var e := SplitAssignment(tokens[i]);
      e.key in r && r[e.key] == e.value
  {
    LastForKeyAssigned(tokens, i);
    VarsEnvHasLast(env, tokens, SplitAssignment(tokens[i]).key);
  }

  /** The value the last token assigning `k` gives it, if any. */
  function LastAssigned(tokens: seq<string>, k: string): Option<string>
    decreases |tokens|
  {
    if tokens == [] then None
    else
      var e := SplitAssignment(tokens[|tokens| - 1]);
      if e.key == k then Some(e.value) else LastAssigned(tokens[..|tokens| - 1], k)
  }

  /** Token `i`, the last for its key, gives that key its final value. */
  lemma {:induction false} LastForKeyAssigned(tokens: seq<string>, i: nat)
    requires i < |tokens| && LastForKey(tokens, i)
    ensures LastAssigned(tokens, SplitAssignment(tokens[i]).key) == Some(SplitAssignment(tokens[i]).value)
    decreases |tokens|
  {
    var n := |tokens| - 1;
    if i < n {
      LastForKeyInit(tokens, i);
      LastForKeyAssigned(tokens[..n], i);
    }
  }

  /** `process.env` holds the last value assigned to every key but `NODE_ENV`. */
  lemma {:induction false} VarsEnvHasLast(env: map<string, string>, tokens: seq<string>, k: string)
    requires k != "NODE_ENV" && LastAssigned(tokens, k).Some?
    ensures k in VarsEnv(env, tokens) && VarsEnv(env, tokens)[k] == LastAssigned(tokens, k).value
    decreases |tokens|
  {
    var n := |tokens| - 1;
    if SplitAssignment(tokens[n]).key != k {
      VarsEnvHasLast(env, tokens[..n], k);
    }
  }

  /** The record holds the last value assigned to every key but `NODE_ENV`. */
  lemma {:induction false} VarsRecordHasLast(tokens: seq<string>, k: string)
    requires k != "NODE_ENV" && LastAssigned(tokens, k).Some?
    ensures Entry(k, LastAssigned(tokens, k).value) in VarsRecord(tokens)
    decreases |tokens|
  {
    var n := |tokens| - 1;
    if SplitAssignment(tokens[n]).key == k {
      LastTokenRecorded(tokens);
    } else {
      VarsRecordHasLast(tokens[..n], k);
      KeepOtherKey(tokens, Entry(k, LastAssigned(tokens, k).value));
    }
  }

  /** The record passed to `saveEnv`: distinct keys, no `NODE_ENV`, and the last value of every other key. */
  lemma VarsRecordSpec(tokens: seq<string>)
    ensures var r := VarsRecord(tokens);
      && DistinctKeys(r)
      && (forall e :: e in r ==> e.key != "NODE_ENV")
      && (forall i :: 0 <= i < |tokens| && LastForKey(tokens, i) && SplitAssignment(tokens[i]).key != "NODE_ENV" ==>
            SplitAssignment(tokens[i]) in r)
  {
    VarsRecordShape(tokens);
    forall i | 0 <= i < |tokens| && LastForKey(tokens, i) && SplitAssignment(tokens[i]).key != "NODE_ENV"
      ensures SplitAssignment(tokens[i]) in VarsRecord(tokens)
    {
      VarsRecordLastWins(tokens, i);
    }
  }

  /** The record has distinct keys and never `NODE_ENV`. */
  lemma {:induction false} VarsRecordShape(tokens: seq<string>)
    ensures DistinctKeys(VarsRecord(tokens))
    ensures forall e :: e in VarsRecord(tokens) ==> e.key != "NODE_ENV"
    decreases |tokens|
  {
    if tokens != [] {
      var n := |tokens| - 1;
      var prev := VarsRecord(tokens[..n]);
      VarsRecordShape(tokens[..n]);
      var e := SplitAssignment(tokens[n]);
      if e.key != "NODE_ENV" {
        AssignKeepsKeysDistinct(prev, e.key, e.value);
      }
    }
  }

  /** The last token assigning a key other than `NODE_ENV` is in the record. */
  lemma VarsRecordLastWins(tokens: seq<string>, i: nat)
    requires i < |tokens| && LastForKey(tokens, i) && SplitAssignment(tokens[i]).key != "NODE_ENV"
    ensures SplitAssignment(tokens[i]) in VarsRecord(tokens)
  {
    var e := SplitAssignment(tokens[i]);
    LastForKeyAssigned(tokens, i);
    VarsRecordHasLast(tokens, e.key);
    assert Entry(e.key, e.value) == e;
  }

  /** Token `i` stays the last for its key once the last token, which assigns another key, is dropped. */
  lemma LastForKeyInit(tokens: seq<string>, i: nat)
    requires i < |tokens| - 1 && LastForKey(tokens, i)
    ensures var init := tokens[..|tokens| - 1];
      init[i] == tokens[i] && LastForKey(init, i)
      && SplitAssignment(tokens[|tokens| - 1]).key != SplitAssignment(tokens[i]).key
  {
    var init := tokens[..|tokens| - 1];
    forall j | i < j < |init| ensures SplitAssignment(init[j]).key != SplitAssignment(init[i]).key {
      assert init[j] == tokens[j];
    }
  }

  /** The last token, when it assigns a key other than `NODE_ENV`, is in the record. */
  lemma LastTokenRecorded(tokens: seq<string>)
    requires tokens != [] && SplitAssignment(tokens[|tokens| - 1]).key != "NODE_ENV"
    ensures SplitAssignment(tokens[|tokens| - 1]) in VarsRecord(tokens)
  {
    var e := SplitAssignment(tokens[|tokens| - 1]);
    assert VarsRecord(tokens) == Assign(VarsRecord(tokens[..|tokens| - 1]), e.key, e.value);
    assert Entry(e.key, e.value) == e;
  }

  /** The last token leaves every entry of another key in the record. */
  lemma KeepOtherKey(tokens: seq<string>, e: Entry)
    requires tokens != [] && e in VarsRecord(tokens[..|tokens| - 1])
    requires SplitAssignment(tokens[|tokens| - 1]).key != e.key
    ensures e in VarsRecord(tokens)
  {
  }

  /** `debug`: flip the flag, set `DEBUG` to `''` when it becomes true and `'*'` otherwise, restart the server. */
  function DebugStep(st: WatchState): WatchState {
    var mode := !st.debugMode;
    st.(debugMode := mode, env := st.env["DEBUG" := if mode then "" else "*"], actions := st.actions + [ServerRestart])
  }

  /** `var KEY=VALUE ...`: set the variables, save them, restart both workers. */
  function VarStep(st: WatchState, tokens: seq<string>): WatchState {
    st.(env := VarsEnv(st.env, tokens),
        envFile := SaveEnv(st.envFile, VarsRecord(tokens)),
        actions := st.actions + [ServerRestart, ClientRestart])
  }

  /** The tokens after the first space-separated one. */
  function Arguments(cmd: string): seq<string> {
    Split(cmd, " ")[1..]
  }

  /** The stdin handler for one chunk of input: the trimmed text is the command. */
  function InputStep(st: WatchState, data: string): WatchState {
    CommandStep(st, Trim(data))
  }

  /** The checks of the handler, in source order, on the trimmed command. */
  function CommandStep(st: WatchState, cmd: string): WatchState {
    if cmd in RestartWords then st.(actions := st.actions + [ServerRestart, ClientRestart])
    else if cmd in ServerWords then st.(actions := st.actions + [ServerRestart])
    else if cmd in ClientWords then st.(actions := st.actions + [ClientRestart])
    else if cmd in QuitWords then st.(actions := st.actions + [Exit(0)])
    else BranchStep(st, cmd)
  }

  /** After the synonyms, the `kill`, `var`, `debug` and `help` checks, none of which returns. */
  function BranchStep(st: WatchState, cmd: string): WatchState {
    var s1 := KillStep(st, cmd);
    var s2 := if Includes(cmd, "var") then VarStep(s1, Arguments(cmd)) else s1;
    var s3 := if cmd == "debug" then DebugStep(s2) else s2;
    if cmd == "help" then s3.(actions := s3.actions + [ShowHelp]) else s3
  }

  /** The `kill` check. */
  function KillStep(st: WatchState, cmd: string): WatchState {
    if Includes(cmd, "kill") then st.(actions := st.actions + KillActions(Arguments(cmd))) else st
  }

  /** No synonym, and neither `kill` nor `var`. */
  predicate NoSynonym(cmd: string) {
    cmd !in RestartWords && cmd !in ServerWords && cmd !in ClientWords && cmd !in QuitWords
  }

  /** A synonym matches exactly, acts, and returns before any later check. */
  lemma SynonymCommands(st: WatchState, cmd: string)
    ensures cmd in RestartWords ==> CommandStep(st, cmd) == st.(actions := st.actions + [ServerRestart, ClientRestart])
    ensures cmd in ServerWords ==> CommandStep(st, cmd) == st.(actions := st.actions + [ServerRestart])
    ensures cmd in ClientWords ==> CommandStep(st, cmd) == st.(actions := st.actions + [ClientRestart])
    ensures cmd in QuitWords ==> CommandStep(st, cmd) == st.(actions := st.actions + [Exit(0)])
  {
    SynonymListsDisjoint();
  }

  /** A `kill` line without `var`: one `killPort` per argument token, in order, nothing else. */
  lemma KillLine(st: WatchState, cmd: string)
    requires NoSynonym(cmd) && Includes(cmd, "kill") && !Includes(cmd, "var")
    ensures var next := CommandStep(st, cmd);
      var args := Arguments(cmd);
      && next.env == st.env && next.debugMode == st.debugMode && next.envFile == st.envFile
      && |next.actions| == |st.actions| + |args|
      && next.actions[..|st.actions|] == st.actions
      && forall i :: 0 <= i < |args| ==> next.actions[|st.actions| + i] == KillPort(args[i])
  {
    assert !Includes("debug", "kill") by { MissingChar("debug", "kill", 'k'); }
    assert !Includes("help", "kill") by { MissingChar("help", "kill", 'k'); }
    var next := CommandStep(st, cmd);
    assert next == st.(actions := st.actions + KillActions(Arguments(cmd)));
  }

  /** A `var` line without `kill`: the variables are set (never `NODE_ENV`), saved, and both workers restart. */
  lemma VarLine(st: WatchState, cmd: string)
    requires NoSynonym(cmd) && Includes(cmd, "var") && !Includes(cmd, "kill")
    ensures var next := CommandStep(st, cmd);
      var args := Arguments(cmd);
      && next.env == VarsEnv(st.env, args)
      && next.envFile == SaveEnv(st.envFile, VarsRecord(args))
      && next.actions == st.actions + [ServerRestart, ClientRestart]
      && next.debugMode == st.debugMode
  {
    assert !Includes("debug", "var") by { MissingChar("debug", "var", 'v'); }
    assert !Includes("help", "var") by { MissingChar("help", "var", 'v'); }
    assert CommandStep(st, cmd) == VarStep(st, Arguments(cmd));
  }

  /** `debug` flips the mode, sets `DEBUG`, and restarts only the server. */
  lemma DebugLine(st: WatchState)
    ensures var next := CommandStep(st, "debug");
      && next.debugMode == !st.debugMode
      && "DEBUG" in next.env && next.env["DEBUG"] == (if next.debugMode then "" else "*")
      && next.actions == st.actions + [ServerRestart]
      && next.envFile == st.envFile && next.changed == st.changed
  {
    assert !Includes("debug", "kill") by { MissingChar("debug", "kill", 'k'); }
    assert !Includes("debug", "var") by { MissingChar("debug", "var", 'v'); }
  }

  /** `help` only shows the help text; a line that matches nothing changes nothing. */
  lemma HelpAndUnknownLines(st: WatchState, cmd: string)
    ensures CommandStep(st, "help") == st.(actions := st.actions + [ShowHelp])
    ensures NoSynonym(cmd) && !Includes(cmd, "kill") && !Includes(cmd, "var") && cmd != "debug" && cmd != "help"
      ==> CommandStep(st, cmd) == st
  {
    assert !Includes("help", "kill") by { MissingChar("help", "kill", 'k'); }
    assert !Includes("help", "var") by { MissingChar("help", "var", 'v'); }
  }

  /** A line holding both words runs both branches: `var kill=1` also asks to kill port `kill=1`. */
  lemma KillAndVarBothRun(st: WatchState)
    ensures var next := CommandStep(st, "var kill=1");
      && next.actions == st.actions + [KillPort("kill=1"), ServerRestart, ClientRestart]
      && "kill" in next.env && next.env["kill"] == "1"
  {
    ExampleBranches(st);
    ExampleVarStep(st.(actions := st.actions + [KillPort("kill=1")]));
  }

  lemma ExampleVarStep(s: WatchState)
    ensures VarStep(s, ["kill=1"]).env == s.env["kill" := "1"]
    ensures VarStep(s, ["kill=1"]).actions == s.actions + [ServerRestart, ClientRestart]
  {
    ExampleAssignment(s.env);
  }

  lemma ExampleBranches(st: WatchState)
    ensures CommandStep(st, "var kill=1") == VarStep(st.(actions := st.actions + [KillPort("kill=1")]), ["kill=1"])
  {
    var cmd := "var kill=1";
    assert Includes(cmd, "kill") by { assert OccursAt(cmd, "kill", 4); }
    assert Includes(cmd, "var") by { assert OccursAt(cmd, "var", 0); }
    assert cmd != "debug" && cmd != "help";
    assert NoSynonym(cmd);
    ExampleArguments();
    assert KillActions(["kill=1"]) == [KillPort("kill=1")];
  }

  lemma ExampleArguments()
    ensures Arguments("var kill=1") == ["kill=1"]
  {
    var cmd := "var kill=1";
    assert cmd == "var" + [' '] + "kill=1";
    IndexOfCharAfterPrefix("var", ' ', "kill=1");
    assert cmd[4..] == "kill=1";
    MissingChar("kill=1", " ", ' ');
  }

  lemma ExampleAssignment(env: map<string, string>)
    ensures VarsEnv(env, ["kill=1"]) == env["kill" := "1"]
  {
    SplitAssignmentOfLine("kill", "1");
    assert "kill" + "=" + "1" == "kill=1";
    assert ["kill=1"][..0] == [];
  }

  // ---------------------------------------------------------------- the watcher object

  /** The module-level state of scripts/watch.ts and the handlers that update it. */
  class DevWatcher {
    var changed: set<Option<string>>
    var pending: Option<string>
    var debugMode: bool
    var env: map<string, string>
    var envFile: string
    var actions: seq<Action>

    function Snapshot(): WatchState
      reads this
    {
      WatchState(changed, pending, debugMode, env, envFile, actions)
    }

    /** Start-up: the environment is loaded, and `watch()` spawns the server and the client. */
    constructor (loadedEnv: map<string, string>, envText: string)
      ensures Snapshot() == WatchState({}, None, false, loadedEnv, envText, [ServerRestart, ClientRestart])
    {
      changed := {};
      pending := None;
      debugMode := false;
      env := loadedEnv;
      envFile := envText;
      actions := [ServerRestart, ClientRestart];
    }

    /** The `fs.watch` listener for the directory labelled `from`. */
    method OnFileChange(from: string, filename: Option<string>)
      modifies this
      ensures Snapshot() == ListenerStep(old(Snapshot()), from, filename)
    {
      if filename.Some? && Includes(filename.value, "assets/build") {
        return;
      }
      changed := changed + {filename};
      pending := Some(from);
    }

    /** The debounced `enactChanges` runs with the last label it was given. */
    method FlushDebounce()
      modifies this
      ensures Snapshot() == FlushStep(old(Snapshot()))
    {
      if pending.None? {
        return;
      }
      var from := pending.value;
      pending := None;
      if Includes(from, "server") || Includes(from, "docs") || Includes(from, "views") {
        actions := actions + [GuardedServerRestart];
      }
      if Includes(from, "client") {
        actions := actions + [ClientRestart];
      }
      changed := {};
    }

    method OnMessage(server: bool, browser: bool)
      modifies this
      ensures Snapshot() == MessageStep(old(Snapshot()), server, browser)
    {
      if server {
        actions := actions + [Publish];
      }
    }

    /** `ports.forEach(port => killPort(Number(port)))`. */
    method KillPorts(ports: seq<string>)
      modifies this
      ensures Snapshot() == old(Snapshot()).(actions := old(actions) + KillActions(ports))
    {
      var acts := actions;
      var i := 0;
      while i < |ports|
        invariant 0 <= i <= |ports|
        invariant acts == old(actions) + KillActions(ports[..i])
      {
        assert ports[..i + 1][..i] == ports[..i];
        acts := acts + [KillPort(ports[i])];
        i := i + 1;
      }
      assert ports[..i] == ports;
      actions := acts;
    }

    /** The `var` branch: the `for` loop over the tokens, then `saveEnv` and both restarts. */
    method SetVariables(rest: seq<string>)
      modifies this
      ensures Snapshot() == VarStep(old(Snapshot()), rest)
    {
      var newEnvs: seq<Entry> := [];
      var vars := env;
      var i := 0;
      while i < |rest|
        invariant 0 <= i <= |rest|
        invariant vars == VarsEnv(old(env), rest[..i])
        invariant newEnvs == VarsRecord(rest[..i])
      {
        assert rest[..i + 1][..i] == rest[..i];
        var e := SplitAssignment(rest[i]);
        if e.key != "NODE_ENV" {
          vars := vars[e.key := e.value];
          newEnvs := Assign(newEnvs, e.key, e.value);
        }
        i := i + 1;
      }
      assert rest[..i] == rest;
      env := vars;
      envFile := SaveEnv(envFile, newEnvs);
      actions := actions + [ServerRestart, ClientRestart];
    }

    /** The stdin `data` handler. */
    method OnInput(data: string)
      modifies this
      ensures Snapshot() == InputStep(old(Snapshot()), data)
    {
      var cmd := Trim(data);
      Dispatch(cmd);
    }

    /** The handler's checks on the trimmed command, in source order. */
    method Dispatch(cmd: string)
      modifies this
      ensures Snapshot() == CommandStep(old(Snapshot()), cmd)
    {
      ghost var st := Snapshot();
      SynonymCommands(st, cmd);
      if cmd in RestartWords {
        actions := actions + [ServerRestart, ClientRestart];
        return;
      }
      if cmd in ServerWords {
        actions := actions + [ServerRestart];
        return;
      }
      if cmd in ClientWords {
        actions := actions + [ClientRestart];
        return;
      }
      if cmd in QuitWords {
        actions := actions + [Exit(0)];
        return;
      }
      assert CommandStep(st, cmd) == BranchStep(st, cmd);
      Branches(cmd);
    }

    /** The checks after the synonyms. */
    method Branches(cmd: string)
      modifies this
      ensures Snapshot() == BranchStep(old(Snapshot()), cmd)
    {
      ghost var st := Snapshot();
      if Includes(cmd, "kill") {
        KillPorts(Arguments(cmd));
      }
      ghost var s1 := KillStep(st, cmd);
      assert Snapshot() == s1;
      if Includes(cmd, "var") {
        SetVariables(Arguments(cmd));
      }
      ghost var s2 := if Includes(cmd, "var") then VarStep(s1, Arguments(cmd)) else s1;
      assert Snapshot() == s2;
      if cmd == "debug" {
        debugMode := !debugMode;
        env := env["DEBUG" := if debugMode then "" else "*"];
        actions := actions + [ServerRestart];
      }
      assert Snapshot() == if cmd == "debug" then DebugStep(s2) else s2;
      if cmd == "help" {
        actions := actions + [ShowHelp];
      }
    }
  }
}
