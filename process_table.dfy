/**
 * The per-key process table of the development orchestrator (`procs` and
 * `spawnAndReload` in scripts/_helpers.ts).
 *
 * Each key's slot is empty, holds a running process, or holds one that has
 * exited. A restart request on an empty or exited slot starts a respawn at once;
 * on a running slot it sends SIGTERM and registers the respawn as a `close`
 * listener of that process. A respawn first awaits `beforeSpawn`, so it completes
 * later, as its own event, by launching a new process and overwriting the slot.
 * Nothing serialises respawns: two requests against one running process both
 * respawn when it closes, and both launched processes stay alive.
 *
 * Timers, child processes and the awaited hook are not run: what the code would
 * do to them is recorded in `effects`.
 */
module ProcessTable {
  import opened Common
  import opened JsString

  datatype Key = Server | Client

  /** The callbacks the orchestrator hands to `spawnAndReload`. */
  datatype Callback = NoOp | Reload | PortGuard

  /** The optional hooks as passed by the caller. */
  datatype HookOpts = HookOpts(beforeSpawn: Option<Callback>, afterSpawn: Option<Callback>, afterClose: Option<Callback>)

  /** The hooks after defaulting. */
  datatype Hooks = Hooks(beforeSpawn: Callback, afterSpawn: Callback, afterClose: Callback)

  /** A call `spawnAndReload(key, command, opts)`, hooks already defaulted. */
  datatype Request = Request(key: Key, command: string, hooks: Hooks)

  /** A launched child process and the listeners attached to it. */
  datatype Proc = Proc(
    key: Key,
    command: string,
    hooks: Hooks,
    exited: bool,            // exitCode !== null
    closed: bool,            // its 'close' event has fired
    spawnSeen: bool,         // its 'spawn' event has fired
    onClose: seq<Request>)   // respawns registered with once('close', respawn), in order

  /** What the code does to the outside world, in order. */
  datatype Effect =
    | BeforeSpawn(key: Key, hook: Callback)        // a respawn starts: await beforeSpawn()
    | Kill(pid: nat)                               // proc.kill('SIGTERM')
    | Launch(pid: nat, key: Key, args: seq<string>) // spawn('pnpm', command.split(' '))
    | AfterSpawn(pid: nat, hook: Callback)         // setTimeout(afterSpawn, 250)
    | AfterClose(pid: nat, hook: Callback)         // setTimeout(afterClose, 250)

  /** Processes are numbered in launch order; a slot holds the number of its process. */
  datatype State = State(
    server: Option<nat>,
    client: Option<nat>,
    procs: seq<Proc>,
    inFlight: seq<Request>,
    effects: seq<Effect>)

  /** Omitted hooks default to no-ops (scripts/_helpers.ts destructuring defaults). */
  function WithDefaults(opts: HookOpts): (r: Hooks)
    ensures opts.beforeSpawn.None? ==> r.beforeSpawn == NoOp
    ensures opts.afterSpawn.None? ==> r.afterSpawn == NoOp
    ensures opts.afterClose.None? ==> r.afterClose == NoOp
    ensures opts.beforeSpawn.Some? ==> r.beforeSpawn == opts.beforeSpawn.value
    ensures opts.afterSpawn.Some? ==> r.afterSpawn == opts.afterSpawn.value
    ensures opts.afterClose.Some? ==> r.afterClose == opts.afterClose.value
  {
    Hooks(opts.beforeSpawn.GetOr(NoOp), opts.afterSpawn.GetOr(NoOp), opts.afterClose.GetOr(NoOp))
  }

  function Init(): State {
    State(None, None, [], [], [])
  }

  /** `procs[key]`. */
  function Slot(st: State, k: Key): Option<nat> {
    if k == Server then st.server else st.client
  }

  predicate SameSlots(a: State, b: State) {
    a.server == b.server && a.client == b.client
  }

  /** `procs[key] = pid`. */
  function SetSlot(st: State, k: Key, pid: nat): (r: State)
    ensures Slot(r, k) == Some(pid)
  {
    if k == Server then st.(server := Some(pid)) else st.(client := Some(pid))
  }

  /** A process that is in the table and has not exited. */
  predicate Live(st: State, pid: nat) {
    pid < |st.procs| && !st.procs[pid].exited
  }

  /** A slot names a process of its own key. */
  predicate SlotOk(st: State, k: Key) {
    Slot(st, k).Some? ==> Slot(st, k).value < |st.procs| && st.procs[Slot(st, k).value].key == k
  }

  /** A closed process has exited and keeps no listeners; its listeners respawn its own key. */
  predicate ProcOk(p: Proc) {
    && (p.closed ==> p.exited && p.onClose == [])
    && (forall j :: 0 <= j < |p.onClose| ==> p.onClose[j].key == p.key)
  }

  predicate Valid(st: State) {
    && SlotOk(st, Server)
    && SlotOk(st, Client)
    && (forall p :: 0 <= p < |st.procs| ==> ProcOk(st.procs[p]))
  }

  /** `respawn()` is called: it starts by awaiting `beforeSpawn`. */
  function StartRespawn(st: State, req: Request): State {
    st.(inFlight := st.inFlight + [req], effects := st.effects + [BeforeSpawn(req.key, req.hooks.beforeSpawn)])
  }

  /** Several respawns started one after the other. */
  function StartAll(st: State, rs: seq<Request>): (r: State)
    ensures r.inFlight == st.inFlight + rs
    ensures |r.effects| == |st.effects| + |rs| && r.effects[..|st.effects|] == st.effects
    ensures r.server == st.server && r.client == st.client && r.procs == st.procs
    decreases |rs|
  {
    if rs == [] then st else StartRespawn(StartAll(st, rs[..|rs| - 1]), rs[|rs| - 1])
  }

  /** The three branches of `spawnAndReload`. */
  function RequestStep(st: State, req: Request): State
    requires Valid(st)
  {
    match Slot(st, req.key)
    case None => StartRespawn(st, req)
    case Some(pid) =>
      if !st.procs[pid].exited then
        st.(procs := st.procs[pid := st.procs[pid].(onClose := st.procs[pid].onClose + [req])],
            effects := st.effects + [Kill(pid)])
      else
        StartRespawn(st, req)
  }

  /** The `i`-th pending respawn has finished `beforeSpawn`: launch and overwrite the slot. */
  function RespawnStep(st: State, i: nat): State
    requires Valid(st) && i < |st.inFlight|
  {
    var req := st.inFlight[i];
    var pid := |st.procs|;
    SetSlot(st, req.key, pid).(
        procs := st.procs + [Proc(req.key, req.command, req.hooks, false, false, false, [])],
        inFlight := st.inFlight[..i] + st.inFlight[i + 1..],
        effects := st.effects + [Launch(pid, req.key, Split(req.command, " "))])
  }

  /** The process emits 'spawn': its once-listener schedules `afterSpawn`. */
  function SpawnEventStep(st: State, pid: nat): State
    requires Valid(st) && pid < |st.procs|
  {
    if st.procs[pid].spawnSeen then st
    else st.(procs := st.procs[pid := st.procs[pid].(spawnSeen := true)],
             effects := st.effects + [AfterSpawn(pid, st.procs[pid].hooks.afterSpawn)])
  }

  /** The process exits: `exitCode` is set; the 'close' listeners have not run yet. */
  function ExitEventStep(st: State, pid: nat): State
    requires Valid(st) && pid < |st.procs|
  {
    st.(procs := st.procs[pid := st.procs[pid].(exited := true)])
  }

  /** The process emits 'close': its own listener schedules `afterClose`, then
      every respawn registered on it starts, in registration order. */
  function CloseEventStep(st: State, pid: nat): State
    requires Valid(st) && pid < |st.procs|
  {
    var p := st.procs[pid];
    if p.closed then st
    else
      var closed := st.(procs := st.procs[pid := p.(exited := true, closed := true, onClose := [])],
                        effects := st.effects + [AfterClose(pid, p.hooks.afterClose)]);
      StartAll(closed, p.onClose)
  }

  /** Starting several respawns queues them in order, records one `BeforeSpawn`
      per request and touches nothing else. */
  lemma {:induction false} StartAllSpec(st: State, rs: seq<Request>)
    ensures forall j :: 0 <= j < |rs| ==>
      StartAll(st, rs).effects[|st.effects| + j] == BeforeSpawn(rs[j].key, rs[j].hooks.beforeSpawn)
    decreases |rs|
  {
    if rs != [] {
      var init := rs[..|rs| - 1];
      StartAllSpec(st, init);
      assert forall j :: 0 <= j < |init| ==> init[j] == rs[j];
    }
  }

  /** Every step keeps the table well formed. */
  lemma RequestStepValid(st: State, req: Request)
    requires Valid(st)
    ensures Valid(RequestStep(st, req))
  {
    if Slot(st, req.key).Some? && !st.procs[Slot(st, req.key).value].exited {
      var pid := Slot(st, req.key).value;
      var q := st.procs[pid].(onClose := st.procs[pid].onClose + [req]);
      assert ProcOk(q);
    }
  }

  lemma RespawnStepValid(st: State, i: nat)
    requires Valid(st) && i < |st.inFlight|
    ensures Valid(RespawnStep(st, i))
  {
  }

  lemma CloseEventStepValid(st: State, pid: nat)
    requires Valid(st) && pid < |st.procs|
    ensures Valid(CloseEventStep(st, pid))
  {
    var p := st.procs[pid];
    if !p.closed {
      var closed := st.(procs := st.procs[pid := p.(exited := true, closed := true, onClose := [])],
                        effects := st.effects + [AfterClose(pid, p.hooks.afterClose)]);
      assert Valid(closed);
    }
  }

  /** scripts/_helpers.ts:132-136: an empty slot respawns at once and sends no kill. */
  lemma EmptySlotRespawnsAtOnce(st: State, req: Request)
    requires Valid(st) && Slot(st, req.key).None?
    ensures RequestStep(st, req).inFlight == st.inFlight + [req]
    ensures RequestStep(st, req).effects == st.effects + [BeforeSpawn(req.key, req.hooks.beforeSpawn)]
    ensures RequestStep(st, req).procs == st.procs && SameSlots(RequestStep(st, req), st)
  {
  }

  /** scripts/_helpers.ts:139-146: a running process gets SIGTERM and the respawn
      waits for its 'close'; nothing is launched or queued now. */
  lemma RunningSlotKillsAndDefers(st: State, req: Request)
    requires Valid(st) && Slot(st, req.key).Some? && Live(st, Slot(st, req.key).value)
    ensures var pid := Slot(st, req.key).value;
      && RequestStep(st, req).effects == st.effects + [Kill(pid)]
      && RequestStep(st, req).procs[pid].onClose == st.procs[pid].onClose + [req]
      && RequestStep(st, req).inFlight == st.inFlight
      && SameSlots(RequestStep(st, req), st)
      && |RequestStep(st, req).procs| == |st.procs|
      && forall p :: 0 <= p < |st.procs| && p != pid ==> RequestStep(st, req).procs[p] == st.procs[p]
  {
  }

  /** scripts/_helpers.ts:148-149: an exited process is not killed; the respawn starts at once. */
  lemma ExitedSlotRespawnsWithoutKill(st: State, req: Request)
    requires Valid(st) && Slot(st, req.key).Some? && !Live(st, Slot(st, req.key).value)
    ensures RequestStep(st, req).inFlight == st.inFlight + [req]
    ensures forall e :: e in RequestStep(st, req).effects[|st.effects|..] ==> !e.Kill?
    ensures RequestStep(st, req).procs == st.procs
  {
  }

  /** scripts/_helpers.ts:114-128: after `beforeSpawn`, only this key's slot is
      overwritten, by a new process that carries exactly this request's hooks and
      has no respawn listeners; every existing process is untouched. */
  lemma RespawnOverwritesOnlyItsSlot(st: State, i: nat, other: Key)
    requires Valid(st) && i < |st.inFlight| && other != st.inFlight[i].key
    ensures var next := RespawnStep(st, i);
      var req := st.inFlight[i];
      && Slot(next, req.key) == Some(|st.procs|)
      && Slot(next, other) == Slot(st, other)
      && next.procs[..|st.procs|] == st.procs
      && next.procs[|st.procs|] == Proc(req.key, req.command, req.hooks, false, false, false, [])
      && multiset(next.inFlight) + multiset{req} == multiset(st.inFlight)
  {
    var req := st.inFlight[i];
    assert st.inFlight == st.inFlight[..i] + [req] + st.inFlight[i + 1..];
  }

  /** scripts/_helpers.ts:125-128, 142: on 'close', the process's own `afterClose`
      is scheduled first, then the deferred respawns start in registration order. */
  lemma CloseStartsDeferredRespawns(st: State, pid: nat)
    requires Valid(st) && pid < |st.procs| && !st.procs[pid].closed
    ensures var next := CloseEventStep(st, pid);
      var p := st.procs[pid];
      && next.inFlight == st.inFlight + p.onClose
      && next.effects[|st.effects|] == AfterClose(pid, p.hooks.afterClose)
      && (forall j :: 0 <= j < |p.onClose| ==>
            next.effects[|st.effects| + 1 + j] == BeforeSpawn(p.onClose[j].key, p.onClose[j].hooks.beforeSpawn))
      && next.procs[pid].closed && next.procs[pid].onClose == []
      && SameSlots(next, st)
  {
    var p := st.procs[pid];
    var closed := st.(procs := st.procs[pid := p.(exited := true, closed := true, onClose := [])],
                      effects := st.effects + [AfterClose(pid, p.hooks.afterClose)]);
    StartAllSpec(closed, p.onClose);
  }

  /**
   * The table after the server is started, two restarts are requested while it
   * runs, its 'close' arrives and both respawns finish. Duplicate restarts are not
   * serialised: the result holds two distinct live server processes.
   */
  function AfterDuplicateRestarts(req: Request): (s4: State)
    requires req.key == Server
    ensures Live(s4, 1) && Live(s4, 2) && s4.procs[1].key == Server && s4.procs[2].key == Server
  {
    var s0 := RequestStep(Init(), req);
    assert Valid(s0) && s0.inFlight == [req] && ServerRunning(RespawnStep(s0, 0), []) by { ServerLaunched(req); }
    var s1 := RespawnStep(s0, 0);
    assert ServerRunning(RequestStep(s1, req), [req]) by { RestartQueued(s1, [], req); }
    var s2a := RequestStep(s1, req);
    assert ServerRunning(RequestStep(s2a, req), [req, req]) by { RestartQueued(s2a, [req], req); }
    var s3 := CloseEventStep(RequestStep(s2a, req), 0);
    assert Valid(s3) && s3.inFlight == [req, req] && |s3.procs| == 1 by { ServerClosed(RequestStep(s2a, req), req); }
    assert Valid(RespawnStep(s3, 0)) && |RespawnStep(s3, 0).inFlight| == 1 by { BothRespawned(s3, req); }
    BothRespawned(s3, req);
    RespawnStep(RespawnStep(s3, 0), 0)
  }

  /** Slot 0 holds the only process, a live server, with `queued` waiting for its 'close' and nothing in flight. */
  predicate ServerRunning(st: State, queued: seq<Request>) {
    && Valid(st) && st.server == Some(0) && |st.procs| == 1
    && !st.procs[0].exited && !st.procs[0].closed && st.procs[0].onClose == queued && st.inFlight == []
  }

  lemma ServerLaunched(req: Request)
    requires req.key == Server
    ensures Valid(RequestStep(Init(), req)) && RequestStep(Init(), req).inFlight == [req]
    ensures ServerRunning(RespawnStep(RequestStep(Init(), req), 0), [])
  {
    RequestStepValid(Init(), req);
    RespawnStepValid(RequestStep(Init(), req), 0);
  }

  lemma RestartQueued(st: State, queued: seq<Request>, req: Request)
    requires req.key == Server && ServerRunning(st, queued)
    ensures ServerRunning(RequestStep(st, req), queued + [req])
  {
    RequestStepValid(st, req);
  }

  lemma ServerClosed(st: State, req: Request)
    requires ServerRunning(st, [req, req])
    ensures var s := CloseEventStep(st, 0); Valid(s) && s.inFlight == [req, req] && |s.procs| == 1
  {
    CloseEventStepValid(st, 0);
  }

  lemma BothRespawned(st: State, req: Request)
    requires req.key == Server && Valid(st) && st.inFlight == [req, req] && |st.procs| == 1
    ensures Valid(RespawnStep(st, 0)) && |RespawnStep(st, 0).inFlight| == 1
    ensures var s4 := RespawnStep(RespawnStep(st, 0), 0);
      Live(s4, 1) && Live(s4, 2) && s4.procs[1].key == Server && s4.procs[2].key == Server
  {
    RespawnStepValid(st, 0);
  }

  /** The mutable process table: `procs` plus the listeners and pending respawns. */
  class Supervisor {
    var server: Option<nat>
    var client: Option<nat>
    var procs: seq<Proc>
    var inFlight: seq<Request>
    var effects: seq<Effect>

    function Snapshot(): State
      reads this
    {
      State(server, client, procs, inFlight, effects)
    }

    predicate Inv()
      reads this
    {
      Valid(Snapshot())
    }

    /** Both slots start out `null`. */
    constructor ()
      ensures Inv() && Snapshot() == Init()
    {
      server, client := None, None;
      procs := [];
      inFlight := [];
      effects := [];
    }

    method Respawn(req: Request)
      modifies this
      ensures Snapshot() == StartRespawn(old(Snapshot()), req)
    {
      inFlight := inFlight + [req];
      effects := effects + [BeforeSpawn(req.key, req.hooks.beforeSpawn)];
    }

    /** `spawnAndReload(key, command, opts)`. */
    method SpawnAndReload(key: Key, command: string, opts: HookOpts)
      requires Inv()
      modifies this
      ensures Inv()
      ensures Snapshot() == RequestStep(old(Snapshot()), Request(key, command, WithDefaults(opts)))
    {
      var req := Request(key, command, WithDefaults(opts));
      RequestStepValid(Snapshot(), req);
      var proc := if key == Server then server else client;
      if proc.None? {
        Respawn(req);
        return;
      }
      var pid := proc.value;
      if !procs[pid].exited {
        procs := procs[pid := procs[pid].(onClose := procs[pid].onClose + [req])];
        effects := effects + [Kill(pid)];
        return;
      }
      Respawn(req);
    }

    /** The awaited `beforeSpawn` of the `i`-th pending respawn has resolved. */
    method FinishRespawn(i: nat)
      requires Inv() && i < |inFlight|
      modifies this
      ensures Inv()
      ensures Snapshot() == RespawnStep(old(Snapshot()), i)
    {
      RespawnStepValid(Snapshot(), i);
      var req := inFlight[i];
      var pid := |procs|;
      procs := procs + [Proc(req.key, req.command, req.hooks, false, false, false, [])];
      if req.key == Server { server := Some(pid); } else { client := Some(pid); }
      inFlight := inFlight[..i] + inFlight[i + 1..];
      effects := effects + [Launch(pid, req.key, Split(req.command, " "))];
    }

    method OnSpawn(pid: nat)
      requires Inv() && pid < |procs|
      modifies this
      ensures Inv()
      ensures Snapshot() == SpawnEventStep(old(Snapshot()), pid)
    {
      if !procs[pid].spawnSeen {
        effects := effects + [AfterSpawn(pid, procs[pid].hooks.afterSpawn)];
        procs := procs[pid := procs[pid].(spawnSeen := true)];
      }
    }

    method OnExit(pid: nat)
      requires Inv() && pid < |procs|
      modifies this
      ensures Inv()
      ensures Snapshot() == ExitEventStep(old(Snapshot()), pid)
    {
      procs := procs[pid := procs[pid].(exited := true)];
    }

    /** The process emits 'close': run its once-listeners in registration order. */
    method OnClose(pid: nat)
      requires Inv() && pid < |procs|
      modifies this
      ensures Inv()
      ensures Snapshot() == CloseEventStep(old(Snapshot()), pid)
    {
      CloseEventStepValid(Snapshot(), pid);
      var p := procs[pid];
      if p.closed {
        return;
      }
      procs := procs[pid := p.(exited := true, closed := true, onClose := [])];
      effects := effects + [AfterClose(pid, p.hooks.afterClose)];
      ghost var start := Snapshot();
      var listeners := p.onClose;
      var j := 0;
      while j < |listeners|
        invariant 0 <= j <= |listeners|
        invariant Snapshot() == StartAll(start, listeners[..j])
      {
        assert listeners[..j + 1][..j] == listeners[..j];
        Respawn(listeners[j]);
        j := j + 1;
      }
      assert listeners[..j] == listeners;
    }
  }
}
