/** Calls made under keys that were never used before: when the result cache answers them, and that
    nothing else does; and why all the calls of an agent run are such calls. */
module FreshCalls {
  import opened Basics
  import opened Events
  import opened ToolSpec
  import opened ToolMoves
  import opened ToolRuns
  import opened ToolAudit
  import M = Machine
  import F = Freshness

  /** The key occurs neither in memory nor in a record. */
  predicate KeyFree(st: Runtime, key: string) {
    && (forall k :: k in st.memory ==> k.1 != key)
    && (forall i :: 0 <= i < |st.records| ==> st.records[i].key != Some(key))
  }

  /** The key is free for this tool. */
  predicate FreeFor(st: Runtime, tool: string, key: string) {
    (tool, key) !in st.memory && FindRecord(st.records, tool, key).None?
  }

  lemma MoveLeavesFree(cfg: Config, world: World, st: Runtime, m: Move, key: string)
    requires Legal(cfg, world, st, m) && KeyFree(st, key) && (!m.Idle? ==> MoveKey(m) != Some(key))
    ensures KeyFree(Apply(cfg, st, m), key)
  {
  }

  lemma PlainLeavesFree(cfg: Config, world: World, st: Runtime, name: string, args: Args, ctx: Context, key: string)
    requires KeyFree(st, key) && ctx.key != Some(key)
    ensures KeyFree(ExecutePlain(cfg, world, st, name, args, ctx).1, key)
  {
    var idle, m := PlainIsMove(cfg, world, st, name, args, ctx);
    MoveLeavesFree(cfg, world, st, idle, key);
    MoveLeavesFree(cfg, world, Apply(cfg, st, idle), m, key);
  }

  /** A key no call was made under is free. */
  lemma {:induction false} UnusedKeysAreFree(cfg: Config, world: World, ops: seq<Op>, key: string)
    requires forall i :: 0 <= i < |ops| && ops[i].Execution? ==> ops[i].ctx.key != Some(key)
    ensures KeyFree(After(cfg, world, ops), key)
  {
    if ops != [] {
      var front := ops[..|ops| - 1];
      UnusedKeysAreFree(cfg, world, front, key);
      var st, op := After(cfg, world, front), ops[|ops| - 1];
      if op.Execution? {
        PlainLeavesFree(cfg, world, st, op.name, op.args, op.ctx, key);
        var (r, st1) := ExecutePlain(cfg, world, st, op.name, op.args, op.ctx);
        if WantsFallback(cfg, op.name, r) {
          PlainLeavesFree(cfg, world, st1, cfg.registry[op.name].fallback, op.args, op.ctx, key);
        }
      }
    }
  }

  /** Neither a call under the same key is given back, nor is the key refused. */
  predicate NotReused(r: Result<CallResult, Error>) {
    match r
    case Ok(result) => !result.reused
    case Err(e) => !e.KeyReused? && !e.DuplicateRecord?
  }

  // ---------------------------------------------------------------- the result cache

  /** The policy allows the call, the cache is on, its tool is eligible, and an unexpired entry for its
      request is present. */
  predicate CacheAnswers(cfg: Config, world: World, st: Runtime, name: string, args: Args, ctx: Context)
    requires name in cfg.registry && cfg.check(name, args).Some?
  {
    var tool := cfg.registry[name];
    && Decide(cfg, tool, ctx).Allow? && cfg.cacheSize > 0 && Eligible(tool)
    && HasLive(world, st, Request(name, tool.version, cfg.check(name, args).value))
  }

  /** What was answered is the stored result of an earlier invocation of the same request. */
  predicate FromCache(st: Runtime, r: Result<CallResult, Error>, next: Runtime, request: Request) {
    && r.Ok? && r.value.cacheHit && next.acts == st.acts && next.records == st.records && next.nextId == st.nextId
    && exists i :: 0 <= i < |st.cache| && st.cache[i].key == request && r.value.id == st.cache[i].value.id &&
                   r.value.output == st.cache[i].value.output
  }

  /** A new invocation was started, under the call's own key, and it is what is answered. */
  predicate Invoked(st: Runtime, r: Result<CallResult, Error>, next: Runtime, name: string, ctx: Context) {
    && |st.acts| < |next.acts| && next.acts[..|st.acts|] == st.acts
    && (exists executable :: next.acts[|st.acts|] == Started(st.nextId, name, ctx.key, executable))
    && next.nextId == st.nextId + 1
    && (r.Ok? ==> r.value.id == st.nextId && !r.value.cacheHit && !r.value.reused)
    && (r.Err? ==> r.error == Interrupted)
  }

  /** What a call that passes validation under a free key comes to: an entry of the cache, if it is
      asked and has a live one, and a fresh run after the look into the cache otherwise. */
  lemma FreePlainIs(cfg: Config, world: World, st: Runtime, name: string, args: Args, ctx: Context)
    requires ctx.key.Some? && FreeFor(st, name, ctx.key.value)
    requires name in cfg.registry && cfg.check(name, args).Some?
    ensures var tool, checked := cfg.registry[name], cfg.check(name, args).value;
            var request := Request(name, tool.version, checked);
            var cached := Decide(cfg, tool, ctx).Allow? && cfg.cacheSize > 0 && Eligible(tool);
            var (hit, st1) := Consult(world, st, cached, request);
            ExecutePlain(cfg, world, st, name, args, ctx) ==
              if hit.Some? then (Ok(hit.value.(args := checked, cacheHit := true)), st1)
              else Fresh(cfg, world, st1, name, tool, checked, ctx, cached)
  {
    var tool, checked := cfg.registry[name], cfg.check(name, args).value;
    assert Lookup(cfg, st, name, ctx.key, Request(name, tool.version, checked)) == Ok(None);
  }

  /** A fresh run under a free key starts its own invocation. */
  lemma FreshIsInvoked(cfg: Config, world: World, st: Runtime, name: string, tool: Tool, args: Args, ctx: Context,
                       cached: bool)
    requires ctx.key.Some? && FreeFor(st, name, ctx.key.value) && name in cfg.registry && tool == cfg.registry[name]
    requires cached ==> Decide(cfg, tool, ctx).Allow? && cfg.cacheSize > 0 && Eligible(tool)
    ensures var (r, next) := Fresh(cfg, world, st, name, tool, args, ctx, cached); Invoked(st, r, next, name, ctx)
  {
    var (r, next) := Fresh(cfg, world, st, name, tool, args, ctx, cached);
    assert Unused(cfg, st, name, ctx.key);
    assert Lookup(cfg, st, name, ctx.key, Request(name, tool.version, args)) == Ok(None);
    if Decide(cfg, tool, ctx).Allow? {
      var m := AllowedIsMove(cfg, world, st, name, tool, args, ctx, cached);
      assert next.acts == st.acts + MoveBlock(st, m);
      assert MoveBlock(st, m)[0] == Started(st.nextId, name, ctx.key, true);
    } else {
      var m := RefusedIsMove(cfg, world, st, name, tool, args, ctx, cached);
      assert next.acts == st.acts + MoveBlock(st, m);
      assert MoveBlock(st, m)[0] == Started(st.nextId, name, ctx.key, false);
    }
  }

  /** Exactly when a call under a free key is answered from the past: when the cache answers it. Then it
      gets an earlier invocation's result; otherwise it starts an invocation of its own. */
  lemma FreePlainExactly(cfg: Config, world: World, st: Runtime, name: string, args: Args, ctx: Context)
    requires ctx.key.Some? && FreeFor(st, name, ctx.key.value) && DistinctKeys(st.cache)
    requires name in cfg.registry && cfg.check(name, args).Some?
    ensures var (r, next) := ExecutePlain(cfg, world, st, name, args, ctx);
            if CacheAnswers(cfg, world, st, name, args, ctx)
            then FromCache(st, r, next, Request(name, cfg.registry[name].version, cfg.check(name, args).value))
            else Invoked(st, r, next, name, ctx)
  {
    var tool, checked := cfg.registry[name], cfg.check(name, args).value;
    var request := Request(name, tool.version, checked);
    var cached := Decide(cfg, tool, ctx).Allow? && cfg.cacheSize > 0 && Eligible(tool);
    var (hit, st1) := Consult(world, st, cached, request);
    FreePlainIs(cfg, world, st, name, args, ctx);
    FindsLive(world, st, request);
    GetFacts(cfg, world, st, request);
    assert st1 == st.(cache := st1.cache, ticks := st1.ticks);
    if hit.None? {
      assert FreeFor(st1, name, ctx.key.value);
      FreshIsInvoked(cfg, world, st1, name, tool, checked, ctx, cached);
    }
  }

  lemma FreePlainIsNotReused(cfg: Config, world: World, st: Runtime, name: string, args: Args, ctx: Context)
    requires ctx.key.Some? && FreeFor(st, name, ctx.key.value) && Clean(st) && DistinctKeys(st.cache)
    ensures NotReused(ExecutePlain(cfg, world, st, name, args, ctx).0)
  {
    if name in cfg.registry && cfg.check(name, args).Some? {
      FreePlainExactly(cfg, world, st, name, args, ctx);
      FreePlainIs(cfg, world, st, name, args, ctx);
      GetFacts(cfg, world, st, Request(name, cfg.registry[name].version, cfg.check(name, args).value));
    }
  }

  /** What the cache holds is not marked as reused. */
  predicate Clean(st: Runtime) { forall i :: 0 <= i < |st.cache| ==> !st.cache[i].value.reused }

  lemma CleanAlways(cfg: Config, world: World, ops: seq<Op>)
    ensures Clean(After(cfg, world, ops))
  {
    forall s, m | Clean(s) && Legal(cfg, world, s, m) ensures Clean(Apply(cfg, s, m)) {}
    Always(cfg, world, ops, s => Clean(s));
  }

  lemma PlainStaysClean(cfg: Config, world: World, st: Runtime, name: string, args: Args, ctx: Context, other: string)
    requires ctx.key.Some? && Clean(st) && DistinctKeys(st.cache) && KeyFree(st, ctx.key.value) && other != name
    ensures var st' := ExecutePlain(cfg, world, st, name, args, ctx).1;
            Clean(st') && DistinctKeys(st'.cache) && FreeFor(st', other, ctx.key.value)
  {
    var idle, m := PlainIsMove(cfg, world, st, name, args, ctx);
    var st1 := Apply(cfg, st, idle);
    assert Clean(st1) && KeyFree(st1, ctx.key.value) && DistinctKeys(st1.cache);
    assert Clean(Apply(cfg, st1, m)) && DistinctKeys(Apply(cfg, st1, m).cache);
  }

  /** No earlier call was made under this key. */
  predicate FreshKey(ops: seq<Op>, ctx: Context) {
    ctx.key.Some? && forall i :: 0 <= i < |ops| && ops[i].Execution? ==> ops[i].ctx.key != ctx.key
  }

  lemma FreshKeyIsFree(cfg: Config, world: World, ops: seq<Op>, ctx: Context)
    requires FreshKey(ops, ctx)
    ensures var st := After(cfg, world, ops); KeyFree(st, ctx.key.value) && Clean(st) && DistinctKeys(st.cache)
  {
    UnusedKeysAreFree(cfg, world, ops, ctx.key.value);
    CleanAlways(cfg, world, ops);
    GoodCacheAlways(cfg, world, ops);
  }

  /** A call under a key no earlier call used, and its fallback: neither is given back the result of a
      call under the key, nor refused as a reuse. */
  lemma FreshKeyIsNotReused(cfg: Config, world: World, ops: seq<Op>, name: string, args: Args, ctx: Context)
    requires FreshKey(ops, ctx)
    ensures NotReused(Execute(cfg, world, After(cfg, world, ops), name, args, ctx).0)
  {
    var st := After(cfg, world, ops);
    FreshKeyIsFree(cfg, world, ops, ctx);
    FreePlainIsNotReused(cfg, world, st, name, args, ctx);
    var (r, st1) := ExecutePlain(cfg, world, st, name, args, ctx);
    if WantsFallback(cfg, name, r) {
      PlainStaysClean(cfg, world, st, name, args, ctx, cfg.registry[name].fallback);
      FreePlainIsNotReused(cfg, world, st1, cfg.registry[name].fallback, args, ctx);
    }
  }

  /** But the result cache may answer it. Over any calls before: a call under such a key that passes
      validation is answered from the past if and only if the policy allows it, the cache is on, its
      tool is eligible and an unexpired entry for its request is present; otherwise it starts a new
      invocation under its own key. */
  lemma FreshKeyIsAnsweredExactly(cfg: Config, world: World, ops: seq<Op>, name: string, args: Args, ctx: Context)
    requires FreshKey(ops, ctx) && name in cfg.registry && cfg.check(name, args).Some?
    ensures var st := After(cfg, world, ops);
            var (r, next) := ExecutePlain(cfg, world, st, name, args, ctx);
            if CacheAnswers(cfg, world, st, name, args, ctx)
            then FromCache(st, r, next, Request(name, cfg.registry[name].version, cfg.check(name, args).value))
            else Invoked(st, r, next, name, ctx)
  {
    FreshKeyIsFree(cfg, world, ops, ctx);
    FreePlainExactly(cfg, world, After(cfg, world, ops), name, args, ctx);
  }

  /** The same for the fallback of such a call. */
  lemma FreshFallbackIsAnsweredExactly(cfg: Config, world: World, ops: seq<Op>, name: string, args: Args, ctx: Context)
    requires FreshKey(ops, ctx)
    requires WantsFallback(cfg, name, ExecutePlain(cfg, world, After(cfg, world, ops), name, args, ctx).0)
    requires var other := cfg.registry[name].fallback; other in cfg.registry && cfg.check(other, args).Some?
    ensures var other := cfg.registry[name].fallback;
            var st := ExecutePlain(cfg, world, After(cfg, world, ops), name, args, ctx).1;
            var (r, next) := ExecutePlain(cfg, world, st, other, args, ctx);
            if CacheAnswers(cfg, world, st, other, args, ctx)
            then FromCache(st, r, next, Request(other, cfg.registry[other].version, cfg.check(other, args).value))
            else Invoked(st, r, next, other, ctx)
  {
    var st := After(cfg, world, ops);
    FreshKeyIsFree(cfg, world, ops, ctx);
    PlainStaysClean(cfg, world, st, name, args, ctx, cfg.registry[name].fallback);
    var st1 := ExecutePlain(cfg, world, st, name, args, ctx).1;
    FreePlainExactly(cfg, world, st1, cfg.registry[name].fallback, args, ctx);
  }

  /** The first call of an eligible tool succeeds and is stored. */
  lemma FirstIsStored(cfg: Config, world: World, name: string, args: Args, ctx: Context)
    requires name in cfg.registry && cfg.check(name, args).Some? && cfg.cacheSize > 0 && Eligible(cfg.registry[name])
    requires Decide(cfg, cfg.registry[name], ctx).Allow? && world.handler(0).Returned? && !world.breaks(0)
    ensures var request := Request(name, cfg.registry[name].version, cfg.check(name, args).value);
            var (r, st) := ExecutePlain(cfg, world, Empty(), name, args, ctx);
            && r.Ok? && r.value.status == Succeeded && !r.value.reused && !r.value.cacheHit && st.ticks == 1
            && st.cache == [Entry(request, r.value, world.clock(0), cfg.registry[name].ttl)]
  {
    var tool, checked := cfg.registry[name], cfg.check(name, args).value;
    var request := Request(name, tool.version, checked);
    assert Lookup(cfg, Empty(), name, ctx.key, request) == Ok(None);
    assert Consult(world, Empty(), true, request) == (None, Empty());
    assert !WorthRetrying(Invoke(world.handler(0)));
  }

  /** The cache does answer such calls: whenever an eligible tool has succeeded, a second call with the
      same arguments under another key, while the entry lives, gets the first one's output and id. */
  lemma OtherKeySameAnswer(cfg: Config, world: World, name: string, args: Args, first: Context, second: Context)
    requires name in cfg.registry && cfg.check(name, args).Some? && cfg.cacheSize > 0 && Eligible(cfg.registry[name])
    requires Decide(cfg, cfg.registry[name], first).Allow? && Decide(cfg, cfg.registry[name], second).Allow?
    requires FreshKey([Execution(name, args, first)], second)
    requires world.handler(0).Returned? && !world.breaks(0)
    requires world.clock(1) - world.clock(0) <= cfg.registry[name].ttl as int
    ensures var (r, st) := Execute(cfg, world, Empty(), name, args, first);
            var (again, _) := Execute(cfg, world, st, name, args, second);
            r.Ok? && again.Ok? && again.value.cacheHit && again.value.output == r.value.output &&
                again.value.id == r.value.id
  {
    var ops := [Execution(name, args, first)];
    FirstIsStored(cfg, world, name, args, first);
    var (r, st) := ExecutePlain(cfg, world, Empty(), name, args, first);
    assert ops[..0] == [] && After(cfg, world, ops) == st;
    assert LiveAt(world, st, st.cache[0].key, 0);
    FreshKeyIsAnsweredExactly(cfg, world, ops, name, args, second);
  }

  // ---------------------------------------------------------------- the calls of an agent run

  /** Who made a call: this run, at an execution in its log; another run, resumed ones included; or
      somebody who gave no key. */
  datatype Caller =
    | ThisRun(at: nat, slot: F.Slot)
    | OtherRun(session: string, key: StepKey, slot: F.Slot)
    | NoKey

  /** The key of the call is the one its caller makes. */
  predicate MadeBy(log: Log, runId: string, hash: string -> string, session: string, c: Caller, key: Option<string>) {
    match c
    case ThisRun(at, slot) =>
      at < |log| && log[at].StepStarted? && key == Some(F.CallKey(hash, session, log[at].key, slot))
    case OtherRun(other, k, slot) =>
      && F.NoColon(other) && F.NoColon(k.runId) && F.Separable(k.stepId) && k.runId != runId
      && key == Some(F.CallKey(hash, other, k, slot))
    case NoKey => key.None?
  }

  /** The store is shared by all runs. Among any calls of this run, of other runs and without keys, in
      any order and with restarts in between, every call of this run has a fresh key: it is not
      given back, and not refused, because of its key. */
  lemma RunCallsAreNotReused(mcfg: M.Config, runId: string, plan: Plan, start: int, answers: seq<M.Answer>,
                             hash: string -> string, session: string,
                             cfg: Config, world: World, ops: seq<Op>, callers: seq<Caller>, n: nat)
    requires F.Injective(hash) && F.GoodPlan(plan) && F.NoColon(session) && F.NoColon(runId)
    requires forall i :: 0 <= i < |answers| && answers[i].Replaced? ==> F.GoodPlan(answers[i].plan)
    requires M.Run(mcfg, M.Initial(runId, plan, start), answers).Reached?
    requires |callers| == |ops| && n < |ops| && ops[n].Execution? && callers[n].ThisRun?
    requires forall i, j :: 0 <= i < j < |callers| && callers[i].ThisRun? ==> callers[i] != callers[j]
    requires var log := M.Run(mcfg, M.Initial(runId, plan, start), answers).snap.events;
             forall i :: 0 <= i < |ops| && ops[i].Execution? ==>
                 MadeBy(log, runId, hash, session, callers[i], ops[i].ctx.key)
    ensures FreshKey(ops[..n], ops[n].ctx)
    ensures NotReused(Execute(cfg, world, After(cfg, world, ops[..n]), ops[n].name, ops[n].args, ops[n].ctx).0)
  {
    var log := M.Run(mcfg, M.Initial(runId, plan, start), answers).snap.events;
    forall i | 0 <= i < n && ops[i].Execution? ensures ops[i].ctx.key != ops[n].ctx.key {
      assert MadeBy(log, runId, hash, session, callers[i], ops[i].ctx.key);
      if ops[i].ctx.key == ops[n].ctx.key {
        SameKeySameCaller(mcfg, runId, plan, start, answers, hash, session, callers[i], callers[n], ops[n].ctx.key);
      }
    }
    FreshKeyIsNotReused(cfg, world, ops[..n], ops[n].name, ops[n].args, ops[n].ctx);
  }

  /** Whoever makes a key of this run is this run, with this very call. */
  lemma SameKeySameCaller(mcfg: M.Config, runId: string, plan: Plan, start: int, answers: seq<M.Answer>,
                          hash: string -> string, session: string, c: Caller, d: Caller, key: Option<string>)
    requires F.Injective(hash) && F.GoodPlan(plan) && F.NoColon(session) && F.NoColon(runId)
    requires forall i :: 0 <= i < |answers| && answers[i].Replaced? ==> F.GoodPlan(answers[i].plan)
    requires M.Run(mcfg, M.Initial(runId, plan, start), answers).Reached?
    requires var log := M.Run(mcfg, M.Initial(runId, plan, start), answers).snap.events;
             d.ThisRun? && MadeBy(log, runId, hash, session, c, key) && MadeBy(log, runId, hash, session, d, key)
    ensures c == d
  {
    var s := M.Run(mcfg, M.Initial(runId, plan, start), answers).snap;
    match c
    case ThisRun(at, slot) =>
      F.SameKeySameCall(mcfg, runId, plan, start, answers, hash, session, at, slot, d.at, d.slot);
    case OtherRun(other, k, slot) =>
      F.OwnKeys(mcfg, runId, plan, start, answers, d.at);
      F.CallKeyInjective(hash, session, s.events[d.at].key, d.slot, other, k, slot);
    case NoKey =>
  }
}
