/** The tool runtime as it runs: the in-memory map, the records, the cache and the audit trail
    are fields that one call updates step by step; each method equals its specification. */
module ToolRuntime {
  import opened Basics
  import opened Events
  import opened T = ToolSpec
  import opened ToolMoves
  import opened ToolRuns
  import opened ToolPolicy

  class ToolRuntime {
    const cfg: Config
    const world: World
    var memory: map<(string, string), CallResult>
    var records: seq<Record>
    var cache: seq<Entry>
    var acts: seq<Act>
    var nextId: nat
    var calls: nat
    var ticks: nat

    constructor (cfg: Config, world: World)
      ensures this.cfg == cfg && this.world == world && State() == Empty()
    {
      this.cfg, this.world := cfg, world;
      memory, records, cache, acts := map[], [], [], [];
      nextId, calls, ticks := 0, 0, 0;
    }

    function State(): Runtime
      reads this
    {
      Runtime(memory, records, cache, acts, nextId, calls, ticks)
    }

    /** A value is found exactly if a live entry for the request is present; it is then the youngest.
        Entries of other requests stay, and none is made up. */
    method GetCached(key: Request) returns (found: Option<CallResult>)
      modifies `cache, `ticks
      ensures (found, State()) == CacheGet(world, old(State()), key)
      ensures GetPromise(world, old(State()), key, found, State())
    {
      ghost var st := State();
      found := None;
      var at := FindEntry(cache, key);
      if at.Some? {
        var e := cache[at.value];
        var now := world.clock(ticks);
        ticks := ticks + 1;
        cache := Without(cache, at.value);
        if now - e.storedAt <= e.ttl as int {
          cache := cache + [e];
          found := Some(e.value);
        }
      }
      GetKeepsPromise(world, st, key);
    }

    /** The value is the youngest entry and the only one of its request; another entry is lost only if
        it is the oldest of a full cache. */
    method PutCached(key: Request, value: CallResult, ttl: Positive)
      modifies `cache, `ticks
      ensures State() == CachePut(cfg, world, old(State()), key, value, ttl)
      ensures PutPromise(cfg, old(State()), key, value, ttl, State())
    {
      ghost var st := State();
      var at := FindEntry(cache, key);
      if at.Some? {
        cache := Without(cache, at.value);
      } else if cache != [] && |cache| >= cfg.cacheSize {
        cache := cache[1..];
      }
      cache := cache + [Entry(key, value, world.clock(ticks), ttl)];
      ticks := ticks + 1;
      PutKeepsPromise(cfg, world, st, key, value, ttl);
    }

    /** Nothing is found exactly under a key that no success is remembered for and no record holds; what
        is found under it was asked with the same request, and is refused with any other. */
    method FindIdempotent(name: string, key: Option<string>, request: Request)
      returns (r: Result<Option<CallResult>, Error>)
      ensures r == Lookup(cfg, State(), name, key, request)
      ensures r == Ok(None) <==> !Taken(cfg, State(), name, key)
      ensures Agrees(cfg, State()) && Taken(cfg, State(), name, key) ==>
                if TakenBy(cfg, State(), name, key) == request
                then r.Ok? && r.value.Some? && r.value.value.request == Some(request) && r.value.value.tool == name
                else r == Err(KeyReused)
    {
      if key.None? || key.value == "" {
        return Ok(None);
      }
      if (name, key.value) in memory {
        var found := memory[(name, key.value)];
        if found.request.Some? && found.request.value != request {
          return Err(KeyReused);
        }
        return Ok(Some(found));
      }
      if !cfg.uow {
        return Ok(None);
      }
      var existing := FindRecord(records, name, key.value);
      if existing.None? {
        return Ok(None);
      }
      var record := records[existing.value];
      if record.request != request {
        return Err(KeyReused);
      }
      return Ok(Some(FromRecord(record, existing.value, request)));
    }

    /** One more record and one start, or nothing at all if the store holds the key of this tool; so there
        is never a second record of a key. */
    method RecordStart(name: string, key: Option<string>, request: Request, executable: bool, status: Status)
      returns (r: Result<nat, Error>)
      modifies `records, `acts, `nextId
      ensures r.Err? <==> cfg.uow && key.Some? && FindRecord(old(records), name, key.value).Some?
      ensures r.Err? ==> r == Err(DuplicateRecord) && State() == old(State())
      ensures r.Ok? ==>
                && r.value == old(nextId) && nextId == old(nextId) + 1
                && acts == old(acts) + [Started(r.value, name, key, executable)]
                && records ==
                   old(records) + (if cfg.uow then [Record(name, key, request, status, "", None)] else [])
      ensures OneRecordPerKey(old(records)) ==> OneRecordPerKey(records)
      ensures match Begin(cfg, old(State()), name, key, request, executable, status)
              case Err(e) => r == Err(e) && State() == old(State())
              case Ok(st) => r == Ok(old(nextId)) && State() == st
    {
      var id := nextId;
      if cfg.uow {
        if key.Some? && FindRecord(records, name, key.value).Some? {
          return Err(DuplicateRecord);
        }
        records := records + [Record(name, key, request, status, "", None)];
      }
      acts := acts + [Started(id, name, key, executable)];
      nextId := nextId + 1;
      return Ok(id);
    }

    /** The end goes into the record begun last, which keeps its tool, key and request; the other records
        stay, and none is added. */
    method RecordFinish(r: CallResult, key: Option<string>, request: Request)
      modifies `records, `acts
      ensures State() == Finish(cfg, old(State()), r, key, request)
      ensures acts == old(acts) + [FinishedAct(r, key, request)] && |records| == |old(records)|
      ensures forall i :: 0 <= i < |records| - 1 ==> records[i] == old(records)[i]
      ensures cfg.uow && records != [] ==>
                var n := |records| - 1;
                && records[n].status == r.status && records[n].output == r.output && records[n].artifact == r.artifact
                && records[n].tool == old(records)[n].tool && records[n].key == old(records)[n].key
                && records[n].request == old(records)[n].request
    {
      if cfg.uow && records != [] {
        var n := |records| - 1;
        records := records[n := records[n].(status := r.status, output := r.output, artifact := r.artifact)];
      }
      acts := acts + [FinishedAct(r, key, request)];
    }

    method InvokeTool(id: nat, name: string, key: Option<string>) returns (outcome: Invocation)
      modifies `calls, `acts
      ensures outcome == Invoke(world.handler(old(calls)))
      ensures calls == old(calls) + 1 && acts == old(acts) + [Called(id, name, key)]
    {
      acts := acts + [Called(id, name, key)];
      outcome := Invoke(world.handler(calls));
      calls := calls + 1;
    }

    /** The first call, then retries while the error looks transient and the allowance lasts. */
    method InvokeWithResilience(id: nat, name: string, tool: Tool, key: Option<string>)
      returns (outcome: Invocation, retries: seq<RetryEvent>)
      modifies `calls, `acts
      ensures Tried(outcome, retries, calls) == InvokeWithRetries(cfg, world, tool, old(calls))
      ensures acts == old(acts) + Calls(id, name, key, calls - old(calls))
    {
      outcome := InvokeTool(id, name, key);
      retries := [];
      if !cfg.retryEnabled || !tool.idempotent {
        return;
      }
      var attempt := 0;
      while attempt < cfg.maxRetries && WorthRetrying(outcome)
        invariant attempt <= cfg.maxRetries && calls > old(calls)
        invariant RetryFrom(cfg, world, calls, attempt, outcome, retries)
               == RetryFrom(cfg, world, old(calls) + 1, 0, Invoke(world.handler(old(calls))), [])
        invariant acts == old(acts) + Calls(id, name, key, calls - old(calls))
      {
        attempt := attempt + 1;
        retries := retries + [RetryEvent(attempt, Delay(cfg, attempt), outcome.error.value)];
        outcome := InvokeTool(id, name, key);
      }
    }

    /** The handler calls of an invocation that was started; then, unless storing the output breaks off, its
        end is recorded and a success is kept and remembered. */
    method RunInvocation(id: nat, name: string, tool: Tool, args: Args, key: Option<string>, cached: bool)
      returns (r: Result<CallResult, Error>)
      modifies this
      ensures (r, State()) == RunAllowed(cfg, world, old(State()), id, name, tool, args, key, cached)
    {
      var request := Request(name, tool.version, args);
      ghost var begun := State();
      var outcome, retries := InvokeWithResilience(id, name, tool, key);
      ghost var ran := begun.(calls := calls, acts := begun.acts + Calls(id, name, key, calls - begun.calls));
      assert State() == ran;
      if world.breaks(id) {
        return Err(Interrupted);
      }
      var result := Built(cfg, name, args, id, request, Tried(outcome, retries, calls));
      RecordFinish(result, key, request);
      assert State() == Finish(cfg, ran, result, key, request);
      if cached && result.status == Succeeded {
        PutCached(request, result, tool.ttl);
      }
      RememberSuccess(name, key, result);
      return Ok(result);
    }

    method RememberSuccess(name: string, key: Option<string>, result: CallResult)
      modifies `memory
      ensures State() == Remember(old(State()), name, key, result)
    {
      if key.Some? && key.value != "" && result.status == Succeeded {
        memory := memory[(name, key.value) := result];
      }
    }

    /** A call that found nothing under its key makes one legal move of its own: it is refused with one
        record and no handler call, or it runs, bracketed by its start and its end. */
    method RunFresh(name: string, tool: Tool, args: Args, ctx: Context, cached: bool)
      returns (r: Result<CallResult, Error>)
      modifies this
      ensures (r, State()) == Fresh(cfg, world, old(State()), name, tool, args, ctx, cached)
      ensures FreshPromise(cfg, world, old(State()), name, tool, args, ctx, cached, r, State())
      ensures name in cfg.registry && tool == cfg.registry[name] ==>
                CallsPermitted(cfg, |old(acts)|, acts, name, ctx)
      ensures nextId > old(nextId) ==> EndsRight(cfg, tool, ctx, r)
    {
      ghost var st := State();
      if name in cfg.registry && tool == cfg.registry[name] {
        FreshIsPermitted(cfg, world, st, name, tool, args, ctx, cached);
      }
      if Fresh(cfg, world, st, name, tool, args, ctx, cached).1.nextId > st.nextId {
        FreshEndsRight(cfg, world, st, name, tool, args, ctx, cached);
      }
      var request := Request(name, tool.version, args);
      var decision := Decide(cfg, tool, ctx);
      var started := RecordStart(name, ctx.key, request, decision.Allow?,
                                 if decision.Allow? then Running else RefusedStatus(decision));
      if started.Err? {
        r := Err(started.error);
      } else if decision.Allow? {
        r := RunInvocation(started.value, name, tool, args, ctx.key, cached);
      } else {
        var refused := Refused(name, args, started.value, decision);
        RecordFinish(refused, ctx.key, request);
        r := Ok(refused);
      }
      FreshKeepsPromise(cfg, world, st, name, tool, args, ctx, cached);
    }

    method ExecuteOne(name: string, args: Args, ctx: Context, allowFallback: bool)
      returns (r: Result<CallResult, Error>)
      modifies this
      ensures (r, State()) == if allowFallback then T.Execute(cfg, world, old(State()), name, args, ctx)
                              else ExecutePlain(cfg, world, old(State()), name, args, ctx)
      ensures AllPermitted(cfg, |old(acts)|, acts, Execution(name, args, ctx))
      decreases allowFallback, 0
    {
      ExecuteIsPermitted(cfg, world, State(), name, args, ctx);
      if name !in cfg.registry {
        return Err(NotFound);
      }
      var tool := cfg.registry[name];
      var checked := cfg.check(name, args);
      if checked.None? {
        return Err(BadArguments);
      }
      var request := Request(name, tool.version, checked.value);
      var found := FindIdempotent(name, ctx.key, request);
      if found.Err? {
        return Err(found.error);
      }
      if found.value.Some? {
        return Ok(Again(found.value.value));
      }
      var cached := Decide(cfg, tool, ctx).Allow? && cfg.cacheSize > 0 && Eligible(tool);
      if cached {
        var hit := GetCached(request);
        if hit.Some? {
          return Ok(hit.value.(args := checked.value, cacheHit := true));
        }
      }
      r := RunFresh(name, tool, checked.value, ctx, cached);
      if allowFallback && WantsFallback(cfg, name, r) {
        r := TryFallback(name, tool.fallback, args, ctx, r);
      }
    }

    /** The other tool with the same arguments; an application error leaves the first result as it is. */
    method TryFallback(name: string, other: string, args: Args, ctx: Context, first: Result<CallResult, Error>)
      returns (r: Result<CallResult, Error>)
      modifies this
      ensures var (f, st) := ExecutePlain(cfg, world, old(State()), other, args, ctx);
              && State() == st
              && r == match f
                      case Err(e) => if IsAppError(e) then first else Err(e)
                      case Ok(result) => Ok(MarkFallback(name, result))
      decreases false, 1
    {
      var second := ExecuteOne(other, args, ctx, false);
      match second
      case Err(e) => r := if IsAppError(e) then first else Err(e);
      case Ok(result) => r := Ok(MarkFallback(name, result));
    }

    /** The entry point; calls are serialized by the lock when there is a unit of work. */
    method Execute(name: string, args: Args, ctx: Context) returns (r: Result<CallResult, Error>)
      modifies this
      ensures (r, State()) == T.Execute(cfg, world, old(State()), name, args, ctx)
      ensures AllPermitted(cfg, |old(acts)|, acts, Execution(name, args, ctx))
    {
      r := ExecuteOne(name, args, ctx, true);
    }
  }

  // ---------------------------------------------------------------- what the steps promise

  predicate GetPromise(world: World, st: Runtime, key: Request, found: Option<CallResult>, next: Runtime) {
    && (DistinctKeys(st.cache) ==> (found.Some? <==> HasLive(world, st, key)))
    && (found.Some? ==>
          && |next.cache| == |st.cache| > 0
          && var e := next.cache[|next.cache| - 1]; e.key == key && e.value == found.value)
    && (forall i :: 0 <= i < |st.cache| && st.cache[i].key != key ==> st.cache[i] in next.cache)
    && (forall i :: 0 <= i < |next.cache| ==> next.cache[i] in st.cache)
  }

  lemma GetKeepsPromise(world: World, st: Runtime, key: Request)
    ensures var (found, next) := CacheGet(world, st, key); GetPromise(world, st, key, found, next)
  {
    var next := CacheGet(world, st, key).1;
    if DistinctKeys(st.cache) {
      FindsLive(world, st, key);
    }
    var at := FindEntry(st.cache, key);
    if at.Some? {
      var w := Without(st.cache, at.value);
      forall i | 0 <= i < |st.cache| && st.cache[i].key != key ensures st.cache[i] in next.cache {
        assert st.cache[i] == if i < at.value then w[i] else w[i - 1];
        assert st.cache[i] in w;
      }
      forall i | 0 <= i < |next.cache| ensures next.cache[i] in st.cache {
        assert next.cache[i] in w || next.cache[i] == st.cache[at.value];
      }
    }
  }

  predicate PutPromise(cfg: Config, st: Runtime, key: Request, value: CallResult, ttl: nat, next: Runtime) {
    && next.cache != []
    && (var e := next.cache[|next.cache| - 1]; e.key == key && e.value == value && e.ttl == ttl)
    && (DistinctKeys(st.cache) ==> DistinctKeys(next.cache))
    && (forall i :: 0 <= i < |st.cache| && st.cache[i].key != key && st.cache[i] !in next.cache ==>
          st.cache[i] == st.cache[0] && |st.cache| >= cfg.cacheSize)
    && (0 < cfg.cacheSize && |st.cache| <= cfg.cacheSize ==> |next.cache| <= cfg.cacheSize)
  }

  lemma PutKeepsPromise(cfg: Config, world: World, st: Runtime, key: Request, value: CallResult, ttl: Positive)
    ensures PutPromise(cfg, st, key, value, ttl, CachePut(cfg, world, st, key, value, ttl))
  {
    var next := CachePut(cfg, world, st, key, value, ttl);
    if cfg.cacheSize > 0 {
      PutFacts(cfg, world, st, key, value, ttl);
    }
    var at := FindEntry(st.cache, key);
    if at.Some? {
      var w := Without(st.cache, at.value);
      WithoutFacts(st.cache, at.value);
      forall i | 0 <= i < |st.cache| && st.cache[i].key != key ensures st.cache[i] in next.cache {
        assert st.cache[i] == if i < at.value then w[i] else w[i - 1];
        assert st.cache[i] in w;
      }
    } else {
      forall i | 0 < i < |st.cache| ensures st.cache[i] in next.cache {
        assert st.cache[1..][i - 1] == st.cache[i] && st.cache[i] in st.cache[1..];
      }
    }
  }

  /** A success is remembered or a record is held under the key. */
  predicate Taken(cfg: Config, st: Runtime, tool: string, key: Option<string>) {
    Named(key) && ((tool, key.value) in st.memory || (cfg.uow && FindRecord(st.records, tool, key.value).Some?))
  }

  /** The request it was asked with. */
  function TakenBy(cfg: Config, st: Runtime, tool: string, key: Option<string>): Request
    requires Agrees(cfg, st) && Taken(cfg, st, tool, key)
  {
    if (tool, key.value) in st.memory then st.memory[(tool, key.value)].request.value
    else st.records[FindRecord(st.records, tool, key.value).value].request
  }

  ghost predicate FreshPromise(cfg: Config, world: World, st: Runtime, name: string, tool: Tool, args: Args,
                               ctx: Context,
                               cached: bool, r: Result<CallResult, Error>, next: Runtime)
  {
    name in cfg.registry && tool == cfg.registry[name] && !Taken(cfg, st, name, ctx.key) &&
    (cached ==> Decide(cfg, tool, ctx).Allow? && cfg.cacheSize > 0 && Eligible(tool)) ==>
      exists m :: Legal(cfg, world, st, m) && next == Apply(cfg, st, m) && Answers(r, m) &&
                  (!m.Idle? ==> MoveTool(m) == name && MoveKey(m) == ctx.key)
  }

  lemma FreshKeepsPromise(cfg: Config, world: World, st: Runtime, name: string, tool: Tool, args: Args, ctx: Context,
                          cached: bool)
    ensures var (r, next) := Fresh(cfg, world, st, name, tool, args, ctx, cached);
            FreshPromise(cfg, world, st, name, tool, args, ctx, cached, r, next)
  {
    if name in cfg.registry && tool == cfg.registry[name] && !Taken(cfg, st, name, ctx.key) &&
       (cached ==> Decide(cfg, tool, ctx).Allow? && cfg.cacheSize > 0 && Eligible(tool)) {
      var m := FreshIsMove(cfg, world, st, name, tool, args, ctx, cached);
    }
  }
}
