/** A closed form of what one execution does to the runtime: nothing, one refused invocation,
    or one invocation with its handler calls. */
module ToolMoves {
  import opened Basics
  import opened Events
  import opened ToolSpec

  datatype Move =
    | Idle(cache: seq<Entry>, ticks: nat)
    | Refuse(tool: string, key: Option<string>, request: Request, result: CallResult, cache: seq<Entry>, ticks: nat)
    | Ran(tool: string, key: Option<string>, request: Request, count: nat, end: Option<CallResult>,
          cache: seq<Entry>, ticks: nat)

  predicate Named(key: Option<string>) { key.Some? && key.value != "" }

  /** Neither remembered nor recorded under this key. */
  predicate Unused(cfg: Config, st: Runtime, tool: string, key: Option<string>) {
    && (Named(key) ==> (tool, key.value) !in st.memory)
    && (cfg.uow && key.Some? ==> FindRecord(st.records, tool, key.value).None?)
  }

  /** What the result of a finished invocation says about it. */
  predicate Describes(r: CallResult, id: nat, tool: string, request: Request) {
    r.id == id && r.tool == tool && r.args == request.args && r.request == Some(request) && !r.reused && !r.cacheHit &&
    r.fallbackFrom.None? && r.truncated == r.artifact.Some?
  }

  /** Entries come from the old cache or are the success just stored. */
  predicate CacheFrom(cfg: Config, st: Runtime, m: Move) {
    && (forall i :: 0 <= i < |m.cache| ==>
          || m.cache[i] in st.cache
          || (m.Ran? && m.end.Some? && m.end.value.status == Succeeded && m.cache[i].key == m.request &&
              m.cache[i].value == m.end.value && m.tool in cfg.registry && Eligible(cfg.registry[m.tool])))
    && (DistinctKeys(st.cache) ==> DistinctKeys(m.cache))
    && (|st.cache| <= cfg.cacheSize ==> |m.cache| <= cfg.cacheSize)
  }

  predicate DistinctKeys(cache: seq<Entry>) {
    forall i, j :: 0 <= i < j < |cache| ==> cache[i].key != cache[j].key
  }

  predicate Legal(cfg: Config, world: World, st: Runtime, m: Move) {
    CacheFrom(cfg, st, m) &&
    match m
    case Idle(_, _) => true
    case Refuse(tool, key, request, result, _, _) =>
      && tool in cfg.registry && Unused(cfg, st, tool, key) && request.tool == tool
      && result.id == st.nextId && result.tool == tool && !result.reused && result.artifact.None?
      && (result.status == Denied || result.status == ApprovalRequired)
    case Ran(tool, key, request, count, end, _, _) =>
      && tool in cfg.registry && Unused(cfg, st, tool, key)
      && request.tool == tool && request.version == cfg.registry[tool].version
      && 1 <= count <= 1 + cfg.maxRetries
      && (!cfg.registry[tool].idempotent || !cfg.retryEnabled ==> count == 1)
      && (end.None? <==> world.breaks(st.nextId))
      && (end.Some? ==>
            && Describes(end.value, st.nextId, tool, request)
            && end.value.status in {Succeeded, Status.Failed, TimedOut}
            && |end.value.retries| == count - 1)
  }

  /** The acts of one invocation, in order. */
  function Block(id: nat, tool: string, key: Option<string>, executable: bool, count: nat, end: seq<Act>): seq<Act> {
    [Started(id, tool, key, executable)] + Calls(id, tool, key, count) + end
  }

  function MoveBlock(st: Runtime, m: Move): seq<Act> {
    match m
    case Idle(_, _) => []
    case Refuse(tool, key, request, result, _, _) =>
      Block(st.nextId, tool, key, false, 0, [FinishedAct(result, key, request)])
    case Ran(tool, key, request, count, end, _, _) =>
      Block(st.nextId, tool, key, true, count, if end.Some? then [FinishedAct(end.value, key, request)] else [])
  }

  function MoveRecord(m: Move): Record
    requires !m.Idle?
  {
    match m
    case Refuse(tool, key, request, result, _, _) =>
      Record(tool, key, request, result.status, result.output, result.artifact)
    case Ran(tool, key, request, _, end, _, _) =>
      if end.Some? then Record(tool, key, request, end.value.status, end.value.output, end.value.artifact)
      else Record(tool, key, request, Running, "", None)
  }

  function MoveMemory(st: Runtime, m: Move): map<(string, string), CallResult> {
    if m.Ran? && m.end.Some? && m.end.value.status == Succeeded && Named(m.key)
    then st.memory[(m.tool, m.key.value) := m.end.value] else st.memory
  }

  function Apply(cfg: Config, st: Runtime, m: Move): Runtime {
    Runtime(
      MoveMemory(st, m),
      if cfg.uow && !m.Idle? then st.records + [MoveRecord(m)] else st.records,
      m.cache,
      st.acts + MoveBlock(st, m),
      if m.Idle? then st.nextId else st.nextId + 1,
      if m.Ran? then st.calls + m.count else st.calls,
      m.ticks)
  }

  // ---------------------------------------------------------------- retries

  /** Retry `i` answers a transient failure of handler call `first + i`, is numbered from 1,
      waits its own delay and carries that failure's error. */
  predicate RetryAnswers(cfg: Config, world: World, first: nat, retries: seq<RetryEvent>, i: nat)
    requires i < |retries|
  {
    var failure := Invoke(world.handler(first + i));
    WorthRetrying(failure) && retries[i] == RetryEvent(i + 1, Delay(cfg, i + 1), failure.error.value)
  }

  lemma {:induction false} RetryFacts(cfg: Config, world: World, first: nat, attempt: nat, outcome: Invocation,
                                      retries: seq<RetryEvent>)
    requires attempt <= cfg.maxRetries && |retries| == attempt && outcome == Invoke(world.handler(first + attempt))
    requires forall i :: 0 <= i < |retries| ==> RetryAnswers(cfg, world, first, retries, i)
    ensures var t := RetryFrom(cfg, world, first + attempt + 1, attempt, outcome, retries);
            && t.calls == first + 1 + |t.retries| <= first + 1 + cfg.maxRetries
            && t.outcome == Invoke(world.handler(t.calls - 1))
            && (|t.retries| == cfg.maxRetries || !WorthRetrying(t.outcome))
            && (forall i :: 0 <= i < |t.retries| ==> RetryAnswers(cfg, world, first, t.retries, i))
    decreases cfg.maxRetries - attempt
  {
    if attempt < cfg.maxRetries && WorthRetrying(outcome) {
      var more := retries + [RetryEvent(attempt + 1, Delay(cfg, attempt + 1), outcome.error.value)];
      forall i | 0 <= i < |more| ensures RetryAnswers(cfg, world, first, more, i) {
        assert i < attempt ==> RetryAnswers(cfg, world, first, retries, i);
      }
      RetryFacts(cfg, world, first, attempt + 1, Invoke(world.handler(first + attempt + 1)), more);
    }
  }

  /** One execution calls the handler once plus once per retry, and gives the last call's outcome.
      Retries need an idempotent tool; each answers a transient failure right before it; they stop
      only at the allowance or at an outcome that is not worth retrying. */
  lemma RetriesAreExact(cfg: Config, world: World, tool: Tool, calls: nat)
    ensures var t := InvokeWithRetries(cfg, world, tool, calls);
            && t.outcome == Invoke(world.handler(t.calls - 1))
            && t.calls - calls == 1 + |t.retries| <= 1 + cfg.maxRetries
            && (!cfg.retryEnabled || !tool.idempotent ==> t.retries == [])
            && (cfg.retryEnabled && tool.idempotent ==> |t.retries| == cfg.maxRetries || !WorthRetrying(t.outcome))
            && (forall i :: 0 <= i < |t.retries| ==> RetryAnswers(cfg, world, calls, t.retries, i))
  {
    if cfg.retryEnabled && tool.idempotent {
      RetryFacts(cfg, world, calls, 0, Invoke(world.handler(calls)), []);
    }
  }

  /** A timeout is always worth retrying: its own message names it. */
  lemma TimeoutsAreRetryable(text: string)
    ensures WorthRetrying(Invoke(TookTooLong(text)))
  {
    var message := "tool timed out after " + text;
    var part := "timed out";
    assert Lower(message)[5..14] == part;
    assert StandsAt(Lower(message), 5, part);
    assert KEYWORDS[1] == part;
  }

  // ---------------------------------------------------------------- the cache

  lemma WithoutFacts(cache: seq<Entry>, i: nat)
    requires i < |cache|
    ensures |Without(cache, i)| == |cache| - 1
    ensures forall e :: e in Without(cache, i) ==> e in cache
    ensures DistinctKeys(cache) ==> DistinctKeys(Without(cache, i) + [cache[i]])
  {
    var w := Without(cache, i);
    assert forall j :: 0 <= j < |w| ==> w[j] == cache[if j < i then j else j + 1];
  }

  /** An unexpired entry for the request. */
  predicate LiveAt(world: World, st: Runtime, request: Request, i: nat) {
    i < |st.cache| && st.cache[i].key == request &&
    world.clock(st.ticks) - st.cache[i].storedAt <= st.cache[i].ttl as int
  }

  predicate HasLive(world: World, st: Runtime, request: Request) { exists i: nat :: i < |st.cache| && LiveAt(world,
                    st, request, i) }

  /** A lookup finds the entry of the request: there is at most one. */
  lemma FindsLive(world: World, st: Runtime, request: Request)
    requires DistinctKeys(st.cache)
    ensures CacheGet(world, st, request).0.Some? <==> HasLive(world, st, request)
  {
    var at := FindEntry(st.cache, request);
    if at.Some? {
      assert LiveAt(world, st, request, at.value) ==> HasLive(world, st, request);
      if i: nat :| i < |st.cache| && LiveAt(world, st, request, i) {
        assert i == at.value;
      }
    }
  }

  lemma GetFacts(cfg: Config, world: World, st: Runtime, key: Request)
    ensures var (found, st') := CacheGet(world, st, key);
            && st' == st.(cache := st'.cache, ticks := st'.ticks)
            && CacheFrom(cfg, st, Idle(st'.cache, st'.ticks))
            && (found.Some? ==>
                  exists i: nat :: i < |st.cache| && LiveAt(world, st, key, i) && st.cache[i].value == found.value)
  {
    var at := FindEntry(st.cache, key);
    if at.Some? {
      WithoutFacts(st.cache, at.value);
      var w := Without(st.cache, at.value);
      assert forall j :: 0 <= j < |w| ==> w[j] in w;
      assert st.cache[at.value] in st.cache;
    }
  }

  lemma PutFacts(cfg: Config, world: World, st: Runtime, key: Request, value: CallResult, ttl: Positive)
    requires cfg.cacheSize > 0
    ensures var st' := CachePut(cfg, world, st, key, value, ttl);
            && st' == st.(cache := st'.cache, ticks := st'.ticks)
            && (forall i :: 0 <= i < |st'.cache| ==>
                  st'.cache[i] in st.cache || (st'.cache[i].key == key && st'.cache[i].value == value))
            && (DistinctKeys(st.cache) ==> DistinctKeys(st'.cache))
            && (|st.cache| <= cfg.cacheSize ==> |st'.cache| <= cfg.cacheSize)
  {
    var at := FindEntry(st.cache, key);
    if at.Some? {
      WithoutFacts(st.cache, at.value);
      var w := Without(st.cache, at.value);
      assert forall j :: 0 <= j < |w| ==> w[j] in w;
    }
  }

  // ---------------------------------------------------------------- every execution is a move

  /** What a call returns, given the move it made. */
  predicate Answers(r: Result<CallResult, Error>, m: Move) {
    match m
    case Idle(_, _) => r.Err? || r.value.reused || r.value.cacheHit
    case Refuse(_, _, _, result, _, _) => r == Ok(result)
    case Ran(_, _, _, _, end, _, _) => r == if end.Some? then Ok(end.value) else Err(Interrupted)
  }

  lemma SameCache(cfg: Config, st: Runtime)
    ensures CacheFrom(cfg, st, Idle(st.cache, st.ticks))
  {
    assert forall i :: 0 <= i < |st.cache| ==> st.cache[i] in st.cache;
  }

  lemma SetLast<T>(s: seq<T>, a: T, b: T)
    ensures (s + [a])[|s| := b] == s + [b]
  {
  }

  /** The runtime once the handler calls of an invocation are over. */
  function RanState(cfg: Config, st: Runtime, name: string, key: Option<string>, request: Request, calls: nat): Runtime
    requires calls >= st.calls
  {
    st.(records := if cfg.uow then st.records + [Record(name, key, request, Running, "", None)] else st.records,
        acts := st.acts + [Started(st.nextId, name, key, true)] + Calls(st.nextId, name, key, calls - st.calls),
        nextId := st.nextId + 1,
        calls := calls)
  }

  lemma FinishedState(cfg: Config, st: Runtime, m: Move, calls: nat)
    requires m.Ran? && m.end.Some? && m.end.value.id == st.nextId && m.end.value.tool == m.tool
    requires calls == st.calls + m.count
    ensures var s := Finish(cfg, RanState(cfg, st, m.tool, m.key, m.request, calls), m.end.value, m.key, m.request);
            Apply(cfg, st, m) == Remember(s.(cache := m.cache, ticks := m.ticks), m.tool, m.key, m.end.value)
  {
    var s := Finish(cfg, RanState(cfg, st, m.tool, m.key, m.request, calls), m.end.value, m.key, m.request);
    assert s.acts == st.acts + MoveBlock(st, m);
    if cfg.uow {
      SetLast(st.records, Record(m.tool, m.key, m.request, Running, "", None), MoveRecord(m));
    }
  }

  lemma KeptCache(cfg: Config, world: World, st: Runtime, s: Runtime, m: Move, cached: bool, ttl: Positive)
    requires m.Ran? && m.end.Some? && s.cache == st.cache && s.ticks == st.ticks
    requires cached ==> cfg.cacheSize > 0 && m.tool in cfg.registry && Eligible(cfg.registry[m.tool])
    requires var kept := if cached && m.end.value.status == Succeeded
                         then CachePut(cfg, world, s, m.request, m.end.value, ttl) else s;
             m.cache == kept.cache && m.ticks == kept.ticks
    ensures CacheFrom(cfg, st, m)
    ensures var kept := if cached && m.end.value.status == Succeeded
                        then CachePut(cfg, world, s, m.request, m.end.value, ttl) else s;
            kept == s.(cache := m.cache, ticks := m.ticks)
  {
    SameCache(cfg, st);
    if cached {
      PutFacts(cfg, world, s, m.request, m.end.value, ttl);
    }
  }

  /** An invocation that runs and is interrupted before it is finished. */
  function InterruptedMove(cfg: Config, world: World, st: Runtime, name: string, tool: Tool, args: Args,
                           key: Option<string>): Move {
    Ran(name, key, Request(name, tool.version, args), InvokeWithRetries(cfg, world, tool, st.calls).calls - st.calls,
        None, st.cache, st.ticks)
  }

  lemma InterruptedIsLegal(cfg: Config, world: World, st: Runtime, name: string, tool: Tool, args: Args,
                           key: Option<string>)
    requires name in cfg.registry && tool == cfg.registry[name] && Unused(cfg, st, name, key)
    requires world.breaks(st.nextId)
    ensures Legal(cfg, world, st, InterruptedMove(cfg, world, st, name, tool, args, key))
  {
    RetriesAreExact(cfg, world, tool, st.calls);
    SameCache(cfg, st);
  }

  lemma InterruptedIsMove(cfg: Config, world: World, st: Runtime, name: string, tool: Tool, args: Args, ctx: Context,
                          cached: bool)
    requires Unused(cfg, st, name, ctx.key) && Decide(cfg, tool, ctx).Allow? && world.breaks(st.nextId)
    ensures Fresh(cfg, world, st, name, tool, args, ctx, cached) ==
            (Err(Interrupted), Apply(cfg, st, InterruptedMove(cfg, world, st, name, tool, args, ctx.key)))
  {
    var m := InterruptedMove(cfg, world, st, name, tool, args, ctx.key);
    var calls := InvokeWithRetries(cfg, world, tool, st.calls).calls;
    assert RanState(cfg, st, name, ctx.key, m.request, calls).acts == st.acts + MoveBlock(st, m);
  }

  /** The result of a finished invocation and what it leaves in the cache. */
  lemma BuiltFacts(cfg: Config, world: World, tool: Tool, calls: nat, name: string, args: Args, id: nat,
                   request: Request)
    requires request == Request(name, tool.version, args)
    ensures var tried := InvokeWithRetries(cfg, world, tool, calls);
            var r := Built(cfg, name, args, id, request, tried);
            && Describes(r, id, name, request) && r.status in {Succeeded, Status.Failed, TimedOut}
            && 1 <= tried.calls - calls == 1 + |r.retries| <= 1 + cfg.maxRetries
            && (!tool.idempotent || !cfg.retryEnabled ==> tried.calls - calls == 1)
  {
    RetriesAreExact(cfg, world, tool, calls);
  }

  /** An invocation that runs and is finished. */
  function FinishedMove(cfg: Config, world: World, st: Runtime, name: string, tool: Tool, args: Args,
                        key: Option<string>, cached: bool): Move {
    var request := Request(name, tool.version, args);
    var tried := InvokeWithRetries(cfg, world, tool, st.calls);
    var r := Built(cfg, name, args, st.nextId, request, tried);
    var kept := if cached && r.status == Succeeded then CachePut(cfg, world, st, request, r, tool.ttl) else st;
    Ran(name, key, request, tried.calls - st.calls, Some(r), kept.cache, kept.ticks)
  }

  lemma FinishedIsLegal(cfg: Config, world: World, st: Runtime, name: string, tool: Tool, args: Args,
                        key: Option<string>, cached: bool)
    requires name in cfg.registry && tool == cfg.registry[name] && Unused(cfg, st, name, key)
    requires (cached ==> cfg.cacheSize > 0 && Eligible(tool)) && !world.breaks(st.nextId)
    ensures Legal(cfg, world, st, FinishedMove(cfg, world, st, name, tool, args, key, cached))
  {
    var m := FinishedMove(cfg, world, st, name, tool, args, key, cached);
    BuiltFacts(cfg, world, tool, st.calls, name, args, st.nextId, m.request);
    assert CacheFrom(cfg, st, m) by { KeptCache(cfg, world, st, st, m, cached, tool.ttl); }
  }

  /** The state of a begun invocation. */
  function Begun(cfg: Config, st: Runtime, name: string, key: Option<string>, request: Request): Runtime {
    st.(records := if cfg.uow then st.records + [Record(name, key, request, Running, "", None)] else st.records,
        acts := st.acts + [Started(st.nextId, name, key, true)],
        nextId := st.nextId + 1)
  }

  lemma RunFinishes(cfg: Config, world: World, st: Runtime, name: string, tool: Tool, args: Args, key: Option<string>,
                    cached: bool)
    requires !world.breaks(st.nextId)
    ensures var m := FinishedMove(cfg, world, st, name, tool, args, key, cached);
            RunAllowed(cfg, world, Begun(cfg, st, name, key, m.request), st.nextId, name, tool, args, key, cached)
            == (Ok(m.end.value), Apply(cfg, st, m))
  {
    var m := FinishedMove(cfg, world, st, name, tool, args, key, cached);
    FinishedState(cfg, st, m, InvokeWithRetries(cfg, world, tool, st.calls).calls);
  }

  lemma FinishedIsMove(cfg: Config, world: World, st: Runtime, name: string, tool: Tool, args: Args, ctx: Context,
                       cached: bool)
    requires Unused(cfg, st, name, ctx.key) && Decide(cfg, tool, ctx).Allow? && !world.breaks(st.nextId)
    ensures var m := FinishedMove(cfg, world, st, name, tool, args, ctx.key, cached);
            Fresh(cfg, world, st, name, tool, args, ctx, cached) == (Ok(m.end.value), Apply(cfg, st, m))
  {
    RunFinishes(cfg, world, st, name, tool, args, ctx.key, cached);
  }

  lemma AllowedIsMove(cfg: Config, world: World, st: Runtime, name: string, tool: Tool, args: Args, ctx: Context,
                      cached: bool)
    returns (m: Move)
    requires name in cfg.registry && tool == cfg.registry[name] && Unused(cfg, st, name, ctx.key)
    requires Decide(cfg, tool, ctx).Allow? && (cached ==> cfg.cacheSize > 0 && Eligible(tool))
    ensures Legal(cfg, world, st, m) && m.Ran? && m.tool == name && m.key == ctx.key
    ensures Fresh(cfg, world, st, name, tool, args, ctx, cached).1 == Apply(cfg, st, m)
    ensures Answers(Fresh(cfg, world, st, name, tool, args, ctx, cached).0, m)
  {
    if world.breaks(st.nextId) {
      m := InterruptedMove(cfg, world, st, name, tool, args, ctx.key);
      InterruptedIsLegal(cfg, world, st, name, tool, args, ctx.key);
      InterruptedIsMove(cfg, world, st, name, tool, args, ctx, cached);
    } else {
      m := FinishedMove(cfg, world, st, name, tool, args, ctx.key, cached);
      FinishedIsLegal(cfg, world, st, name, tool, args, ctx.key, cached);
      FinishedIsMove(cfg, world, st, name, tool, args, ctx, cached);
    }
  }

  lemma RefusedIsMove(cfg: Config, world: World, st: Runtime, name: string, tool: Tool, args: Args, ctx: Context,
                      cached: bool)
    returns (m: Move)
    requires name in cfg.registry && Unused(cfg, st, name, ctx.key) && !Decide(cfg, tool, ctx).Allow?
    ensures Legal(cfg, world, st, m) && m.Refuse? && m.tool == name && m.key == ctx.key
    ensures Fresh(cfg, world, st, name, tool, args, ctx, cached) == (Ok(m.result), Apply(cfg, st, m))
  {
    var request := Request(name, tool.version, args);
    var r := Refused(name, args, st.nextId, Decide(cfg, tool, ctx));
    m := Refuse(name, ctx.key, request, r, st.cache, st.ticks);
    SameCache(cfg, st);
    assert st.acts + [Started(st.nextId, name, ctx.key, false)] + [FinishedAct(r, ctx.key, request)]
        == st.acts + MoveBlock(st, m);
    if cfg.uow {
      SetLast(st.records, Record(name, ctx.key, request, r.status, "", None), MoveRecord(m));
    }
  }

  lemma FreshIsMove(cfg: Config, world: World, st: Runtime, name: string, tool: Tool, args: Args, ctx: Context,
                    cached: bool)
    returns (m: Move)
    requires name in cfg.registry && tool == cfg.registry[name]
    requires Lookup(cfg, st, name, ctx.key, Request(name, tool.version, args)) == Ok(None)
    requires cached ==> Decide(cfg, tool, ctx).Allow? && cfg.cacheSize > 0 && Eligible(tool)
    ensures Legal(cfg, world, st, m) && (!m.Idle? ==> MoveTool(m) == name && MoveKey(m) == ctx.key)
    ensures Fresh(cfg, world, st, name, tool, args, ctx, cached).1 == Apply(cfg, st, m)
    ensures Answers(Fresh(cfg, world, st, name, tool, args, ctx, cached).0, m)
  {
    if cfg.uow && ctx.key.Some? && FindRecord(st.records, name, ctx.key.value).Some? {
      m := Idle(st.cache, st.ticks);
      SameCache(cfg, st);
      assert st.acts + [] == st.acts;
    } else if Decide(cfg, tool, ctx).Allow? {
      m := AllowedIsMove(cfg, world, st, name, tool, args, ctx, cached);
    } else {
      m := RefusedIsMove(cfg, world, st, name, tool, args, ctx, cached);
    }
  }

  lemma NothingDone(cfg: Config, world: World, st: Runtime)
    ensures Legal(cfg, world, st, Idle(st.cache, st.ticks)) && Apply(cfg, st, Idle(st.cache, st.ticks)) == st
  {
    SameCache(cfg, st);
    assert st.acts + [] == st.acts;
  }

  /** Asking the cache changes nothing but the cache and the clock. */
  lemma ConsultIsIdle(cfg: Config, world: World, st: Runtime, cached: bool, request: Request) returns (idle: Move)
    ensures idle.Idle? && Legal(cfg, world, st, idle) && Apply(cfg, st, idle) == Consult(world, st, cached, request).1
  {
    var st1 := Consult(world, st, cached, request).1;
    idle := Idle(st1.cache, st1.ticks);
    SameCache(cfg, st);
    GetFacts(cfg, world, st, request);
    assert st.acts + [] == st.acts;
  }

  /** A call that passed validation and found nothing under its key: the cache, then a fresh run. */
  lemma LookedUpIsMove(cfg: Config, world: World, st: Runtime, name: string, args: Args, ctx: Context)
    returns (idle: Move, m: Move)
    requires name in cfg.registry && cfg.check(name, args).Some?
    requires Lookup(cfg, st, name, ctx.key, Request(name, cfg.registry[name].version, cfg.check(name, args).value)) ==
             Ok(None)
    ensures idle.Idle? && Legal(cfg, world, st, idle)
    ensures Legal(cfg, world, Apply(cfg, st, idle), m)
    ensures !m.Idle? ==> MoveTool(m) == name && MoveKey(m) == ctx.key
    ensures ExecutePlain(cfg, world, st, name, args, ctx).1 == Apply(cfg, Apply(cfg, st, idle), m)
    ensures Answers(ExecutePlain(cfg, world, st, name, args, ctx).0, m)
  {
    var tool, checked := cfg.registry[name], cfg.check(name, args).value;
    var request := Request(name, tool.version, checked);
    var cached := Decide(cfg, tool, ctx).Allow? && cfg.cacheSize > 0 && Eligible(tool);
    var (hit, st1) := Consult(world, st, cached, request);
    idle := ConsultIsIdle(cfg, world, st, cached, request);
    if hit.Some? {
      m := Idle(st1.cache, st1.ticks);
      NothingDone(cfg, world, st1);
    } else {
      ConsultKeepsLookup(cfg, world, st, cached, request, name, ctx.key);
      m := FreshIsMove(cfg, world, st1, name, tool, checked, ctx, cached);
    }
  }

  lemma ConsultKeepsLookup(cfg: Config, world: World, st: Runtime, cached: bool, request: Request, name: string,
                           key: Option<string>)
    ensures Lookup(cfg, Consult(world, st, cached, request).1, name, key, request) ==
             Lookup(cfg, st, name, key, request)
  {
  }

  /** One execution without fallback is one legal move; after a cache miss, the miss comes first. */
  lemma PlainIsMove(cfg: Config, world: World, st: Runtime, name: string, args: Args, ctx: Context)
    returns (idle: Move, m: Move)
    ensures idle.Idle? && Legal(cfg, world, st, idle)
    ensures Legal(cfg, world, Apply(cfg, st, idle), m)
    ensures !m.Idle? ==> MoveTool(m) == name && MoveKey(m) == ctx.key
    ensures ExecutePlain(cfg, world, st, name, args, ctx).1 == Apply(cfg, Apply(cfg, st, idle), m)
    ensures Answers(ExecutePlain(cfg, world, st, name, args, ctx).0, m)
  {
    if name in cfg.registry && cfg.check(name, args).Some? &&
       Lookup(cfg, st, name, ctx.key, Request(name, cfg.registry[name].version, cfg.check(name, args).value)) ==
           Ok(None) {
      idle, m := LookedUpIsMove(cfg, world, st, name, args, ctx);
    } else {
      idle := Idle(st.cache, st.ticks);
      m := idle;
      NothingDone(cfg, world, st);
    }
  }

  function MoveTool(m: Move): string
    requires !m.Idle?
  {
    m.tool
  }

  function MoveKey(m: Move): Option<string>
    requires !m.Idle?
  {
    m.key
  }
}
