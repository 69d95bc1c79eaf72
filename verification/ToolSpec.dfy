/** The tool execution pipeline as a function on the runtime's state: policy, idempotency,
    result cache, bounded retry, audit records and one-level fallback. */
module ToolSpec {
  import opened Basics
  import opened Events

  // ---------------------------------------------------------------- tools and calls

  type Positive = n: nat | n > 0 witness 1

  type Args = map<string, string>

  /** `risk` is 0 for low up to 3 for critical; an empty `fallback` or `featureModule` means none. */
  datatype Tool = Tool(
    version: string,
    risk: nat,
    permissions: set<string>,
    idempotent: bool,
    cacheable: bool,
    ttl: Positive,
    fallback: string,
    featureModule: string)

  /** What the request hash is computed from; the hash is taken to be injective. */
  datatype Request = Request(tool: string, version: string, args: Args)

  datatype Context = Context(key: Option<string>, permissions: set<string>, approved: bool)

  datatype RetryEvent = RetryEvent(attempt: nat, delay: real, error: string)

  datatype CallResult = CallResult(
    tool: string,
    args: Args,
    output: string,
    id: nat,
    status: Status,
    artifact: Option<nat>,
    truncated: bool,
    request: Option<Request>,
    retries: seq<RetryEvent>,
    reused: bool,
    cacheHit: bool,
    fallbackFrom: Option<string>)

  datatype Error = NotFound | BadArguments | KeyReused | DuplicateRecord | Interrupted

  /** Errors raised as application errors: the only ones a fallback attempt swallows. */
  predicate IsAppError(e: Error) { e.NotFound? || e.BadArguments? || e.KeyReused? }

  datatype Record = Record(
    tool: string,
    key: Option<string>,
    request: Request,
    status: Status,
    output: string,
    artifact: Option<nat>)

  datatype Entry = Entry(key: Request, value: CallResult, storedAt: nat, ttl: nat)

  /** Audit points of one invocation; `Called` is one run of a handler. */
  datatype Act =
    | Started(id: nat, tool: string, key: Option<string>, executable: bool)
    | Called(id: nat, tool: string, key: Option<string>)
    | Finished(id: nat, tool: string, key: Option<string>, status: Status, request: Request, output: string,
        artifact: Option<nat>)

  datatype Runtime = Runtime(
    memory: map<(string, string), CallResult>,
    records: seq<Record>,
    cache: seq<Entry>,
    acts: seq<Act>,
    nextId: nat,
    calls: nat,
    ticks: nat)

  function Empty(): Runtime { Runtime(map[], [], [], [], 0, 0, 0) }

  /** `uow`: a unit of work is given, so invocations are recorded. `cacheSize` 0: no cache. */
  datatype Config = Config(
    registry: map<string, Tool>,
    check: (string, Args) -> Option<Args>,
    disabled: set<string>,
    uow: bool,
    autoApprove: nat,
    redact: string -> string,
    inlineLimit: nat,
    cacheSize: nat,
    retryEnabled: bool,
    maxRetries: nat,
    backoff: real,
    factor: real)

  datatype Raw = Returned(text: string) | TookTooLong(text: string) | Threw(text: string)

  /** The outside world: the n-th handler call, the n-th clock reading, and whether storing the
      output of an invocation is interrupted. */
  datatype World = World(handler: nat -> Raw, clock: nat -> nat, breaks: nat -> bool)

  // ---------------------------------------------------------------- policy

  datatype Decision = Allow | Deny | RequireApproval

  function Decide(cfg: Config, tool: Tool, ctx: Context): Decision {
    if tool.featureModule != "" && tool.featureModule in cfg.disabled then Deny
    else if tool.permissions - ctx.permissions != {} then Deny
    else if tool.risk > cfg.autoApprove && !ctx.approved then RequireApproval
    else Allow
  }

  function RefusedStatus(d: Decision): Status { if d.Deny? then Denied else ApprovalRequired }

  // ---------------------------------------------------------------- idempotency

  predicate IsRecordOf(r: Record, tool: string, key: string) { r.tool == tool && r.key == Some(key) }

  /** The record of a tool and key; the store keeps at most one. */
  function FindRecord(records: seq<Record>, tool: string, key: string): (found: Option<nat>)
    ensures found.Some? ==> found.value < |records| && IsRecordOf(records[found.value], tool, key)
    ensures found.None? <==> forall i :: 0 <= i < |records| ==> !IsRecordOf(records[i], tool, key)
  {
    if records == [] then None
    else
      var n := |records| - 1;
      if IsRecordOf(records[n], tool, key) then Some(n)
      else FindRecord(records[..n], tool, key)
  }

  function FromRecord(r: Record, id: nat, request: Request): CallResult {
    CallResult(r.tool, r.request.args, r.output, id, r.status, r.artifact, r.artifact.Some?,
               Some(request), [], false, false, None)
  }

  /** A remembered or recorded call of the same tool and key; a different request is refused. */
  function Lookup(cfg: Config, st: Runtime, tool: string, key: Option<string>, request: Request)
    : Result<Option<CallResult>, Error>
  {
    if key.None? || key.value == "" then Ok(None)
    else if (tool, key.value) in st.memory then
      var found := st.memory[(tool, key.value)];
      if found.request.Some? && found.request.value != request then Err(KeyReused) else Ok(Some(found))
    else if !cfg.uow then Ok(None)
    else
      match FindRecord(st.records, tool, key.value)
      case None => Ok(None)
      case Some(id) =>
        if st.records[id].request != request then Err(KeyReused)
        else Ok(Some(FromRecord(st.records[id], id, request)))
  }

  /** The result handed out for a call that is not executed again. */
  function Again(found: CallResult): CallResult {
    found.(status := if found.status == Succeeded then Deduplicated else found.status, reused := true)
  }

  // ---------------------------------------------------------------- result cache

  predicate Eligible(tool: Tool) { tool.cacheable && tool.idempotent && tool.risk == 0 }

  function FindEntry(cache: seq<Entry>, key: Request): (found: Option<nat>)
    ensures found.Some? ==> found.value < |cache| && cache[found.value].key == key
    ensures found.None? ==> forall i :: 0 <= i < |cache| ==> cache[i].key != key
  {
    if cache == [] then None
    else if cache[|cache| - 1].key == key then Some(|cache| - 1)
    else FindEntry(cache[..|cache| - 1], key)
  }

  function Without(cache: seq<Entry>, i: nat): seq<Entry>
    requires i < |cache|
  {
    cache[..i] + cache[i + 1..]
  }

  /** A hit moves the entry to the young end; an expired entry is dropped. */
  function CacheGet(world: World, st: Runtime, key: Request): (Option<CallResult>, Runtime) {
    match FindEntry(st.cache, key)
    case None => (None, st)
    case Some(i) =>
      var e := st.cache[i];
      var st' := st.(ticks := st.ticks + 1);
      if world.clock(st.ticks) - e.storedAt > e.ttl as int then (None, st'.(cache := Without(st.cache, i)))
      else (Some(e.value), st'.(cache := Without(st.cache, i) + [e]))
  }

  /** The cache is asked only for calls that may use it. */
  function Consult(world: World, st: Runtime, cached: bool, key: Request): (Option<CallResult>, Runtime) {
    if cached then CacheGet(world, st, key) else (None, st)
  }

  function CachePut(cfg: Config, world: World, st: Runtime, key: Request, value: CallResult, ttl: nat): Runtime {
    var at := FindEntry(st.cache, key);
    var rest :=
      if at.Some? then Without(st.cache, at.value)
      else if st.cache != [] && |st.cache| >= cfg.cacheSize then st.cache[1..]
      else st.cache;
    st.(cache := rest + [Entry(key, value, world.clock(st.ticks), ttl)], ticks := st.ticks + 1)
  }

  // ---------------------------------------------------------------- invocation with retries

  datatype Invocation = Invocation(output: string, status: Status, error: Option<string>)

  function Invoke(raw: Raw): Invocation {
    match raw
    case Returned(text) => Invocation(text, Succeeded, None)
    case TookTooLong(text) => Invocation("tool timed out after " + text, TimedOut, Some("tool timed out after " + text))
    case Threw(text) => Invocation("tool failed: " + text, Status.Failed, Some("tool failed: " + text))
  }

  const KEYWORDS: seq<string> := [
    "timeout", "timed out", "connection", "connect", "network", "unreachable",
    "bad gateway", "service unavailable", "502", "503", "ssl"]

  function LowerChar(c: char): char { if 'A' <= c <= 'Z' then ((c as int) + 32) as char else c }

  function Lower(s: string): string { seq(|s|, i requires 0 <= i < |s| => LowerChar(s[i])) }

  predicate StandsAt(s: string, i: int, part: string) { 0 <= i <= |s| - |part| && s[i..i + |part|] == part }

  predicate Contains(s: string, part: string) { exists i :: 0 <= i <= |s| && StandsAt(s, i, part) }

  predicate Retryable(error: Option<string>) {
    error.Some? && exists k :: 0 <= k < |KEYWORDS| && Contains(Lower(error.value), KEYWORDS[k])
  }

  function Pow(base: real, n: nat): real { if n == 0 then 1.0 else base * Pow(base, n - 1) }

  function Delay(cfg: Config, attempt: nat): real
    requires attempt >= 1
  {
    cfg.backoff * Pow(cfg.factor, attempt - 1)
  }

  predicate WorthRetrying(i: Invocation) {
    (i.status == Status.Failed || i.status == TimedOut) && Retryable(i.error)
  }

  datatype Tried = Tried(outcome: Invocation, retries: seq<RetryEvent>, calls: nat)

  /** The retry loop, from its state after `attempt` retries. */
  function RetryFrom(cfg: Config, world: World, calls: nat, attempt: nat, outcome: Invocation, retries: seq<RetryEvent>)
    : (t: Tried)
    ensures t.calls >= calls
    decreases cfg.maxRetries - attempt
  {
    if attempt < cfg.maxRetries && WorthRetrying(outcome) then
      RetryFrom(cfg, world, calls + 1, attempt + 1, Invoke(world.handler(calls)),
                retries + [RetryEvent(attempt + 1, Delay(cfg, attempt + 1), outcome.error.value)])
    else Tried(outcome, retries, calls)
  }

  function InvokeWithRetries(cfg: Config, world: World, tool: Tool, calls: nat): (t: Tried)
    ensures t.calls > calls
  {
    var first := Invoke(world.handler(calls));
    if !cfg.retryEnabled || !tool.idempotent then Tried(first, [], calls + 1)
    else RetryFrom(cfg, world, calls + 1, 0, first, [])
  }

  // ---------------------------------------------------------------- one execution

  /** The new record, refused when the store already holds one for the same tool and key. */
  function Begin(cfg: Config, st: Runtime, name: string, key: Option<string>, request: Request, executable: bool,
                 status: Status)
    : Result<Runtime, Error>
  {
    if cfg.uow && key.Some? && FindRecord(st.records, name, key.value).Some? then Err(DuplicateRecord)
    else
      Ok(st.(records := if cfg.uow then st.records + [Record(name, key, request, status, "", None)] else st.records,
             acts := st.acts + [Started(st.nextId, name, key, executable)],
             nextId := st.nextId + 1))
  }

  function FinishedAct(r: CallResult, key: Option<string>, request: Request): Act {
    Finished(r.id, r.tool, key, r.status, request, r.output, r.artifact)
  }

  /** The finished record; the one begun last. */
  function Finish(cfg: Config, st: Runtime, r: CallResult, key: Option<string>, request: Request): Runtime {
    st.(records :=
          if cfg.uow && st.records != [] then
            var n := |st.records| - 1;
            st.records[n := st.records[n].(status := r.status, output := r.output, artifact := r.artifact)]
          else st.records,
        acts := st.acts + [FinishedAct(r, key, request)])
  }

  function Calls(id: nat, name: string, key: Option<string>, n: nat): seq<Act> {
    seq(n, _ => Called(id, name, key))
  }

  function Take(s: string, n: nat): string { if |s| <= n then s else s[..n] }

  const ARTIFACT_NOTE := "\n\n[full output saved as an artifact]"

  /** The redacted output; a long one is stored apart and cut, when there is a store. */
  function Stored(cfg: Config, output: string, id: nat): (string, Option<nat>) {
    if |output| <= cfg.inlineLimit || !cfg.uow then (cfg.redact(output), None)
    else (Take(cfg.redact(output), cfg.inlineLimit) + ARTIFACT_NOTE, Some(id))
  }

  function Built(cfg: Config, name: string, args: Args, id: nat, request: Request, tried: Tried): CallResult {
    var (preview, artifact) := Stored(cfg, tried.outcome.output, id);
    CallResult(name, args, preview, id, tried.outcome.status, artifact, artifact.Some?, Some(request),
               tried.retries, false, false, None)
  }

  function Remember(st: Runtime, name: string, key: Option<string>, r: CallResult): Runtime {
    if key.Some? && key.value != "" && r.status == Succeeded
    then st.(memory := st.memory[(name, key.value) := r]) else st
  }

  function Refused(name: string, args: Args, id: nat, d: Decision): CallResult {
    CallResult(name, args, if d.Deny? then "denied" else "approval required", id, RefusedStatus(d), None, false,
               None, [], false, false, None)
  }

  /** The handler calls of an invocation that may run, and its end unless it is interrupted. */
  function RunAllowed(cfg: Config, world: World, begun: Runtime, id: nat, name: string, tool: Tool, args: Args,
                      key: Option<string>, cached: bool): (Result<CallResult, Error>, Runtime)
  {
    var request := Request(name, tool.version, args);
    var tried := InvokeWithRetries(cfg, world, tool, begun.calls);
    var ran := begun.(calls := tried.calls, acts := begun.acts + Calls(id, name, key, tried.calls - begun.calls));
    if world.breaks(id) then (Err(Interrupted), ran)
    else
      var r := Built(cfg, name, args, id, request, tried);
      var finished := Finish(cfg, ran, r, key, request);
      var kept := if cached && r.status == Succeeded then CachePut(cfg, world, finished, request, r, tool.ttl)
          else finished;
      (Ok(r), Remember(kept, name, key, r))
  }

  /** A call that is neither deduplicated nor served from the cache. */
  function Fresh(cfg: Config, world: World, st: Runtime, name: string, tool: Tool, args: Args, ctx: Context,
                 cached: bool)
    : (Result<CallResult, Error>, Runtime)
  {
    var request := Request(name, tool.version, args);
    var decision := Decide(cfg, tool, ctx);
    match Begin(cfg, st, name, ctx.key, request, decision.Allow?, if decision.Allow? then Running
        else RefusedStatus(decision))
    case Err(e) => (Err(e), st)
    case Ok(begun) =>
      if decision.Allow? then RunAllowed(cfg, world, begun, st.nextId, name, tool, args, ctx.key, cached)
      else
        var r := Refused(name, args, st.nextId, decision);
        (Ok(r), Finish(cfg, begun, r, ctx.key, request))
  }

  /** Validation, idempotency, cache and execution of one tool, without fallback. */
  function ExecutePlain(cfg: Config, world: World, st: Runtime, name: string, args: Args, ctx: Context)
    : (Result<CallResult, Error>, Runtime)
  {
    if name !in cfg.registry then (Err(NotFound), st)
    else
      match cfg.check(name, args)
      case None => (Err(BadArguments), st)
      case Some(checked) =>
        var tool := cfg.registry[name];
        var request := Request(name, tool.version, checked);
        match Lookup(cfg, st, name, ctx.key, request)
        case Err(e) => (Err(e), st)
        case Ok(Some(found)) => (Ok(Again(found)), st)
        case Ok(None) =>
          var cached := Decide(cfg, tool, ctx).Allow? && cfg.cacheSize > 0 && Eligible(tool);
          var (hit, st1) := Consult(world, st, cached, request);
          if hit.Some? then (Ok(hit.value.(args := checked, cacheHit := true)), st1)
          else Fresh(cfg, world, st1, name, tool, checked, ctx, cached)
  }

  function MarkFallback(primary: string, r: CallResult): CallResult {
    r.(output := (if r.status == Succeeded then "[switched from " + primary + " to " + r.tool + "]\n"
                  else "[" + primary + " and " + r.tool + " both failed]\n") + r.output,
       fallbackFrom := Some(primary))
  }

  /** A fresh failure of a tool that names another tool to fall back to. Deduplicated and
      cached results return before the fallback is considered. */
  predicate WantsFallback(cfg: Config, name: string, r: Result<CallResult, Error>) {
    r.Ok? && !r.value.reused && !r.value.cacheHit && name in cfg.registry &&
    (r.value.status == Status.Failed || r.value.status == TimedOut) &&
    cfg.registry[name].fallback != "" && cfg.registry[name].fallback != name
  }

  /** One call of the runtime: the tool, then at most one fallback with the same arguments. */
  function Execute(cfg: Config, world: World, st: Runtime, name: string, args: Args, ctx: Context)
    : (Result<CallResult, Error>, Runtime)
  {
    var (r, st1) := ExecutePlain(cfg, world, st, name, args, ctx);
    if !WantsFallback(cfg, name, r) then (r, st1)
    else
      var (f, st2) := ExecutePlain(cfg, world, st1, cfg.registry[name].fallback, args, ctx);
      match f
      case Err(e) => if IsAppError(e) then (r, st2) else (Err(e), st2)
      case Ok(result) => (Ok(MarkFallback(name, result)), st2)
  }

  datatype Op = Execution(name: string, args: Args, ctx: Context) | Restart

  /** A process restart forgets the in-memory map and the result cache. */
  function Restarted(st: Runtime): Runtime { st.(memory := map[], cache := []) }

  /** The runtime after any serialized sequence of calls and restarts. */
  function After(cfg: Config, world: World, ops: seq<Op>): Runtime {
    if ops == [] then Empty()
    else
      var st := After(cfg, world, ops[..|ops| - 1]);
      match ops[|ops| - 1]
      case Execution(name, args, ctx) => Execute(cfg, world, st, name, args, ctx).1
      case Restart => Restarted(st)
  }
}
