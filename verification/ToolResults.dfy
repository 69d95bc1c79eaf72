/** What one call of the runtime hands out, told from what its handler returned: the text, the status and
    the waits of a new invocation, when a cached result may be given out, and the fallback. */
module ToolResults {
  import opened Basics
  import opened Events
  import opened ToolSpec
  import opened ToolMoves
  import opened ToolRuns
  import opened ToolAudit
  import opened ToolPolicy

  // ---------------------------------------------------------------- transient failures

  predicate Keyword(part: string) {
    || part == "timeout" || part == "timed out" || part == "connection" || part == "connect" || part == "network"
    || part == "unreachable" || part == "bad gateway" || part == "service unavailable" || part == "502"
    || part == "503" || part == "ssl"
  }

  /** The same letter in either case. */
  predicate SameLetter(c: char, lower: char) {
    c == lower || ('a' <= lower <= 'z' && 'A' <= c <= 'Z' && c as int + 32 == lower as int)
  }

  predicate SameLetters(text: string, part: string) {
    |text| == |part| && forall i :: 0 <= i < |text| ==> SameLetter(text[i], part[i])
  }

  predicate MentionsAt(text: string, i: nat, part: string) {
    i + |part| <= |text| && SameLetters(text[i..i + |part|], part)
  }

  /** The text holds one of the words that tell a transient failure, in any letter case. */
  ghost predicate Transient(text: string) { exists part, i :: Keyword(part) && MentionsAt(text, i, part) }

  lemma LowerSame(text: string, i: nat, part: string)
    requires forall k :: 0 <= k < |part| ==> !('A' <= part[k] <= 'Z')
    ensures StandsAt(Lower(text), i, part) <==> MentionsAt(text, i, part)
  {
    if i + |part| <= |text| {
      var lower := Lower(text)[i..i + |part|];
      assert forall k :: 0 <= k < |part| ==> lower[k] == LowerChar(text[i..i + |part|][k]);
      if SameLetters(text[i..i + |part|], part) {
        assert lower == part;
      }
    }
  }

  lemma KeywordsAre(part: string)
    ensures Keyword(part) <==> exists k :: 0 <= k < |KEYWORDS| && KEYWORDS[k] == part
    ensures Keyword(part) ==> forall k :: 0 <= k < |part| ==> !('A' <= part[k] <= 'Z')
  {
    if Keyword(part) {
      var k := if part == "timeout" then 0 else if part == "timed out" then 1 else if part == "connection" then 2
               else if part == "connect" then 3 else if part == "network" then 4 else if part == "unreachable" then 5
               else if part == "bad gateway" then 6 else if part == "service unavailable" then 7
               else if part == "502" then 8 else if part == "503" then 9 else 10;
      assert KEYWORDS[k] == part;
    }
  }

  /** A failure is retried exactly if its text names a transient one. */
  lemma RetryableExactly(text: string)
    ensures Retryable(Some(text)) <==> Transient(text)
  {
    if Retryable(Some(text)) {
      var k :| 0 <= k < |KEYWORDS| && Contains(Lower(text), KEYWORDS[k]);
      var i :| 0 <= i <= |Lower(text)| && StandsAt(Lower(text), i, KEYWORDS[k]);
      KeywordsAre(KEYWORDS[k]);
      LowerSame(text, i, KEYWORDS[k]);
    }
    if Transient(text) {
      var part, i :| Keyword(part) && MentionsAt(text, i, part);
      KeywordsAre(part);
      LowerSame(text, i, part);
      var k :| 0 <= k < |KEYWORDS| && KEYWORDS[k] == part;
      assert Contains(Lower(text), KEYWORDS[k]);
    }
  }

  // ---------------------------------------------------------------- waits

  /** The first wait is the base, and each further one the factor times as long. */
  predicate Grows(cfg: Config, retries: seq<RetryEvent>) {
    && (retries != [] ==> retries[0].delay == cfg.backoff)
    && (forall i :: 0 < i < |retries| ==> retries[i].delay == retries[i - 1].delay * cfg.factor)
  }

  lemma DelayGrows(cfg: Config, n: nat)
    requires n >= 1
    ensures Delay(cfg, 1) == cfg.backoff && Delay(cfg, n + 1) == Delay(cfg, n) * cfg.factor
  {
    assert Pow(cfg.factor, n) == cfg.factor * Pow(cfg.factor, n - 1);
    var p := Pow(cfg.factor, n - 1);
    assert cfg.backoff * (cfg.factor * p) == cfg.backoff * p * cfg.factor;
  }

  lemma WaitsGrow(cfg: Config, retries: seq<RetryEvent>)
    requires forall i :: 0 <= i < |retries| ==> retries[i].delay == Delay(cfg, i + 1)
    ensures Grows(cfg, retries)
  {
    DelayGrows(cfg, 1);
    forall i | 0 < i < |retries| ensures retries[i].delay == retries[i - 1].delay * cfg.factor {
      DelayGrows(cfg, i);
    }
  }

  // ---------------------------------------------------------------- a new invocation

  /** What a handler left: its text, how it ended, and whether it is worth another try. */
  function Ended(raw: Raw): (string, Status) {
    match raw
    case Returned(text) => (text, Succeeded)
    case TookTooLong(text) => ("tool timed out after " + text, TimedOut)
    case Threw(text) => ("tool failed: " + text, Status.Failed)
  }

  ghost predicate TriedAgain(raw: Raw) { !raw.Returned? && Transient(Ended(raw).0) }

  lemma TriedAgainExactly(raw: Raw)
    ensures WorthRetrying(Invoke(raw)) <==> TriedAgain(raw)
    ensures Invoke(raw).output == Ended(raw).0 && Invoke(raw).status == Ended(raw).1
    ensures !raw.Returned? ==> Invoke(raw).error == Some(Ended(raw).0)
  {
    RetryableExactly(Ended(raw).0);
  }

  /** The redacted text, or the beginning of one that is longer than allowed, with a note, while the whole
      is kept as an artifact; without a unit of work there is nowhere to keep it. */
  predicate Shows(cfg: Config, text: string, r: CallResult) {
    var redacted := cfg.redact(text);
    if |text| <= cfg.inlineLimit || !cfg.uow then r.output == redacted && r.artifact == None && !r.truncated
    else
      && r.output == redacted[..Min(|redacted|, cfg.inlineLimit)] + "\n\n[full output saved as an artifact]"
      && r.artifact == Some(r.id) && r.truncated
  }

  /** Retry `i` is numbered from 1 and answers a transient failure of the call before it. */
  ghost predicate Answers(world: World, first: nat, retries: seq<RetryEvent>, i: nat)
    requires i < |retries|
  {
    TriedAgain(world.handler(first + i)) && retries[i].attempt == i + 1 &&
    retries[i].error == Ended(world.handler(first + i)).0
  }

  /** The handler calls of an invocation, from number `first`: one, and one more for each transient failure
      while retries are on, the tool may be called again and the allowance lasts. */
  ghost predicate Tries(cfg: Config, world: World, tool: Tool, first: nat, next: nat, retries: seq<RetryEvent>) {
    && next == first + 1 + |retries|
    && (!cfg.retryEnabled || !tool.idempotent ==> retries == [])
    && (cfg.retryEnabled && tool.idempotent ==>
          |retries| == cfg.maxRetries || (|retries| < cfg.maxRetries && !TriedAgain(world.handler(next - 1))))
    && (forall i :: 0 <= i < |retries| ==> Answers(world, first, retries, i))
    && Grows(cfg, retries)
  }

  lemma TriesExactly(cfg: Config, world: World, tool: Tool, calls: nat)
    ensures var t := InvokeWithRetries(cfg, world, tool, calls); Tries(cfg, world, tool, calls, t.calls, t.retries)
  {
    var t := InvokeWithRetries(cfg, world, tool, calls);
    RetriesAreExact(cfg, world, tool, calls);
    TriedAgainExactly(world.handler(t.calls - 1));
    forall i | 0 <= i < |t.retries| ensures Answers(world, calls, t.retries, i) {
      assert RetryAnswers(cfg, world, calls, t.retries, i);
      TriedAgainExactly(world.handler(calls + i));
    }
    forall i | 0 <= i < |t.retries| ensures t.retries[i].delay == Delay(cfg, i + 1) {
      assert RetryAnswers(cfg, world, calls, t.retries, i);
    }
    WaitsGrow(cfg, t.retries);
  }

  /** What is handed out for a new invocation that ran to its end. */
  ghost predicate Runs(cfg: Config, world: World, st: Runtime, name: string, args: Args, r: CallResult, calls: nat)
    requires name in cfg.registry
  {
    && calls > st.calls
    && r.status == Ended(world.handler(calls - 1)).1 && Shows(cfg, Ended(world.handler(calls - 1)).0, r)
    && r.tool == name && r.args == args && r.id == st.nextId
    && r.request == Some(Request(name, cfg.registry[name].version, args))
    && Tries(cfg, world, cfg.registry[name], st.calls, calls, r.retries)
    && !r.reused && !r.cacheHit && r.fallbackFrom == None
  }

  /** What is handed out for one that was refused. */
  predicate TurnedDown(cfg: Config, st: Runtime, name: string, args: Args, ctx: Context, r: CallResult)
    requires name in cfg.registry
  {
    && r.tool == name && r.args == args && r.id == st.nextId && r.request == None && r.retries == []
    && r.output == (if Denies(cfg, cfg.registry[name], ctx) then "denied" else "approval required")
    && r.artifact == None && !r.truncated && !r.reused && !r.cacheHit && r.fallbackFrom == None
  }

  lemma AllowedRuns(cfg: Config, world: World, st: Runtime, begun: Runtime, name: string, args: Args,
                    key: Option<string>, cached: bool)
    requires name in cfg.registry && begun.calls == st.calls
    requires RunAllowed(cfg, world, begun, st.nextId, name, cfg.registry[name], args, key, cached).0.Ok?
    ensures var (r, next) := RunAllowed(cfg, world, begun, st.nextId, name, cfg.registry[name], args, key, cached);
            Runs(cfg, world, st, name, args, r.value, next.calls)
  {
    RetriesAreExact(cfg, world, cfg.registry[name], st.calls);
    var t := InvokeWithRetries(cfg, world, cfg.registry[name], st.calls);
    TriesExactly(cfg, world, cfg.registry[name], st.calls);
    TriedAgainExactly(world.handler(t.calls - 1));
  }

  lemma FreshReturns(cfg: Config, world: World, st: Runtime, name: string, args: Args, ctx: Context, cached: bool)
    requires name in cfg.registry
    ensures var (r, next) := Fresh(cfg, world, st, name, cfg.registry[name], args, ctx, cached);
            r.Ok? ==> if Permitted(cfg, cfg.registry[name], ctx)
                      then Runs(cfg, world, st, name, args, r.value, next.calls)
                      else TurnedDown(cfg, st, name, args, ctx, r.value)
  {
    var tool := cfg.registry[name];
    DecidesRight(cfg, tool, ctx);
    if Permitted(cfg, tool, ctx) && Fresh(cfg, world, st, name, tool, args, ctx, cached).0.Ok? {
      var begun := Begin(cfg, st, name, ctx.key, Request(name, tool.version, args), true, Running);
      AllowedRuns(cfg, world, st, begun.value, name, args, ctx.key, cached);
    }
  }

  /** For every call that starts an invocation of its own and returns: it hands out what its last handler
      call left, or the refusal. */
  lemma NewInvocationsReturn(cfg: Config, world: World, st: Runtime, name: string, args: Args, ctx: Context)
    requires ExecutePlain(cfg, world, st, name, args, ctx).1.nextId > st.nextId
    ensures name in cfg.registry && cfg.check(name, args).Some?
    ensures var (r, next) := ExecutePlain(cfg, world, st, name, args, ctx);
            var checked := cfg.check(name, args).value;
            r.Ok? ==> if Permitted(cfg, cfg.registry[name], ctx)
                      then Runs(cfg, world, st, name, checked, r.value, next.calls)
                      else TurnedDown(cfg, st, name, checked, ctx, r.value)
  {
    var tool, checked := cfg.registry[name], cfg.check(name, args).value;
    var request := Request(name, tool.version, checked);
    var cached := Decide(cfg, tool, ctx).Allow? && cfg.cacheSize > 0 && Eligible(tool);
    var (hit, st1) := Consult(world, st, cached, request);
    GetFacts(cfg, world, st, request);
    assert st1 == st.(cache := st1.cache, ticks := st1.ticks);
    FreshReturns(cfg, world, st1, name, checked, ctx, cached);
  }

  // ---------------------------------------------------------------- the cache

  /** Results are cached only for tools that are read-only: cacheable, idempotent and of the lowest risk. */
  predicate MayBeCached(cfg: Config, name: string) {
    name in cfg.registry && cfg.cacheSize > 0 &&
    cfg.registry[name].cacheable && cfg.registry[name].idempotent && cfg.registry[name].risk == 0
  }

  /** After any calls and restarts: a call that is not a repetition of its key is answered from the cache
      exactly if its tool may be cached, the call is permitted, and the cache holds a result for the same
      request that is not older than its lifetime. */
  lemma CachedExactly(cfg: Config, world: World, ops: seq<Op>, name: string, args: Args, ctx: Context)
    requires name in cfg.registry && cfg.check(name, args).Some?
    requires Lookup(cfg, After(cfg, world, ops), name, ctx.key,
                    Request(name, cfg.registry[name].version, cfg.check(name, args).value)) == Ok(None)
    ensures var st := After(cfg, world, ops);
            var (r, next) := ExecutePlain(cfg, world, st, name, args, ctx);
            var request := Request(name, cfg.registry[name].version, cfg.check(name, args).value);
            && (r.Ok? && r.value.cacheHit <==>
                  MayBeCached(cfg, name) && Permitted(cfg, cfg.registry[name], ctx) && HasLive(world, st, request))
            && (r.Ok? && r.value.cacheHit ==> next.acts == st.acts && next.nextId == st.nextId)
  {
    var st := After(cfg, world, ops);
    var tool, checked := cfg.registry[name], cfg.check(name, args).value;
    var request := Request(name, tool.version, checked);
    GoodCacheAlways(cfg, world, ops);
    DecidesRight(cfg, tool, ctx);
    FindsLive(world, st, request);
    GetFacts(cfg, world, st, request);
    var cached := Decide(cfg, tool, ctx).Allow? && cfg.cacheSize > 0 && Eligible(tool);
    var (hit, st1) := Consult(world, st, cached, request);
    FreshReturns(cfg, world, st1, name, checked, ctx, cached);
  }

  /** A restart forgets what was cached: right after one no call is answered from the cache. */
  lemma RestartEmptiesTheCache(cfg: Config, world: World, ops: seq<Op>, name: string, args: Args, ctx: Context)
    requires name in cfg.registry && cfg.check(name, args).Some?
    requires Lookup(cfg, After(cfg, world, ops + [Restart]), name, ctx.key,
                    Request(name, cfg.registry[name].version, cfg.check(name, args).value)) == Ok(None)
    ensures var r := ExecutePlain(cfg, world, After(cfg, world, ops + [Restart]), name, args, ctx).0;
            r.Ok? ==> !r.value.cacheHit
  {
    assert (ops + [Restart])[..|ops|] == ops;
    CachedExactly(cfg, world, ops + [Restart], name, args, ctx);
  }

  // ---------------------------------------------------------------- the fallback

  /** A failure of this very call, of a tool that names another one. */
  predicate FallsBack(cfg: Config, name: string, r: CallResult) {
    && name in cfg.registry && cfg.registry[name].fallback != "" && cfg.registry[name].fallback != name
    && (r.status == Status.Failed || r.status == TimedOut) && !r.reused && !r.cacheHit
  }

  /** The other tool's result under a heading that names both, and otherwise as it is. */
  predicate Heads(primary: string, f: CallResult, r: CallResult) {
    && r.output == (if f.status == Succeeded then "[switched from " + primary + " to " + f.tool + "]\n"
                    else "[" + primary + " and " + f.tool + " both failed]\n") + f.output
    && r.fallbackFrom == Some(primary) && r == f.(output := r.output, fallbackFrom := r.fallbackFrom)
  }

  /** When the other tool is called, with which arguments and context, and what is handed out: its result,
      or the first one if it is refused as an application error. */
  lemma FallbackExactly(cfg: Config, world: World, st: Runtime, name: string, args: Args, ctx: Context)
    ensures var (r, st1) := ExecutePlain(cfg, world, st, name, args, ctx);
            var (out, st2) := Execute(cfg, world, st, name, args, ctx);
            if r.Err? || !FallsBack(cfg, name, r.value) then out == r && st2 == st1
            else
              var (f, st3) := ExecutePlain(cfg, world, st1, cfg.registry[name].fallback, args, ctx);
              && st2 == st3
              && (f.Ok? ==> out.Ok? && Heads(name, f.value, out.value))
              && (f.Err? ==> out == if f.error in {NotFound, BadArguments, KeyReused} then r else f)
  {
  }
}
