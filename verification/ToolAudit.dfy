/** The audit trail of every run: bracketed invocations, bounded handler calls, one-level
    fallback, sound cache hits, and keys that were never used before. */
module ToolAudit {
  import opened Basics
  import opened Events
  import opened ToolSpec
  import opened ToolMoves
  import opened ToolRuns

  // ---------------------------------------------------------------- brackets

  /** The acts of one invocation, in trail order. */
  function Of(acts: seq<Act>, id: nat): seq<Act> {
    if acts == [] then []
    else
      var n := |acts| - 1;
      Of(acts[..n], id) + (if acts[n].id == id then [acts[n]] else [])
  }

  lemma {:induction false} OfConcat(a: seq<Act>, b: seq<Act>, id: nat)
    ensures Of(a + b, id) == Of(a, id) + Of(b, id)
  {
    if b == [] {
      assert a + b == a;
    } else {
      var n := |b| - 1;
      OfConcat(a, b[..n], id);
      assert (a + b)[..|a + b| - 1] == a + b[..n];
    }
  }

  lemma {:induction false} OfOwn(acts: seq<Act>, id: nat)
    requires forall i :: 0 <= i < |acts| ==> acts[i].id == id
    ensures Of(acts, id) == acts
  {
    if acts != [] {
      OfOwn(acts[..|acts| - 1], id);
      assert acts == acts[..|acts| - 1] + [acts[|acts| - 1]];
    }
  }

  lemma {:induction false} OfOthers(acts: seq<Act>, id: nat)
    requires forall i :: 0 <= i < |acts| ==> acts[i].id != id
    ensures Of(acts, id) == []
  {
    if acts != [] {
      OfOthers(acts[..|acts| - 1], id);
    }
  }

  /** The acts of invocation `id`: one start, the handler calls, and one finish unless storing the
      output broke off. Handlers run only after a start that allowed them: exactly once for a tool
      that is not idempotent, at most 1 + maxRetries times otherwise. */
  predicate Bracketed(cfg: Config, world: World, id: nat, acts: seq<Act>) {
    && acts != [] && acts[0].Started? && acts[0].tool in cfg.registry
    && var tool, key, executable := acts[0].tool, acts[0].key, acts[0].executable;
       var ended := acts[|acts| - 1].Finished?;
       var count := |acts| - (if ended then 2 else 1);
    && count >= 0
    && acts == Block(id, tool, key, executable, count, acts[1 + count..])
    && (!ended <==> executable && world.breaks(id))
    && (ended ==>
          var end := acts[|acts| - 1];
          && end.id == id && end.tool == tool && end.key == key
          && end.status in (if executable then {Succeeded, Status.Failed, TimedOut} else {Denied, ApprovalRequired}))
    && (if executable
        then 1 <= count <= 1 + cfg.maxRetries && (!cfg.registry[tool].idempotent || !cfg.retryEnabled ==> count == 1)
        else count == 0)
  }

  predicate AllBracketed(cfg: Config, world: World, st: Runtime) {
    && (forall i :: 0 <= i < |st.acts| ==> st.acts[i].id < st.nextId)
    && (forall id :: 0 <= id < st.nextId ==> Bracketed(cfg, world, id, Of(st.acts, id)))
  }

  lemma BlockIsBracketed(cfg: Config, world: World, st: Runtime, m: Move)
    requires !m.Idle? && Legal(cfg, world, st, m)
    ensures Bracketed(cfg, world, st.nextId, MoveBlock(st, m))
  {
    var b := MoveBlock(st, m);
    var count := if m.Ran? then m.count else 0;
    if m.Ran? && m.end.None? {
      assert b[1 + count..] == [];
      assert b[|b| - 1] == Called(st.nextId, m.tool, m.key);
    } else {
      assert b[1 + count..] == [b[|b| - 1]];
    }
  }

  lemma NewActs(st: Runtime, block: seq<Act>)
    requires forall i :: 0 <= i < |st.acts| ==> st.acts[i].id < st.nextId
    requires forall i :: 0 <= i < |block| ==> block[i].id == st.nextId
    ensures Of(st.acts + block, st.nextId) == block
    ensures forall id :: 0 <= id < st.nextId ==> Of(st.acts + block, id) == Of(st.acts, id)
  {
    OfConcat(st.acts, block, st.nextId);
    OfOthers(st.acts, st.nextId);
    OfOwn(block, st.nextId);
    forall id | 0 <= id < st.nextId ensures Of(st.acts + block, id) == Of(st.acts, id) {
      OfConcat(st.acts, block, id);
      OfOthers(block, id);
    }
  }

  lemma KeepsBracketed(cfg: Config, world: World, st: Runtime, m: Move)
    requires AllBracketed(cfg, world, st) && Legal(cfg, world, st, m)
    ensures AllBracketed(cfg, world, Apply(cfg, st, m))
  {
    if m.Idle? {
      assert Apply(cfg, st, m).acts == st.acts;
    } else {
      BlockActs(cfg, world, st, m);
      NewActs(st, MoveBlock(st, m));
      BlockIsBracketed(cfg, world, st, m);
    }
  }

  /** Every invocation of every run is bracketed. */
  lemma InvocationsAreBracketed(cfg: Config, world: World, ops: seq<Op>, id: nat)
    requires id < After(cfg, world, ops).nextId
    ensures Bracketed(cfg, world, id, Of(After(cfg, world, ops).acts, id))
  {
    forall s, m | AllBracketed(cfg, world, s) && Legal(cfg, world, s, m)
      ensures AllBracketed(cfg, world, Apply(cfg, s, m))
    {
      KeepsBracketed(cfg, world, s, m);
    }
    Always(cfg, world, ops, s => AllBracketed(cfg, world, s));
  }

  // ---------------------------------------------------------------- invocations of one key

  function StartOf(tool: string, key: string): Act -> bool {
    (a: Act) => a.Started? && a.tool == tool && a.key == Some(key)
  }

  function CallOf(tool: string, key: string): Act -> bool {
    (a: Act) => a.Called? && a.tool == tool && a.key == Some(key)
  }

  /** A recorded key was started once; an unrecorded one never. */
  predicate Metered(cfg: Config, st: Runtime, tool: string, key: string) {
    if FindRecord(st.records, tool, key).Some?
    then Count(st.acts, StartOf(tool, key)) == 1 && Count(st.acts, CallOf(tool, key)) <= 1 + cfg.maxRetries
    else Count(st.acts, StartOf(tool, key)) == 0 && Count(st.acts, CallOf(tool, key)) == 0
  }

  lemma {:induction false} CountCalls(id: nat, name: string, key: Option<string>, n: nat, p: Act -> bool)
    ensures Count(Calls(id, name, key, n), p) == if p(Called(id, name, key)) then n else 0
  {
    if n > 0 {
      var c := Calls(id, name, key, n);
      assert c[..n - 1] == Calls(id, name, key, n - 1);
      CountCalls(id, name, key, n - 1, p);
    }
  }

  lemma CountBlock(id: nat, name: string, key: Option<string>, executable: bool, n: nat, end: seq<Act>, p: Act -> bool)
    requires forall i :: 0 <= i < |end| ==> !p(end[i])
    ensures Count(Block(id, name, key, executable, n, end), p) ==
            (if p(Started(id, name, key, executable)) then 1 else 0) + (if p(Called(id, name, key)) then n else 0)
  {
    var start := [Started(id, name, key, executable)];
    CountPush([], start[0], p);
    assert [] + start == start;
    CountCalls(id, name, key, n, p);
    CountAppend(start, Calls(id, name, key, n), p);
    CountQuiet(start + Calls(id, name, key, n), end, p);
  }

  /** What one move adds to a count of starts or calls. */
  lemma MoveCounts(cfg: Config, world: World, st: Runtime, m: Move, p: Act -> bool)
    requires !m.Idle? && Legal(cfg, world, st, m)
    requires forall a :: p(a) ==> !a.Finished?
    ensures Count(Apply(cfg, st, m).acts, p) ==
            Count(st.acts, p) + (if p(Started(st.nextId, m.tool, m.key, m.Ran?)) then 1 else 0) +
            (if m.Ran? && p(Called(st.nextId, m.tool, m.key)) then m.count else 0)
  {
    CountAppend(st.acts, MoveBlock(st, m), p);
    match m
    case Refuse(name, k, request, result, _, _) =>
      CountBlock(st.nextId, name, k, false, 0, [FinishedAct(result, k, request)], p);
    case Ran(name, k, request, count, end, _, _) =>
      CountBlock(st.nextId, name, k, true, count, if end.Some? then [FinishedAct(end.value, k, request)] else [], p);
  }

  lemma KeepsMetered(cfg: Config, world: World, st: Runtime, m: Move, tool: string, key: string)
    requires cfg.uow && Metered(cfg, st, tool, key) && Legal(cfg, world, st, m)
    ensures Metered(cfg, Apply(cfg, st, m), tool, key)
  {
    var t := Apply(cfg, st, m);
    if m.Idle? {
      assert t.acts == st.acts;
    } else {
      MoveCounts(cfg, world, st, m, StartOf(tool, key));
      MoveCounts(cfg, world, st, m, CallOf(tool, key));
      assert t.records == st.records + [MoveRecord(m)];
      RecordAdded(st.records, MoveRecord(m), tool, key);
    }
  }

  lemma RecordAdded(records: seq<Record>, r: Record, tool: string, key: string)
    ensures FindRecord(records + [r], tool, key).Some? <==>
             FindRecord(records, tool, key).Some? || IsRecordOf(r, tool, key)
  {
    assert (records + [r])[..|records|] == records;
  }

  /** With records, whatever happens (refusals, failures, interruptions, restarts), a tool is
      started at most once under a key and its handler runs at most 1 + maxRetries times. */
  lemma CallsPerKeyAreBounded(cfg: Config, world: World, ops: seq<Op>, tool: string, key: string)
    requires cfg.uow
    ensures Count(After(cfg, world, ops).acts, StartOf(tool, key)) <= 1
    ensures Count(After(cfg, world, ops).acts, CallOf(tool, key)) <= 1 + cfg.maxRetries
  {
    forall s, m | Metered(cfg, s, tool, key) &&
        Legal(cfg, world, s, m) ensures Metered(cfg, Apply(cfg, s, m), tool, key) {
      KeepsMetered(cfg, world, s, m, tool, key);
    }
    Always(cfg, world, ops, s => Metered(cfg, s, tool, key));
  }

  // ---------------------------------------------------------------- fallback

  /** What one plain execution appends to the trail. */
  lemma PlainAppends(cfg: Config, world: World, st: Runtime, name: string, args: Args, ctx: Context) returns (m: Move)
    ensures !m.Idle? ==> MoveTool(m) == name && MoveKey(m) == ctx.key
    ensures m.Refuse? ==> m.result.status in {Denied, ApprovalRequired}
    ensures var (r, st') := ExecutePlain(cfg, world, st, name, args, ctx);
            && Answers(r, m)
            && st'.acts == st.acts + MoveBlock(st, m) && st'.nextId == st.nextId + (if m.Idle? then 0 else 1)
  {
    var idle;
    idle, m := PlainIsMove(cfg, world, st, name, args, ctx);
    assert st.acts + [] == st.acts;
  }

  /** One call is at most two invocations: the tool's, and after a fresh failure or timeout of it
      one of its fallback, which never falls back further. `st1` is the runtime in between. */
  lemma FallbackAddsOneInvocation(cfg: Config, world: World, st: Runtime, name: string, args: Args, ctx: Context)
    returns (m1: Move, st1: Runtime, m2: Move)
    ensures st1.acts == st.acts + MoveBlock(st, m1) && (!m1.Idle? ==> MoveTool(m1) == name && MoveKey(m1) == ctx.key)
    ensures Execute(cfg, world, st, name, args, ctx).1.acts == st1.acts + MoveBlock(st1, m2)
    ensures !m2.Idle? ==>
              && m1.Ran? && m1.end.Some? && m1.end.value.status in {Status.Failed, TimedOut} && name in cfg.registry
              && MoveTool(m2) == cfg.registry[name].fallback != name && MoveKey(m2) == ctx.key
  {
    m1 := PlainAppends(cfg, world, st, name, args, ctx);
    var r := ExecutePlain(cfg, world, st, name, args, ctx).0;
    st1 := ExecutePlain(cfg, world, st, name, args, ctx).1;
    if WantsFallback(cfg, name, r) {
      m2 := PlainAppends(cfg, world, st1, cfg.registry[name].fallback, args, ctx);
    } else {
      m2 := Idle([], 0);
    }
  }

  // ---------------------------------------------------------------- cache hits

  /** An entry is a success of an eligible tool for the very request it is stored under. */
  predicate GoodEntry(cfg: Config, e: Entry) {
    && e.value.status == Succeeded && e.value.request == Some(e.key) && e.value.tool == e.key.tool &&
         e.value.args == e.key.args
    && e.key.tool in cfg.registry && Eligible(cfg.registry[e.key.tool]) &&
         e.key.version == cfg.registry[e.key.tool].version
  }

  predicate GoodCache(cfg: Config, st: Runtime) {
    && |st.cache| <= cfg.cacheSize && DistinctKeys(st.cache)
    && (forall i :: 0 <= i < |st.cache| ==> GoodEntry(cfg, st.cache[i]))
  }

  lemma KeepsGoodCache(cfg: Config, world: World, st: Runtime, m: Move)
    requires GoodCache(cfg, st) && Legal(cfg, world, st, m)
    ensures GoodCache(cfg, Apply(cfg, st, m))
  {
  }

  lemma GoodCacheAlways(cfg: Config, world: World, ops: seq<Op>)
    ensures GoodCache(cfg, After(cfg, world, ops))
  {
    forall s, m | GoodCache(cfg, s) && Legal(cfg, world, s, m) ensures GoodCache(cfg, Apply(cfg, s, m)) {
      KeepsGoodCache(cfg, world, s, m);
    }
    Always(cfg, world, ops, s => GoodCache(cfg, s));
  }

  /** A cache hit comes from a low-risk idempotent tool, repeats a success of the same tool,
      version and arguments, and leaves no trace: no invocation, no record, no memory. */
  lemma CacheHitsAreSound(cfg: Config, world: World, ops: seq<Op>, name: string, args: Args, ctx: Context)
    requires var r := ExecutePlain(cfg, world, After(cfg, world, ops), name, args, ctx).0;
             r.Ok? && r.value.cacheHit && !r.value.reused
    ensures var st := After(cfg, world, ops);
            var (r, st') := ExecutePlain(cfg, world, st, name, args, ctx);
            && st'.acts == st.acts && st'.records == st.records && st'.memory == st.memory && st'.nextId == st.nextId
            && name in cfg.registry && Eligible(cfg.registry[name]) && Decide(cfg, cfg.registry[name], ctx).Allow?
            && cfg.check(name, args).Some?
            && r.value.request == Some(Request(name, cfg.registry[name].version, cfg.check(name, args).value))
            && r.value.status == Succeeded && r.value.tool == name
  {
    var st := After(cfg, world, ops);
    GoodCacheAlways(cfg, world, ops);
    var idle, m := PlainIsMove(cfg, world, st, name, args, ctx);
    var tool := cfg.registry[name];
    var checked := cfg.check(name, args).value;
    var request := Request(name, tool.version, checked);
    GetFacts(cfg, world, st, request);
    assert st.acts + [] == st.acts;
  }
}
