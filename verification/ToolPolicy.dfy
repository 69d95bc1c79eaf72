/** What the policy lets through: a handler runs, and a cached result is given out, only for calls that
    are permitted; every other call that starts an invocation is refused, for the right reason. */
module ToolPolicy {
  import opened Basics
  import opened Events
  import opened ToolSpec
  import opened ToolMoves
  import opened ToolRuns

  predicate ModuleOff(cfg: Config, tool: Tool) { tool.featureModule != "" && tool.featureModule in cfg.disabled }

  predicate Denies(cfg: Config, tool: Tool, ctx: Context) {
    ModuleOff(cfg, tool) || exists p :: p in tool.permissions && p !in ctx.permissions
  }

  predicate AsksFirst(cfg: Config, tool: Tool, ctx: Context) { tool.risk > cfg.autoApprove && !ctx.approved }

  /** The module is on, no permission is missing, and the risk is within the allowance or approved. */
  predicate Permitted(cfg: Config, tool: Tool, ctx: Context) { !Denies(cfg, tool, ctx) && !AsksFirst(cfg, tool, ctx) }

  lemma MissingOne(tool: Tool, ctx: Context)
    ensures tool.permissions - ctx.permissions != {} <==> exists p :: p in tool.permissions && p !in ctx.permissions
  {
    if p :| p in tool.permissions && p !in ctx.permissions {
      assert p in tool.permissions - ctx.permissions;
    }
  }

  lemma DecidesRight(cfg: Config, tool: Tool, ctx: Context)
    ensures Decide(cfg, tool, ctx).Allow? <==> Permitted(cfg, tool, ctx)
    ensures Decide(cfg, tool, ctx).Deny? <==> Denies(cfg, tool, ctx)
  {
    MissingOne(tool, ctx);
  }

  /** The acts of one execution that are handler calls are of a permitted tool. */
  predicate CallsPermitted(cfg: Config, from: nat, acts: seq<Act>, name: string, ctx: Context) {
    forall i :: from <= i < |acts| && acts[i].Called? ==>
      acts[i].tool == name && name in cfg.registry && Permitted(cfg, cfg.registry[name], ctx)
  }

  lemma RefusedCallsNothing(cfg: Config, world: World, st: Runtime, name: string, tool: Tool, args: Args, ctx: Context,
                            cached: bool)
    requires !Permitted(cfg, tool, ctx)
    ensures var next := Fresh(cfg, world, st, name, tool, args, ctx, cached).1;
            st.acts <= next.acts && forall i :: |st.acts| <= i < |next.acts| ==> !next.acts[i].Called?
  {
    DecidesRight(cfg, tool, ctx);
  }

  lemma RunCallsItsTool(cfg: Config, world: World, begun: Runtime, id: nat, name: string, tool: Tool, args: Args,
                        key: Option<string>, cached: bool)
    ensures var next := RunAllowed(cfg, world, begun, id, name, tool, args, key, cached).1;
            begun.acts <= next.acts &&
            forall i :: |begun.acts| <= i < |next.acts| && next.acts[i].Called? ==> next.acts[i].tool == name
  {
  }

  lemma FreshIsPermitted(cfg: Config, world: World, st: Runtime, name: string, tool: Tool, args: Args, ctx: Context,
                         cached: bool)
    requires name in cfg.registry && tool == cfg.registry[name]
    ensures var next := Fresh(cfg, world, st, name, tool, args, ctx, cached).1;
            st.acts <= next.acts && CallsPermitted(cfg, |st.acts|, next.acts, name, ctx)
  {
    DecidesRight(cfg, tool, ctx);
    if !Permitted(cfg, tool, ctx) {
      RefusedCallsNothing(cfg, world, st, name, tool, args, ctx, cached);
    } else {
      var begun := Begin(cfg, st, name, ctx.key, Request(name, tool.version, args), true, Running);
      if begun.Ok? {
        RunCallsItsTool(cfg, world, begun.value, st.nextId, name, tool, args, ctx.key, cached);
      }
    }
  }

  /** One execution: a handler runs, or a cached result is given out, only if the call is permitted. */
  lemma OnlyPermittedCallsRun(cfg: Config, world: World, st: Runtime, name: string, args: Args, ctx: Context)
    ensures var (r, next) := ExecutePlain(cfg, world, st, name, args, ctx);
            && st.acts <= next.acts && CallsPermitted(cfg, |st.acts|, next.acts, name, ctx)
            && (r.Ok? && !r.value.reused && r.value.cacheHit ==>
                  name in cfg.registry && Permitted(cfg, cfg.registry[name], ctx))
  {
    if name in cfg.registry && cfg.check(name, args).Some? {
      var tool, checked := cfg.registry[name], cfg.check(name, args).value;
      var request := Request(name, tool.version, checked);
      DecidesRight(cfg, tool, ctx);
      var cached := Decide(cfg, tool, ctx).Allow? && cfg.cacheSize > 0 && Eligible(tool);
      var (hit, st1) := Consult(world, st, cached, request);
      GetFacts(cfg, world, st, request);
      FreshIsPermitted(cfg, world, st1, name, tool, checked, ctx, cached);
    }
  }

  /** A handler call of some execution among these, of the tool or of its fallback, and permitted there. */
  predicate PermittedBy(cfg: Config, ops: seq<Op>, a: Act) {
    a.Called? && a.tool in cfg.registry && exists n :: 0 <= n < |ops| && Permits(cfg, ops[n], a.tool)
  }

  predicate Permits(cfg: Config, op: Op, tool: string)
    requires tool in cfg.registry
  {
    && op.Execution? && Permitted(cfg, cfg.registry[tool], op.ctx)
    && (op.name == tool || (op.name in cfg.registry && cfg.registry[op.name].fallback == tool))
  }

  lemma PermittedLater(cfg: Config, ops: seq<Op>, n: nat, a: Act)
    requires n <= |ops| && PermittedBy(cfg, ops[..n], a)
    ensures PermittedBy(cfg, ops, a)
  {
    var i :| 0 <= i < n && Permits(cfg, ops[..n][i], a.tool);
    assert ops[i] == ops[..n][i];
  }

  lemma NewCallsPermitted(cfg: Config, world: World, st: Runtime, name: string, args: Args, ctx: Context, i: nat)
    requires var next := Execute(cfg, world, st, name, args, ctx).1;
             |st.acts| <= i < |next.acts| && next.acts[i].Called?
    ensures var a := Execute(cfg, world, st, name, args, ctx).1.acts[i];
            a.tool in cfg.registry && Permits(cfg, Execution(name, args, ctx), a.tool)
  {
    var (r, st1) := ExecutePlain(cfg, world, st, name, args, ctx);
    OnlyPermittedCallsRun(cfg, world, st, name, args, ctx);
    if WantsFallback(cfg, name, r) {
      OnlyPermittedCallsRun(cfg, world, st1, cfg.registry[name].fallback, args, ctx);
    }
  }

  /** The handler calls since a point are all permitted to this operation. */
  predicate AllPermitted(cfg: Config, from: nat, acts: seq<Act>, op: Op) {
    forall i :: from <= i < |acts| && acts[i].Called? ==>
      acts[i].tool in cfg.registry && Permits(cfg, op, acts[i].tool)
  }

  lemma ExecuteIsPermitted(cfg: Config, world: World, st: Runtime, name: string, args: Args, ctx: Context)
    ensures AllPermitted(cfg, |st.acts|, Execute(cfg, world, st, name, args, ctx).1.acts, Execution(name, args, ctx))
    ensures AllPermitted(cfg, |st.acts|, ExecutePlain(cfg, world, st, name, args, ctx).1.acts,
                         Execution(name, args, ctx))
  {
    OnlyPermittedCallsRun(cfg, world, st, name, args, ctx);
    var acts := Execute(cfg, world, st, name, args, ctx).1.acts;
    forall i | |st.acts| <= i < |acts| && acts[i].Called?
      ensures acts[i].tool in cfg.registry && Permits(cfg, Execution(name, args, ctx), acts[i].tool)
    {
      NewCallsPermitted(cfg, world, st, name, args, ctx, i);
    }
  }

  lemma ExecuteAppends(cfg: Config, world: World, st: Runtime, name: string, args: Args, ctx: Context)
    ensures st.acts <= Execute(cfg, world, st, name, args, ctx).1.acts
  {
    var (r, st1) := ExecutePlain(cfg, world, st, name, args, ctx);
    OnlyPermittedCallsRun(cfg, world, st, name, args, ctx);
    if WantsFallback(cfg, name, r) {
      OnlyPermittedCallsRun(cfg, world, st1, cfg.registry[name].fallback, args, ctx);
    }
  }

  /** Over any calls and restarts: every handler that ever ran was permitted to its caller. */
  lemma {:induction false} EveryCallWasPermitted(cfg: Config, world: World, ops: seq<Op>, i: nat)
    requires i < |After(cfg, world, ops).acts| && After(cfg, world, ops).acts[i].Called?
    ensures PermittedBy(cfg, ops, After(cfg, world, ops).acts[i])
  {
    if ops != [] {
      var n := |ops| - 1;
      var st, op := After(cfg, world, ops[..n]), ops[n];
      var acts := After(cfg, world, ops).acts;
      if op.Execution? {
        ExecuteAppends(cfg, world, st, op.name, op.args, op.ctx);
      }
      if i < |st.acts| {
        assert acts[i] == st.acts[i];
        EveryCallWasPermitted(cfg, world, ops[..n], i);
        PermittedLater(cfg, ops, n, acts[i]);
      } else {
        NewCallsPermitted(cfg, world, st, op.name, op.args, op.ctx, i);
      }
    }
  }

  // ---------------------------------------------------------------- how a new invocation ends

  /** The end of an invocation that was started, from the tool, the context and the configuration: denied
      iff the module is off or a permission is missing, waiting for approval iff neither and the risk is
      above the allowance without approval, and otherwise a run or an interruption. */
  predicate EndsRight(cfg: Config, tool: Tool, ctx: Context, r: Result<CallResult, Error>) {
    && (r.Ok? && r.value.status == Denied <==> Denies(cfg, tool, ctx))
    && (r.Ok? && r.value.status == ApprovalRequired <==> !Denies(cfg, tool, ctx) && AsksFirst(cfg, tool, ctx))
    && ((r.Ok? && r.value.status in {Succeeded, Status.Failed, TimedOut}) || r == Err(Interrupted) <==>
          Permitted(cfg, tool, ctx))
  }

  lemma BuiltStatus(cfg: Config, world: World, tool: Tool, calls: nat)
    ensures InvokeWithRetries(cfg, world, tool, calls).outcome.status in {Succeeded, Status.Failed, TimedOut}
  {
    RetriesAreExact(cfg, world, tool, calls);
  }

  lemma FreshEndsRight(cfg: Config, world: World, st: Runtime, name: string, tool: Tool, args: Args, ctx: Context,
                       cached: bool)
    requires Fresh(cfg, world, st, name, tool, args, ctx, cached).1.nextId > st.nextId
    ensures EndsRight(cfg, tool, ctx, Fresh(cfg, world, st, name, tool, args, ctx, cached).0)
  {
    DecidesRight(cfg, tool, ctx);
    BuiltStatus(cfg, world, tool, st.calls);
  }

  /** Every execution that starts a new invocation ends as its tool and its context say. */
  lemma NewInvocationsEndRight(cfg: Config, world: World, st: Runtime, name: string, args: Args, ctx: Context)
    requires ExecutePlain(cfg, world, st, name, args, ctx).1.nextId > st.nextId
    ensures name in cfg.registry
    ensures EndsRight(cfg, cfg.registry[name], ctx, ExecutePlain(cfg, world, st, name, args, ctx).0)
  {
    var tool, checked := cfg.registry[name], cfg.check(name, args).value;
    var request := Request(name, tool.version, checked);
    var cached := Decide(cfg, tool, ctx).Allow? && cfg.cacheSize > 0 && Eligible(tool);
    var (hit, st1) := Consult(world, st, cached, request);
    GetFacts(cfg, world, st, request);
    assert st1 == st.(cache := st1.cache, ticks := st1.ticks);
    FreshEndsRight(cfg, world, st1, name, tool, checked, ctx, cached);
  }
}
