/** Theorems about every serialized sequence of tool calls and restarts: at most once by key,
    agreement of memory and records, bracketed audit trails, and bounded handler calls. */
module ToolRuns {
  import opened Basics
  import opened Events
  import opened ToolSpec
  import opened ToolMoves

  // ---------------------------------------------------------------- one induction for all

  predicate NoRestart(ops: seq<Op>) { forall i :: 0 <= i < |ops| ==> !ops[i].Restart? }

  /** A call is at most four moves: a cache look and a run for the tool, the same for its fallback. */
  lemma ExecuteKeeps(cfg: Config, world: World, st: Runtime, name: string, args: Args, ctx: Context,
                     inv: Runtime -> bool)
    requires inv(st)
    requires forall s, m :: inv(s) && Legal(cfg, world, s, m) ==> inv(Apply(cfg, s, m))
    ensures inv(Execute(cfg, world, st, name, args, ctx).1)
  {
    var i1, m1 := PlainIsMove(cfg, world, st, name, args, ctx);
    var (r, st1) := ExecutePlain(cfg, world, st, name, args, ctx);
    assert inv(Apply(cfg, st, i1)) && inv(st1);
    if WantsFallback(cfg, name, r) {
      var i2, m2 := PlainIsMove(cfg, world, st1, cfg.registry[name].fallback, args, ctx);
      assert inv(Apply(cfg, st1, i2));
    }
  }

  lemma {:induction false} Always(cfg: Config, world: World, ops: seq<Op>, inv: Runtime -> bool)
    requires inv(Empty())
    requires forall s, m :: inv(s) && Legal(cfg, world, s, m) ==> inv(Apply(cfg, s, m))
    requires NoRestart(ops) || forall s :: inv(s) ==> inv(Restarted(s))
    ensures inv(After(cfg, world, ops))
  {
    if ops != [] {
      var front := ops[..|ops| - 1];
      Always(cfg, world, front, inv);
      var op := ops[|ops| - 1];
      if op.Execution? {
        ExecuteKeeps(cfg, world, After(cfg, world, front), op.name, op.args, op.ctx, inv);
      }
    }
  }

  // ---------------------------------------------------------------- memory and records agree

  /** What is remembered for a tool and key is a success of theirs, and the record of it if recorded. */
  predicate Remembered(cfg: Config, st: Runtime, tool: string, key: string)
    requires (tool, key) in st.memory
  {
    var r := st.memory[(tool, key)];
    && key != "" && r.status == Succeeded && r.request.Some? && Describes(r, r.id, tool, r.request.value)
    && (cfg.uow ==>
          r.id < |st.records| &&
          st.records[r.id] == Record(tool, Some(key), r.request.value, Succeeded, r.output, r.artifact))
  }

  predicate OneRecordPerKey(records: seq<Record>) {
    forall i, j :: 0 <= i < j < |records| && records[i].key.Some? && records[i].tool == records[j].tool
                   ==> records[i].key != records[j].key
  }

  /** Records are numbered by their ids, at most one for a tool and key, and memory agrees with them. */
  predicate Agrees(cfg: Config, st: Runtime) {
    && (if cfg.uow then st.nextId == |st.records| else st.records == [])
    && OneRecordPerKey(st.records)
    && (forall k :: k in st.memory ==> Remembered(cfg, st, k.0, k.1))
  }

  lemma KeepsAgrees(cfg: Config, world: World, st: Runtime, m: Move)
    requires Agrees(cfg, st) && Legal(cfg, world, st, m)
    ensures Agrees(cfg, Apply(cfg, st, m))
  {
    var t := Apply(cfg, st, m);
    forall k | k in t.memory ensures Remembered(cfg, t, k.0, k.1) {
      assert k in st.memory ==> Remembered(cfg, st, k.0, k.1);
    }
  }

  lemma AgreesAlways(cfg: Config, world: World, ops: seq<Op>)
    ensures Agrees(cfg, After(cfg, world, ops))
  {
    forall s, m | Agrees(cfg, s) && Legal(cfg, world, s, m) ensures Agrees(cfg, Apply(cfg, s, m)) {
      KeepsAgrees(cfg, world, s, m);
    }
    Always(cfg, world, ops, s => Agrees(cfg, s));
  }

  /** The one record of a key is the one that is found. */
  lemma FindsIt(records: seq<Record>, id: nat, tool: string, key: string)
    requires OneRecordPerKey(records) && id < |records| && IsRecordOf(records[id], tool, key)
    ensures FindRecord(records, tool, key) == Some(id)
  {
    assert FindRecord(records, tool, key).Some?;
  }

  /** What the record of a remembered call gives back. */
  lemma RecordGivesBack(cfg: Config, st: Runtime, tool: string, key: string)
    requires cfg.uow && Agrees(cfg, st) && (tool, key) in st.memory
    ensures var r := st.memory[(tool, key)];
            && r.request.Some? && r.id < |st.records| && st.records[r.id].request == r.request.value
            && FindRecord(st.records, tool, key) == Some(r.id)
            && FromRecord(st.records[r.id], r.id, r.request.value) == r.(retries := [])
  {
    assert Remembered(cfg, st, tool, key);
    FindsIt(st.records, st.memory[(tool, key)].id, tool, key);
  }

  /** Forgetting the memory changes no answer: the record gives the same output, status,
      artifact, id and request, and refuses the same requests. */
  lemma RestartAnswersTheSame(cfg: Config, world: World, ops: seq<Op>, tool: string, key: string, request: Request)
    requires cfg.uow && (tool, key) in After(cfg, world, ops).memory
    ensures var st := After(cfg, world, ops);
            var before, after := Lookup(cfg, st, tool, Some(key), request),
                Lookup(cfg, Restarted(st), tool, Some(key), request);
            if st.memory[(tool, key)].request == Some(request)
            then before == Ok(Some(st.memory[(tool, key)])) && after == Ok(Some(st.memory[(tool, key)].(retries := [])))
            else before == Err(KeyReused) && after == Err(KeyReused)
  {
    AgreesAlways(cfg, world, ops);
    var st := After(cfg, world, ops);
    assert Remembered(cfg, st, tool, key);
    RecordGivesBack(cfg, st, tool, key);
  }

  // ---------------------------------------------------------------- at most once by key

  predicate IsSuccess(a: Act) { a.Finished? && a.status == Succeeded && Named(a.key) }

  predicate Touches(a: Act, tool: string, key: Option<string>) {
    (a.Called? || a.Started?) && a.tool == tool && a.key == key
  }

  /** What can be found under a finished act's key is exactly what the act says. */
  predicate Holds(cfg: Config, st: Runtime, a: Act)
    requires a.Finished?
  {
    if Named(a.key) && (a.tool, a.key.value) in st.memory then
      var r := st.memory[(a.tool, a.key.value)];
      a.status == Succeeded && r.id == a.id && r.request == Some(a.request) && r.output == a.output &&
          r.artifact == a.artifact
    else
      cfg.uow && a.id < |st.records| &&
      st.records[a.id] == Record(a.tool, a.key, a.request, a.status, a.output, a.artifact)
  }

  /** A success of a named key, and every recorded end of one, can still be found. */
  predicate Kept(cfg: Config, st: Runtime) {
    forall i :: 0 <= i < |st.acts| && st.acts[i].Finished? && (cfg.uow || IsSuccess(st.acts[i])) ==>
        Holds(cfg, st, st.acts[i])
  }

  /** After a success of a named key nothing is started or called under that key. */
  predicate OnceSucceeded(acts: seq<Act>) {
    forall i, j :: 0 <= i < j < |acts| && IsSuccess(acts[i]) ==> !Touches(acts[j], acts[i].tool, acts[i].key)
  }

  lemma BlockActs(cfg: Config, world: World, st: Runtime, m: Move)
    requires !m.Idle? && Legal(cfg, world, st, m)
    ensures forall i :: 0 <= i < |MoveBlock(st, m)| ==>
              MoveBlock(st, m)[i].id == st.nextId && MoveBlock(st, m)[i].tool == m.tool &&
                  MoveBlock(st, m)[i].key == m.key &&
              (MoveBlock(st, m)[i].Finished? ==> i == |MoveBlock(st, m)| - 1)
  {
  }

  /** A named key that holds an end is not free to run again. */
  lemma HoldsMeansUsed(cfg: Config, st: Runtime, a: Act)
    requires Agrees(cfg, st) && a.Finished? && Named(a.key) && Holds(cfg, st, a)
    ensures !Unused(cfg, st, a.tool, a.key)
  {
    if (a.tool, a.key.value) !in st.memory {
      FindsIt(st.records, a.id, a.tool, a.key.value);
    }
  }

  lemma StillHolds(cfg: Config, world: World, st: Runtime, m: Move, a: Act)
    requires Agrees(cfg, st) && Legal(cfg, world, st, m) && a.Finished? && Holds(cfg, st, a)
    ensures Holds(cfg, Apply(cfg, st, m), a)
  {
    if Named(a.key) {
      HoldsMeansUsed(cfg, st, a);
    }
  }

  lemma NewHolds(cfg: Config, world: World, st: Runtime, m: Move)
    requires Agrees(cfg, st) && Legal(cfg, world, st, m) && !m.Idle?
    requires var b := MoveBlock(st, m); b[|b| - 1].Finished? && (cfg.uow || IsSuccess(b[|b| - 1]))
    ensures var b := MoveBlock(st, m); Holds(cfg, Apply(cfg, st, m), b[|b| - 1])
  {
    var t := Apply(cfg, st, m);
    if cfg.uow {
      assert t.records[st.nextId] == MoveRecord(m);
    }
  }

  lemma KeepsKept(cfg: Config, world: World, st: Runtime, m: Move)
    requires Agrees(cfg, st) && Kept(cfg, st) && Legal(cfg, world, st, m)
    ensures Kept(cfg, Apply(cfg, st, m))
  {
    var t := Apply(cfg, st, m);
    forall i | 0 <= i < |t.acts| && t.acts[i].Finished? && (cfg.uow || IsSuccess(t.acts[i]))
      ensures Holds(cfg, t, t.acts[i])
    {
      if i < |st.acts| {
        assert t.acts[i] == st.acts[i];
        StillHolds(cfg, world, st, m, t.acts[i]);
      } else {
        BlockActs(cfg, world, st, m);
        assert t.acts[i] == MoveBlock(st, m)[i - |st.acts|];
        NewHolds(cfg, world, st, m);
      }
    }
  }

  lemma KeepsOnce(cfg: Config, world: World, st: Runtime, m: Move)
    requires Agrees(cfg, st) && Kept(cfg, st) && OnceSucceeded(st.acts) && Legal(cfg, world, st, m)
    ensures OnceSucceeded(Apply(cfg, st, m).acts)
  {
    var acts := Apply(cfg, st, m).acts;
    assert forall i :: |st.acts| <= i < |acts| ==> acts[i] == MoveBlock(st, m)[i - |st.acts|];
    if !m.Idle? {
      BlockActs(cfg, world, st, m);
    }
    forall i, j | 0 <= i < j < |acts| && IsSuccess(acts[i]) ensures !Touches(acts[j], acts[i].tool, acts[i].key) {
      if i < |st.acts| {
        assert acts[i] == st.acts[i];
        HoldsMeansUsed(cfg, st, acts[i]);
      }
    }
  }

  predicate Sound(cfg: Config, st: Runtime) { Agrees(cfg, st) && Kept(cfg, st) && OnceSucceeded(st.acts) }

  lemma RestartKeepsSound(cfg: Config, st: Runtime)
    requires cfg.uow && Sound(cfg, st)
    ensures Sound(cfg, Restarted(st))
  {
    var t := Restarted(st);
    forall i | 0 <= i < |t.acts| && t.acts[i].Finished? ensures Holds(cfg, t, t.acts[i]) {
      var a := t.acts[i];
      assert Holds(cfg, st, a);
      if Named(a.key) && (a.tool, a.key.value) in st.memory {
        assert Remembered(cfg, st, a.tool, a.key.value);
      }
    }
  }

  lemma SoundAlways(cfg: Config, world: World, ops: seq<Op>)
    requires cfg.uow || NoRestart(ops)
    ensures Sound(cfg, After(cfg, world, ops))
  {
    forall s, m | Sound(cfg, s) && Legal(cfg, world, s, m) ensures Sound(cfg, Apply(cfg, s, m)) {
      KeepsAgrees(cfg, world, s, m);
      KeepsKept(cfg, world, s, m);
      KeepsOnce(cfg, world, s, m);
    }
    if cfg.uow {
      forall s | Sound(cfg, s) ensures Sound(cfg, Restarted(s)) {
        RestartKeepsSound(cfg, s);
      }
    }
    Always(cfg, world, ops, s => Sound(cfg, s));
  }

  /** Once a tool has succeeded under a non-empty key, no later call starts it or runs its handler
      under that key: over any calls, and over restarts too when invocations are recorded. */
  lemma AtMostOnceByKey(cfg: Config, world: World, ops: seq<Op>, i: nat, j: nat)
    requires cfg.uow || NoRestart(ops)
    requires var acts := After(cfg, world, ops).acts; i < j < |acts| && IsSuccess(acts[i])
    ensures var acts := After(cfg, world, ops).acts; !Touches(acts[j], acts[i].tool, acts[i].key)
  {
    SoundAlways(cfg, world, ops);
  }

  // ---------------------------------------------------------------- a key that was used

  /** A later call under a key whose invocation ended: the recorded end is given back, or the call
      is refused when its arguments differ; either way nothing runs and nothing changes. The call's
      permissions, approval and the tool's risk play no part. */
  predicate GivenBack(r: Result<CallResult, Error>, a: Act, request: Request)
    requires a.Finished?
  {
    if request == a.request then
      r.Ok? && r.value.output == a.output && r.value.artifact == a.artifact && r.value.id == a.id &&
      r.value.status == (if a.status == Succeeded then Deduplicated else a.status)
    else r == Err(KeyReused)
  }

  lemma FoundIsGivenBack(cfg: Config, world: World, st: Runtime, a: Act, args: Args, ctx: Context, checked: Args)
    requires Sound(cfg, st) && a.Finished? && Named(a.key) && Holds(cfg, st, a) && ctx.key == a.key
    requires a.tool in cfg.registry && cfg.check(a.tool, args) == Some(checked)
    ensures var (r, st') := Execute(cfg, world, st, a.tool, args, ctx);
            st' == st && GivenBack(r, a, Request(a.tool, cfg.registry[a.tool].version, checked))
  {
    if (a.tool, a.key.value) !in st.memory {
      FindsIt(st.records, a.id, a.tool, a.key.value);
    }
  }

  /** After a success under a non-empty key. */
  lemma SameCallIsDeduplicated(cfg: Config, world: World, ops: seq<Op>, i: nat, args: Args, ctx: Context, checked: Args)
    requires cfg.uow || NoRestart(ops)
    requires var acts := After(cfg, world, ops).acts;
             i < |acts| && IsSuccess(acts[i]) && ctx.key == acts[i].key &&
             acts[i].tool in cfg.registry && cfg.check(acts[i].tool, args) == Some(checked)
    ensures var st := After(cfg, world, ops);
            var (r, st') := Execute(cfg, world, st, st.acts[i].tool, args, ctx);
            st' == st && GivenBack(r, st.acts[i],
                Request(st.acts[i].tool, cfg.registry[st.acts[i].tool].version, checked))
  {
    SoundAlways(cfg, world, ops);
    var st := After(cfg, world, ops);
    FoundIsGivenBack(cfg, world, st, st.acts[i], args, ctx, checked);
  }

  /** With records the same holds after any end: a refusal, a failure or a timeout stays the answer
      for its key for ever, even for a call that is approved and permitted by then. */
  lemma RecordedEndIsFinal(cfg: Config, world: World, ops: seq<Op>, i: nat, args: Args, ctx: Context, checked: Args)
    requires cfg.uow
    requires var acts := After(cfg, world, ops).acts;
             i < |acts| && acts[i].Finished? && Named(acts[i].key) && ctx.key == acts[i].key &&
             acts[i].tool in cfg.registry && cfg.check(acts[i].tool, args) == Some(checked)
    ensures var st := After(cfg, world, ops);
            var (r, st') := Execute(cfg, world, st, st.acts[i].tool, args, ctx);
            st' == st && GivenBack(r, st.acts[i],
                Request(st.acts[i].tool, cfg.registry[st.acts[i].tool].version, checked))
  {
    SoundAlways(cfg, world, ops);
    var st := After(cfg, world, ops);
    FoundIsGivenBack(cfg, world, st, st.acts[i], args, ctx, checked);
  }

  // ---------------------------------------------------------------- a call that never ended

  /** The record of an invocation that was started under a non-empty key and has no end. */
  predicate Unfinished(st: Runtime, id: nat) {
    id < |st.records| && st.records[id].status == Running && Named(st.records[id].key)
  }

  lemma MoveKeepsRecord(cfg: Config, world: World, st: Runtime, m: Move, id: nat)
    requires id < |st.records| && Legal(cfg, world, st, m)
    ensures id < |Apply(cfg, st, m).records| && Apply(cfg, st, m).records[id] == st.records[id]
  {
  }

  lemma PlainKeepsRecord(cfg: Config, world: World, st: Runtime, name: string, args: Args, ctx: Context, id: nat)
    requires id < |st.records|
    ensures var next := ExecutePlain(cfg, world, st, name, args, ctx).1;
            id < |next.records| && next.records[id] == st.records[id]
  {
    var idle, m := PlainIsMove(cfg, world, st, name, args, ctx);
    MoveKeepsRecord(cfg, world, st, idle, id);
    MoveKeepsRecord(cfg, world, Apply(cfg, st, idle), m, id);
  }

  lemma {:induction false} RecordsStay(cfg: Config, world: World, ops: seq<Op>, n: nat, id: nat)
    requires n <= |ops| && id < |After(cfg, world, ops[..n]).records|
    ensures id < |After(cfg, world, ops).records|
    ensures After(cfg, world, ops).records[id] == After(cfg, world, ops[..n]).records[id]
  {
    if n == |ops| {
      assert ops[..n] == ops;
    } else {
      var front, op := ops[..|ops| - 1], ops[|ops| - 1];
      assert front[..n] == ops[..n];
      RecordsStay(cfg, world, front, n, id);
      if op.Execution? {
        var st := After(cfg, world, front);
        PlainKeepsRecord(cfg, world, st, op.name, op.args, op.ctx, id);
        var (r, st1) := ExecutePlain(cfg, world, st, op.name, op.args, op.ctx);
        if WantsFallback(cfg, op.name, r) {
          PlainKeepsRecord(cfg, world, st1, cfg.registry[op.name].fallback, op.args, op.ctx, id);
        }
      }
    }
  }

  lemma UnfinishedIsNotRemembered(cfg: Config, st: Runtime, id: nat)
    requires cfg.uow && Agrees(cfg, st) && Unfinished(st, id)
    ensures (st.records[id].tool, st.records[id].key.value) !in st.memory
  {
    var tool, key := st.records[id].tool, st.records[id].key.value;
    if (tool, key) in st.memory {
      RecordGivesBack(cfg, st, tool, key);
      FindsIt(st.records, id, tool, key);
    }
  }

  /** A call whose output could not be stored leaves its record running. From then on, after any calls
      and restarts, the same call is answered from that record, as still running and with no output. */
  lemma UnfinishedIsFinal(cfg: Config, world: World, ops: seq<Op>, n: nat, id: nat, args: Args, ctx: Context,
                          checked: Args)
    requires cfg.uow && n <= |ops| && Unfinished(After(cfg, world, ops[..n]), id)
    requires var record := After(cfg, world, ops[..n]).records[id];
             && ctx.key == record.key && record.tool in cfg.registry && cfg.check(record.tool, args) == Some(checked)
             && record.request == Request(record.tool, cfg.registry[record.tool].version, checked)
    ensures var st := After(cfg, world, ops);
            var record := After(cfg, world, ops[..n]).records[id];
            var (r, next) := Execute(cfg, world, st, record.tool, args, ctx);
            && next == st && r.Ok? && r.value.reused && r.value.status == Running && r.value.id == id
            && r.value.output == record.output
  {
    var st := After(cfg, world, ops);
    var record := After(cfg, world, ops[..n]).records[id];
    RecordsStay(cfg, world, ops, n, id);
    AgreesAlways(cfg, world, ops);
    FindsIt(st.records, id, record.tool, record.key.value);
    UnfinishedIsNotRemembered(cfg, st, id);
  }
}
