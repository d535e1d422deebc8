/** Properties of the mpool module over whole sequences of calls: what the
    bind log, the cleanup list, the metadata tokens and the registry see after
    any interleaving of allocations, frees and checkpoint/restart events. */
module MpoolSmProperties {
  import opened MpoolSmState

  /** One call into the module, with the answers of the foreign code it calls. */
  datatype Op =
    | AllocOp(size: nat, align: nat, registration: Addr, result: Addr)
    | ReallocOp(addr: Addr, size: nat, registration: Addr, result: Addr)
    | FreeOp(addr: Addr)
    | EventOp(state: CrsState, smModule: Addr, finiOk: bool)

  function Step(s: PoolState, env: Env, op: Op): PoolState
  {
    match op
    case AllocOp(size, align, reg, result) => AllocEffect(s, size, align, reg, result)
    case ReallocOp(addr, size, reg, result) => ReallocEffect(s, addr, size, reg, result)
    case FreeOp(addr) => FreeEffect(s, addr)
    case EventOp(state, smModule, finiOk) => FtEventEffect(s, env, state, smModule, finiOk)
  }

  /** The state after the calls `ops`, in order. */
  function Run(s: PoolState, env: Env, ops: seq<Op>): PoolState
    decreases |ops|
  {
    if ops == [] then s else Run(Step(s, env, ops[0]), env, ops[1..])
  }

  /** Number of allocate and reallocate calls in `ops`. */
  function AllocationCount(ops: seq<Op>): nat
  {
    if ops == [] then 0
    else (if ops[0].AllocOp? || ops[0].ReallocOp? then 1 else 0) + AllocationCount(ops[1..])
  }

  /** Reference definition of the binds a bound module owes: one per
      allocate or reallocate, covering the returned address with the
      requested size, on `node`. */
  function AllocationBinds(ops: seq<Op>, node: int): (r: seq<BindCall>)
    ensures |r| == AllocationCount(ops)
    ensures forall i :: 0 <= i < |r| ==> r[i].node == node
  {
    if ops == [] then []
    else
      var head := match ops[0]
        case AllocOp(size, _, _, result) => [BindCall(result, size, node)]
        case ReallocOp(_, size, _, result) => [BindCall(result, size, node)]
        case _ => [];
      head + AllocationBinds(ops[1..], node)
  }

  /** Number of events in `ops` on which the mapping is torn down. */
  function RestartCount(env: Env, ops: seq<Op>): nat
  {
    if ops == [] then 0
    else (if ops[0].EventOp? && RestartClass(env, ops[0].state) then 1 else 0) + RestartCount(env, ops[1..])
  }

  /** Number of checkpoint events in `ops` that the build acts on. */
  function CheckpointCount(env: Env, ops: seq<Op>): nat
  {
    if ops == [] then 0
    else (if ops[0].EventOp? && ops[0].state.Checkpoint? && env.ftEnabled then 1 else 0)
         + CheckpointCount(env, ops[1..])
  }

  /** No entry point changes mem_node: it keeps the value module_init (or the
      component afterwards) gave it. */
  lemma {:induction false} RunKeepsMemNode(s: PoolState, env: Env, ops: seq<Op>)
    ensures Run(s, env, ops).memNode == s.memNode
    decreases |ops|
  {
    if ops != [] {
      RunKeepsMemNode(Step(s, env, ops[0]), env, ops[1..]);
    }
  }

  /** The bind log grows by exactly the reference binds when mem_node is a
      node, and not at all when it is negative. */
  lemma {:induction false} RunBinds(s: PoolState, env: Env, ops: seq<Op>)
    ensures Run(s, env, ops).binds
            == s.binds + (if s.memNode >= 0 then AllocationBinds(ops, s.memNode) else [])
    decreases |ops|
  {
    if ops != [] {
      var t := Step(s, env, ops[0]);
      assert t.memNode == s.memNode;
      RunBinds(t, env, ops[1..]);
    }
  }

  /** An unbound module never issues a bind call. */
  lemma {:induction false} UnboundNeverBinds(s: PoolState, env: Env, ops: seq<Op>)
    requires s.memNode < 0
    ensures Run(s, env, ops).binds == s.binds
  {
    RunBinds(s, env, ops);
  }

  /** A module bound to node N issues exactly one bind per allocate or
      reallocate, each on N (RunBinds says which segment each covers). */
  lemma {:induction false} BoundBindsOncePerAllocation(s: PoolState, env: Env, ops: seq<Op>)
    requires s.memNode >= 0
    ensures |Run(s, env, ops).binds| == |s.binds| + AllocationCount(ops)
    ensures forall i :: |s.binds| <= i < |Run(s, env, ops).binds| ==> Run(s, env, ops).binds[i].node == s.memNode
  {
    RunBinds(s, env, ops);
  }

  /** A freshly initialised module never binds, whatever calls follow. */
  lemma {:induction false} FreshModuleNeverBinds(s: PoolState, env: Env, ops: seq<Op>)
    ensures Run(AfterInit(s), env, ops).binds == s.binds
  {
    UnboundNeverBinds(AfterInit(s), env, ops);
  }

  /** The registry's destroy is called exactly once per restart-class event
      and never otherwise; earlier destroys stay in the log. */
  lemma {:induction false} DestroysOncePerRestart(s: PoolState, env: Env, ops: seq<Op>)
    ensures |Run(s, env, ops).destroyed| == |s.destroyed| + RestartCount(env, ops)
    ensures Run(s, env, ops).destroyed[..|s.destroyed|] == s.destroyed
    decreases |ops|
  {
    if ops != [] {
      var t := Step(s, env, ops[0]);
      DestroysOncePerRestart(t, env, ops[1..]);
      assert t.destroyed[..|s.destroyed|] == s.destroyed;
      var u := Run(t, env, ops[1..]);
      assert u.destroyed[..|s.destroyed|] == u.destroyed[..|t.destroyed|][..|s.destroyed|];
    }
  }

  /** Checkpoints append one token each, always the checkpoint path. */
  lemma {:induction false} TokensAreCheckpointPaths(s: PoolState, env: Env, ops: seq<Op>)
    ensures |Run(s, env, ops).tokens| == |s.tokens| + CheckpointCount(env, ops)
    ensures Run(s, env, ops).tokens[..|s.tokens|] == s.tokens
    ensures forall i :: |s.tokens| <= i < |Run(s, env, ops).tokens| ==> Run(s, env, ops).tokens[i] == CheckpointPath(env)
    decreases |ops|
  {
    if ops != [] {
      var t := Step(s, env, ops[0]);
      TokensAreCheckpointPaths(t, env, ops[1..]);
      assert t.tokens[..|s.tokens|] == s.tokens;
      assert forall i :: |s.tokens| <= i < |t.tokens| ==> t.tokens[i] == CheckpointPath(env);
      var u := Run(t, env, ops[1..]);
      assert u.tokens[..|s.tokens|] == u.tokens[..|t.tokens|][..|s.tokens|];
    }
  }

  /** The cleanup list keeps whatever entries it had (other components'
      included), and every file this module adds to it is scheduled for
      deferred, never immediate, removal. */
  lemma {:induction false} CleanupStaysDeferred(s: PoolState, env: Env, ops: seq<Op>)
    ensures |s.cleanup| <= |Run(s, env, ops).cleanup|
    ensures Run(s, env, ops).cleanup[..|s.cleanup|] == s.cleanup
    ensures forall i :: |s.cleanup| <= i < |Run(s, env, ops).cleanup| ==> !Run(s, env, ops).cleanup[i].immediate
    decreases |ops|
  {
    if ops != [] {
      var t := Step(s, env, ops[0]);
      CleanupStaysDeferred(t, env, ops[1..]);
      assert |s.cleanup| <= |t.cleanup| && t.cleanup[..|s.cleanup|] == s.cleanup;
      assert forall i :: |s.cleanup| <= i < |t.cleanup| ==> !t.cleanup[i].immediate;
      var u := Run(t, env, ops[1..]);
      assert u.cleanup[..|s.cleanup|] == u.cleanup[..|t.cleanup|][..|s.cleanup|];
    }
  }

  /** A present mapping keeps holding a reference under every call. */
  lemma {:induction false} RunKeepsMappingLive(s: PoolState, env: Env, ops: seq<Op>)
    requires MappingLive(s)
    ensures MappingLive(Run(s, env, ops))
    decreases |ops|
  {
    if ops != [] {
      RunKeepsMappingLive(Step(s, env, ops[0]), env, ops[1..]);
    }
  }

  /** Without a restart-class event the mapping, and so the base address, is
      exactly as before: allocation, free and checkpoint never touch it. */
  lemma {:induction false} BaseStableWithoutRestart(s: PoolState, env: Env, ops: seq<Op>)
    requires RestartCount(env, ops) == 0
    ensures Run(s, env, ops).mapping == s.mapping
    ensures BaseAddress(Run(s, env, ops)) == BaseAddress(s)
    decreases |ops|
  {
    if ops != [] {
      BaseStableWithoutRestart(Step(s, env, ops[0]), env, ops[1..]);
    }
  }

  /** A restart-class event on a mapping that holds its last reference
      leaves no mapping behind: the base address reads NULL afterwards, and
      the cleanup list keeps its entries and gains the old file, for deferred
      removal, exactly when finalise succeeded. */
  lemma RestartDropsLastMapping(s: PoolState, env: Env, state: CrsState, smModule: Addr, finiOk: bool)
    requires RestartClass(env, state)
    requires s.mapping.Some? && s.mapping.value.refCount == 1
    ensures BaseAddress(FtEventEffect(s, env, state, smModule, finiOk)) == Null
    ensures FtEventEffect(s, env, state, smModule, finiOk).cleanup
            == s.cleanup + (if finiOk then [CleanupEntry(s.mapping.value.mapPath, false)] else [])
  {
  }

  /** Continue acts exactly as Restart when continue_like_restart is set and
      does nothing otherwise; Terminate and unrecognised states do nothing. */
  lemma ContinueAsRestart(s: PoolState, env: Env, smModule: Addr, finiOk: bool, code: int)
    ensures FtEventEffect(s, env, Continue, smModule, finiOk)
            == (if env.continueLikeRestart then FtEventEffect(s, env, Restart, smModule, finiOk) else s)
    ensures FtEventEffect(s, env, Term, smModule, finiOk) == s
    ensures FtEventEffect(s, env, Other(code), smModule, finiOk) == s
  {
  }

  /** The checkpoint path determines the node: two nodes of one job record
      the same file name only if they have the same name. */
  lemma CheckpointPathDeterminesNode(env1: Env, env2: Env)
    requires env1.jobSessionDir == env2.jobSessionDir
    ensures CheckpointPath(env1) == CheckpointPath(env2) <==> env1.nodename == env2.nodename
  {
  }

  /** The end-to-end run: with a mapping that holds its last reference, an
      allocation of 64 bytes at alignment 8 and then a Restart leave the base
      address NULL, schedule the old file for deferred removal when
      finalise succeeded, and destroy the "sm" module once. */
  lemma {:induction false} AllocThenRestart(s: PoolState, env: Env, reg: Addr, result: Addr, smModule: Addr, finiOk: bool)
    requires env.ftEnabled
    requires s.mapping.Some? && s.mapping.value.refCount == 1
    ensures var t := Run(s, env, [AllocOp(64, 8, reg, result), EventOp(Restart, smModule, finiOk)]);
            && BaseAddress(t) == Null
            && t.destroyed == s.destroyed + [smModule]
            && t.cleanup == s.cleanup + (if finiOk then [CleanupEntry(s.mapping.value.mapPath, false)] else [])
  {
    var ops := [AllocOp(64, 8, reg, result), EventOp(Restart, smModule, finiOk)];
    var a := AllocEffect(s, 64, 8, reg, result);
    assert Run(s, env, ops) == Run(a, env, ops[1..]);
    assert ops[1..][1..] == [];
    assert Run(a, env, ops[1..]) == FtEventEffect(a, env, Restart, smModule, finiOk);
  }
}
