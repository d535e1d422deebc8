/** The state the shared-memory mpool module reads and writes, and the effect
    of each of its entry points on that state, as pure functions.

    Foreign collaborators (the generic allocator, the maffinity bind call, the
    module registry, mca_common_sm_mmap_fini, the CRS metadata writer and the
    CRS cleanup list) appear only as logs of the calls made to them; their
    answers are passed in as parameters. */
module MpoolSmState {

  /** A C pointer, as an address; 0 stands for NULL. */
  type Addr = nat

  const Null: Addr := 0

  /** OMPI_SUCCESS */
  const Success: int := 0

  /** The mem_node value that means "not bound to any NUMA node". */
  const Unbound: int := -1

  /** OPAL_PATH_SEP on a POSIX host. */
  const PathSep: string := "/"

  /** The fixed part of the backing file's name. */
  const PoolFilePrefix: string := "shared_mem_pool."

  datatype Option<T> = None | Some(value: T)

  /** mca_common_sm_mmap: the process's shared-memory mapping, with the
      reference count that OBJ_RELEASE drops. */
  datatype Mapping = Mapping(mapAddr: Addr, mapPath: string, refCount: nat)

  /** One opal_maffinity_base_bind call over a single segment. */
  datatype BindCall = BindCall(start: Addr, len: nat, node: int)

  /** One call into the generic allocator behind the module. */
  datatype AllocatorCall =
    | AlcAlloc(size: nat, align: nat, registration: Addr)
    | AlcRealloc(addr: Addr, size: nat, registration: Addr)
    | AlcFree(addr: Addr)

  /** One opal_crs_base_cleanup_append call: a file to remove, and whether now. */
  datatype CleanupEntry = CleanupEntry(path: string, immediate: bool)

  /** The checkpoint/restart state handed to ft_event; Other stands for every
      integer that is none of the named OPAL_CRS_* values. */
  datatype CrsState = Checkpoint | Continue | Restart | RestartPre | Term | Other(code: int)

  /** What ft_event reads from the rest of the runtime: the OPAL_ENABLE_FT
      build switch, ompi_cr_continue_like_restart and orte_proc_info. */
  datatype Env = Env(ftEnabled: bool, continueLikeRestart: bool, jobSessionDir: string, nodename: string)

  /** The module's mem_node and every piece of global state its entry points touch. */
  datatype PoolState = PoolState(
    mapping: Option<Mapping>,            // mca_common_sm_mmap, None for NULL
    memNode: int,                        // mpool_sm->mem_node
    allocatorCalls: seq<AllocatorCall>,  // calls into sm_allocator
    binds: seq<BindCall>,                // opal_maffinity_base_bind calls
    tokens: seq<string>,                 // CRS metadata tokens written (touch key)
    cleanup: seq<CleanupEntry>,          // CRS deferred-cleanup list
    finalized: seq<string>,              // paths of mappings passed to mmap_fini
    destroyed: seq<Addr>)                // modules passed to mca_mpool_base_module_destroy

  /** A mapping that is present still holds a reference. */
  predicate MappingLive(s: PoolState)
  {
    s.mapping.Some? ==> s.mapping.value.refCount >= 1
  }

  /** mca_mpool_sm_base: the mapping's base address, or NULL without a mapping. */
  function BaseAddress(s: PoolState): Addr
  {
    if s.mapping.Some? then s.mapping.value.mapAddr else Null
  }

  /** What mca_mpool_sm_module_init changes in the state: only mem_node. */
  function AfterInit(s: PoolState): (t: PoolState)
    ensures t.memNode == Unbound
    ensures t == s.(memNode := t.memNode)
  {
    s.(memNode := Unbound)
  }

  /** The bind request an allocation wrapper issues for a segment: one call
      on mem_node when it is a node, none when it is negative. */
  function BindRequest(node: int, start: Addr, len: nat): (r: seq<BindCall>)
    ensures node >= 0 <==> |r| == 1
    ensures node < 0 <==> r == []
    ensures forall i :: 0 <= i < |r| ==> r[i] == BindCall(start, len, node)
  {
    if node >= 0 then [BindCall(start, len, node)] else []
  }

  /** mca_mpool_sm_alloc, the allocator having answered `result`. The bind is
      requested at `result` even when it is NULL: the code does not check. */
  function AllocEffect(s: PoolState, size: nat, align: nat, registration: Addr, result: Addr): (t: PoolState)
    ensures t.allocatorCalls == s.allocatorCalls + [AlcAlloc(size, align, registration)]
    ensures s.memNode >= 0 ==> t.binds == s.binds + [BindCall(result, size, s.memNode)]
    ensures s.memNode < 0 ==> t.binds == s.binds
    ensures t == s.(allocatorCalls := t.allocatorCalls, binds := t.binds)
  {
    s.(allocatorCalls := s.allocatorCalls + [AlcAlloc(size, align, registration)],
       binds := s.binds + BindRequest(s.memNode, result, size))
  }

  /** mca_mpool_sm_realloc, the allocator having answered `result`; the bind
      covers the new size at the returned address. */
  function ReallocEffect(s: PoolState, addr: Addr, size: nat, registration: Addr, result: Addr): (t: PoolState)
    ensures t.allocatorCalls == s.allocatorCalls + [AlcRealloc(addr, size, registration)]
    ensures s.memNode >= 0 ==> t.binds == s.binds + [BindCall(result, size, s.memNode)]
    ensures s.memNode < 0 ==> t.binds == s.binds
    ensures t == s.(allocatorCalls := t.allocatorCalls, binds := t.binds)
  {
    s.(allocatorCalls := s.allocatorCalls + [AlcRealloc(addr, size, registration)],
       binds := s.binds + BindRequest(s.memNode, result, size))
  }

  /** mca_mpool_sm_free: only the address reaches the allocator; no bind. */
  function FreeEffect(s: PoolState, addr: Addr): (t: PoolState)
    ensures t.allocatorCalls == s.allocatorCalls + [AlcFree(addr)]
    ensures t.binds == s.binds
    ensures t == s.(allocatorCalls := t.allocatorCalls)
  {
    s.(allocatorCalls := s.allocatorCalls + [AlcFree(addr)])
  }

  /** The backing-file name a checkpoint records:
      job_session_dir, the path separator, "shared_mem_pool.", nodename. */
  function CheckpointPath(env: Env): (p: string)
    ensures |p| == |env.jobSessionDir| + |PathSep| + |PoolFilePrefix| + |env.nodename|
    ensures p[..|env.jobSessionDir|] == env.jobSessionDir
    ensures p[|env.jobSessionDir|..|env.jobSessionDir| + |PathSep|] == PathSep
    ensures p[|env.jobSessionDir| + |PathSep|..|p| - |env.nodename|] == PoolFilePrefix
    ensures p[|p| - |env.nodename|..] == env.nodename
  {
    var p := env.jobSessionDir + PathSep + PoolFilePrefix + env.nodename;
    assert p == env.jobSessionDir + (PathSep + (PoolFilePrefix + env.nodename));
    p
  }

  /** OBJ_RELEASE on the mapping: the last reference clears it. */
  function ReleaseMapping(m: Mapping): (r: Option<Mapping>)
    ensures m.refCount <= 1 <==> r.None?
    ensures r.Some? ==> r.value.mapAddr == m.mapAddr && r.value.mapPath == m.mapPath
                        && r.value.refCount + 1 == m.refCount
  {
    if m.refCount <= 1 then None else Some(m.(refCount := m.refCount - 1))
  }

  /** The restart branch of ft_event: destroy the module the registry gave
      for "sm"; then, if a mapping exists, finalise it, schedule its file for
      deferred removal when finalise succeeded, and drop its reference. */
  function RestartEffect(s: PoolState, smModule: Addr, finiOk: bool): (t: PoolState)
    ensures t.destroyed == s.destroyed + [smModule]
    ensures s.mapping.None? ==> t == s.(destroyed := t.destroyed)
    ensures s.mapping.Some? ==>
              && t.finalized == s.finalized + [s.mapping.value.mapPath]
              && t.cleanup == s.cleanup + (if finiOk then [CleanupEntry(s.mapping.value.mapPath, false)] else [])
              && t.mapping == ReleaseMapping(s.mapping.value)
    ensures t == s.(mapping := t.mapping, cleanup := t.cleanup, finalized := t.finalized, destroyed := t.destroyed)
  {
    var d := s.(destroyed := s.destroyed + [smModule]);
    match s.mapping
    case None => d
    case Some(m) =>
      d.(finalized := s.finalized + [m.mapPath],
         cleanup := if finiOk then s.cleanup + [CleanupEntry(m.mapPath, false)] else s.cleanup,
         mapping := ReleaseMapping(m))
  }

  /** The events on which ft_event tears the mapping down. */
  predicate RestartClass(env: Env, state: CrsState)
  {
    env.ftEnabled && (state.Restart? || state.RestartPre? || (state.Continue? && env.continueLikeRestart))
  }

  /** mca_mpool_sm_ft_event, in both builds. */
  function FtEventEffect(s: PoolState, env: Env, state: CrsState, smModule: Addr, finiOk: bool): (t: PoolState)
    ensures env.ftEnabled && state.Checkpoint? ==> t == s.(tokens := s.tokens + [CheckpointPath(env)])
    ensures RestartClass(env, state) ==> t == RestartEffect(s, smModule, finiOk)
    ensures !RestartClass(env, state) && !(env.ftEnabled && state.Checkpoint?) ==> t == s
    ensures t.memNode == s.memNode && t.allocatorCalls == s.allocatorCalls && t.binds == s.binds
  {
    if !env.ftEnabled then s
    else
      match state
      case Checkpoint => s.(tokens := s.tokens + [CheckpointPath(env)])
      case Continue => if env.continueLikeRestart then RestartEffect(s, smModule, finiOk) else s
      case Restart => RestartEffect(s, smModule, finiOk)
      case RestartPre => RestartEffect(s, smModule, finiOk)
      case Term => s
      case Other(_) => s
  }
}
