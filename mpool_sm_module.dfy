/** The shared-memory mpool module as an object: the module struct's function
    table, flags and mem_node, together with the global state its entry points
    update in place. Each entry point is proved against its effect function in
    MpoolSmState. */
module MpoolSmModule {
  import opened MpoolSmState

  /** The functions module_init stores in the function table. */
  datatype Hook = SmBase | SmAlloc | SmRealloc | SmFree | SmFtEvent

  /** mca_mpool_sm_component.super */
  datatype Component = SmComponent

  /** mca_mpool_base_module_t: the function table every mpool module
      exposes, with None for a NULL slot, and its flags. */
  datatype BaseModule = BaseModule(
    mpoolComponent: Option<Component>,
    mpoolBase: Option<Hook>,
    mpoolAlloc: Option<Hook>,
    mpoolRealloc: Option<Hook>,
    mpoolFree: Option<Hook>,
    mpoolFind: Option<Hook>,
    mpoolRegister: Option<Hook>,
    mpoolDeregister: Option<Hook>,
    mpoolReleaseMemory: Option<Hook>,
    mpoolFinalize: Option<Hook>,
    mpoolFtEvent: Option<Hook>,
    flags: int)

  /** The table before any module fills it. */
  const EmptyTable := BaseModule(None, None, None, None, None, None, None, None, None, None, None, 0)

  /** The table module_init fills: the sm component, its base, alloc,
      realloc, free and ft_event functions, no find, register, deregister,
      release_memory or finalize, and no flags. */
  const InstalledTable := BaseModule(Some(SmComponent), Some(SmBase), Some(SmAlloc), Some(SmRealloc), Some(SmFree),
                                     None, None, None, None, None, Some(SmFtEvent), 0)

  class SmPool {
    /** Runtime facts the module only reads. */
    const env: Env

    /** mpool->super: the generic mpool function table and flags. */
    var super: BaseModule
    var memNode: int

    // Global state and the logs of calls into foreign code.
    var mapping: Option<Mapping>
    var allocatorCalls: seq<AllocatorCall>
    var binds: seq<BindCall>
    var tokens: seq<string>
    var cleanup: seq<CleanupEntry>
    var finalized: seq<string>
    var destroyed: seq<Addr>

    /** The abstract state the effect functions speak about. */
    ghost function State(): PoolState
      reads this
    {
      PoolState(mapping, memNode, allocatorCalls, binds, tokens, cleanup, finalized, destroyed)
    }

    ghost predicate Valid()
      reads this
    {
      MappingLive(State())
    }

    /** The function table and defaults module_init installs. */
    ghost predicate Initialised()
      reads this
    {
      super == InstalledTable && memNode == Unbound
    }

    /** A module struct before module_init: an empty function table, the
        given mem_node and the runtime's current mapping; nothing logged yet. */
    constructor (env: Env, mapping: Option<Mapping>, memNode: int)
      requires mapping.Some? ==> mapping.value.refCount >= 1
      ensures Valid() && this.env == env
      ensures State() == PoolState(mapping, memNode, [], [], [], [], [], [])
      ensures super == EmptyTable
    {
      this.env := env;
      super := EmptyTable;
      this.memNode := memNode;
      this.mapping := mapping;
      allocatorCalls, binds, tokens, cleanup, finalized, destroyed := [], [], [], [], [], [];
    }

    /** mca_mpool_sm_module_init */
    method ModuleInit()
      requires Valid()
      modifies this`super, this`memNode
      ensures Valid() && Initialised()
      ensures State() == AfterInit(old(State()))
    {
      super := super.(
        mpoolComponent := Some(SmComponent),
        mpoolBase := Some(SmBase),
        mpoolAlloc := Some(SmAlloc),
        mpoolRealloc := Some(SmRealloc),
        mpoolFree := Some(SmFree),
        mpoolFind := None,
        mpoolRegister := None,
        mpoolDeregister := None,
        mpoolReleaseMemory := None,
        mpoolFinalize := None,
        mpoolFtEvent := Some(SmFtEvent),
        flags := 0);
      memNode := Unbound;
    }

    /** mca_mpool_sm_base */
    function Base(): (r: Addr)
      reads this
      ensures r == BaseAddress(State())
    {
      if mapping.Some? then mapping.value.mapAddr else Null
    }

    /** mca_mpool_sm_alloc; `returned` is what alc_alloc returned. The flags
        argument is not used by the module. */
    method Alloc(size: nat, align: nat, allocFlags: nat, registration: Addr, returned: Addr) returns (r: Addr)
      requires Valid()
      modifies this`allocatorCalls, this`binds
      ensures Valid()
      ensures r == returned
      ensures State() == AllocEffect(old(State()), size, align, registration, returned)
    {
      var start := returned;
      allocatorCalls := allocatorCalls + [AlcAlloc(size, align, registration)];
      if memNode >= 0 {
        binds := binds + [BindCall(start, size, memNode)];
      }
      r := start;
    }

    /** mca_mpool_sm_realloc; `returned` is what alc_realloc returned. */
    method Realloc(addr: Addr, size: nat, registration: Addr, returned: Addr) returns (r: Addr)
      requires Valid()
      modifies this`allocatorCalls, this`binds
      ensures Valid()
      ensures r == returned
      ensures State() == ReallocEffect(old(State()), addr, size, registration, returned)
    {
      var start := returned;
      allocatorCalls := allocatorCalls + [AlcRealloc(addr, size, registration)];
      if memNode >= 0 {
        binds := binds + [BindCall(start, size, memNode)];
      }
      r := start;
    }

    /** mca_mpool_sm_free; the registration argument is not passed on. */
    method Free(addr: Addr, registration: Addr)
      requires Valid()
      modifies this`allocatorCalls
      ensures Valid()
      ensures State() == FreeEffect(old(State()), addr)
    {
      allocatorCalls := allocatorCalls + [AlcFree(addr)];
    }

    /** The teardown shared by the Continue and Restart branches of ft_event.
        `smModule` is what the registry lookup of "sm" returned and `finiOk`
        whether mca_common_sm_mmap_fini returned OMPI_SUCCESS. */
    method DestroyAndRelease(smModule: Addr, finiOk: bool)
      requires Valid()
      modifies this`mapping, this`cleanup, this`finalized, this`destroyed
      ensures Valid()
      ensures State() == RestartEffect(old(State()), smModule, finiOk)
    {
      destroyed := destroyed + [smModule];
      if mapping.Some? {
        var m := mapping.value;
        finalized := finalized + [m.mapPath];
        if finiOk {
          cleanup := cleanup + [CleanupEntry(m.mapPath, false)];
        }
        if m.refCount <= 1 {
          mapping := None;
        } else {
          mapping := Some(m.(refCount := m.refCount - 1));
        }
      }
    }

    /** mca_mpool_sm_ft_event, in the build env.ftEnabled selects. */
    method FtEvent(state: CrsState, smModule: Addr, finiOk: bool) returns (rc: int)
      requires Valid()
      modifies this`mapping, this`tokens, this`cleanup, this`finalized, this`destroyed
      ensures Valid()
      ensures rc == Success
      ensures State() == FtEventEffect(old(State()), env, state, smModule, finiOk)
    {
      if !env.ftEnabled {
        return Success;
      }
      if state.Checkpoint? {
        var fileName := env.jobSessionDir + PathSep + PoolFilePrefix + env.nodename;
        tokens := tokens + [fileName];
      } else if state.Continue? {
        if env.continueLikeRestart {
          DestroyAndRelease(smModule, finiOk);
        }
      } else if state.Restart? || state.RestartPre? {
        DestroyAndRelease(smModule, finiOk);
      } else if state.Term? {
      } else {
      }
      rc := Success;
    }
  }
}
