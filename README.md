# Shared-memory mpool module (Open MPI `mpool/sm`) in Dafny

This project models the shared-memory memory-pool module of Open MPI,
`ompi/mca/mpool/sm/mpool_sm_module.c`: module initialisation, the four
allocation entry points (`base`, `alloc`, `realloc`, `free`) with their
NUMA-binding rule, and the checkpoint/restart event handler `ft_event` in
both builds (fault tolerance compiled in or out).

- `mpool_sm_state.dfy` (module `MpoolSmState`) holds the state the entry
  points touch — the module's `mem_node`, the global `mca_common_sm_mmap`
  mapping, and logs of the calls made into foreign code (the generic
  allocator, `opal_maffinity_base_bind`, the CRS metadata writer, the CRS
  cleanup list, `mca_common_sm_mmap_fini` and the module registry's destroy)
  — and the effect of each entry point as a pure function of that state.
- `mpool_sm_module.dfy` (module `MpoolSmModule`) is the module as an object:
  class `SmPool` with the generic function table (`super`), `mem_node` and the
  global state as fields, and one method per entry point that updates those
  fields in place and is proved to have exactly the effect its function in
  `MpoolSmState` describes.
- `mpool_sm_properties.dfy` (module `MpoolSmProperties`) runs arbitrary
  sequences of calls through those effects and proves what holds over all of
  them: the bind log, the destroy count, the metadata tokens, the cleanup
  list and the mapping.

The answers of foreign code are parameters: the address the allocator
returned, the module the registry lookup of `"sm"` returned, and whether
`mca_common_sm_mmap_fini` succeeded. A pointer is a natural number, with 0
for NULL. `OBJ_RELEASE` on the mapping drops one reference; the mapping is
gone (and `base` answers NULL) when the last reference is dropped.

A bound module binds even when the allocator returns NULL
(`mpool_sm_module.c:78-84`, `101-107`): the segment is bound at the
allocator's result without a check. The model keeps this (`AllocEffect`,
`ReallocEffect`).

## Model

| member | source | states |
|---|---|---|
| MpoolSmModule.SmPool.ModuleInit | ompi/mca/mpool/sm/mpool_sm_module.c:40-55 | installs the sm component and its base, alloc, realloc, free and ft_event functions, leaves find, register, deregister, release_memory and finalize NULL, sets flags to 0 and mem_node to -1, and changes nothing else |
| MpoolSmState.AfterInit | ompi/mca/mpool/sm/mpool_sm_module.c:54 | after initialisation mem_node is -1 (unbound) and every other part of the state is as before |
| MpoolSmModule.SmPool.Base | ompi/mca/mpool/sm/mpool_sm_module.c:60-63 | a pure query: the mapping's map_addr when a mapping exists, NULL otherwise |
| MpoolSmState.BindRequest | ompi/mca/mpool/sm/mpool_sm_module.c:81-84 | exactly one bind call (start, len, mem_node) if and only if mem_node >= 0, none if and only if it is negative |
| MpoolSmState.AllocEffect | ompi/mca/mpool/sm/mpool_sm_module.c:68-87 | one allocator call with size, alignment and registration; one bind at the returned address with the requested size iff mem_node >= 0, none otherwise; nothing else changes |
| MpoolSmModule.SmPool.Alloc | ompi/mca/mpool/sm/mpool_sm_module.c:68-87 | returns exactly what the allocator returned and changes the state as AllocEffect says |
| MpoolSmState.ReallocEffect | ompi/mca/mpool/sm/mpool_sm_module.c:92-110 | one allocator realloc call; one bind with the new size at the returned address iff mem_node >= 0; nothing else changes |
| MpoolSmModule.SmPool.Realloc | ompi/mca/mpool/sm/mpool_sm_module.c:92-110 | returns exactly what the allocator returned and changes the state as ReallocEffect says |
| MpoolSmState.FreeEffect | ompi/mca/mpool/sm/mpool_sm_module.c:115-120 | only the address reaches the allocator's free; no bind call; nothing else changes |
| MpoolSmModule.SmPool.Free | ompi/mca/mpool/sm/mpool_sm_module.c:115-120 | ignores the registration argument and changes the state as FreeEffect says |
| MpoolSmState.CheckpointPath | ompi/mca/mpool/sm/mpool_sm_module.c:133-135 | the recorded file name is the job session directory, then the path separator, then "shared_mem_pool.", then the node name |
| MpoolSmState.ReleaseMapping | ompi/mca/mpool/sm/mpool_sm_module.c:168 | releasing the mapping clears it iff it held the last reference; otherwise the same mapping with one reference fewer |
| MpoolSmState.RestartEffect | ompi/mca/mpool/sm/mpool_sm_module.c:158-169 | destroys the looked-up module once; without a mapping nothing more; with one: finalises it, appends (map_path, false) to the cleanup list only when finalise succeeded, and releases it either way; tokens, binds, allocator calls and mem_node unchanged |
| MpoolSmState.FtEventEffect | ompi/mca/mpool/sm/mpool_sm_module.c:122-180 | FT build: Checkpoint appends exactly the checkpoint path to the tokens and changes nothing else; Restart, RestartPre, and Continue with continue_like_restart set, have the restart effect; every other state has no effect. Non-FT build: no effect |
| MpoolSmModule.SmPool.DestroyAndRelease | ompi/mca/mpool/sm/mpool_sm_module.c:156-170 | updates the mapping, cleanup list and logs in place exactly as RestartEffect says |
| MpoolSmModule.SmPool.FtEvent | ompi/mca/mpool/sm/mpool_sm_module.c:122-180 | always returns OMPI_SUCCESS and changes the state as FtEventEffect says |
| MpoolSmProperties.AllocationBinds | ompi/mca/mpool/sm/mpool_sm_module.c:78-84 | the reference list of owed binds has one entry per allocate or reallocate call, each on the given node |
| MpoolSmProperties.RunKeepsMemNode | ompi/mca/mpool/sm/mpool_sm_module.c:68-120 | no sequence of allocate, reallocate, free or ft_event calls changes mem_node |
| MpoolSmProperties.RunBinds | ompi/mca/mpool/sm/mpool_sm_module.c:68-110 | over any sequence of calls the bind log grows by exactly the reference binds when mem_node >= 0 and by nothing when it is negative |
| MpoolSmProperties.UnboundNeverBinds | ompi/mca/mpool/sm/mpool_sm_module.c:81-84 | an unbound module never issues a bind call, whatever calls it gets |
| MpoolSmProperties.BoundBindsOncePerAllocation | ompi/mca/mpool/sm/mpool_sm_module.c:104-107 | a bound module issues exactly one bind per allocate or reallocate, each on its node |
| MpoolSmProperties.FreshModuleNeverBinds | ompi/mca/mpool/sm/mpool_sm_module.c:54 | a freshly initialised module never binds, whatever calls follow |
| MpoolSmProperties.DestroysOncePerRestart | ompi/mca/mpool/sm/mpool_sm_module.c:159-160 | the registry's destroy is called exactly once per restart-class event and never otherwise, and earlier destroys stay in the log |
| MpoolSmProperties.TokensAreCheckpointPaths | ompi/mca/mpool/sm/mpool_sm_module.c:131-139 | the metadata tokens grow by one per checkpoint, keep their earlier contents, and every new token is the checkpoint path |
| MpoolSmProperties.CleanupStaysDeferred | ompi/mca/mpool/sm/mpool_sm_module.c:166 | over any sequence of calls the cleanup list keeps every earlier entry, other components' included, and every file this module adds is scheduled for deferred, never immediate, removal |
| MpoolSmProperties.RunKeepsMappingLive | ompi/mca/mpool/sm/mpool_sm_module.c:163-169 | a present mapping keeps holding a reference under every sequence of calls |
| MpoolSmProperties.BaseStableWithoutRestart | ompi/mca/mpool/sm/mpool_sm_module.c:60-63 | without a restart-class event the mapping and the base address stay exactly as they were: allocation, free and checkpoint never touch them |
| MpoolSmProperties.RestartDropsLastMapping | ompi/mca/mpool/sm/mpool_sm_module.c:163-169 | a restart-class event on a mapping holding its last reference leaves base returning NULL and keeps the cleanup list, extended by exactly the old file for deferred removal iff finalise succeeded |
| MpoolSmProperties.ContinueAsRestart | ompi/mca/mpool/sm/mpool_sm_module.c:140-155 | Continue has exactly the Restart effect when continue_like_restart is set and no effect otherwise; Terminate and unrecognised states have no effect |
| MpoolSmProperties.CheckpointPathDeterminesNode | ompi/mca/mpool/sm/mpool_sm_module.c:133-135 | within one job session directory, two nodes record the same file name iff they have the same node name |
| MpoolSmProperties.AllocThenRestart | ompi/mca/mpool/sm/mpool_sm_module.c:156-170 | an allocation of 64 bytes followed by a Restart leaves base NULL, destroys the sm module once and schedules the old file for deferred removal iff finalise succeeded |

## Left out

- `oshmem/shmem/c/shmem_finc_nb.c` (nonblocking remote fetch-and-increment): its point is atomicity across processes, its work is done by the transport's `fadd_nb` and its checks are macros defined elsewhere; it is not part of this model.
- The generic allocator behind `alc_alloc`, `alc_realloc` and `alc_free`: its answers are parameters, so non-overlap of live allocations, alignment and exhaustion are not modelled.
- The effect of `opal_maffinity_base_bind` on memory placement, and its status, which the code ignores: a bind is only a logged call.
- `mca_common_sm_mmap_fini` (unmapping, file handling) and the destructor `OBJ_RELEASE` runs: finalise is a boolean outcome plus a logged call, release drops one reference.
- The registry lookup of `"sm"` and destroy: the lookup's answer is a parameter and destroy a logged call, so destroying an already destroyed module twice is not ruled out here, as the code does not rule it out either.
- The metadata key `CRS_METADATA_TOUCH` and the `asprintf`/`free` of the file name: a token is just the recorded path.
- Creating a fresh mapping on the next allocation after a restart happens in the component, which is not part of this model.
- The numeric values of the `OPAL_CRS_*` states are defined elsewhere: the state is an enumeration with `Other` for every other value.
- `OPAL_PATH_SEP` is taken to be `/` (a POSIX host).
- `size_t` and `uint32_t` widths: sizes are unbounded naturals, which the module only passes on.
- Cross-process serialisation of restart events is assumed by the runtime and not modelled.
