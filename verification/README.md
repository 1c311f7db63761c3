# MangoHud GL interposition layer — a Dafny model

MangoHud's OpenGL layer is preloaded into a game's process. It exports its own
`glXGetProcAddress`, `glXGetProcAddressARB`, `glXCreateContext`,
`glXMakeCurrent` and `glXSwapBuffers`, and optionally `dlsym`. It answers
look-ups of those names with its own hooks and forwards everything else to
the real driver. On every context switch it keeps one overlay state per host
GL context. On every buffer swap it counts frames and refreshes a statistics
record every half second. To reach the real `dlopen`/`dlsym` without going
through its own interposed `dlsym`, it finds them by introspecting the loaded
`libdl` the first time they are needed (once, as long as no two threads race
to that first call). It can also trace each real call, naming the `RTLD_*` bits of
a `dlopen` mode.

This project models that bookkeeping and proves what it promises. There are
five modules:

- `Common` (common.dfy): the shared values. `Pointer` is null, one of the
  five hooks, or any other address. `Result`/`Outcome` carry the paths on
  which the C code calls `exit(1)`.
- `RealDlsym` (real_dlsym.dfy):
  - the class `DlResolver`, holding the lazily captured `__dlopen`/`__dlsym`
    pointers, the pass-through wrappers `RealDlopen`/`RealDlsym` and a trace
    of the debug lines;
  - the bootstrap `GetRealFunctions`, against the pure outcome `Bootstrap`;
  - the `FLAG(...)` formatter, written as seven `Flag` steps updating
    `out`/`fmt` and proved against the specification `Join(ListedFlags(..))`,
    with a parser that reads the printed list back.
- `Interpose` (interpose.dfy):
  - the five-entry name table and `FindPtr`, its linear scan;
  - the hooked `glXGetProcAddress[ARB]` and `dlsym`;
  - the layer's own driver look-ups `GetProcAddress` and `GetGlxProcAddress`,
    which fall back from `glXGetProcAddress` to `glXGetProcAddressARB` to
    `dlsym(RTLD_NEXT, ..)`.
- `Registry` (registry.dfy): the class `ContextRegistry`, holding the map
  from context to overlay state, the current entry and the once-only
  `inited` flag. Its methods `Init`, `Create`, `Destroy`, `Shutdown`,
  `SetContext` and `MakeCurrent` are proved against the value-level
  `SetContextSpec`/`DestroySpec`, and the lemmas state the transitions.
- `FrameStats` (swap_buffers.dfy): the class `SwapchainStats`. Its fields are
  the frame counter, the fps, the half-size font, `last_fps_update`, the
  requested sampler work and the `frames_stats` ring as an `array2`. The
  method `SwapBuffers` is the per-frame step. The GPU vendor is chosen with a
  verified substring search, `Find`.

The real GL, ImGui and ELF functions are parameters. A `DlResolver` is given:

- the introspection result (`LibdlImage`);
- the real `dlopen`/`dlsym` (`openImpl`, `resolveImpl`);
- the two debug toggles.

The driver's `glXGetProcAddress[ARB]` and `glXMakeCurrent` are function
parameters. The clock reading `now` and the renderer string are parameters of
`SwapBuffers`. The overlay state created for a new context is a parameter of
opaque handles.

Three behaviours of the C code are worth spelling out, and the model keeps
each as written:

- The refreshed slot of the statistics ring is `n_frames % capacity`
  (`src/gl/inject.cpp:211`). `n_frames` counts the frames of the window just
  ended, because it is reset on every refresh (line 231) and incremented on
  every frame (line 234).
- The CPU sample is taken synchronously on the render thread
  (`UpdateCPUData`, `src/gl/inject.cpp:227-228`). Only the GPU, memory and
  IO samplers are threads.
- Destroying the current context leaves `current_state` pointing at the
  erased entry (`src/gl/inject.cpp:104-114`): the current reference names a
  key that is no longer present (`DestroyCurrentDangles`).

The `RTLD_*` values are glibc's `<bits/dlfcn.h>` values:

| flag | value |
|---|---|
| `RTLD_LAZY` | 0x1 |
| `RTLD_NOW` | 0x2 |
| `RTLD_NOLOAD` | 0x4 |
| `RTLD_DEEPBIND` | 0x8 |
| `RTLD_GLOBAL` | 0x100 |
| `RTLD_LOCAL` | 0 |
| `RTLD_NODELETE` | 0x1000 |

`FormatFlags` itself is proved for any seven-entry table.

## Model

| member | source | states |
|---|---|---|
| RealDlsym.Bootstrap | src/gl/real_dlsym.cpp:17-35 | The bootstrap passes exactly when libdl is found with both `dlopen` and `dlsym`. Otherwise it fails with the first failing step of a fixed order: no libdl, then no `dlopen`, then no `dlsym`. Each outcome is stated as an if-and-only-if. |
| RealDlsym.DlResolver.constructor | src/gl/real_dlsym.cpp:12-15 | Both captured pointers start null, no lookup has been made, and the trace is empty. The debug toggles are fixed for the life of the process. |
| RealDlsym.DlResolver.GetRealFunctions | src/gl/real_dlsym.cpp:17-37 | Makes one introspection and returns `Bootstrap(image)`. On success both pointers are the non-null addresses found. On `NoDlsym` only `__dlopen` has been captured. On the earlier failures neither has. |
| RealDlsym.DlResolver.RealDlopen | src/gl/real_dlsym.cpp:43-66 | Bootstraps only when `__dlopen` is null, so an initialised resolver does no further lookup and keeps its pointers. A bootstrap it runs and that succeeds captures both `__dlopen` and `__dlsym`, so a later `real_dlsym` does no lookup either. It fails exactly when a needed bootstrap fails. Otherwise it returns exactly the real `dlopen(filename, flag)`, including for a NULL file name (`None`), which `dlopen` takes to mean the main program. The debug toggle only appends the line `dlopen(file, <formatted flags>) = result`. |
| RealDlsym.DlResolver.RealDlsym | src/gl/real_dlsym.cpp:72-83 | The same contract keyed on `__dlsym`: lazy and idempotent bootstrap that captures both pointers when it succeeds, the real `dlsym(handle, symbol)` returned unchanged, and a trace line only under the toggle. |
| RealDlsym.Flag | src/gl/real_dlsym.cpp:52-53 | One `FLAG(test)` step. If the printed names so far are `printed`, then afterwards `out` is the bar-separated join of `printed` plus this name when its bit is set, and `fmt` is the bar prefix exactly when some name has been printed. |
| RealDlsym.FormatFlags | src/gl/real_dlsym.cpp:50-61 | The seven steps in order print exactly `Join(ListedFlags(flag, t))`: the set names in table order, separated by bars. |
| RealDlsym.ListedIff | src/gl/real_dlsym.cpp:53-60 | A name appears in the formatted list exactly when a tested entry with that name has its bit set in the flag word. Both directions are proved. |
| RealDlsym.LocalNeverListed | src/gl/real_dlsym.cpp:53-57 | `RTLD_LOCAL` (0 in glibc) never appears, whatever the flag word. |
| RealDlsym.NoTestedBitPrintsNothing | src/gl/real_dlsym.cpp:52-61 | A flag word with none of the tested bits set produces an empty list. |
| RealDlsym.NowGlobalListed | src/gl/real_dlsym.cpp:52-61 | The mode `RTLD_NOW` combined with `RTLD_GLOBAL` is printed as `RTLD_NOW`, one bar, then `RTLD_GLOBAL`: the first name has no prefix and the next follows a bar. |
| RealDlsym.JoinEmptyIff | src/gl/real_dlsym.cpp:52-53 | With non-empty names, the output is empty exactly when no name was printed. |
| RealDlsym.ParseJoin | src/gl/real_dlsym.cpp:52-53 | Splitting the printed list at each bar gives back exactly the printed names, in order, provided no name is empty or contains a bar. |
| RealDlsym.FlagNamesPlain | src/gl/real_dlsym.cpp:54-60 | Every name the formatter can print is non-empty and free of bars. |
| RealDlsym.FormattedFlagsReadBack | src/gl/real_dlsym.cpp:50-62 | The flag list in a `dlopen` trace line reads back as exactly the set names among the seven, in test order. |
| Interpose.HookNamed | src/gl/inject.cpp:244-252 | A name maps to a hook only when it is exactly that hook's exported name (case-sensitive). A name that no hook carries maps to nothing. |
| Interpose.HookNamedInvertsSymbolName | src/gl/inject.cpp:244-252 | Every hook is found under its own name, and no two hooks share a name. |
| Interpose.TableHoldsEveryHookOnce | src/gl/inject.cpp:244-252 | Each of the five hooks has an `ADD_HOOK` entry in the table, and the table's names are pairwise distinct. |
| Interpose.FindPtr | src/gl/inject.cpp:254-262 | The scan returns the hook named `name` for each of the five table names and null for every other name. The result is non-null exactly when some hook has that name. |
| Interpose.GlxGetProcAddress | src/gl/inject.cpp:264-274 | A table name yields its hook without the driver being consulted. Any other name yields exactly the driver's `glXGetProcAddress` answer. |
| Interpose.GlxGetProcAddressArb | src/gl/inject.cpp:276-286 | The same dispatch, forwarding to the driver's `glXGetProcAddressARB`. |
| Interpose.Dlsym | src/gl/inject.cpp:288-299 | A table name yields its hook and leaves the resolver untouched. Any other name yields exactly `real_dlsym(handle, name)`, which fails only when a needed bootstrap fails. On that path the resolver has searched for libdl once more exactly when `__dlsym` was null. After a success `__dlsym` is captured and the trace gained the `dlsym` line only under the toggle. After a failure the trace is unchanged. |
| Interpose.GetProcAddress | src/gl/inject.cpp:164-173 | Returns `real_dlsym(RTLD_NEXT, name)` when that is non-null. It exits exactly when the bootstrap fails (with the bootstrap's error) or the answer is null (`NoSuchFunction`). The resolver has searched for libdl once more exactly when `__dlsym` was null. Whenever the bootstrap did not fail, `__dlsym` is captured and the trace gained the `dlsym(RTLD_NEXT, name)` line only under the toggle. |
| Interpose.GetGlxProcAddress | src/gl/inject.cpp:175-187 | Returns the first non-null answer of the driver's `glXGetProcAddress`, then `glXGetProcAddressARB`, then `dlsym(RTLD_NEXT, ..)`. Leaving aside the loader's own use of the resolver in `gl.Load()` (line 176, left out), the resolver is touched only when both driver answers are null. In that case the result, the exit condition, the resolver's lookup count and its trace are those of `get_proc_address`. The trace gains the `dlsym(RTLD_NEXT, name)` line only when the bootstrap did not fail and the toggle is set, and is unchanged otherwise. A returned address is never null, and it exits exactly when all three stages give null or the bootstrap fails. |
| Registry.SetNullClears | src/gl/inject.cpp:127-133 | Setting a null context leaves no entries and no current entry, whatever the state before. |
| Registry.SetKnownSwitches | src/gl/inject.cpp:136-139 | Setting a known context keeps the entries and makes that context current. |
| Registry.SetUnseenAddsOne | src/gl/inject.cpp:140-143 | Setting an unseen context adds exactly one entry, keyed by it and holding the newly created state. Every other entry is kept, and the new context becomes current. |
| Registry.SetContextTwice | src/gl/inject.cpp:127-144 | Setting the same context twice is the same as setting it once: the overlay state is created at most once. |
| Registry.DestroyRemovesOnlyCtx | src/gl/inject.cpp:104-114 | Destroy removes only the key `ctx` and keeps every other entry's value. It does not change the current reference. A null or absent `ctx` leaves the registry as it was. |
| Registry.DestroyCurrentDangles | src/gl/inject.cpp:104-114 | Destroying the current context leaves the current reference naming a key that is no longer present. |
| Registry.ContextRegistry.constructor | src/gl/inject.cpp:42-44 | Starts with no entries, no current entry, `inited` false and no configuration parsed. |
| Registry.ContextRegistry.Init | src/gl/inject.cpp:46-53 | The configuration is parsed on the first call only. Afterwards `inited` holds and the parse count is 1, and a later call changes nothing. |
| Registry.ContextRegistry.Create | src/gl/inject.cpp:55-102 | A null context changes nothing. Otherwise the one-time initialisation runs, the new state is stored under `ctx`, and `ctx` becomes current. |
| Registry.ContextRegistry.Destroy | src/gl/inject.cpp:104-114 | The new registry is `DestroySpec` of the old one. The invariant (no null key, entries only after initialisation, at most one parse) is kept. |
| Registry.ContextRegistry.Shutdown | src/gl/inject.cpp:116-125 | Every entry is removed, and the invariant is kept. |
| Registry.ContextRegistry.SetContext | src/gl/inject.cpp:127-144 | The new registry is `SetContextSpec` of the old one. For a non-null context, `sw_stats.font1` becomes the current entry's `font1`. Initialisation happens exactly when an unseen context is first added. |
| Registry.ContextRegistry.MakeCurrent | src/gl/inject.cpp:197-204 | Returns the driver's answer unchanged. The registry and `font1` move as in `SetContext` only when that answer is true, and are untouched otherwise. `inited` becomes true exactly when a successful call adds an unseen non-null context, so the configuration is still parsed at most once. |
| FrameStats.Elapsed | src/gl/inject.cpp:208-209 | `now - last_fps_update` on `uint64_t`: the plain difference when time moved forward, and the difference plus 2^64 when it moved back. |
| FrameStats.BackwardClockRefreshes | src/gl/inject.cpp:208-210 | A timestamp behind the last refresh (by less than 2^64 - 500000) wraps to a huge elapsed time and triggers a refresh. |
| FrameStats.Fps | src/gl/inject.cpp:212 | The frame rate times the elapsed microseconds equals 1000000 times the frame count, and it is never negative. |
| FrameStats.FpsOneSecondWindow | src/gl/inject.cpp:209-212 | A swap one second after the last refresh, with 60 frames counted, passes the strict `elapsed > 500000` test and gets an fps of exactly 60. |
| FrameStats.Find | src/gl/inject.cpp:219-220 | `std::string::find`: the answer is a position where the needle occurs, with no occurrence before it. No answer means the needle occurs nowhere. |
| FrameStats.FindIffContains | src/gl/inject.cpp:219-220 | `find` answers a position exactly when the needle occurs in the string. |
| FrameStats.GpuSampler | src/gl/inject.cpp:217-225 | The AMD sampler is chosen exactly when the renderer string contains "Radeon" or "AMD", and the NVIDIA sampler exactly when it contains neither. |
| FrameStats.RefreshWorkCount | src/gl/inject.cpp:217-230 | One refresh requests the CPU, memory and IO samples once each. It requests the chosen GPU sampler once when GPU stats are enabled, and nothing else. |
| FrameStats.RefreshesCountOf | src/gl/inject.cpp:210-232 | Over `n` refreshes, each kind of sample is requested `n` times its per-refresh count. |
| FrameStats.RefreshesCount | src/gl/inject.cpp:210-232 | Over `n` refreshes, CPU, memory and IO are each requested exactly `n` times. The chosen GPU sampler is requested `n` times with GPU stats enabled, and no GPU sampler at all without them. |
| FrameStats.SwapchainStats.constructor | src/gl/inject.cpp:31-41 | The statistics record starts zero-initialised, with a positive capacity and `OVERLAY_PARAM_ENABLED_MAX` within the slot width. |
| FrameStats.SwapchainStats.SwapBuffers | src/gl/inject.cpp:206-237 | When strictly more than 500000 µs have elapsed, the refresh branch runs. There, slot `n_frames % capacity` is zeroed and its first `OVERLAY_PARAM_ENABLED_MAX` entries are set to 50, and no other slot changes. The fps is recomputed, the refresh work is requested, `last_fps_update` becomes `now` and `n_frames` ends at 1. Otherwise only `n_frames` increases, by exactly 1. |

## Left out

- ImGui context creation, styling, fonts, the OpenGL3 backend, `imgui_render`, `render_imgui` and `position_layer` (`src/gl/inject.cpp:61-99`, `146-162`). These are foreign library calls and drawing. The state created for a new context is a parameter of opaque handles, and `SetCurrentContext`/`DestroyContext` are not recorded.
- `gl3wInit`, `glGetString`, `glGetIntegerv` and the forwarded `gl.glXSwapBuffers` call. These are driver calls. The renderer string and the driver look-ups are parameters.
- `gl.Load()`: `gl` is this layer's own `gl_loader` (`src/gl/inject.cpp:9`, `30`), which fills its table of driver entry points lazily. `loaders/loader_gl` is not part of this model, and nor is what `Load` does, including its own use of the resolver on a first call.
- Interpose.GetGlxProcAddress: it starts where `get_glx_proc_address` calls the two driver look-ups, without the `gl.Load()` call at `src/gl/inject.cpp:176`. Its `unchanged(dl)` clauses therefore describe only the fallback chain itself, not a first call in which the loader may still bootstrap the resolver.
- `glXCreateContext` (`src/gl/inject.cpp:189-195`). It only forwards to the driver and logs the result.
- FrameStats.Fps: computed over the reals. The source's single-precision multiply and double division, and their rounding, are not modelled.
- `pthread_create` for the GPU, memory and IO samplers, and `UpdateCPUData`/`total_cpu`. The model records only which work each refresh asks for, in order, as a sequence. What the samplers compute, and their concurrency with the render thread, are not modelled.
- `os_time_get`: the current time is the parameter `now`.
- `parse_overlay_config` and `getenv`. Parsing is counted (`configParses`), but its result is not modelled. `params.enabled[gpu_stats]` is the parameter `gpuStats`, and the debug toggles are fixed at construction.
- `window_size` and `engineName`. They are written by `imgui_init`/`imgui_create` and read only by the drawing code.
- `printf`, `fprintf` and `std::cerr` output. The two debug traces are kept as `TraceLine` values, but the `%p` rendering of addresses is not modelled.
- `eh_destroy_obj`: releasing the introspection handle has no effect on the modelled state.
- Concurrent calls. The model takes every hook call as running alone, one after another. In the C code the process-wide globals are read and written with no lock:
  - `__dlopen`/`__dlsym` (`src/gl/real_dlsym.cpp:12-13`);
  - `g_imgui_states`, `current_state` and `inited` (`src/gl/inject.cpp:42-44`);
  - `sw_stats` and `last_fps_update` (`src/gl/inject.cpp:31`, `41`).
  Two host threads that both reach `real_dlsym` or `real_dlopen` before the pointer is set (through the `dlsym` hook, line 298, or `get_proc_address`, line 165) can both run `get_real_functions` (`src/gl/real_dlsym.cpp:45-46`, `74-75`). So the once-only bootstrap and the `objLookups` clauses of `RealDlopen`, `RealDlsym`, `Dlsym`, `GetProcAddress` and `GetGlxProcAddress` hold only for calls that do not overlap. The same is true of the registry transitions under concurrent `glXMakeCurrent` calls (`src/gl/inject.cpp:127-143`).
- FrameStats.SwapchainStats.SwapBuffers: `n_frames` is an unbounded counter, so its 64-bit width is not modelled. The model also assumes that a `frames_stats` slot holds at least `OVERLAY_PARAM_ENABLED_MAX` entries (`requires 0 < enabledMax <= width`). `overlay.h`, which defines the slot, is not part of this model. The loop at `src/gl/inject.cpp:214-215` depends on that assumption, and so does the promise that no other slot changes. Were the slot narrower, those writes would run past it into the following slots, and the model does not capture that case.
- Registry.ContextRegistry.Create: on a context that already has an entry (reachable only by a direct call, never through `imgui_set_context`), `operator[]` keeps the key and the model overwrites the state. It does not capture that the old state's ImGui context is then lost without `ImGui::DestroyContext`, a leak of the ImGui context and its fonts.
