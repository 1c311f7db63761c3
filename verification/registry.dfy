/** The per-context overlay registry: one overlay state per host GL context,
    created the first time the context is made current, a "current" entry
    that drawing targets, a one-time configuration step, and teardown of one
    entry or of all of them. */
module Registry {
  import opened Common
  import FrameStats

  /** What the layer keeps for one host context: its ImGui context, its font
      and its half-size font. All three are opaque handles. */
  datatype OverlayState = OverlayState(imguiCtx: Pointer, font: Pointer, font1: Pointer)

  /** The registry's entries and its current entry, as a value. */
  datatype RegistryView = RegistryView(states: map<Pointer, OverlayState>, current: Option<Pointer>)

  /** `imgui_set_context(ctx)`: a null context tears everything down; a known
      one becomes current; an unseen one gets the freshly `created` state and
      becomes current. */
  function SetContextSpec(v: RegistryView, ctx: Pointer, created: OverlayState): (v': RegistryView)
  {
    if ctx == Null then RegistryView(map[], None)
    else if ctx in v.states then RegistryView(v.states, Some(ctx))
    else RegistryView(v.states[ctx := created], Some(ctx))
  }

  /** `imgui_destroy(ctx)`: the entry for a non-null known context goes;
      nothing else, not even the current reference, changes. */
  function DestroySpec(v: RegistryView, ctx: Pointer): (v': RegistryView)
  {
    if ctx == Null || ctx !in v.states then v
    else RegistryView(v.states - {ctx}, v.current)
  }

  /** A null context leaves the registry empty with no current entry,
      whatever the state before. */
  lemma SetNullClears(v: RegistryView, created: OverlayState)
    ensures SetContextSpec(v, Null, created).states == map[]
    ensures SetContextSpec(v, Null, created).current == None
  {
  }

  /** A known context keeps the set of entries and becomes current. */
  lemma SetKnownSwitches(v: RegistryView, ctx: Pointer, created: OverlayState)
    requires ctx != Null && ctx in v.states
    ensures SetContextSpec(v, ctx, created).states == v.states
    ensures SetContextSpec(v, ctx, created).current == Some(ctx)
  {
  }

  /** An unseen context adds exactly one entry, keyed by it, and becomes
      current; every other entry is kept as it was. */
  lemma SetUnseenAddsOne(v: RegistryView, ctx: Pointer, created: OverlayState)
    requires ctx != Null && ctx !in v.states
    ensures SetContextSpec(v, ctx, created).states.Keys == v.states.Keys + {ctx}
    ensures |SetContextSpec(v, ctx, created).states| == |v.states| + 1
    ensures SetContextSpec(v, ctx, created).states[ctx] == created
    ensures forall k :: k in v.states ==> SetContextSpec(v, ctx, created).states[k] == v.states[k]
    ensures SetContextSpec(v, ctx, created).current == Some(ctx)
  {
  }

  /** Making the same context current twice creates it at most once: the
      second call finds it and changes nothing. */
  lemma SetContextTwice(v: RegistryView, ctx: Pointer, first: OverlayState, second: OverlayState)
    ensures SetContextSpec(SetContextSpec(v, ctx, first), ctx, second) == SetContextSpec(v, ctx, first)
  {
  }

  /** Destroying removes only the entry for `ctx` and keeps the current
      reference; a null or unknown context leaves the registry as it was. */
  lemma DestroyRemovesOnlyCtx(v: RegistryView, ctx: Pointer)
    ensures DestroySpec(v, ctx).states.Keys == if ctx == Null then v.states.Keys else v.states.Keys - {ctx}
    ensures forall k :: k in DestroySpec(v, ctx).states ==> DestroySpec(v, ctx).states[k] == v.states[k]
    ensures DestroySpec(v, ctx).current == v.current
    ensures ctx == Null || ctx !in v.states ==> DestroySpec(v, ctx) == v
  {
  }

  /** Destroying the current context leaves the current reference naming an
      entry that no longer exists, until the next successful activation. */
  lemma DestroyCurrentDangles(v: RegistryView, ctx: Pointer)
    requires ctx != Null && ctx in v.states && v.current == Some(ctx)
    ensures DestroySpec(v, ctx).current == Some(ctx)
    ensures ctx !in DestroySpec(v, ctx).states
  {
  }

  /** The registry's process-wide state: `g_imgui_states`, `current_state`
      (as the key of the entry it points to), `inited`, and the number of
      times the configuration has been parsed. */
  class ContextRegistry {
    var states: map<Pointer, OverlayState>
    var current: Option<Pointer>
    var inited: bool
    var configParses: nat

    ghost function View(): (v: RegistryView)
      reads this
    {
      RegistryView(states, current)
    }

    /** No entry is keyed by null, entries exist only once the configuration
        has been read, and it is read at most once. */
    ghost predicate Valid()
      reads this
    {
      && Null !in states
      && (states != map[] ==> inited)
      && configParses == (if inited then 1 else 0)
    }

    constructor ()
      ensures Valid()
      ensures states == map[] && current == None && !inited && configParses == 0
    {
      states, current, inited, configParses := map[], None, false, 0;
    }

    /** `imgui_init`: the configuration is parsed on the first call only. */
    method Init()
      requires Valid()
      modifies this`inited, this`configParses
      ensures Valid()
      ensures inited && configParses == 1
      ensures old(inited) ==> configParses == old(configParses)
    {
      if inited {
        return;
      }
      inited := true;
      configParses := configParses + 1;
    }

    /** The registry part of `imgui_create`: for a non-null context, run the
        one-time initialisation, store `created` under `ctx` and make it
        current. */
    method Create(ctx: Pointer, created: OverlayState)
      requires Valid()
      modifies this
      ensures Valid()
      ensures ctx == Null ==> unchanged(this)
      ensures ctx != Null ==>
        states == old(states)[ctx := created] && current == Some(ctx) && inited
      ensures old(inited) ==> configParses == old(configParses)
    {
      if ctx == Null {
        return;
      }
      Init();
      states := states[ctx := created];
      current := Some(ctx);
    }

    /** `imgui_destroy`. */
    method Destroy(ctx: Pointer)
      requires Valid()
      modifies this`states
      ensures Valid()
      ensures View() == DestroySpec(old(View()), ctx)
    {
      if ctx == Null {
        return;
      }
      if ctx in states {
        states := states - {ctx};
      }
    }

    /** `imgui_shutdown`: every entry goes; the current reference is left to
        the caller. */
    method Shutdown()
      requires Valid()
      modifies this`states
      ensures Valid()
      ensures states == map[]
    {
      states := map[];
    }

    /** `imgui_set_context`; on a non-null context the statistics' half-size
        font becomes the current entry's. */
    method SetContext(ctx: Pointer, created: OverlayState, stats: FrameStats.SwapchainStats)
      requires Valid()
      modifies this, stats`font1
      ensures Valid()
      ensures View() == SetContextSpec(old(View()), ctx, created)
      ensures ctx != Null ==> stats.font1 == states[ctx].font1
      ensures ctx == Null ==> stats.font1 == old(stats.font1)
      ensures inited == (old(inited) || (ctx != Null && ctx !in old(states)))
    {
      if ctx == Null {
        Shutdown();
        current := None;
        return;
      }
      if ctx in states {
        current := Some(ctx);
      } else {
        Create(ctx, created);
      }
      stats.font1 := states[current.value].font1;
    }

    /** The hooked `glXMakeCurrent`: forward to the driver, and only when the
        driver reports success bring the registry along; the driver's answer
        is returned unchanged. */
    method MakeCurrent(dpy: Pointer, drawable: Pointer, ctx: Pointer,
                       driverMakeCurrent: (Pointer, Pointer, Pointer) -> bool,
                       created: OverlayState, stats: FrameStats.SwapchainStats)
      returns (ret: bool)
      requires Valid()
      modifies this, stats`font1
      ensures Valid()
      ensures ret == driverMakeCurrent(dpy, drawable, ctx)
      ensures ret ==> View() == SetContextSpec(old(View()), ctx, created)
      ensures ret && ctx != Null ==> stats.font1 == states[ctx].font1
      ensures !ret || ctx == Null ==> stats.font1 == old(stats.font1)
      ensures !ret ==> unchanged(this)
      ensures inited == (old(inited) || (ret && ctx != Null && ctx !in old(states)))
    {
      ret := driverMakeCurrent(dpy, drawable, ctx);
      if ret {
        SetContext(ctx, created, stats);
      }
    }
  }
}
