/** The interposition table and symbol dispatch: a fixed table maps the names
    of the five exported GLX entry points to this layer's own hooks; the hooked
    address lookups answer from that table and hand every other name to the
    real resolver; and the layer's own lookup of a real driver function falls
    back from `glXGetProcAddress` to `glXGetProcAddressARB` to the next
    `dlsym` in load order. */
module Interpose {
  import opened Common
  import RealDlsym

  /** The name each hook is exported under (what `#fn` expands to). */
  function SymbolName(h: HookId): (name: string)
  {
    match h
    case GetProcAddressHook => "glXGetProcAddress"
    case GetProcAddressArbHook => "glXGetProcAddressARB"
    case CreateContextHook => "glXCreateContext"
    case MakeCurrentHook => "glXMakeCurrent"
    case SwapBuffersHook => "glXSwapBuffers"
  }

  /** One row of the table: a name and the hook it resolves to. */
  datatype FuncPtr = FuncPtr(name: string, ptr: Pointer)

  /** What `ADD_HOOK(fn)` builds: the function's own name and its address. */
  function AddHook(h: HookId): (entry: FuncPtr)
  {
    FuncPtr(SymbolName(h), Hook(h))
  }

  /** `name_to_funcptr_map`: the five entries, in declaration order. */
  const NameToFuncPtr: seq<FuncPtr> := [
    AddHook(GetProcAddressHook),
    AddHook(GetProcAddressArbHook),
    AddHook(CreateContextHook),
    AddHook(MakeCurrentHook),
    AddHook(SwapBuffersHook)
  ]

  /** The hook exported under `name`, if any (names compare exactly and
      case-sensitively, as `strcmp` does). */
  function HookNamed(name: string): (h: Option<HookId>)
    ensures h.Some? ==> SymbolName(h.value) == name
    ensures h.None? ==> forall k: HookId :: SymbolName(k) != name
  {
    if name == "glXGetProcAddress" then Some(GetProcAddressHook)
    else if name == "glXGetProcAddressARB" then Some(GetProcAddressArbHook)
    else if name == "glXCreateContext" then Some(CreateContextHook)
    else if name == "glXMakeCurrent" then Some(MakeCurrentHook)
    else if name == "glXSwapBuffers" then Some(SwapBuffersHook)
    else None
  }

  /** Each hook is found under its own name, and no two hooks share a name. */
  lemma HookNamedInvertsSymbolName(h: HookId)
    ensures HookNamed(SymbolName(h)) == Some(h)
    ensures forall k: HookId :: SymbolName(k) == SymbolName(h) ==> k == h
  {
  }

  /** The table holds exactly one entry per hook, each built by `AddHook`. */
  lemma TableHoldsEveryHookOnce(h: HookId)
    ensures exists j :: 0 <= j < |NameToFuncPtr| && NameToFuncPtr[j] == AddHook(h)
    ensures forall j, k :: 0 <= j < k < |NameToFuncPtr| ==> NameToFuncPtr[j].name != NameToFuncPtr[k].name
  {
    match h
    case GetProcAddressHook => assert NameToFuncPtr[0] == AddHook(h);
    case GetProcAddressArbHook => assert NameToFuncPtr[1] == AddHook(h);
    case CreateContextHook => assert NameToFuncPtr[2] == AddHook(h);
    case MakeCurrentHook => assert NameToFuncPtr[3] == AddHook(h);
    case SwapBuffersHook => assert NameToFuncPtr[4] == AddHook(h);
  }

  /** The address `find_ptr` answers for `name`: the hook, or null. */
  function HookPointer(name: string): (p: Pointer)
  {
    match HookNamed(name)
    case Some(h) => Hook(h)
    case None => Null
  }

  /** `find_ptr`: scan the table for an entry whose name equals `name`. */
  method FindPtr(name: string) returns (p: Pointer)
    ensures p == HookPointer(name)
    ensures p != Null <==> exists h: HookId :: SymbolName(h) == name
  {
    var i := 0;
    while i < |NameToFuncPtr|
      invariant 0 <= i <= |NameToFuncPtr|
      invariant forall j :: 0 <= j < i ==> NameToFuncPtr[j].name != name
    {
      if name == NameToFuncPtr[i].name {
        return NameToFuncPtr[i].ptr;
      }
      i := i + 1;
    }
    if HookNamed(name).Some? {
      TableHoldsEveryHookOnce(HookNamed(name).value);
    }
    return Null;
  }

  /** The hooked `glXGetProcAddress`: a table name yields the hook without the
      driver being asked; any other name yields the driver's own answer.
      `forwarded` tells whether the driver's lookup was called. */
  method GlxGetProcAddress(procName: string, driverLookup: string -> Pointer)
    returns (r: Pointer, forwarded: bool)
    ensures forwarded <==> HookNamed(procName).None?
    ensures !forwarded ==> r == Hook(HookNamed(procName).value) && SymbolName(r.id) == procName
    ensures forwarded ==> r == driverLookup(procName)
  {
    var func := FindPtr(procName);
    if func != Null {
      return func, false;
    }
    return driverLookup(procName), true;
  }

  /** The hooked `glXGetProcAddressARB`: the same dispatch, forwarding to the
      driver's ARB variant. */
  method GlxGetProcAddressArb(procName: string, driverLookupArb: string -> Pointer)
    returns (r: Pointer, forwarded: bool)
    ensures forwarded <==> HookNamed(procName).None?
    ensures !forwarded ==> r == Hook(HookNamed(procName).value) && SymbolName(r.id) == procName
    ensures forwarded ==> r == driverLookupArb(procName)
  {
    var func := FindPtr(procName);
    if func != Null {
      return func, false;
    }
    return driverLookupArb(procName), true;
  }

  /** The optional `dlsym` override: a table name yields the hook and leaves
      the resolver alone; any other name goes to `real_dlsym`, which may have
      to bootstrap first. */
  method Dlsym(handle: Pointer, name: string, dl: RealDlsym.DlResolver)
    returns (r: Result<Pointer, RealDlsym.BootError>)
    requires dl.Valid()
    modifies dl
    ensures dl.Valid()
    ensures HookNamed(name).Some? ==> r == Success(Hook(HookNamed(name).value)) && unchanged(dl)
    ensures HookNamed(name).None? ==> (r.Failure? <==> old(dl.dlsymFn) == Null && !dl.image.Complete())
    ensures HookNamed(name).None? && r.Success? ==> r.value == dl.resolveImpl(handle, name)
    ensures HookNamed(name).None? && r.Success? ==>
      dl.dlsymFn != Null &&
      dl.trace == old(dl.trace) + (if dl.printDlsym then [RealDlsym.DlsymLine(handle, name, r.value)] else [])
    ensures HookNamed(name).None? ==>
      dl.objLookups == old(dl.objLookups) + (if old(dl.dlsymFn) == Null then 1 else 0)
    ensures HookNamed(name).None? && r.Failure? ==> dl.trace == old(dl.trace)
  {
    var func := FindPtr(name);
    if func != Null {
      return Success(func);
    }
    r := dl.RealDlsym(handle, name);
  }

  // ---------------------------------------------------------------------
  // Looking up a real driver function

  /** Why the layer's own lookup of a driver function ends the process. */
  datatype LookupError = BootFailed(cause: RealDlsym.BootError) | NoSuchFunction(name: string)

  /** `RTLD_NEXT`, the pseudo-handle `(void *) -1`. */
  const RtldNext: Pointer := Foreign(0xFFFF_FFFF_FFFF_FFFF)

  /** `get_proc_address`: the next definition of `name` in load order; a
      null answer ends the process. */
  method GetProcAddress(name: string, dl: RealDlsym.DlResolver)
    returns (r: Result<Pointer, LookupError>)
    requires dl.Valid()
    modifies dl
    ensures dl.Valid()
    ensures r.Success? ==> r.value != Null && r.value == dl.resolveImpl(RtldNext, name)
    ensures r.Success? ==> dl.dlsymFn != Null
    ensures dl.objLookups == old(dl.objLookups) + (if old(dl.dlsymFn) == Null then 1 else 0)
    ensures old(dl.dlsymFn) != Null || dl.image.Complete() ==>
      dl.dlsymFn != Null &&
      dl.trace == old(dl.trace) +
        (if dl.printDlsym then [RealDlsym.DlsymLine(RtldNext, name, dl.resolveImpl(RtldNext, name))] else [])
    ensures old(dl.dlsymFn) == Null && !dl.image.Complete() ==> dl.trace == old(dl.trace)
    ensures r.Failure? <==>
      (old(dl.dlsymFn) == Null && !dl.image.Complete()) || dl.resolveImpl(RtldNext, name) == Null
    ensures r.Failure? && old(dl.dlsymFn) == Null && !dl.image.Complete() ==>
      r.error.BootFailed? && Fail(r.error.cause) == RealDlsym.Bootstrap(dl.image)
    ensures r.Failure? && (old(dl.dlsymFn) != Null || dl.image.Complete()) ==>
      r.error == NoSuchFunction(name)
  {
    var func := dl.RealDlsym(RtldNext, name);
    if func.Failure? {
      return Failure(BootFailed(func.error));
    }
    if func.value == Null {
      return Failure(NoSuchFunction(name));
    }
    r := Success(func.value);
  }

  /** `get_glx_proc_address`: ask the driver's `glXGetProcAddress`, then its
      `glXGetProcAddressARB`, then `dlsym(RTLD_NEXT, name)`, keeping the first
      non-null answer; the resolver is only consulted when both driver lookups
      answered null, and a returned address is never null. */
  method GetGlxProcAddress(name: string, driverLookup: string -> Pointer,
                           driverLookupArb: string -> Pointer, dl: RealDlsym.DlResolver)
    returns (r: Result<Pointer, LookupError>)
    requires dl.Valid()
    modifies dl
    ensures dl.Valid()
    ensures r.Success? ==> r.value != Null
    ensures driverLookup(name) != Null ==> r == Success(driverLookup(name)) && unchanged(dl)
    ensures driverLookup(name) == Null && driverLookupArb(name) != Null ==>
      r == Success(driverLookupArb(name)) && unchanged(dl)
    ensures driverLookup(name) == Null && driverLookupArb(name) == Null ==>
      (r.Success? ==> r.value == dl.resolveImpl(RtldNext, name) && dl.dlsymFn != Null) &&
      (r.Failure? <==> (old(dl.dlsymFn) == Null && !dl.image.Complete()) || dl.resolveImpl(RtldNext, name) == Null) &&
      dl.objLookups == old(dl.objLookups) + (if old(dl.dlsymFn) == Null then 1 else 0)
    ensures driverLookup(name) == Null && driverLookupArb(name) == Null ==>
      dl.trace == old(dl.trace) +
        (if (old(dl.dlsymFn) != Null || dl.image.Complete()) && dl.printDlsym
         then [RealDlsym.DlsymLine(RtldNext, name, dl.resolveImpl(RtldNext, name))]
         else [])
  {
    var func := driverLookup(name);
    if func == Null {
      func := driverLookupArb(name);
    }
    if func == Null {
      r := GetProcAddress(name, dl);
      return;
    }
    r := Success(func);
  }
}
