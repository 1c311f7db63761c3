/** Values shared by every part of the GL interposition layer: optional and
    failure-carrying results, and the address-sized pointers that the layer
    hands back and forth with the host process and the real libraries. */
module Common {

  datatype Option<+T> = None | Some(value: T)

  /** `Failure` stands for the paths on which the C code calls `exit(1)`. */
  datatype Result<+R, +E> = Success(value: R) | Failure(error: E)

  datatype Outcome<+E> = Pass | Fail(error: E)

  /** The five functions this layer exports in place of the driver's. */
  datatype HookId =
    | GetProcAddressHook     // glXGetProcAddress
    | GetProcAddressArbHook  // glXGetProcAddressARB
    | CreateContextHook      // glXCreateContext
    | MakeCurrentHook        // glXMakeCurrent
    | SwapBuffersHook        // glXSwapBuffers

  /** A `void *`: null, the address of one of this layer's own hooks, or any
      other address (a driver function, a host context, an ImGui object). */
  datatype Pointer = Null | Hook(id: HookId) | Foreign(address: nat)
}
