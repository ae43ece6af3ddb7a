# EGL shim of the launcher's native bridge, in Dafny

This project models the sequential core of the launcher's native EGL shim.

- **The loader and its call interceptors** (`ctxbridges/egl_loader.c`):
  - `dlsym_EGL` opens the system EGL library from three fixed absolute paths and aborts when none opens. It saves the driver's `eglChooseConfig`, `eglCreateContext` and `eglBindAPI`, fills the entry-point table and installs three hooks in place of those functions.
  - The configuration hook copies the caller's attribute list. It forces `EGL_RENDERABLE_TYPE` to the ES2 bit, clamps `EGL_DEPTH_SIZE` to 16 and stops after 30 pairs.
  - The context hook copies the list and injects `EGL_CONTEXT_CLIENT_VERSION 3` when the caller named no version. When the driver refuses and the hook was the one that injected the version, it retries once. The retry is meant to ask for version 2, but as written it overwrites the version key instead of the value, so the retry list names no version (see "## Findings").
  - The bind hook always binds the OpenGL ES API.
- **The small pure parts of the bridge front end** (`egl_bridge.c`):
  - proc-address lookup, the GLFW client-API window hint and the frame-rate counter;
  - teardown of the (display, surface, context) triple;
  - the `VULKAN_PTR` hand-off: pointer printed as hexadecimal, read back with `strtoul` base 16;
  - `pojavInitOpenGL`;
  - renderer-based dispatch of swap, make-current, create-context, swap-interval and get-current-context.

Modelling choices:

- **Attribute lists** are the raw C arrays the hooks receive (`seq<EGLint>`).
  - `AttribList.Readable` says exactly which slots the copy loop reads. The loop reads `attrib_list[i]` before it tests `j < 60`, so a caller list of 30 or more pairs is read up to slot 60.
  - `ReadPairs`, `Flatten` and `Encode` connect raw slots and pairs.
  - A null caller list is `None`.
- **Outside code becomes parameters.** This covers `dlopen`, `dlsym`, the driver's functions, the clock, the environment, and the `br_`/VirGL backends. Each is a function parameter or a plain input value.
- **Calls through saved pointers.** These pointers are never null-checked. A call through a null one is the outcome `NullCall` (a crash). Otherwise the outcome records the target, the argument passed and the driver's answer.
- **The context hook** returns every list it handed to the driver, in order. This is an ordinary value, so contracts can speak about the retry.
- **Two loop methods** (`CopyChooseConfig`, `CopyCreateContext`) mirror the C copy loops slot by slot. Each is proved equal to the functional definition the rest of the model uses.
- **`Chain.FirstNonNull`** is the single definition of first-success search. Both the loader's path search and the proc-address lookup are proved to be instances of it.

Behaviours of the C code that the model keeps as they are:

- A caller list longer than 30 pairs is silently cut to its first 30 pairs.
- The saved driver pointers and the table slots are used without a null check. A call through a null one crashes: `NullCall` in the hooks, `TeardownCrash` in teardown.
- The loader tries the three absolute paths in order and nothing else.
- `pojavGetProcAddress` looks only in the two opened libraries.
- Only the `eglBindAPI` lookup in `pojavInitOpenGL` falls back to the global namespace.

## Model

| member | source | states |
|---|---|---|
| AttribList.ReadPairsSlots | ZalithLauncher/src/main/jni/ctxbridges/egl_loader.c:46-61 | Pair `k` read from a caller list is slots `2k` and `2k+1`. No pair read has the terminator as key. Reading stops exactly at the terminator or after 30 pairs, whichever comes first. |
| AttribList.ReadEncoded | ZalithLauncher/src/main/jni/ctxbridges/egl_loader.c:46-63 | Round trip: reading back a terminated list of pairs with no terminator key gives its pairs, cut off after the limit. |
| Chain.FirstNonNull | ZalithLauncher/src/main/jni/ctxbridges/egl_loader.c:103-112 | First-success search over an ordered list. The result is null iff every attempt is null. Otherwise it is the result of the first non-null attempt, and every earlier attempt was null. |
| EglHooks.ChooseConfigAttribs | ZalithLauncher/src/main/jni/ctxbridges/egl_loader.c:44-63 | The configuration list has at most 30 pairs plus one terminator, fits the 64-slot array, and ends in `EGL_NONE`. A null caller list gives exactly `[EGL_NONE]`. |
| EglHooks.ChooseConfigSlots | ZalithLauncher/src/main/jni/ctxbridges/egl_loader.c:46-61 | Slot by slot against the caller's list: every copied key is in place and is never the terminator. Copying ends at the caller's terminator or after 30 pairs, whichever comes first. |
| EglHooks.ChooseConfigRewrite | ZalithLauncher/src/main/jni/ctxbridges/egl_loader.c:52-56 | `EGL_RENDERABLE_TYPE` becomes `0x0004` whatever was asked. `EGL_DEPTH_SIZE` `v` becomes 16 when `v > 16` and stays `v` otherwise. Every other value is unchanged. |
| EglHooks.ChooseConfigIdempotent | ZalithLauncher/src/main/jni/ctxbridges/egl_loader.c:52-56 | Feeding the configuration hook's own output back through it changes nothing. |
| EglHooks.ChooseConfigTruncates | ZalithLauncher/src/main/jni/ctxbridges/egl_loader.c:47 | For any well-formed list, pairs past the 30th are dropped and the first 30 are rewritten in order. |
| EglHooks.CopyChoosePairs | ZalithLauncher/src/main/jni/ctxbridges/egl_loader.c:46-61 | The C copy loop over a non-null list computes exactly the rewritten pairs of the functional model. |
| EglHooks.CopyChooseConfig | ZalithLauncher/src/main/jni/ctxbridges/egl_loader.c:43-63 | The whole configuration list built by the C code equals `ChooseConfigAttribs`, null list included. |
| EglHooks.HookChooseConfig | ZalithLauncher/src/main/jni/ctxbridges/egl_loader.c:64 | A null saved function crashes. Otherwise the saved function receives the rewritten list and its answer is returned unchanged. |
| EglHooks.CreateContextAttribs | ZalithLauncher/src/main/jni/ctxbridges/egl_loader.c:68-82 | The version is injected iff no copied pair has key `0x3098`. The list fits 64 slots and ends in `EGL_NONE`. |
| EglHooks.CreateContextShape | ZalithLauncher/src/main/jni/ctxbridges/egl_loader.c:70-82 | The context list is the copied pairs unchanged and in order. Then comes `(0x3098, 3)` exactly when injected, then the terminator. |
| EglHooks.InjectedTail | ZalithLauncher/src/main/jni/ctxbridges/egl_loader.c:81-82 | After injection the list ends `0x3098, 3, EGL_NONE`. |
| EglHooks.CreateContextVersionOnce | ZalithLauncher/src/main/jni/ctxbridges/egl_loader.c:74-82 | The context list always names a client version. An injected version is the only one, so no key is duplicated. |
| EglHooks.CreateContextIdempotent | ZalithLauncher/src/main/jni/ctxbridges/egl_loader.c:68-82 | Building the context list from its own output gives the same list. This holds even when the injected pair is the 31st. |
| EglHooks.CopyContextPairs | ZalithLauncher/src/main/jni/ctxbridges/egl_loader.c:70-79 | The C copy loop over a non-null list copies the read pairs unchanged. `has_ver` ends true iff one of them has key `0x3098`. |
| EglHooks.CopyCreateContext | ZalithLauncher/src/main/jni/ctxbridges/egl_loader.c:67-82 | The whole context list built by the C code, with `!has_ver` as the injection flag, equals `CreateContextAttribs`. |
| EglHooks.Negotiate | ZalithLauncher/src/main/jni/ctxbridges/egl_loader.c:84-90 | The driver is called once or twice; the first call gets the built list. There is a second call iff the first returned `EGL_NO_CONTEXT` and the hook injected the version, and it gets the retry list. The context returned is the last call's. A null saved function crashes. |
| EglHooks.FallbackList | ZalithLauncher/src/main/jni/ctxbridges/egl_loader.c:86-88 | Corrected retry list: same length as the first list, slot `len - 2` (the injected value) set to 2, every other slot unchanged. |
| EglHooks.FallbackListAsWritten | ZalithLauncher/src/main/jni/ctxbridges/egl_loader.c:81-88 | Retry list as the code writes it: `j` is the terminator's index, so the slot `len - 3` (the injected key) is set to 2; every other slot is unchanged. |
| EglHooks.FallbackFacts | ZalithLauncher/src/main/jni/ctxbridges/egl_loader.c:81-88 | On a list ending `0x3098, 3, EGL_NONE`, the corrected retry list ends `0x3098, 2, EGL_NONE` and differs from the first only in the injected value. |
| EglHooks.FallbackAsWrittenFacts | ZalithLauncher/src/main/jni/ctxbridges/egl_loader.c:81-88 | On a list ending `0x3098, 3, EGL_NONE`, the retry list as written ends `2, 3, EGL_NONE`: the version key is gone and the value 3 is kept. |
| EglHooks.HookCreateContext | ZalithLauncher/src/main/jni/ctxbridges/egl_loader.c:67-90 | Corrected hook: the call protocol above on the built list. When a retry happens, the first list ends with the injected `0x3098, 3, EGL_NONE` and the second is its corrected retry list. |
| EglHooks.HookCreateContextAsWritten | ZalithLauncher/src/main/jni/ctxbridges/egl_loader.c:67-90 | Hook as the code writes it: the same call protocol. When a retry happens, the first list ends with the injected pair and the second is the as-written retry list, which overwrites the key slot `0x3098` with 2. |
| EglHooks.RetryAsWrittenLosesVersion | ZalithLauncher/src/main/jni/ctxbridges/egl_loader.c:81-88 | A null caller list on a driver refusing version 3: the retry as written sends `[2, 3, EGL_NONE]`, the corrected one `[0x3098, 2, EGL_NONE]`. |
| EglHooks.ChooseConfigCoercesDesktopRequest | ZalithLauncher/src/main/jni/ctxbridges/egl_loader.c:52-56 | A request for renderable type 1 with depth 24 reaches the driver as renderable type `0x0004` with depth 16. |
| EglHooks.ExplicitVersionIsNotRetried | ZalithLauncher/src/main/jni/ctxbridges/egl_loader.c:74-90 | A caller naming version 2, on a driver refusing everything, causes exactly one call with the list unchanged, and the failure is returned. This holds for the code as written and for the corrected hook. |
| EglHooks.HookBindApi | ZalithLauncher/src/main/jni/ctxbridges/egl_loader.c:93-95 | Whatever API is asked for, the saved function is called with `0x30A0`. A null saved function crashes. |
| EglLoader.OpenFirst | ZalithLauncher/src/main/jni/ctxbridges/egl_loader.c:103-112 | The paths are tried in order, stopping at the first success. The attempts are a prefix of the list and all but the last failed. The handle is the first-success search's result. When all fail, every path was tried. |
| EglLoader.DlsymEgl | ZalithLauncher/src/main/jni/ctxbridges/egl_loader.c:100-153 | Abort iff all three paths fail, after trying all three. Otherwise the handle is the first to open, and the three originals are saved from it. Every non-hooked slot holds that handle's symbol; the choose/create/bind slots hold the hooks. The init-time bind with argument 0 reaches the driver as `0x30A0`. |
| EglLoader.Install | ZalithLauncher/src/main/jni/ctxbridges/egl_loader.c:121-153 | Once a handle is open: originals saved, table filled by symbol name, hooks installed, and the bind called once through its hook. |
| EglLoader.ThirdCandidateOnly | ZalithLauncher/src/main/jni/ctxbridges/egl_loader.c:106-118 | When only `/vendor/lib64/libEGL.so` opens: no abort, its handle is used, and the two failed paths were tried first. |
| HexPtr.Encode | ZalithLauncher/src/main/jni/egl_bridge.c:123-125 | The `%lx` text is non-empty lower-case hexadecimal with no leading zero. |
| HexPtr.RoundTrip | ZalithLauncher/src/main/jni/egl_bridge.c:123-127 | For every 64-bit pointer, the `%lx` text written here, parsed by the `strtoul(…, 16)` of `maybe_load_vulkan` (line 266), gives the pointer back. |
| HexPtr.EncodeFitsBuffer | ZalithLauncher/src/main/jni/egl_bridge.c:124-125 | The printed pointer has at most 16 digits, well within the 64-byte buffer. |
| EglBridge.GetProcAddress | ZalithLauncher/src/main/jni/egl_bridge.c:65-79 | The GLES library is tried first, then the EGL library, and absent handles are skipped. The result is null iff neither present library resolves the name. |
| EglBridge.ProcLookupIsChain | ZalithLauncher/src/main/jni/egl_bridge.c:65-79 | Proc lookup equals the first-success search over the present handles in the order GLES, EGL. |
| EglBridge.SetWindowHint | ZalithLauncher/src/main/jni/egl_bridge.c:205-222 | The renderer changes only for hint `GLFW_CLIENT_API` with value `GLFW_NO_API`, and then becomes Vulkan. All other hints and values leave it unchanged; none aborts. |
| EglBridge.GlApiRequestsAccepted | ZalithLauncher/src/main/jni/egl_bridge.c:212-217 | A client-API request for desktop GL or for GLES leaves the renderer unchanged and does not abort. |
| EglBridge.WindowHintsCommute | ZalithLauncher/src/main/jni/egl_bridge.c:205-222 | Repeating a hint changes nothing, and two hints commute. |
| EglBridge.CalculateFps | ZalithLauncher/src/main/jni/egl_bridge.c:273-282 | Within the same second the frame count grows by one. When the time changes, `fps` becomes the count including this frame, the count resets to 0 and the time is recorded. |
| EglBridge.FpsConservesFrames | ZalithLauncher/src/main/jni/egl_bridge.c:273-282 | Over any sequence of calls, pending frames plus calls equal published frames plus frames still pending. |
| EglBridge.FpsFromStart | ZalithLauncher/src/main/jni/egl_bridge.c:268-282 | From the counter's zero initial state, published frames plus pending frames equal the number of calls. |
| EglBridge.Terminate | ZalithLauncher/src/main/jni/egl_bridge.c:81-102 | For GL4ES the calls are a prefix of make-current to nothing, destroy the surface, destroy the context, terminate the display and release the thread, each made through a non-null table slot. Teardown crashes iff one of the five slots is null, right at the first null one. Otherwise all five calls are made and the triple is cleared. Any other renderer makes no call and leaves the triple as it was. |
| EglBridge.TerminateIdempotent | ZalithLauncher/src/main/jni/egl_bridge.c:84-95 | After a teardown that finished, tearing down again also finishes and leaves the triple unchanged. |
| EglBridge.SetVulkanPtr | ZalithLauncher/src/main/jni/egl_bridge.c:123-127 | `VULKAN_PTR` is set (overwriting) to text that parses back to the pointer. Every other variable is unchanged. |
| EglBridge.LoadVulkan | ZalithLauncher/src/main/jni/egl_bridge.c:129-138 | An existing `VULKAN_PTR` is never overwritten, and a null library handle sets nothing. Otherwise the handle is stored. |
| EglBridge.MaybeLoadVulkan | ZalithLauncher/src/main/jni/egl_bridge.c:263-266 | When the variable is missing, the loaded handle comes back exactly (null when loading fails). When present, its text is parsed and the environment is unchanged. |
| EglBridge.FindBindApi | ZalithLauncher/src/main/jni/egl_bridge.c:175-177 | `eglBindAPI` is looked up in the EGL library, then in the global namespace. Nothing is looked up when the EGL library did not open. |
| EglBridge.SystemGlesEnv | ZalithLauncher/src/main/jni/egl_bridge.c:157-162 | The three `LIBGL_*` variables are set to the system libraries, `GALLIUM_DRIVER` is removed, and every other variable keeps its value. |
| EglBridge.InitOpenGL | ZalithLauncher/src/main/jni/egl_bridge.c:143-189 | `force_vsync` is set only when `FORCE_VSYNC` is exactly `"true"`, otherwise kept. The renderer becomes GL4ES before table setup. Both libraries are opened. `VULKAN_PTR` is kept if present, else set iff Vulkan opens. The bind gets `0x30A0` exactly when a bind function was found, and window setup happens iff `br_init` succeeds. |
| EglBridge.Dispatch | ZalithLauncher/src/main/jni/egl_bridge.c:227-304 | The renderer tests in the swap (227-236), make-current (240-249) and swap-interval (295-304) functions make exactly the call that the reference routing (`FrameBackend`) gives. |
| EglBridge.SwapBuffers | ZalithLauncher/src/main/jni/egl_bridge.c:224-237 | The frame counter always ticks. The swap goes to `br_` for VK_ZINK/GL4ES, to VirGL for VIRGL, and nowhere otherwise. |
| EglBridge.MakeCurrent | ZalithLauncher/src/main/jni/egl_bridge.c:239-250 | Make-current goes to `br_` for VK_ZINK/GL4ES, to VirGL for VIRGL, and nowhere otherwise. |
| EglBridge.SwapInterval | ZalithLauncher/src/main/jni/egl_bridge.c:294-305 | Swap-interval goes to `br_` for VK_ZINK/GL4ES, to VirGL for VIRGL, and nowhere otherwise. |
| EglBridge.CreateContext | ZalithLauncher/src/main/jni/egl_bridge.c:252-260 | Against the context-owner table (`OwnerOf`): the window for Vulkan, VirGL's new context for VIRGL, and the `br_` context for every other renderer. |
| EglBridge.GetCurrentContext | ZalithLauncher/src/main/jni/egl_bridge.c:116-121 | Against the same context-owner table: VirGL's current context when VirGL owns contexts, and the `br_` bridge's otherwise, the window-owned Vulkan case included. |
| EglBridge.CurrentContextMatchesCreation | ZalithLauncher/src/main/jni/egl_bridge.c:116-121 | For every renderer except Vulkan, the side that creates the context is the side asked for the current one. For Vulkan, creation returns the window itself while the query still asks `br_`. |
| EglBridge.CreateContextMatchesRouting | ZalithLauncher/src/main/jni/egl_bridge.c:227-260 | Context creation agrees with frame routing for every renderer that has a frame backend. An unlisted renderer gets a `br_` context but its frames go nowhere. |

## Left out

- `dlopen`/`dlsym` flags (`RTLD_LOCAL | RTLD_LAZY`) and the linker's search: foreign calls, modelled only through their results.
- The driver's own behaviour: it is an oracle parameter, assumed to answer the same list the same way.
- `printf` logging: no observable effect in the model.
- The JNI entry points and `ANativeWindow` handling (`setupBridgeWindow`, `releaseBridgeWindow`, `pojavInit`, `getCurrentFps`, `getVulkanDriverHandle`): host plumbing. `getCurrentFps` only returns the `fps` field.
- `set_gl_bridge_tbl`, `br_init`, `br_setup_window`, the `br_` frame functions and the VirGL functions live in files that are not part of this model. They appear as recorded calls or parameters.
- `time(NULL)` is a parameter. `time_t` is an unbounded integer.
- EglBridge.CalculateFps: does not model wrap-around of the C `int` frame counter, which would take 2^31 frames within one second.
- The `GLES_TEST` build variant is not modelled.
- EglHooks.HookChooseConfig: the display, config buffer and count arguments pass straight through to the driver and are not modelled.
- EglHooks.HookCreateContext: the display, config and share-context arguments pass straight through and are not modelled.
- No concurrency: the shown code is sequential.

## Findings

| source | as written | input that shows it | evidently intended | confidence | as-written member | corrected member |
|---|---|---|---|---|---|---|
| ZalithLauncher/src/main/jni/ctxbridges/egl_loader.c:87 | After injecting `0x3098, 3`, `j` indexes the terminator slot, so `new_attribs[j-2] = 2` overwrites the key `0x3098` rather than the value 3. | A null attribute list on a driver that refuses version 3. The retry list is `[2, 3, EGL_NONE]`, which names no client version at all. | Retry with `[0x3098, 2, EGL_NONE]`, i.e. store 2 in slot `j-1`. | not executed | EglHooks.HookCreateContextAsWritten (retry list EglHooks.FallbackListAsWritten; shown by EglHooks.FallbackAsWrittenFacts and EglHooks.RetryAsWrittenLosesVersion) | EglHooks.HookCreateContext (retry list EglHooks.FallbackList, proved by EglHooks.FallbackFacts) |
