/** The front end of the EGL bridge: proc-address lookup, the GLFW client-API hint, the
    frame-rate counter, teardown of the negotiation state, the `VULKAN_PTR` hand-off,
    initialisation, and renderer-based dispatch of the per-frame calls. Library handles,
    symbol lookups, the clock and the backends' results are parameters. */
module EglBridge {
  import opened EglTypes
  import Chain
  import HexPtr

  /** The renderer configured for the process. The four renderers the bridge tests for are
      named; every other configured value is `Unlisted`. */
  datatype Renderer = GL4ES | VkZink | Virgl | Vulkan | Unlisted(code: int)

  // ---------------------------------------------------------------------------
  // Proc-address lookup

  /** `pojavGetProcAddress`: the GLES library first, then the EGL library; a null handle is
      skipped and the global namespace is never consulted. */
  function GetProcAddress(glesHandle: Ptr, eglHandle: Ptr, name: string, sym: (Ptr, string) -> Ptr): (addr: Ptr)
    ensures glesHandle != NULL && sym(glesHandle, name) != NULL ==> addr == sym(glesHandle, name)
    ensures addr != NULL ==> (glesHandle != NULL && addr == sym(glesHandle, name))
                             || (eglHandle != NULL && addr == sym(eglHandle, name))
    ensures addr == NULL <==> (glesHandle == NULL || sym(glesHandle, name) == NULL)
                              && (eglHandle == NULL || sym(eglHandle, name) == NULL)
  {
    var fromGles := if glesHandle != NULL then sym(glesHandle, name) else NULL;
    if fromGles == NULL && eglHandle != NULL then sym(eglHandle, name) else fromGles
  }

  /** The library handles that are present, GLES before EGL. */
  function Present(glesHandle: Ptr, eglHandle: Ptr): (ps: seq<Ptr>)
    ensures forall k :: 0 <= k < |ps| ==> ps[k] != NULL
  {
    (if glesHandle != NULL then [glesHandle] else []) + (if eglHandle != NULL then [eglHandle] else [])
  }

  /** The lookup is the first-success search over the present handles, GLES before EGL. */
  lemma ProcLookupIsChain(glesHandle: Ptr, eglHandle: Ptr, name: string, sym: (Ptr, string) -> Ptr)
    ensures GetProcAddress(glesHandle, eglHandle, name, sym)
            == Chain.FirstNonNull(Present(glesHandle, eglHandle), h => sym(h, name))
  {
  }

  // ---------------------------------------------------------------------------
  // GLFW window hints

  const GLFW_CLIENT_API: int := 0x22001
  const GLFW_NO_API: int := 0
  const GLFW_OPENGL_API: int := 0x30001
  const GLFW_OPENGL_ES_API: int := 0x30002

  /** `pojavSetWindowHint`: only the client-API hint is looked at, and only "no API" changes
      the renderer (to Vulkan); every other value, known or not, is accepted without effect. */
  function SetWindowHint(renderer: Renderer, hint: int, value: int): (r: Renderer)
    ensures r != renderer ==> hint == GLFW_CLIENT_API && value == GLFW_NO_API
    ensures hint == GLFW_CLIENT_API && value == GLFW_NO_API ==> r == Vulkan
  {
    if hint != GLFW_CLIENT_API then renderer
    else if value == GLFW_NO_API then Vulkan
    else renderer
  }

  /** Repeating a hint changes nothing, and the order of two hints does not matter. */
  lemma WindowHintsCommute(renderer: Renderer, h1: int, v1: int, h2: int, v2: int)
    ensures SetWindowHint(SetWindowHint(renderer, h1, v1), h1, v1) == SetWindowHint(renderer, h1, v1)
    ensures SetWindowHint(SetWindowHint(renderer, h1, v1), h2, v2)
            == SetWindowHint(SetWindowHint(renderer, h2, v2), h1, v1)
  {
  }

  /** A desktop-GL or a GLES request is accepted without changing the renderer; in particular
      the GLES request no longer aborts. */
  lemma GlApiRequestsAccepted(renderer: Renderer)
    ensures SetWindowHint(renderer, GLFW_CLIENT_API, GLFW_OPENGL_API) == renderer
    ensures SetWindowHint(renderer, GLFW_CLIENT_API, GLFW_OPENGL_ES_API) == renderer
  {
  }

  // ---------------------------------------------------------------------------
  // Frame-rate counter

  /** The counter's state: frames since the last change of second, the last value
      published, and the second of the last call. */
  datatype FpsCounter = FpsCounter(frameCount: int, fps: int, lastTime: int)

  const FPS_START: FpsCounter := FpsCounter(0, 0, 0)

  /** `calculateFPS` at time `now` (in seconds). */
  function CalculateFps(c: FpsCounter, now: int): (c': FpsCounter)
    ensures c'.lastTime == now
    ensures now == c.lastTime ==> c' == c.(frameCount := c.frameCount + 1)
    ensures now != c.lastTime ==> c'.fps == c.frameCount + 1 && c'.frameCount == 0
  {
    var frames := c.frameCount + 1;
    if now != c.lastTime then FpsCounter(0, frames, now) else c.(frameCount := frames)
  }

  /** A run of calls at the given times: the final counter and every value published. */
  datatype FpsRun = FpsRun(counter: FpsCounter, published: seq<int>)

  function RunFps(c: FpsCounter, times: seq<int>): FpsRun
    decreases |times|
  {
    if times == [] then FpsRun(c, [])
    else
      var c1 := CalculateFps(c, times[0]);
      var rest := RunFps(c1, times[1..]);
      FpsRun(rest.counter, (if times[0] != c.lastTime then [c1.fps] else []) + rest.published)
  }

  function Sum(xs: seq<int>): int {
    if xs == [] then 0 else xs[0] + Sum(xs[1..])
  }

  /** No frame is lost or counted twice: the frames pending before a run plus the calls of
      the run equal the frames published during it plus those still pending. */
  lemma {:induction false} FpsConservesFrames(c: FpsCounter, times: seq<int>)
    ensures c.frameCount + |times| == Sum(RunFps(c, times).published) + RunFps(c, times).counter.frameCount
    decreases |times|
  {
    if times != [] {
      var c1 := CalculateFps(c, times[0]);
      FpsConservesFrames(c1, times[1..]);
      var rest := RunFps(c1, times[1..]);
      if times[0] != c.lastTime {
        assert Sum([c1.fps] + rest.published) == c1.fps + Sum(rest.published) by {
          assert ([c1.fps] + rest.published)[1..] == rest.published;
        }
      } else {
        assert [] + rest.published == rest.published;
      }
    }
  }

  /** From the counter's static initial state, every call is either published or still
      pending. */
  lemma FpsFromStart(times: seq<int>)
    ensures Sum(RunFps(FPS_START, times).published) + RunFps(FPS_START, times).counter.frameCount == |times|
  {
    FpsConservesFrames(FPS_START, times);
  }

  // ---------------------------------------------------------------------------
  // Negotiation state and teardown

  /** The (display, surface, context) triple the negotiation produced. */
  datatype Negotiation = Negotiation(display: Ptr, surface: Ptr, context: Ptr)

  const NO_NEGOTIATION: Negotiation := Negotiation(EGL_NO_DISPLAY, EGL_NO_SURFACE, EGL_NO_CONTEXT)

  /** The driver calls teardown makes through the entry-point table. */
  datatype EglCall =
    | MakeCurrentCall(display: Ptr, draw: Ptr, read: Ptr, context: Ptr)
    | DestroySurfaceCall(display: Ptr, surface: Ptr)
    | DestroyContextCall(display: Ptr, context: Ptr)
    | TerminateCall(display: Ptr)
    | ReleaseThreadCall

  /** The five table slots teardown calls through, in call order: `eglMakeCurrent_p`,
      `eglDestroySurface_p`, `eglDestroyContext_p`, `eglTerminate_p` and `eglReleaseThread_p`.
      The loader fills them from the library without checking for null. */
  datatype TeardownSlots =
    TeardownSlots(makeCurrent: Ptr, destroySurface: Ptr, destroyContext: Ptr, terminate: Ptr, releaseThread: Ptr)

  function SlotOrder(t: TeardownSlots): seq<Ptr> {
    [t.makeCurrent, t.destroySurface, t.destroyContext, t.terminate, t.releaseThread]
  }

  /** The five calls that release the triple `n`, in the order they are made. */
  function TeardownCalls(n: Negotiation): seq<EglCall> {
    [MakeCurrentCall(n.display, EGL_NO_SURFACE, EGL_NO_SURFACE, EGL_NO_CONTEXT),
     DestroySurfaceCall(n.display, n.surface),
     DestroyContextCall(n.display, n.context),
     TerminateCall(n.display),
     ReleaseThreadCall]
  }

  /** Teardown either finishes with a new triple, or crashes calling through a null slot after
      the calls before it were made. */
  datatype Teardown =
    | Teardown(state: Negotiation, calls: seq<EglCall>)
    | TeardownCrash(calls: seq<EglCall>)

  /** The number of leading non-null pointers. */
  function NonNullPrefix(ps: seq<Ptr>): (k: nat)
    ensures k <= |ps|
    ensures forall i :: 0 <= i < k ==> ps[i] != NULL
    ensures k < |ps| ==> ps[k] == NULL
  {
    if ps == [] || ps[0] == NULL then 0 else 1 + NonNullPrefix(ps[1..])
  }

  /** `pojavTerminate`: for GL4ES, release the context and surface, terminate the display and
      clear the triple, crashing at the first null slot; every other renderer leaves everything
      as it was. */
  function Terminate(renderer: Renderer, n: Negotiation, t: TeardownSlots): (r: Teardown)
    ensures renderer != GL4ES ==> r == Teardown(n, [])
    ensures r.TeardownCrash? <==> renderer == GL4ES && NULL in SlotOrder(t)
    ensures renderer == GL4ES ==> r.calls <= TeardownCalls(n)
    ensures renderer == GL4ES ==> forall i :: 0 <= i < |r.calls| ==> SlotOrder(t)[i] != NULL
    ensures r.TeardownCrash? ==> |r.calls| < 5 && SlotOrder(t)[|r.calls|] == NULL
    ensures renderer == GL4ES && r.Teardown? ==> r.state == NO_NEGOTIATION && r.calls == TeardownCalls(n)
  {
    match renderer
    case GL4ES =>
      var k := NonNullPrefix(SlotOrder(t));
      if k < 5 then TeardownCrash(TeardownCalls(n)[..k]) else Teardown(NO_NEGOTIATION, TeardownCalls(n))
    case _ => Teardown(n, [])
  }

  /** Tearing down again after a teardown that finished also finishes and leaves the triple
      as it was. */
  lemma TerminateIdempotent(renderer: Renderer, n: Negotiation, t: TeardownSlots)
    ensures Terminate(renderer, n, t).Teardown? ==>
              && Terminate(renderer, Terminate(renderer, n, t).state, t).Teardown?
              && Terminate(renderer, Terminate(renderer, n, t).state, t).state == Terminate(renderer, n, t).state
  {
  }

  // ---------------------------------------------------------------------------
  // The VULKAN_PTR hand-off

  /** The process environment. */
  type Env = map<string, string>

  const VULKAN_PTR: string := "VULKAN_PTR"

  /** `set_vulkan_ptr`: store the pointer's hexadecimal text, replacing any previous value. */
  function SetVulkanPtr(env: Env, ptr: Ptr): (e: Env)
    ensures e.Keys == env.Keys + {VULKAN_PTR}
    ensures HexPtr.Strtoul16(e[VULKAN_PTR]) == ptr
    ensures forall k :: k in env && k != VULKAN_PTR ==> e[k] == env[k]
  {
    HexPtr.RoundTrip(ptr);
    env[VULKAN_PTR := HexPtr.Encode(ptr)]
  }

  /** `load_vulkan`, where `vulkanHandle` is what opening the Vulkan library returns: an
      existing `VULKAN_PTR` is never overwritten, and a null handle sets nothing. */
  function LoadVulkan(env: Env, vulkanHandle: Ptr): (e: Env)
    ensures VULKAN_PTR in env || vulkanHandle == NULL ==> e == env
    ensures VULKAN_PTR !in env && vulkanHandle != NULL ==> e == SetVulkanPtr(env, vulkanHandle)
  {
    if VULKAN_PTR !in env && vulkanHandle != NULL then SetVulkanPtr(env, vulkanHandle) else env
  }

  /** The pointer `maybe_load_vulkan` returns and the environment it leaves. */
  datatype VulkanLookup = VulkanLookup(handle: Ptr, env: Env)

  /** `maybe_load_vulkan`: load when the variable is missing, then parse the variable. When it
      was missing the loaded handle comes back exactly (null when loading failed); when it was
      present its text is parsed and nothing changes. */
  function MaybeLoadVulkan(env: Env, vulkanHandle: Ptr): (r: VulkanLookup)
    ensures VULKAN_PTR !in env ==> r.handle == vulkanHandle
    ensures VULKAN_PTR !in env ==> (VULKAN_PTR in r.env <==> vulkanHandle != NULL)
    ensures VULKAN_PTR in env ==> r.env == env && r.handle == HexPtr.Strtoul16(env[VULKAN_PTR])
  {
    var e := if VULKAN_PTR !in env then LoadVulkan(env, vulkanHandle) else env;
    VulkanLookup(if VULKAN_PTR in e then HexPtr.Strtoul16(e[VULKAN_PTR]) else NULL, e)
  }

  // ---------------------------------------------------------------------------
  // Initialisation

  /** The platform as the bridge sees it: opening a library by name, looking a symbol up in a
      handle or in the global namespace, and the result of the backend's own initialisation. */
  datatype Platform = Platform(open: string -> Ptr, sym: (Ptr, string) -> Ptr,
                               globalSym: string -> Ptr, brInit: bool)

  /** The bridge's process-wide state. */
  datatype Bridge = Bridge(renderer: Renderer, forceVsync: bool, glesHandle: Ptr, eglHandle: Ptr, env: Env)

  /** Calls initialisation makes into code outside this model, in order. `SetGlBridgeTable`
      records the renderer configured when the table is set up. */
  datatype InitEvent = SetGlBridgeTable(renderer: Renderer) | BindApiCall(target: Ptr, api: EGLenum)
                     | BrInit | BrSetupWindow

  datatype InitResult = InitResult(state: Bridge, events: seq<InitEvent>)

  const FORCE_VSYNC: string := "FORCE_VSYNC"

  /** The driver's `eglBindAPI` as initialisation finds it: in the EGL library, else in the
      global namespace; nothing when the EGL library did not open. */
  function FindBindApi(eglHandle: Ptr, p: Platform): (f: Ptr)
    ensures eglHandle == NULL ==> f == NULL
    ensures eglHandle != NULL && p.sym(eglHandle, "eglBindAPI") != NULL ==> f == p.sym(eglHandle, "eglBindAPI")
    ensures eglHandle != NULL && p.sym(eglHandle, "eglBindAPI") == NULL ==> f == p.globalSym("eglBindAPI")
  {
    if eglHandle == NULL then NULL
    else
      var f := p.sym(eglHandle, "eglBindAPI");
      if f != NULL then f else p.globalSym("eglBindAPI")
  }

  /** The environment edits that point the GL bridge table at the system GLES libraries:
      the three `LIBGL_*` variables are set, `GALLIUM_DRIVER` is removed, and every other
      variable, `VULKAN_PTR` and `FORCE_VSYNC` included, is left as it was. */
  function SystemGlesEnv(env: Env): (e: Env)
    ensures e.Keys == env.Keys + {"LIBGL_EGL", "LIBGL_GLES", "LIBGL_ES"} - {"GALLIUM_DRIVER"}
    ensures e["LIBGL_EGL"] == "libEGL.so" && e["LIBGL_GLES"] == "libGLESv2.so" && e["LIBGL_ES"] == "libGLESv2.so"
    ensures forall k :: k in env && k !in {"LIBGL_EGL", "LIBGL_GLES", "LIBGL_ES", "GALLIUM_DRIVER"} ==> e[k] == env[k]
  {
    env["LIBGL_EGL" := "libEGL.so"]["LIBGL_GLES" := "libGLESv2.so"]["LIBGL_ES" := "libGLESv2.so"]
    - {"GALLIUM_DRIVER"}
  }

  /** `pojavInitOpenGL`. */
  function InitOpenGL(s: Bridge, p: Platform): (r: InitResult)
    ensures r.state.forceVsync == (s.forceVsync || (FORCE_VSYNC in s.env && s.env[FORCE_VSYNC] == "true"))
    ensures r.state.renderer == GL4ES
    ensures r.state.glesHandle == p.open("libGLESv2.so") && r.state.eglHandle == p.open("libEGL.so")
    ensures VULKAN_PTR in s.env ==> VULKAN_PTR in r.state.env && r.state.env[VULKAN_PTR] == s.env[VULKAN_PTR]
    ensures VULKAN_PTR !in s.env ==> (VULKAN_PTR in r.state.env <==> p.open("libvulkan.so") != NULL)
    ensures |r.events| >= 2 && r.events[0] == SetGlBridgeTable(GL4ES)
    ensures r.events[1].BindApiCall? <==> FindBindApi(r.state.eglHandle, p) != NULL
    ensures r.events[1].BindApiCall? ==> r.events[1] == BindApiCall(FindBindApi(r.state.eglHandle, p), EGL_OPENGL_ES_API)
    ensures forall k :: 1 < k < |r.events| ==> !r.events[k].BindApiCall?
    ensures BrSetupWindow in r.events <==> p.brInit
  {
    var forceVsync := s.forceVsync || (FORCE_VSYNC in s.env && s.env[FORCE_VSYNC] == "true");
    var gles := p.open("libGLESv2.so");
    var egl := p.open("libEGL.so");
    var env := SystemGlesEnv(s.env);
    assert VULKAN_PTR !in {"LIBGL_EGL", "LIBGL_GLES", "LIBGL_ES", "GALLIUM_DRIVER"};
    var env' := LoadVulkan(env, p.open("libvulkan.so"));
    var bindApi := FindBindApi(egl, p);
    var bind := if bindApi != NULL then [BindApiCall(bindApi, EGL_OPENGL_ES_API)] else [];
    var events := [SetGlBridgeTable(GL4ES)] + bind + [BrInit] + (if p.brInit then [BrSetupWindow] else []);
    InitResult(Bridge(GL4ES, forceVsync, gles, egl, env'), events)
  }

  // ---------------------------------------------------------------------------
  // Renderer dispatch

  /** Where per-frame calls go. */
  datatype Backend = BrBackend | VirglBackend | NoBackend

  /** The reference routing: the GL4ES and Zink renderers use the `br_` bridge, VirGL its own
      functions, and every other renderer nothing. */
  function FrameBackend(renderer: Renderer): Backend {
    match renderer
    case GL4ES => BrBackend
    case VkZink => BrBackend
    case Virgl => VirglBackend
    case _ => NoBackend
  }

  /** Calls into the backends, which are not part of this model. */
  datatype BackendCall =
    | BrSwapBuffers | VirglSwapBuffers
    | BrMakeCurrent(window: Ptr) | VirglMakeCurrent(window: Ptr)
    | BrSwapInterval(interval: int) | VirglSwapInterval(interval: int)

  /** The single call routing by `FrameBackend` makes. */
  function Routed(b: Backend, br: BackendCall, virgl: BackendCall): seq<BackendCall> {
    match b
    case BrBackend => [br]
    case VirglBackend => [virgl]
    case NoBackend => []
  }

  /** The two independent renderer tests the bridge writes for each per-frame call. */
  function Dispatch(renderer: Renderer, br: BackendCall, virgl: BackendCall): (calls: seq<BackendCall>)
    ensures calls == Routed(FrameBackend(renderer), br, virgl)
  {
    (if renderer == VkZink || renderer == GL4ES then [br] else [])
    + (if renderer == Virgl then [virgl] else [])
  }

  datatype SwapResult = SwapResult(fps: FpsCounter, calls: seq<BackendCall>)

  /** `pojavSwapBuffers` at time `now`: the counter always ticks, then at most one backend swaps. */
  function SwapBuffers(renderer: Renderer, c: FpsCounter, now: int): (r: SwapResult)
    ensures r.fps == CalculateFps(c, now)
    ensures r.calls == Routed(FrameBackend(renderer), BrSwapBuffers, VirglSwapBuffers)
  {
    SwapResult(CalculateFps(c, now), Dispatch(renderer, BrSwapBuffers, VirglSwapBuffers))
  }

  /** `pojavMakeCurrent`. */
  function MakeCurrent(renderer: Renderer, window: Ptr): (calls: seq<BackendCall>)
    ensures calls == Routed(FrameBackend(renderer), BrMakeCurrent(window), VirglMakeCurrent(window))
  {
    Dispatch(renderer, BrMakeCurrent(window), VirglMakeCurrent(window))
  }

  /** `pojavSwapInterval`. */
  function SwapInterval(renderer: Renderer, interval: int): (calls: seq<BackendCall>)
    ensures calls == Routed(FrameBackend(renderer), BrSwapInterval(interval), VirglSwapInterval(interval))
  {
    Dispatch(renderer, BrSwapInterval(interval), VirglSwapInterval(interval))
  }

  /** Which side owns a renderer's GL context: the window itself for Vulkan, VirGL for VirGL,
      and the `br_` bridge for every other renderer. */
  datatype ContextOwner = WindowOwned | VirglOwned | BrOwned

  function OwnerOf(renderer: Renderer): ContextOwner {
    match renderer
    case Vulkan => WindowOwned
    case Virgl => VirglOwned
    case _ => BrOwned
  }

  /** `pojavCreateContext`: the window itself for Vulkan, VirGL's context for VirGL, and the
      `br_` bridge's context for every other renderer. */
  function CreateContext(renderer: Renderer, window: Ptr, contextSrc: Ptr,
                         virglCreate: Ptr -> Ptr, brInitContext: Ptr -> Ptr): (ctx: Ptr)
    ensures OwnerOf(renderer) == WindowOwned ==> ctx == window
    ensures OwnerOf(renderer) == VirglOwned ==> ctx == virglCreate(contextSrc)
    ensures OwnerOf(renderer) == BrOwned ==> ctx == brInitContext(contextSrc)
  {
    if renderer == Vulkan then window
    else if renderer == Virgl then virglCreate(contextSrc)
    else brInitContext(contextSrc)
  }

  /** `pojavGetCurrentContext`: VirGL's current context for VirGL, the `br_` bridge's otherwise. */
  function GetCurrentContext(renderer: Renderer, virglCurrent: Ptr, brCurrent: Ptr): (ctx: Ptr)
    ensures OwnerOf(renderer) == VirglOwned ==> ctx == virglCurrent
    ensures OwnerOf(renderer) != VirglOwned ==> ctx == brCurrent
  {
    if renderer == Virgl then virglCurrent else brCurrent
  }

  /** The side that creates a context is the side asked for the current one, for every
      renderer except Vulkan: there creation hands back the window itself while the query
      still asks the `br_` bridge. */
  lemma CurrentContextMatchesCreation(renderer: Renderer, window: Ptr, contextSrc: Ptr,
                                      virglCreate: Ptr -> Ptr, brInitContext: Ptr -> Ptr,
                                      virglCurrent: Ptr, brCurrent: Ptr)
    ensures renderer == Virgl ==>
              && CreateContext(renderer, window, contextSrc, virglCreate, brInitContext) == virglCreate(contextSrc)
              && GetCurrentContext(renderer, virglCurrent, brCurrent) == virglCurrent
    ensures renderer != Virgl && renderer != Vulkan ==>
              && CreateContext(renderer, window, contextSrc, virglCreate, brInitContext) == brInitContext(contextSrc)
              && GetCurrentContext(renderer, virglCurrent, brCurrent) == brCurrent
    ensures renderer == Vulkan ==>
              && CreateContext(renderer, window, contextSrc, virglCreate, brInitContext) == window
              && GetCurrentContext(renderer, virglCurrent, brCurrent) == brCurrent
  {
  }

  /** Context creation agrees with the frame routing for every renderer that has a frame
      backend, but an unlisted renderer gets a `br_` context whose frames go nowhere. */
  lemma CreateContextMatchesRouting(renderer: Renderer, window: Ptr, contextSrc: Ptr,
                                    virglCreate: Ptr -> Ptr, brInitContext: Ptr -> Ptr)
    ensures FrameBackend(renderer) == BrBackend ==>
              CreateContext(renderer, window, contextSrc, virglCreate, brInitContext) == brInitContext(contextSrc)
    ensures FrameBackend(renderer) == VirglBackend ==>
              CreateContext(renderer, window, contextSrc, virglCreate, brInitContext) == virglCreate(contextSrc)
    ensures renderer.Unlisted? ==>
              FrameBackend(renderer) == NoBackend
              && CreateContext(renderer, window, contextSrc, virglCreate, brInitContext) == brInitContext(contextSrc)
  {
  }
}
