/** The EGL loader entry point: open the system EGL library from a fixed list of absolute
    paths, save the three driver functions the hooks wrap, fill the entry-point table, install
    the hooks in their slots, and bind the API once through the hook. */
module EglLoader {
  import opened EglTypes
  import Chain
  import EglHooks

  /** The load locations, in the order they are tried. */
  const EGL_CANDIDATES: seq<string> := ["/system/lib64/libEGL.so", "/system/lib/libEGL.so", "/vendor/lib64/libEGL.so"]

  /** The entry points of the table. */
  datatype EntryPoint =
    | MakeCurrent | DestroyContext | DestroySurface | Terminate | ReleaseThread
    | GetCurrentContext | GetDisplay | Initialize | GetConfigAttrib | CreatePbufferSurface
    | CreateWindowSurface | SwapBuffers | GetError | SwapInterval | GetCurrentSurface
    | QuerySurface | GetProcAddress | ChooseConfig | CreateContext | BindApi

  /** The library symbol each entry point is looked up by. */
  function SymbolName(e: EntryPoint): string {
    match e
    case MakeCurrent => "eglMakeCurrent"
    case DestroyContext => "eglDestroyContext"
    case DestroySurface => "eglDestroySurface"
    case Terminate => "eglTerminate"
    case ReleaseThread => "eglReleaseThread"
    case GetCurrentContext => "eglGetCurrentContext"
    case GetDisplay => "eglGetDisplay"
    case Initialize => "eglInitialize"
    case GetConfigAttrib => "eglGetConfigAttrib"
    case CreatePbufferSurface => "eglCreatePbufferSurface"
    case CreateWindowSurface => "eglCreateWindowSurface"
    case SwapBuffers => "eglSwapBuffers"
    case GetError => "eglGetError"
    case SwapInterval => "eglSwapInterval"
    case GetCurrentSurface => "eglGetCurrentSurface"
    case QuerySurface => "eglQuerySurface"
    case GetProcAddress => "eglGetProcAddress"
    case ChooseConfig => "eglChooseConfig"
    case CreateContext => "eglCreateContext"
    case BindApi => "eglBindAPI"
  }

  /** The entry points whose slots receive a hook. */
  predicate Hooked(e: EntryPoint) {
    e == ChooseConfig || e == CreateContext || e == BindApi
  }

  /** What a table slot holds: a symbol resolved from the library (null when the lookup
      failed; the loader does not check), or one of the hooks. The installed context hook is
      the code as written, `EglHooks.HookCreateContextAsWritten`. */
  datatype Slot = Symbol(ptr: Ptr) | ChooseConfigHook | CreateContextHook | BindApiHook

  /** The slot contents after loading: the hook for a hooked entry point, the looked-up
      symbol otherwise. */
  function InstalledSlot(handle: Ptr, sym: (Ptr, string) -> Ptr, e: EntryPoint): Slot {
    match e
    case ChooseConfig => ChooseConfigHook
    case CreateContext => CreateContextHook
    case BindApi => BindApiHook
    case _ => Symbol(sym(handle, SymbolName(e)))
  }

  /** The loader's outcome. `Aborted` is the process abort; `Loaded` carries the handle, the
      paths attempted, the three saved driver functions, the table, and what the init-time
      API binding did. */
  datatype LoadOutcome =
    | Aborted(tried: seq<string>)
    | Loaded(handle: Ptr, tried: seq<string>,
             realChooseConfig: Ptr, realCreateContext: Ptr, realBindApi: Ptr,
             table: EntryPoint -> Slot, initBind: Forward<EGLenum, bool>)

  /** Tries each candidate in order with `open` and stops at the first non-null handle;
      returns the handle (null if all fail) and the candidates attempted. */
  method OpenFirst(candidates: seq<string>, open: string -> Ptr) returns (handle: Ptr, tried: seq<string>)
    ensures handle == Chain.FirstNonNull(candidates, open)
    ensures tried <= candidates
    ensures forall k :: 0 <= k < |tried| - 1 ==> open(tried[k]) == NULL
    ensures handle == NULL ==> tried == candidates
    ensures handle != NULL ==> |tried| > 0 && handle == open(tried[|tried| - 1])
  {
    handle := NULL;
    tried := [];
    var i := 0;
    while handle == NULL && i < |candidates|
      invariant 0 <= i <= |candidates| && tried == candidates[..i]
      invariant forall k :: 0 <= k < i - 1 ==> open(candidates[k]) == NULL
      invariant handle == NULL ==> forall k :: 0 <= k < i ==> open(candidates[k]) == NULL
      invariant handle != NULL ==> i > 0 && handle == open(candidates[i - 1])
    {
      handle := open(candidates[i]);
      tried := tried + [candidates[i]];
      i := i + 1;
    }
    FirstNonNullAgrees(candidates, open, tried);
  }

  /** A prefix whose last element is the first success (or the whole list, all failing)
      determines the first-success search. */
  lemma {:induction false} FirstNonNullAgrees(xs: seq<string>, f: string -> Ptr, tried: seq<string>)
    requires tried <= xs
    requires forall k :: 0 <= k < |tried| - 1 ==> f(tried[k]) == NULL
    requires |tried| == 0 || f(tried[|tried| - 1]) != NULL || tried == xs
    requires |tried| == 0 ==> xs == []
    ensures Chain.FirstNonNull(xs, f) == (if |tried| > 0 then f(tried[|tried| - 1]) else NULL)
  {
    if xs != [] {
      if f(xs[0]) == NULL && |tried| > 1 {
        assert tried[1..] <= xs[1..];
        FirstNonNullAgrees(xs[1..], f, tried[1..]);
      }
    }
  }

  /** `dlsym_EGL`, with `open` standing for `dlopen`, `sym` for `dlsym` on a handle, and
      `bindDriver` for the driver's `eglBindAPI` reached through the saved pointer. */
  method DlsymEgl(open: string -> Ptr, sym: (Ptr, string) -> Ptr, bindDriver: (Ptr, EGLenum) -> bool)
    returns (r: LoadOutcome)
    ensures r.Aborted? <==> forall k :: 0 <= k < |EGL_CANDIDATES| ==> open(EGL_CANDIDATES[k]) == NULL
    ensures r.Aborted? ==> r.tried == EGL_CANDIDATES
    ensures r.Loaded? ==>
      && r.handle != NULL && r.handle == Chain.FirstNonNull(EGL_CANDIDATES, open)
      && r.tried <= EGL_CANDIDATES && |r.tried| > 0 && r.handle == open(r.tried[|r.tried| - 1])
      && (forall k :: 0 <= k < |r.tried| - 1 ==> open(r.tried[k]) == NULL)
      && r.realChooseConfig == sym(r.handle, "eglChooseConfig")
      && r.realCreateContext == sym(r.handle, "eglCreateContext")
      && r.realBindApi == sym(r.handle, "eglBindAPI")
      && (forall e :: !Hooked(e) ==> r.table(e) == Symbol(sym(r.handle, SymbolName(e))))
      && r.table(ChooseConfig) == ChooseConfigHook
      && r.table(CreateContext) == CreateContextHook
      && r.table(BindApi) == BindApiHook
      && r.initBind == EglHooks.HookBindApi(r.realBindApi, 0, bindDriver)
  {
    var handle, tried := OpenFirst(EGL_CANDIDATES, open);
    assert handle == NULL <==> forall k :: 0 <= k < |EGL_CANDIDATES| ==> open(EGL_CANDIDATES[k]) == NULL;
    if handle == NULL {
      return Aborted(tried);
    }
    r := Install(handle, tried, sym, bindDriver);
  }

  /** Everything `dlsym_EGL` does once a handle is open. */
  function Install(handle: Ptr, tried: seq<string>, sym: (Ptr, string) -> Ptr,
                   bindDriver: (Ptr, EGLenum) -> bool): (r: LoadOutcome)
    ensures r.Loaded? && r.handle == handle && r.tried == tried
    ensures r.realChooseConfig == sym(handle, "eglChooseConfig")
    ensures r.realCreateContext == sym(handle, "eglCreateContext")
    ensures r.realBindApi == sym(handle, "eglBindAPI")
    ensures forall e :: !Hooked(e) ==> r.table(e) == Symbol(sym(handle, SymbolName(e)))
    ensures r.table(ChooseConfig) == ChooseConfigHook
    ensures r.table(CreateContext) == CreateContextHook
    ensures r.table(BindApi) == BindApiHook
    ensures r.initBind == EglHooks.HookBindApi(r.realBindApi, 0, bindDriver)
  {
    var realBindApi := sym(handle, "eglBindAPI");
    // The bind slot now holds the hook, so the guarded call always happens.
    Loaded(handle, tried, sym(handle, "eglChooseConfig"), sym(handle, "eglCreateContext"), realBindApi,
           (e: EntryPoint) => InstalledSlot(handle, sym, e),
           EglHooks.HookBindApi(realBindApi, 0, bindDriver))
  }

  /** Only the third path opens: the handle is the third path's, and the two failed
      attempts come first, with no abort. */
  method ThirdCandidateOnly(open: string -> Ptr, sym: (Ptr, string) -> Ptr, bindDriver: (Ptr, EGLenum) -> bool)
    returns (r: LoadOutcome)
    requires open(EGL_CANDIDATES[0]) == NULL && open(EGL_CANDIDATES[1]) == NULL
    requires open(EGL_CANDIDATES[2]) != NULL
    ensures r.Loaded? && r.handle == open(EGL_CANDIDATES[2]) && r.tried == EGL_CANDIDATES
  {
    r := DlsymEgl(open, sym, bindDriver);
    assert r.tried <= EGL_CANDIDATES && |r.tried| > 0;
    assert |r.tried| == 3;
  }
}
