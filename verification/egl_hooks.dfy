/** The three call-interception hooks of the EGL loader: attribute-list rewriting for
    `eglChooseConfig` and `eglCreateContext` (with its one-shot version fallback), and the
    forced API of `eglBindAPI`. Each hook calls the driver function saved at load time. */
module EglHooks {
  import opened EglTypes
  import opened AttribList

  /** Both copy loops stop once 60 of the 64 slots of their local array hold pairs. */
  const MAX_PAIRS: nat := 30
  const CAPACITY: nat := 64

  /** The client version injected when the caller names none, and the one retried. */
  const DEFAULT_CLIENT_VERSION: EGLint := 3
  const FALLBACK_CLIENT_VERSION: EGLint := 2

  /** The caller's list (null or not) is one both copy loops can read. */
  predicate Acceptable(attribs: Option<seq<EGLint>>) {
    attribs.Some? ==> Readable(attribs.value, MAX_PAIRS)
  }

  /** The pairs both copy loops take from the caller's list; a null list gives none. */
  function CopiedPairs(attribs: Option<seq<EGLint>>): (ps: seq<Pair>)
    requires Acceptable(attribs)
    ensures |ps| <= MAX_PAIRS && NoNoneKey(ps)
  {
    match attribs
    case None => []
    case Some(raw) => ReadPairsNoNoneKey(raw, MAX_PAIRS); ReadPairs(raw, MAX_PAIRS)
  }

  // ---------------------------------------------------------------------------
  // eglChooseConfig

  /** The value the configuration hook passes on for one pair. */
  function ChooseValue(attr: EGLint, val: EGLint): EGLint {
    if attr == EGL_RENDERABLE_TYPE then EGL_OPENGL_ES2_BIT
    else if attr == EGL_DEPTH_SIZE && val > 16 then 16
    else val
  }

  function RewriteChoose(ps: seq<Pair>): (qs: seq<Pair>)
    ensures |qs| == |ps|
    ensures forall k :: 0 <= k < |ps| ==> qs[k] == (ps[k].0, ChooseValue(ps[k].0, ps[k].1))
  {
    seq(|ps|, k requires 0 <= k < |ps| => (ps[k].0, ChooseValue(ps[k].0, ps[k].1)))
  }

  /** The list the configuration hook hands to the driver. */
  function ChooseConfigAttribs(attribs: Option<seq<EGLint>>): (out: seq<EGLint>)
    requires Acceptable(attribs)
    ensures |out| == 2 * |CopiedPairs(attribs)| + 1 <= 2 * MAX_PAIRS + 1 <= CAPACITY
    ensures out[|out| - 1] == EGL_NONE
    ensures attribs.None? ==> out == [EGL_NONE]
  {
    var qs := RewriteChoose(CopiedPairs(attribs));
    Encode(qs)
  }

  /** Slot by slot, against the caller's list: every copied key stays where it was and its
      value becomes `ChooseValue` of the caller's value; copying stops at the caller's
      terminator or after 30 pairs. */
  lemma ChooseConfigSlots(raw: seq<EGLint>)
    requires Readable(raw, MAX_PAIRS)
    ensures var out := ChooseConfigAttribs(Some(raw)); var n := |out| / 2;
      && 2 * n < |raw|
      && (n == MAX_PAIRS || raw[2 * n] == EGL_NONE)
      && forall k :: 0 <= k < n ==>
           raw[2 * k] != EGL_NONE && out[2 * k] == raw[2 * k]
           && out[2 * k + 1] == ChooseValue(raw[2 * k], raw[2 * k + 1])
  {
    var ps := ReadPairs(raw, MAX_PAIRS);
    var qs := RewriteChoose(ps);
    var out := ChooseConfigAttribs(Some(raw));
    ReadPairsSlots(raw, MAX_PAIRS);
    FlattenSlots(qs);
    assert out == Flatten(qs) + [EGL_NONE];
    assert |out| / 2 == |ps|;
    forall k | 0 <= k < |ps|
      ensures out[2 * k] == raw[2 * k] && out[2 * k + 1] == ChooseValue(raw[2 * k], raw[2 * k + 1])
    {
      assert out[2 * k] == Flatten(qs)[2 * k];
      assert out[2 * k + 1] == Flatten(qs)[2 * k + 1];
    }
  }

  /** The rewrite rules spelled out: the renderable type is forced to the ES2 bit, the depth
      size is clamped to 16, every other value is kept. */
  lemma ChooseConfigRewrite(raw: seq<EGLint>)
    requires Readable(raw, MAX_PAIRS)
    ensures var out := ChooseConfigAttribs(Some(raw)); var n := |out| / 2;
      && (forall k :: 0 <= k < n && raw[2 * k] == EGL_RENDERABLE_TYPE ==> out[2 * k + 1] == EGL_OPENGL_ES2_BIT)
      && (forall k :: 0 <= k < n && raw[2 * k] == EGL_DEPTH_SIZE ==>
            out[2 * k + 1] == (if raw[2 * k + 1] > 16 then 16 else raw[2 * k + 1]))
      && (forall k :: 0 <= k < n && raw[2 * k] != EGL_RENDERABLE_TYPE && raw[2 * k] != EGL_DEPTH_SIZE ==>
            out[2 * k + 1] == raw[2 * k + 1])
  {
    ChooseConfigSlots(raw);
  }

  /** Rewriting an already rewritten list changes nothing. */
  lemma ChooseConfigIdempotent(attribs: Option<seq<EGLint>>)
    requires Acceptable(attribs)
    ensures Acceptable(Some(ChooseConfigAttribs(attribs)))
    ensures ChooseConfigAttribs(Some(ChooseConfigAttribs(attribs))) == ChooseConfigAttribs(attribs)
  {
    var qs := RewriteChoose(CopiedPairs(attribs));
    var out := Encode(qs);
    assert NoNoneKey(qs);
    ReadEncoded(qs, MAX_PAIRS);
    assert CopiedPairs(Some(out)) == qs[..Min(|qs|, MAX_PAIRS)] == qs;
    assert RewriteChoose(qs) == qs;
  }

  /** For a well-formed list: pairs past the 30th are dropped, the rest are rewritten in order. */
  lemma ChooseConfigTruncates(ps: seq<Pair>)
    requires NoNoneKey(ps)
    ensures Acceptable(Some(Encode(ps)))
    ensures ChooseConfigAttribs(Some(Encode(ps))) == Encode(RewriteChoose(ps[..Min(|ps|, MAX_PAIRS)]))
  {
    ReadEncoded(ps, MAX_PAIRS);
  }

  /** The copy loop of the configuration hook over a non-null caller list, slot by slot:
      it stops at the terminator or after 30 pairs, rewriting each value as it goes. */
  method CopyChoosePairs(raw: seq<EGLint>) returns (flat: seq<EGLint>)
    requires Readable(raw, MAX_PAIRS)
    ensures flat == Flatten(RewriteChoose(ReadPairs(raw, MAX_PAIRS)))
  {
    ghost var ps := ReadPairs(raw, MAX_PAIRS);
    ghost var qs := RewriteChoose(ps);
    flat := [];
    var i, j := 0, 0;
    ghost var m := 0;
    ReadStep(raw, MAX_PAIRS, m, i);
    while raw[i] != EGL_NONE && j < 60
      invariant 0 <= m <= |ps| && i == j == 2 * m
      invariant m < |ps| <==> raw[i] != EGL_NONE && j < 60
      invariant m < |ps| ==> ps[m] == (raw[i], raw[i + 1])
      invariant flat == FlattenPrefix(qs, m)
      decreases 60 - j
    {
      var attr := raw[i];
      var val := raw[i + 1];
      if attr == EGL_RENDERABLE_TYPE { val := EGL_OPENGL_ES2_BIT; }
      if attr == EGL_DEPTH_SIZE {
        if val > 16 { val := 16; }
      }
      assert qs[m] == (attr, val);
      FlattenPrefixStep(qs, m, attr, val);
      flat := flat + [attr, val];
      i, j, m := i + 2, j + 2, m + 1;
      ReadStep(raw, MAX_PAIRS, m, i);
    }
    FlattenPrefixIsFlatten(qs, m);
    assert qs[..m] == qs;
  }

  /** The configuration hook's whole list: the copied pairs of a non-null caller list, then
      the terminator. */
  method CopyChooseConfig(attribs: Option<seq<EGLint>>) returns (newAttribs: seq<EGLint>)
    requires Acceptable(attribs)
    ensures newAttribs == ChooseConfigAttribs(attribs)
  {
    newAttribs := [];
    if attribs.Some? {
      newAttribs := CopyChoosePairs(attribs.value);
    }
    newAttribs := newAttribs + [EGL_NONE];
  }

  /** The configuration hook: the saved driver function (not null-checked) receives the
      rewritten list; its result comes back unchanged. */
  function HookChooseConfig(realChooseConfig: Ptr, attribs: Option<seq<EGLint>>,
                            driver: (Ptr, seq<EGLint>) -> bool): (r: Forward<seq<EGLint>, bool>)
    requires Acceptable(attribs)
    ensures r.NullCall? <==> realChooseConfig == NULL
    ensures r.Call? ==> r.target == realChooseConfig && r.arg == ChooseConfigAttribs(attribs)
                        && r.result == driver(realChooseConfig, r.arg)
  {
    if realChooseConfig == NULL then NullCall
    else
      var list := ChooseConfigAttribs(attribs);
      Call(realChooseConfig, list, driver(realChooseConfig, list))
  }

  // ---------------------------------------------------------------------------
  // eglCreateContext

  /** The list the context hook builds, and whether it injected the client version itself. */
  datatype CreateList = CreateList(attribs: seq<EGLint>, injected: bool)

  function CreateContextAttribs(attribs: Option<seq<EGLint>>): (r: CreateList)
    requires Acceptable(attribs)
    ensures r.injected <==> !HasKey(CopiedPairs(attribs), EGL_CONTEXT_CLIENT_VERSION)
    ensures |r.attribs| == 2 * |CopiedPairs(attribs)| + (if r.injected then 3 else 1) <= CAPACITY
    ensures |r.attribs| >= 3 && r.attribs[|r.attribs| - 1] == EGL_NONE
  {
    var ps := CopiedPairs(attribs);
    var injected := !HasKey(ps, EGL_CONTEXT_CLIENT_VERSION);
    assert !injected ==> |ps| > 0;
    var qs := ps + (if injected then [(EGL_CONTEXT_CLIENT_VERSION, DEFAULT_CLIENT_VERSION)] else []);
    assert |qs| == |ps| + (if injected then 1 else 0);
    CreateList(Encode(qs), injected)
  }

  /** The context list is the copied pairs, unchanged and in order, then the injected
      `(EGL_CONTEXT_CLIENT_VERSION, 3)` pair when the hook injected one, then the terminator. */
  lemma CreateContextShape(attribs: Option<seq<EGLint>>)
    requires Acceptable(attribs)
    ensures var r := CreateContextAttribs(attribs);
      r.attribs == Flatten(CopiedPairs(attribs))
                   + (if r.injected then [EGL_CONTEXT_CLIENT_VERSION, DEFAULT_CLIENT_VERSION] else [])
                   + [EGL_NONE]
  {
    var ps, r := CopiedPairs(attribs), CreateContextAttribs(attribs);
    if r.injected {
      FlattenSnoc(ps, (EGL_CONTEXT_CLIENT_VERSION, DEFAULT_CLIENT_VERSION));
    } else {
      assert ps + [] == ps;
    }
  }

  /** When the hook injected the version, the list ends with `EGL_CONTEXT_CLIENT_VERSION, 3,
      EGL_NONE`. */
  lemma InjectedTail(attribs: Option<seq<EGLint>>)
    requires Acceptable(attribs)
    ensures var l := CreateContextAttribs(attribs); l.injected ==> EndsInjected(l.attribs)
  {
    CreateContextShape(attribs);
  }

  /** The version the context hook passes always names a client version exactly once
      when it injected one, so it never adds a duplicate key. */
  lemma CreateContextVersionOnce(attribs: Option<seq<EGLint>>)
    requires Acceptable(attribs)
    ensures exists k :: 0 <= 2 * k < |CreateContextAttribs(attribs).attribs|
                        && CreateContextAttribs(attribs).attribs[2 * k] == EGL_CONTEXT_CLIENT_VERSION
    ensures CreateContextAttribs(attribs).injected ==>
              forall k :: 0 <= 2 * k < |CreateContextAttribs(attribs).attribs| - 3
                          ==> CreateContextAttribs(attribs).attribs[2 * k] != EGL_CONTEXT_CLIENT_VERSION
  {
    var ps := CopiedPairs(attribs);
    var l := CreateContextAttribs(attribs);
    CreateContextShape(attribs);
    FlattenSlots(ps);
    HasKeyIndex(ps, EGL_CONTEXT_CLIENT_VERSION);
    assert forall k :: 0 <= k < |ps| ==> l.attribs[2 * k] == Flatten(ps)[2 * k] == ps[k].0;
    if l.injected {
      assert l.attribs[2 * |ps|] == EGL_CONTEXT_CLIENT_VERSION;
    } else {
      var k :| 0 <= k < |ps| && ps[k].0 == EGL_CONTEXT_CLIENT_VERSION;
      assert l.attribs[2 * k] == EGL_CONTEXT_CLIENT_VERSION;
    }
  }

  /** Building the list again from its own output gives the same list: no version key
      accumulates, even when the injected pair is the 31st. */
  lemma CreateContextIdempotent(attribs: Option<seq<EGLint>>)
    requires Acceptable(attribs)
    ensures Acceptable(Some(CreateContextAttribs(attribs).attribs))
    ensures CreateContextAttribs(Some(CreateContextAttribs(attribs).attribs)).attribs
            == CreateContextAttribs(attribs).attribs
  {
    var ps := CopiedPairs(attribs);
    var l := CreateContextAttribs(attribs);
    var qs := ps + (if l.injected then [(EGL_CONTEXT_CLIENT_VERSION, DEFAULT_CLIENT_VERSION)] else []);
    assert l.attribs == Encode(qs);
    assert NoNoneKey(qs);
    ReadEncoded(qs, MAX_PAIRS);
    var read := ReadPairs(l.attribs, MAX_PAIRS);
    if !l.injected {
      assert qs == ps && read == ps;
    } else if |ps| == MAX_PAIRS {
      assert read == ps;
    } else {
      assert read == qs;
      assert qs[|ps|].0 == EGL_CONTEXT_CLIENT_VERSION;
      HasKeyIndex(read, EGL_CONTEXT_CLIENT_VERSION);
      assert HasKey(read, EGL_CONTEXT_CLIENT_VERSION);
      assert CopiedPairs(Some(l.attribs)) == read;
      assert CreateContextAttribs(Some(l.attribs)).attribs == Encode(read + []);
      assert read + [] == qs;
    }
  }

  /** The copy loop of the context hook over a non-null caller list, slot by slot: pairs
      are copied unchanged, noting whether one of them names the client version. */
  method CopyContextPairs(raw: seq<EGLint>) returns (flat: seq<EGLint>, hasVer: bool)
    requires Readable(raw, MAX_PAIRS)
    ensures flat == Flatten(ReadPairs(raw, MAX_PAIRS))
    ensures hasVer <==> HasKey(ReadPairs(raw, MAX_PAIRS), EGL_CONTEXT_CLIENT_VERSION)
  {
    ghost var ps := ReadPairs(raw, MAX_PAIRS);
    flat, hasVer := [], false;
    var i, j := 0, 0;
    ghost var m := 0;
    ReadStep(raw, MAX_PAIRS, m, i);
    while raw[i] != EGL_NONE && j < 60
      invariant 0 <= m <= |ps| && i == j == 2 * m
      invariant m < |ps| <==> raw[i] != EGL_NONE && j < 60
      invariant m < |ps| ==> ps[m] == (raw[i], raw[i + 1])
      invariant flat == FlattenPrefix(ps, m)
      invariant hasVer == KeySeen(ps, m, EGL_CONTEXT_CLIENT_VERSION)
      decreases 60 - j
    {
      var attr := raw[i];
      var val := raw[i + 1];
      if attr == EGL_CONTEXT_CLIENT_VERSION { hasVer := true; }
      FlattenPrefixStep(ps, m, attr, val);
      flat := flat + [attr, val];
      i, j, m := i + 2, j + 2, m + 1;
      ReadStep(raw, MAX_PAIRS, m, i);
    }
    FlattenPrefixIsFlatten(ps, m);
    assert ps[..m] == ps;
  }

  /** The context hook's whole list: the copied pairs, the version pair when none was
      copied, then the terminator. */
  method CopyCreateContext(attribs: Option<seq<EGLint>>) returns (newAttribs: seq<EGLint>, hasVer: bool)
    requires Acceptable(attribs)
    ensures CreateList(newAttribs, !hasVer) == CreateContextAttribs(attribs)
  {
    newAttribs, hasVer := [], false;
    if attribs.Some? {
      newAttribs, hasVer := CopyContextPairs(attribs.value);
    }
    if !hasVer {
      newAttribs := newAttribs + [EGL_CONTEXT_CLIENT_VERSION, DEFAULT_CLIENT_VERSION];
    }
    newAttribs := newAttribs + [EGL_NONE];
    CreateContextShape(attribs);
  }

  /** What the context hook returns: a crash when the saved driver function is null,
      otherwise the last driver result and every list the driver received, in order. */
  datatype CreateOutcome = CreateNullCall | Created(context: Ptr, calls: seq<seq<EGLint>>)

  /** The call protocol: one call, and one retry with `retry` when the first call failed and
      the hook had injected the version itself. */
  function Negotiate(realCreateContext: Ptr, l: CreateList, retry: seq<EGLint>,
                     driver: (Ptr, seq<EGLint>) -> Ptr): (r: CreateOutcome)
    ensures r.CreateNullCall? <==> realCreateContext == NULL
    ensures r.Created? ==>
      && 1 <= |r.calls| <= 2
      && r.calls[0] == l.attribs
      && r.context == driver(realCreateContext, r.calls[|r.calls| - 1])
      && (|r.calls| == 2 <==> driver(realCreateContext, l.attribs) == EGL_NO_CONTEXT && l.injected)
      && (|r.calls| == 2 ==> r.calls[1] == retry)
  {
    if realCreateContext == NULL then CreateNullCall
    else
      var first := driver(realCreateContext, l.attribs);
      if first == EGL_NO_CONTEXT && l.injected then Created(driver(realCreateContext, retry), [l.attribs, retry])
      else Created(first, [l.attribs])
  }

  /** The corrected retry list: the injected value 3, second to last, becomes 2. */
  function FallbackList(first: seq<EGLint>): (second: seq<EGLint>)
    requires |first| >= 3
    ensures |second| == |first| && second[|first| - 2] == FALLBACK_CLIENT_VERSION
    ensures forall k :: 0 <= k < |first| && k != |first| - 2 ==> second[k] == first[k]
  {
    first[|first| - 2 := FALLBACK_CLIENT_VERSION]
  }

  /** The retry list as the source builds it: the slot counter `j` indexes the terminator,
      `|first| - 1`, so the store at `j - 2` lands on the injected key, third to last. */
  function FallbackListAsWritten(first: seq<EGLint>): (second: seq<EGLint>)
    requires |first| >= 3
    ensures |second| == |first| && second[|first| - 3] == FALLBACK_CLIENT_VERSION
    ensures forall k :: 0 <= k < |first| && k != |first| - 3 ==> second[k] == first[k]
  {
    first[|first| - 3 := FALLBACK_CLIENT_VERSION]
  }

  /** A list ending in the injected `0x3098, 3, EGL_NONE`: what the context hook sends first
      when it injected the version. */
  predicate EndsInjected(first: seq<EGLint>) {
    |first| >= 3 && first[|first| - 3] == EGL_CONTEXT_CLIENT_VERSION
    && first[|first| - 2] == DEFAULT_CLIENT_VERSION && first[|first| - 1] == EGL_NONE
  }

  /** The corrected retry list differs from an injected first list only in the injected
      value: the first asks for client version 3, the retry for client version 2. */
  lemma FallbackFacts(first: seq<EGLint>)
    requires EndsInjected(first)
    ensures var second := FallbackList(first);
      && |second| == |first|
      && second[|second| - 3] == EGL_CONTEXT_CLIENT_VERSION
      && second[|second| - 2] == FALLBACK_CLIENT_VERSION
      && second[|second| - 1] == EGL_NONE
      && forall k :: 0 <= k < |first| && k != |first| - 2 ==> second[k] == first[k]
  {
  }

  /** The as-written retry list overwrites the injected key with 2 and keeps the value 3:
      the retry names no client version where the first list did. */
  lemma FallbackAsWrittenFacts(first: seq<EGLint>)
    requires EndsInjected(first)
    ensures var second := FallbackListAsWritten(first);
      && |second| == |first|
      && second[|second| - 3] == FALLBACK_CLIENT_VERSION
      && second[|second| - 2] == DEFAULT_CLIENT_VERSION
      && second[|second| - 1] == EGL_NONE
      && forall k :: 0 <= k < |first| && k != |first| - 3 ==> second[k] == first[k]
  {
  }

  /** The context hook with the retry rewriting the injected version value from 3 to 2. */
  function HookCreateContext(realCreateContext: Ptr, attribs: Option<seq<EGLint>>,
                             driver: (Ptr, seq<EGLint>) -> Ptr): (r: CreateOutcome)
    requires Acceptable(attribs)
    ensures r.CreateNullCall? <==> realCreateContext == NULL
    ensures r.Created? ==>
      var l := CreateContextAttribs(attribs);
      && 1 <= |r.calls| <= 2
      && r.calls[0] == l.attribs
      && r.context == driver(realCreateContext, r.calls[|r.calls| - 1])
      && (|r.calls| == 2 <==> driver(realCreateContext, l.attribs) == EGL_NO_CONTEXT && l.injected)
      && (|r.calls| == 2 ==> EndsInjected(r.calls[0]) && r.calls[1] == FallbackList(r.calls[0]))
  {
    var l := CreateContextAttribs(attribs);
    InjectedTail(attribs);
    Negotiate(realCreateContext, l, FallbackList(l.attribs), driver)
  }

  /** The context hook with the retry as the source writes it. */
  function HookCreateContextAsWritten(realCreateContext: Ptr, attribs: Option<seq<EGLint>>,
                                      driver: (Ptr, seq<EGLint>) -> Ptr): (r: CreateOutcome)
    requires Acceptable(attribs)
    ensures r.CreateNullCall? <==> realCreateContext == NULL
    ensures r.Created? ==>
      var l := CreateContextAttribs(attribs);
      && 1 <= |r.calls| <= 2
      && r.calls[0] == l.attribs
      && r.context == driver(realCreateContext, r.calls[|r.calls| - 1])
      && (|r.calls| == 2 <==> driver(realCreateContext, l.attribs) == EGL_NO_CONTEXT && l.injected)
      && (|r.calls| == 2 ==> EndsInjected(r.calls[0]) && r.calls[1] == FallbackListAsWritten(r.calls[0]))
  {
    var l := CreateContextAttribs(attribs);
    InjectedTail(attribs);
    Negotiate(realCreateContext, l, FallbackListAsWritten(l.attribs), driver)
  }

  /** A null caller list on a driver that refuses version 3: the as-written retry asks for
      attribute 2 with value 3 and names no client version at all, where the corrected retry
      asks for client version 2. */
  lemma RetryAsWrittenLosesVersion(realCreateContext: Ptr, driver: (Ptr, seq<EGLint>) -> Ptr)
    requires realCreateContext != NULL
    requires driver(realCreateContext, [EGL_CONTEXT_CLIENT_VERSION, DEFAULT_CLIENT_VERSION, EGL_NONE]) == EGL_NO_CONTEXT
    ensures HookCreateContextAsWritten(realCreateContext, None, driver).calls
            == [[EGL_CONTEXT_CLIENT_VERSION, 3, EGL_NONE], [2, 3, EGL_NONE]]
    ensures HookCreateContext(realCreateContext, None, driver).calls
            == [[EGL_CONTEXT_CLIENT_VERSION, 3, EGL_NONE], [EGL_CONTEXT_CLIENT_VERSION, 2, EGL_NONE]]
  {
    var l := CreateContextAttribs(None);
    var p := (EGL_CONTEXT_CLIENT_VERSION, DEFAULT_CLIENT_VERSION);
    assert CopiedPairs(None) == [];
    assert l.injected;
    assert [] + [p] == [p];
    assert Flatten([p]) == [p.0, p.1] + Flatten([]);
    assert l.attribs == [EGL_CONTEXT_CLIENT_VERSION, 3, EGL_NONE];
    assert l.attribs[0 := FALLBACK_CLIENT_VERSION] == [2, 3, EGL_NONE];
    assert l.attribs[1 := FALLBACK_CLIENT_VERSION] == [EGL_CONTEXT_CLIENT_VERSION, 2, EGL_NONE];
  }

  /** A caller asking for the desktop renderable bit and a 24-bit depth buffer gets the ES2
      bit and a 16-bit depth buffer. */
  lemma ChooseConfigCoercesDesktopRequest()
    ensures Acceptable(Some([EGL_RENDERABLE_TYPE, 1, EGL_DEPTH_SIZE, 24, EGL_NONE]))
    ensures ChooseConfigAttribs(Some([EGL_RENDERABLE_TYPE, 1, EGL_DEPTH_SIZE, 24, EGL_NONE]))
            == [EGL_RENDERABLE_TYPE, EGL_OPENGL_ES2_BIT, EGL_DEPTH_SIZE, 16, EGL_NONE]
  {
    var ps := [(EGL_RENDERABLE_TYPE, 1), (EGL_DEPTH_SIZE, 24)];
    assert Flatten(ps[1..]) == [EGL_DEPTH_SIZE, 24] + Flatten([]);
    assert Encode(ps) == [EGL_RENDERABLE_TYPE, 1, EGL_DEPTH_SIZE, 24, EGL_NONE];
    ChooseConfigTruncates(ps);
    assert ps[..Min(|ps|, MAX_PAIRS)] == ps;
    var qs := RewriteChoose(ps);
    assert qs == [(EGL_RENDERABLE_TYPE, EGL_OPENGL_ES2_BIT), (EGL_DEPTH_SIZE, 16)];
    assert Flatten(qs[1..]) == [EGL_DEPTH_SIZE, 16] + Flatten([]);
  }

  /** A caller naming client version 2 on a driver that refuses everything: one call, with the
      caller's list unchanged, and the failure comes back, both in the code as written and in
      the corrected hook. */
  lemma ExplicitVersionIsNotRetried(realCreateContext: Ptr, driver: (Ptr, seq<EGLint>) -> Ptr)
    requires realCreateContext != NULL
    requires forall l :: driver(realCreateContext, l) == EGL_NO_CONTEXT
    ensures Acceptable(Some([EGL_CONTEXT_CLIENT_VERSION, 2, EGL_NONE]))
    ensures HookCreateContext(realCreateContext, Some([EGL_CONTEXT_CLIENT_VERSION, 2, EGL_NONE]), driver)
            == Created(EGL_NO_CONTEXT, [[EGL_CONTEXT_CLIENT_VERSION, 2, EGL_NONE]])
    ensures HookCreateContextAsWritten(realCreateContext, Some([EGL_CONTEXT_CLIENT_VERSION, 2, EGL_NONE]), driver)
            == Created(EGL_NO_CONTEXT, [[EGL_CONTEXT_CLIENT_VERSION, 2, EGL_NONE]])
  {
    var ps := [(EGL_CONTEXT_CLIENT_VERSION, 2)];
    assert Flatten(ps) == [EGL_CONTEXT_CLIENT_VERSION, 2] + Flatten([]);
    assert Encode(ps) == [EGL_CONTEXT_CLIENT_VERSION, 2, EGL_NONE];
    ReadEncoded(ps, MAX_PAIRS);
    assert ps[..Min(|ps|, MAX_PAIRS)] == ps;
    assert CopiedPairs(Some(Encode(ps))) == ps;
    assert ps[0].0 == EGL_CONTEXT_CLIENT_VERSION;
    var l := CreateContextAttribs(Some(Encode(ps)));
    assert !l.injected;
    assert ps + [] == ps;
    assert l.attribs == Encode(ps);
  }

  // ---------------------------------------------------------------------------
  // eglBindAPI

  /** The API-binding hook: whatever API the caller asks for, the saved driver function
      (not null-checked) is asked for the OpenGL ES API. */
  function HookBindApi(realBindApi: Ptr, api: EGLenum, driver: (Ptr, EGLenum) -> bool): (r: Forward<EGLenum, bool>)
    ensures r.NullCall? <==> realBindApi == NULL
    ensures r.Call? ==> r.target == realBindApi && r.arg == EGL_OPENGL_ES_API
                        && r.result == driver(realBindApi, EGL_OPENGL_ES_API)
  {
    if realBindApi == NULL then NullCall
    else Call(realBindApi, EGL_OPENGL_ES_API, driver(realBindApi, EGL_OPENGL_ES_API))
  }
}
