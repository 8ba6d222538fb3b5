/**
 * MyGlSurfaceView: the renderer. A camera frame arriving sets a flag; the
 * next draw copies the external camera texture into the offscreen FBO (copy
 * pass) only when the flag is set, and always filters the offscreen texture
 * onto the screen (screen pass). A size change re-creates the FBOs whose size
 * differs and replaces the SurfaceTexture the camera draws into.
 */
module SurfaceView {
  import opened Gles
  import opened Outcomes
  import opened Fbo
  import opened Shader
  import opened SharedState

  // ---------------------------------------------------------------------
  // The frame flag as a state machine over callback events.
  // ---------------------------------------------------------------------

  datatype FrameEvent = FrameAvailable | DrawFrame

  /** The new-frame flag and how many copy and screen passes have run. */
  datatype FrameState = FrameState(pending: bool, copyPasses: nat, screenPasses: nat)

  /** One callback: a frame sets the flag; a draw copies iff the flag is set, clears it, and always draws. */
  function Step(s: FrameState, e: FrameEvent): FrameState {
    match e
    case FrameAvailable => s.(pending := true)
    case DrawFrame =>
      if s.pending then FrameState(false, s.copyPasses + 1, s.screenPasses + 1)
      else s.(screenPasses := s.screenPasses + 1)
  }

  function Run(s: FrameState, events: seq<FrameEvent>): FrameState
    decreases |events|
  {
    if events == [] then s else Run(Step(s, events[0]), events[1..])
  }

  /** How many times `e` occurs in `events`. */
  function Count(events: seq<FrameEvent>, e: FrameEvent): nat
    decreases |events|
  {
    if events == [] then 0 else (if events[0] == e then 1 else 0) + Count(events[1..], e)
  }

  /** `k` frame-available signals in a row. */
  function Signals(k: nat): seq<FrameEvent>
    decreases k
  {
    if k == 0 then [] else [FrameAvailable] + Signals(k - 1)
  }

  /** Every draw runs exactly one screen pass. */
  lemma {:induction false} ScreenPassPerDraw(s: FrameState, events: seq<FrameEvent>)
    ensures Run(s, events).screenPasses == s.screenPasses + Count(events, DrawFrame)
    decreases |events|
  {
    if events != [] {
      ScreenPassPerDraw(Step(s, events[0]), events[1..]);
    }
  }

  /**
   * Copy passes never outnumber draws, and each one consumes a frame signal:
   * copies plus a still-pending flag never exceed the signals received (plus
   * a flag pending at the start).
   */
  lemma {:induction false} CopyPassBounds(s: FrameState, events: seq<FrameEvent>)
    ensures Run(s, events).copyPasses <= s.copyPasses + Count(events, DrawFrame)
    ensures Run(s, events).copyPasses + (if Run(s, events).pending then 1 else 0)
            <= s.copyPasses + Count(events, FrameAvailable) + (if s.pending then 1 else 0)
    decreases |events|
  {
    if events != [] {
      CopyPassBounds(Step(s, events[0]), events[1..]);
    }
  }

  /** Any number of signals followed by one draw give at most one copy pass, and exactly one if any signal came. */
  lemma {:induction false} Coalescing(s: FrameState, k: nat)
    ensures Run(s, Signals(k) + [DrawFrame]) ==
            FrameState(false, s.copyPasses + (if k > 0 || s.pending then 1 else 0), s.screenPasses + 1)
    decreases k
  {
    if k == 0 {
      assert Signals(0) + [DrawFrame] == [DrawFrame];
    } else {
      assert Signals(k) + [DrawFrame] == [FrameAvailable] + (Signals(k - 1) + [DrawFrame]);
      Coalescing(s.(pending := true), k - 1);
    }
  }

  /** A second frame signal before a draw changes nothing (the listener is registered twice). */
  lemma SignalIdempotent(s: FrameState)
    ensures Step(Step(s, FrameAvailable), FrameAvailable) == Step(s, FrameAvailable)
  {
  }

  // ---------------------------------------------------------------------
  // Call sequences.
  // ---------------------------------------------------------------------

  /** renderQuad: the full-screen quad drawn with the position attribute at `position`. */
  function QuadCalls(position: int): seq<Call> {
    [VertexAttribPointer(position), EnableVertexAttribArray(position), DrawQuad]
  }

  /** The uniforms the screen pass looks up in the filter program, in order. */
  const FilterUniforms: seq<string> :=
    ["uBrightness", "uContrast", "uSaturation", "uCornerRadius", "uAspectRatio", "uAspectRatioPreview"]

  /**
   * The SurfaceTexture replacement: create the new one, register it twice for
   * frames, hand it to the observer if there is one, then release the old one.
   */
  function SurfaceSwapCalls(created: SurfaceTexture, previous: SurfaceTexture?, hasObserver: bool): seq<Call> {
    [NewSurfaceTexture(created), SetFrameListener(created), AddFrameAvailableHandler(created)]
    + ObserverCalls(created, hasObserver) + PreviousReleaseCalls(previous)
  }

  /** The observer notification, when there is an observer. */
  function ObserverCalls(surface: SurfaceTexture, hasObserver: bool): seq<Call> {
    if hasObserver then [NotifyObserver(surface)] else []
  }

  /** The release of the previous SurfaceTexture, when there is one. */
  function PreviousReleaseCalls(previous: SurfaceTexture?): seq<Call> {
    if previous != null then [ReleaseSurfaceTexture(previous)] else []
  }

  /**
   * The replacement creates the new SurfaceTexture first, notifies the
   * observer exactly when there is one, and releases nothing but the previous
   * SurfaceTexture, last.
   */
  lemma SurfaceSwapShape(created: SurfaceTexture, previous: SurfaceTexture?, hasObserver: bool)
    ensures var calls := SurfaceSwapCalls(created, previous, hasObserver);
      && |calls| == 3 + (if hasObserver then 1 else 0) + (if previous != null then 1 else 0)
      && calls[0] == NewSurfaceTexture(created)
      && (hasObserver ==> calls[3] == NotifyObserver(created))
      && (previous != null ==> calls[|calls| - 1] == ReleaseSurfaceTexture(previous))
      && ((NotifyObserver(created) in calls) == hasObserver)
      && (forall i :: 0 <= i < |calls| - 1 ==> !calls[i].ReleaseSurfaceTexture?)
      && (previous == null ==> forall i :: 0 <= i < |calls| ==> !calls[i].ReleaseSurfaceTexture?)
  {
  }

  /** The replacement's calls, issued one after another, are `SurfaceSwapCalls`. */
  lemma SwapRegrouped(t: seq<Call>, surface: SurfaceTexture, observer: seq<Call>, release: seq<Call>)
    ensures t + [NewSurfaceTexture(surface)] + [SetFrameListener(surface)] + [AddFrameAvailableHandler(surface)]
              + observer + release
            == t + ([NewSurfaceTexture(surface), SetFrameListener(surface), AddFrameAvailableHandler(surface)]
                    + observer + release)
  {
  }

  /** Copy pass setup: latch the frame and its transform, target the offscreen FBO, take the copy shader. */
  function CopySetupCalls(surface: SurfaceTexture, framebuffer: int, width: int, height: int, texture: int,
                          program: int): seq<Call>
  {
    [UpdateTexImage(surface), GetTransformMatrix(surface), BindFramebuffer(framebuffer),
     Viewport(Rect(0, 0, width, height)), FramebufferTexture2D(texture), UseProgram(program)]
  }

  /** Copy pass drawing: the two matrix uniforms, texture unit 0, and the quad. */
  function CopyDrawCalls(orientation: Lookup, transform: Lookup, position: Lookup,
                         orientationM: Matrix, transformM: Matrix): seq<Call>
  {
    orientation.calls + transform.calls
    + [UniformMatrix4(orientation.handle, orientationM), UniformMatrix4(transform.handle, transformM), ActiveTexture(0)]
    + position.calls + QuadCalls(position.handle)
  }

  /** The copy-pass drawing calls, issued one after another, are `CopyDrawCalls`. */
  lemma CopyDrawRegrouped(trace: seq<Call>, orientation: Lookup, transform: Lookup, position: Lookup,
                          orientationM: Matrix, transformM: Matrix)
    ensures trace + orientation.calls + transform.calls + [UniformMatrix4(orientation.handle, orientationM)]
            + [UniformMatrix4(transform.handle, transformM)] + [ActiveTexture(0)] + position.calls
            + QuadCalls(position.handle)
         == trace + CopyDrawCalls(orientation, transform, position, orientationM, transformM)
  {
  }

  /** Screen pass setup: the default framebuffer, the whole view, the filter shader. */
  function ScreenSetupCalls(width: int, height: int, program: int): seq<Call> {
    [BindFramebuffer(0), Viewport(Rect(0, 0, width, height)), UseProgram(program)]
  }

  /** The values the filter shader's uniforms are set from: the shared filter values and both aspect ratios. */
  datatype Filter = Filter(brightness: real, contrast: real, saturation: real, cornerRadius: real,
                           viewAspect: (real, real), previewAspect: (real, real))

  /** The filter values as they stand in the shared data and the view's aspect-ratio array. */
  function FilterOf(data: DataContainer, aspect: array<real>): Filter
    requires data.aspectRatioPreview.Length == 2 && aspect.Length == 2
    reads data, data.aspectRatioPreview, aspect
  {
    Filter(data.brightness, data.contrast, data.saturation, data.cornerRadius,
           (aspect[0], aspect[1]), (data.aspectRatioPreview[0], data.aspectRatioPreview[1]))
  }

  /** The filter uniforms set from `f`, in order. */
  function FilterUniformCalls(handles: seq<int>, f: Filter): seq<Call>
    requires |handles| == 6
  {
    [Uniform1(handles[0], f.brightness), Uniform1(handles[1], f.contrast),
     Uniform1(handles[2], f.saturation), Uniform1(handles[3], f.cornerRadius),
     Uniform2(handles[4], f.viewAspect.0, f.viewAspect.1),
     Uniform2(handles[5], f.previewAspect.0, f.previewAspect.1)]
  }

  /** The offscreen texture is sampled through texture unit 1. */
  function SampleCalls(texture: int): seq<Call> {
    [ActiveTexture(1), BindTexture(Texture2D, texture)]
  }

  /** The six filter uniforms, set one after another, are `FilterUniformCalls`. */
  lemma FilterUniformsRegrouped(trace: seq<Call>, h: seq<int>, f: Filter)
    requires |h| == 6
    ensures trace + [Uniform1(h[0], f.brightness)] + [Uniform1(h[1], f.contrast)]
            + [Uniform1(h[2], f.saturation)] + [Uniform1(h[3], f.cornerRadius)]
            + [Uniform2(h[4], f.viewAspect.0, f.viewAspect.1)]
            + [Uniform2(h[5], f.previewAspect.0, f.previewAspect.1)]
         == trace + FilterUniformCalls(h, f)
  {
  }

  /** Everything a copy pass issues: its setup, then its drawing. */
  function CopyCalls(surface: SurfaceTexture, framebuffer: int, width: int, height: int, texture: int, program: int,
                     orientation: Lookup, transform: Lookup, position: Lookup,
                     orientationM: Matrix, transformM: Matrix): seq<Call>
  {
    CopySetupCalls(surface, framebuffer, width, height, texture, program)
    + CopyDrawCalls(orientation, transform, position, orientationM, transformM)
  }

  /** A copy pass starts by latching the frame and its transform, and ends by drawing the quad. */
  lemma CopyCallsShape(surface: SurfaceTexture, framebuffer: int, width: int, height: int, texture: int, program: int,
                       orientation: Lookup, transform: Lookup, position: Lookup, orientationM: Matrix, transformM: Matrix)
    ensures var calls := CopyCalls(surface, framebuffer, width, height, texture, program,
                                   orientation, transform, position, orientationM, transformM);
      && |calls| >= 9 && calls[0] == UpdateTexImage(surface) && calls[1] == GetTransformMatrix(surface)
      && calls[|calls| - 3..] == QuadCalls(position.handle)
  {
  }

  /**
   * `copy` is the copy pass against a copy-shader cache `cache0`: the three
   * uniform and attribute lookups in source order, then `CopyCalls`.
   */
  ghost predicate CopyPassed(gpu: Gpu, surface: SurfaceTexture, framebuffer: int, width: int, height: int, texture: int,
                             program: int, cache0: map<string, int>, orientationM: Matrix, transformM: Matrix,
                             orientation: Lookup, transform: Lookup, position: Lookup, copy: seq<Call>)
  {
    && orientation == ResolveOne(gpu, program, cache0, "uOrientationM")
    && transform == ResolveOne(gpu, program, orientation.cache, "uTransformM")
    && position == ResolveOne(gpu, program, transform.cache, "aPosition")
    && copy == CopyCalls(surface, framebuffer, width, height, texture, program,
                         orientation, transform, position, orientationM, transformM)
  }

  /** Everything a screen pass issues: setup, filter uniforms, the sampled texture, the quad. */
  function ScreenCalls(width: int, height: int, program: int, uniforms: Lookups, f: Filter,
                       texture: int, position: Lookup): seq<Call>
    requires |uniforms.handles| == 6
  {
    ScreenSetupCalls(width, height, program) + uniforms.calls + FilterUniformCalls(uniforms.handles, f)
    + SampleCalls(texture) + position.calls + QuadCalls(position.handle)
  }

  /**
   * `screen` is the screen pass against filter-shader cache `filterCache` and
   * copy-shader cache `copyCache`: the six filter lookups, the `aPosition`
   * lookup, and `ScreenCalls`.
   */
  ghost predicate ScreenPassed(gpu: Gpu, width: int, height: int, filterProgram: int, filterCache: map<string, int>,
                               copyProgram: int, copyCache: map<string, int>, f: Filter, texture: int,
                               uniforms: Lookups, position: Lookup, screen: seq<Call>)
  {
    && uniforms == ResolveAll(gpu, filterProgram, filterCache, FilterUniforms)
    && position == ResolveOne(gpu, copyProgram, copyCache, "aPosition")
    && screen == ScreenCalls(width, height, filterProgram, uniforms, f, texture, position)
  }

  /** A screen pass starts by binding the screen, samples `texture`, and ends by drawing the quad. */
  lemma ScreenCallsShape(width: int, height: int, program: int, uniforms: Lookups, f: Filter,
                         texture: int, position: Lookup)
    requires |uniforms.handles| == 6
    ensures var calls := ScreenCalls(width, height, program, uniforms, f, texture, position);
      && |calls| >= 14 && calls[0] == BindFramebuffer(0)
      && BindTexture(Texture2D, texture) in calls
      && calls[|calls| - 3..] == QuadCalls(position.handle)
  {
    var front := ScreenSetupCalls(width, height, program) + uniforms.calls + FilterUniformCalls(uniforms.handles, f);
    assert (front + SampleCalls(texture))[|front| + 1] == BindTexture(Texture2D, texture);
  }

  /** Appending pieces one after another appends their concatenation. */
  lemma Regrouped(t: seq<Call>, a: seq<Call>, b: seq<Call>, c: seq<Call>, d: seq<Call>, e: seq<Call>, f: seq<Call>)
    ensures t + a + b + c + d + e + f == t + (a + b + c + d + e + f)
  {
  }

  /** The surface texture, if any, as a set. */
  function SurfaceSet(st: SurfaceTexture?): set<SurfaceTexture> {
    if st == null then {} else {st}
  }

  /** An FBO either holds nothing or one texture of a positive size. */
  ghost predicate Ready(fbo: FboHelper)
    reads fbo
  {
    fbo.IsReset() || (fbo.width > 0 && fbo.height > 0 && fbo.textureHandles.Length == 1)
  }

  /** What re-fitting an FBO to a new size issues: a full init when its stored size differs, else nothing. */
  function ResizeCalls(oldWidth: int, oldHeight: int, oldFramebuffer: int, oldTextures: seq<int>,
                       framebuffer: int, textures: seq<int>, width: int, height: int, textureExternalOes: bool)
    : seq<Call>
  {
    if oldWidth != width || oldHeight != height
    then InitCalls(oldFramebuffer, oldTextures, framebuffer, textures, width, height, textureExternalOes)
    else []
  }

  /**
   * The re-init guard of OnSurfaceChanged: an FBO is re-initialised with one
   * texture of the new size only when its stored size differs; otherwise
   * nothing is allocated, released or issued.
   */
  method FitFbo(fbo: FboHelper, gpu: Gpu, width: int, height: int, textureExternalOes: bool)
    requires gpu.Valid() && Ready(fbo) && width > 0 && height > 0
    modifies fbo, gpu`nextId, gpu`live, gpu`trace, gpu`boundFramebuffer
    ensures gpu.Valid() && Ready(fbo)
    ensures fbo.width == width && fbo.height == height && fbo.textureHandles.Length == 1
    ensures old(fbo.width) == width && old(fbo.height) == height ==>
      && fbo.frameBufferHandle == old(fbo.frameBufferHandle) && fbo.textureHandles == old(fbo.textureHandles)
      && gpu.nextId == old(gpu.nextId) && gpu.live == old(gpu.live)
      && gpu.boundFramebuffer == old(gpu.boundFramebuffer)
    ensures old(fbo.width) != width || old(fbo.height) != height ==>
      && fresh(fbo.textureHandles)
      && fbo.frameBufferHandle !in old(gpu.live.framebuffers) && fbo.textureHandles[0] !in old(gpu.live.textures)
      && gpu.live == old(gpu.live).(
           framebuffers := old(gpu.live.framebuffers) - {old(fbo.frameBufferHandle)} + {fbo.frameBufferHandle},
           textures := old(gpu.live.textures) - Elems(old(fbo.textureHandles[..])) + Elems(fbo.textureHandles[..]))
    ensures gpu.trace == old(gpu.trace) + ResizeCalls(old(fbo.width), old(fbo.height), old(fbo.frameBufferHandle),
                                                     old(fbo.textureHandles[..]), fbo.frameBufferHandle,
                                                     fbo.textureHandles[..], width, height, textureExternalOes)
  {
    if fbo.width != width || fbo.height != height {
      fbo.Init(gpu, width, height, 1, textureExternalOes);
    }
  }

  /** `GetHandle(name)` on `shader`, its handle appended to the ones looked up before it. */
  method LookupInto(shader: ShaderHelper, gpu: Gpu, name: string, handles: seq<int>,
                    ghost names: seq<string>, ghost cache0: map<string, int>, ghost trace0: seq<Call>)
    returns (more: seq<int>)
    requires shader.Valid(gpu)
    requires Tracks(gpu, shader.program, cache0, names, handles, shader.handleMap, gpu.trace, trace0)
    modifies shader`handleMap, gpu`trace
    ensures shader.Valid(gpu)
    ensures Tracks(gpu, shader.program, cache0, names + [name], more, shader.handleMap, gpu.trace, trace0)
  {
    TracksSnoc(gpu, shader.program, cache0, names, handles, shader.handleMap, gpu.trace, trace0, name);
    var handle := shader.GetHandle(gpu, name);
    more := handles + [handle];
  }

  class MyGlSurfaceView {
    const aspectRatio: array<real>
    const fboExternal: FboHelper
    const fboOffscreen: FboHelper
    const shaderCopyOes: ShaderHelper
    const shaderFilterDefault: ShaderHelper
    // Shader sources, read from raw resources by the original.
    const copyVertexSource: string
    const copyFragmentSource: string
    const filterVertexSource: string
    const filterFragmentSource: string

    var hasObserver: bool
    var sharedData: DataContainer?
    var surfaceTexture: SurfaceTexture?
    var surfaceTextureUpdate: bool
    var transformM: Matrix
    var width: int
    var height: int
    var renderRequested: bool
    /** Messages shown to the user as error toasts. */
    var reportedErrors: seq<string>
    ghost var copyPasses: nat
    ghost var screenPasses: nat

    ghost function Frame(): FrameState
      reads this
    {
      FrameState(surfaceTextureUpdate, copyPasses, screenPasses)
    }

    ghost predicate Valid(gpu: Gpu)
      reads this, fboExternal, fboOffscreen, shaderCopyOes, shaderFilterDefault
    {
      && aspectRatio.Length == 2
      && fboExternal != fboOffscreen && shaderCopyOes != shaderFilterDefault
      && Ready(fboExternal) && Ready(fboOffscreen)
      && shaderCopyOes.Valid(gpu) && shaderFilterDefault.Valid(gpu)
    }

    constructor (gpu: Gpu, copyVertexSource: string, copyFragmentSource: string,
                 filterVertexSource: string, filterFragmentSource: string)
      requires gpu.Valid()
      ensures Valid(gpu)
      ensures fresh(aspectRatio) && aspectRatio[..] == [0.0, 0.0]
      ensures fboExternal.IsReset() && fboOffscreen.IsReset()
      ensures shaderCopyOes.program == 0 && shaderFilterDefault.program == 0
      ensures this.copyVertexSource == copyVertexSource && this.copyFragmentSource == copyFragmentSource
      ensures this.filterVertexSource == filterVertexSource && this.filterFragmentSource == filterFragmentSource
      ensures !hasObserver && sharedData == null && surfaceTexture == null
      ensures Frame() == FrameState(false, 0, 0)
      ensures transformM == Zero && width == 0 && height == 0 && !renderRequested && reportedErrors == []
    {
      aspectRatio := new real[2](_ => 0.0);
      fboExternal := new FboHelper();
      fboOffscreen := new FboHelper();
      shaderCopyOes := new ShaderHelper();
      shaderFilterDefault := new ShaderHelper();
      this.copyVertexSource, this.copyFragmentSource := copyVertexSource, copyFragmentSource;
      this.filterVertexSource, this.filterFragmentSource := filterVertexSource, filterFragmentSource;
      hasObserver := false;
      sharedData := null;
      surfaceTexture := null;
      surfaceTextureUpdate := false;
      transformM := Zero;
      width, height := 0, 0;
      renderRequested := false;
      reportedErrors := [];
      copyPasses, screenPasses := 0, 0;
    }

    /** A new camera frame: set the flag and ask for a draw. */
    method OnFrameAvailable()
      modifies this`surfaceTextureUpdate, this`renderRequested
      ensures Frame() == Step(old(Frame()), FrameAvailable)
      ensures renderRequested
    {
      surfaceTextureUpdate := true;
      renderRequested := true;
    }

    method RenderQuad(gpu: Gpu, position: int)
      modifies gpu`trace
      ensures gpu.trace == old(gpu.trace) + QuadCalls(position)
    {
      gpu.Issue(VertexAttribPointer(position));
      gpu.Issue(EnableVertexAttribArray(position));
      gpu.Issue(DrawQuad);
    }

    /**
     * The copy pass, counted: latch the camera frame and its transform, clear
     * the flag, and draw the external texture into the offscreen FBO with the
     * copy shader.
     */
    method CopyPass(gpu: Gpu)
      returns (ghost orientation: Lookup, ghost transform: Lookup, ghost position: Lookup, ghost calls: seq<Call>)
      requires shaderCopyOes.Valid(gpu)
      requires surfaceTexture != null && sharedData != null && fboOffscreen.textureHandles.Length > 0
      modifies this`transformM, this`surfaceTextureUpdate, this`copyPasses, shaderCopyOes`handleMap,
               gpu`trace, gpu`boundFramebuffer, gpu`viewport, gpu`currentProgram
      ensures shaderCopyOes.Valid(gpu)
      ensures copyPasses == old(copyPasses) + 1
      ensures transformM == Matrix.SurfaceTransform(surfaceTexture) && !surfaceTextureUpdate
      ensures gpu.boundFramebuffer == fboOffscreen.frameBufferHandle
      ensures gpu.viewport == Rect(0, 0, fboOffscreen.width, fboOffscreen.height)
      ensures gpu.currentProgram == shaderCopyOes.program
      ensures orientation == ResolveOne(gpu, shaderCopyOes.program, old(shaderCopyOes.handleMap), "uOrientationM")
      ensures transform == ResolveOne(gpu, shaderCopyOes.program, orientation.cache, "uTransformM")
      ensures position == ResolveOne(gpu, shaderCopyOes.program, transform.cache, "aPosition")
      ensures shaderCopyOes.handleMap == position.cache
      ensures calls == CopyCalls(surfaceTexture, fboOffscreen.frameBufferHandle, fboOffscreen.width, fboOffscreen.height,
                                 fboOffscreen.textureHandles[0], shaderCopyOes.program,
                                 orientation, transform, position, sharedData.orientationM, transformM)
      ensures gpu.trace == old(gpu.trace) + calls
    {
      SetUpCopy(gpu);
      ghost var setup := CopySetupCalls(surfaceTexture, fboOffscreen.frameBufferHandle, fboOffscreen.width,
                                        fboOffscreen.height, fboOffscreen.textureHandles[0], shaderCopyOes.program);
      orientation, transform, position := DrawCopy(gpu);
      Associates(old(gpu.trace), setup,
                 CopyDrawCalls(orientation, transform, position, sharedData.orientationM, transformM));
      calls := CopyCalls(surfaceTexture, fboOffscreen.frameBufferHandle, fboOffscreen.width, fboOffscreen.height,
                         fboOffscreen.textureHandles[0], shaderCopyOes.program,
                         orientation, transform, position, sharedData.orientationM, transformM);
      copyPasses := copyPasses + 1;
    }

    /** The copy pass up to its uniforms: latch the frame, target the offscreen FBO, use the copy shader. */
    method SetUpCopy(gpu: Gpu)
      requires surfaceTexture != null && fboOffscreen.textureHandles.Length > 0
      modifies this`transformM, this`surfaceTextureUpdate, gpu`trace, gpu`boundFramebuffer, gpu`viewport,
               gpu`currentProgram
      ensures transformM == Matrix.SurfaceTransform(surfaceTexture) && !surfaceTextureUpdate
      ensures gpu.boundFramebuffer == fboOffscreen.frameBufferHandle
      ensures gpu.viewport == Rect(0, 0, fboOffscreen.width, fboOffscreen.height)
      ensures gpu.currentProgram == shaderCopyOes.program
      ensures gpu.trace == old(gpu.trace)
        + CopySetupCalls(surfaceTexture, fboOffscreen.frameBufferHandle, fboOffscreen.width, fboOffscreen.height,
                         fboOffscreen.textureHandles[0], shaderCopyOes.program)
    {
      gpu.UpdateTexImage(surfaceTexture);
      transformM := gpu.GetTransformMatrix(surfaceTexture);
      surfaceTextureUpdate := false;
      fboOffscreen.Bind(gpu);
      fboOffscreen.BindTexture(gpu, 0);
      shaderCopyOes.UseProgram(gpu);
    }

    /** The copy pass after its setup: copy-shader uniforms, then the quad. */
    method DrawCopy(gpu: Gpu) returns (ghost orientation: Lookup, ghost transform: Lookup, ghost position: Lookup)
      requires shaderCopyOes.Valid(gpu) && sharedData != null
      modifies shaderCopyOes`handleMap, gpu`trace
      ensures shaderCopyOes.Valid(gpu)
      ensures orientation == ResolveOne(gpu, shaderCopyOes.program, old(shaderCopyOes.handleMap), "uOrientationM")
      ensures transform == ResolveOne(gpu, shaderCopyOes.program, orientation.cache, "uTransformM")
      ensures position == ResolveOne(gpu, shaderCopyOes.program, transform.cache, "aPosition")
      ensures shaderCopyOes.handleMap == position.cache
      ensures gpu.trace == old(gpu.trace) + CopyDrawCalls(orientation, transform, position, sharedData.orientationM, transformM)
    {
      ghost var cache0 := shaderCopyOes.handleMap;
      var uOrientationM := shaderCopyOes.GetHandle(gpu, "uOrientationM");
      orientation := ResolveOne(gpu, shaderCopyOes.program, cache0, "uOrientationM");
      var uTransformM := shaderCopyOes.GetHandle(gpu, "uTransformM");
      transform := ResolveOne(gpu, shaderCopyOes.program, orientation.cache, "uTransformM");
      gpu.Issue(UniformMatrix4(uOrientationM, sharedData.orientationM));
      gpu.Issue(UniformMatrix4(uTransformM, transformM));
      gpu.Issue(ActiveTexture(0));
      var aPosition := shaderCopyOes.GetHandle(gpu, "aPosition");
      position := ResolveOne(gpu, shaderCopyOes.program, transform.cache, "aPosition");
      RenderQuad(gpu, aPosition);
      CopyDrawRegrouped(old(gpu.trace), orientation, transform, position, sharedData.orientationM, transformM);
    }

    /** The six filter-uniform lookups of the screen pass, one after another. */
    method LookupFilterUniforms(gpu: Gpu) returns (handles: seq<int>, ghost uniforms: Lookups)
      requires shaderFilterDefault.Valid(gpu)
      modifies shaderFilterDefault`handleMap, gpu`trace
      ensures shaderFilterDefault.Valid(gpu)
      ensures uniforms == ResolveAll(gpu, shaderFilterDefault.program, old(shaderFilterDefault.handleMap), FilterUniforms)
      ensures handles == uniforms.handles && shaderFilterDefault.handleMap == uniforms.cache
      ensures gpu.trace == old(gpu.trace) + uniforms.calls
      ensures shaderFilterDefault.program == shaderFilterDefault.cacheOwner ==>
        forall i :: 0 <= i < |FilterUniforms| ==>
          handles[i] == gpu.Location(shaderFilterDefault.program, FilterUniforms[i])
    {
      ghost var program := shaderFilterDefault.program;
      ghost var cache0 := shaderFilterDefault.handleMap;
      ghost var trace0 := gpu.trace;
      ghost var names: seq<string> := [];
      handles := [];
      handles := LookupInto(shaderFilterDefault, gpu, "uBrightness", handles, names, cache0, trace0);
      names := names + ["uBrightness"];
      handles := LookupInto(shaderFilterDefault, gpu, "uContrast", handles, names, cache0, trace0);
      names := names + ["uContrast"];
      handles := LookupInto(shaderFilterDefault, gpu, "uSaturation", handles, names, cache0, trace0);
      names := names + ["uSaturation"];
      handles := LookupInto(shaderFilterDefault, gpu, "uCornerRadius", handles, names, cache0, trace0);
      names := names + ["uCornerRadius"];
      handles := LookupInto(shaderFilterDefault, gpu, "uAspectRatio", handles, names, cache0, trace0);
      names := names + ["uAspectRatio"];
      handles := LookupInto(shaderFilterDefault, gpu, "uAspectRatioPreview", handles, names, cache0, trace0);
      names := names + ["uAspectRatioPreview"];
      assert names == FilterUniforms;
      uniforms := ResolveAll(gpu, program, cache0, FilterUniforms);
      if program == shaderFilterDefault.cacheOwner {
        ResolveAllCoherent(gpu, program, cache0, FilterUniforms);
      }
    }

    /**
     * The screen pass, counted: bind the screen, set the filter uniforms, sample the
     * offscreen texture on unit 1, and draw with the copy shader's position
     * attribute.
     */
    method ScreenPass(gpu: Gpu) returns (ghost uniforms: Lookups, ghost position: Lookup, ghost calls: seq<Call>)
      requires shaderCopyOes.Valid(gpu) && shaderFilterDefault.Valid(gpu) && shaderCopyOes != shaderFilterDefault
      requires aspectRatio.Length == 2
      requires sharedData != null && sharedData.Valid() && fboOffscreen.textureHandles.Length > 0
      modifies this`screenPasses, shaderCopyOes`handleMap, shaderFilterDefault`handleMap,
               gpu`trace, gpu`boundFramebuffer, gpu`viewport, gpu`currentProgram
      ensures shaderCopyOes.Valid(gpu) && shaderFilterDefault.Valid(gpu)
      ensures screenPasses == old(screenPasses) + 1
      ensures gpu.boundFramebuffer == 0 && gpu.viewport == Rect(0, 0, width, height)
      ensures gpu.currentProgram == shaderFilterDefault.program
      ensures ScreenPassed(gpu, width, height, shaderFilterDefault.program, old(shaderFilterDefault.handleMap),
                           shaderCopyOes.program, old(shaderCopyOes.handleMap), FilterOf(sharedData, aspectRatio),
                           fboOffscreen.textureHandles[0], uniforms, position, calls)
      ensures shaderFilterDefault.handleMap == uniforms.cache && shaderCopyOes.handleMap == position.cache
      ensures shaderFilterDefault.program == shaderFilterDefault.cacheOwner ==>
        forall i :: 0 <= i < |FilterUniforms| ==>
          uniforms.handles[i] == gpu.Location(shaderFilterDefault.program, FilterUniforms[i])
      ensures shaderCopyOes.program == shaderCopyOes.cacheOwner ==>
        position.handle == gpu.Location(shaderCopyOes.program, "aPosition")
      ensures gpu.trace == old(gpu.trace) + calls
    {
      BindScreen(gpu);
      uniforms := SetFilterUniforms(gpu);
      position := DrawToScreen(gpu);
      Regrouped(old(gpu.trace), ScreenSetupCalls(width, height, shaderFilterDefault.program), uniforms.calls,
                FilterUniformCalls(uniforms.handles, FilterOf(sharedData, aspectRatio)), SampleCalls(fboOffscreen.textureHandles[0]),
                position.calls, QuadCalls(position.handle));
      calls := ScreenCalls(width, height, shaderFilterDefault.program, uniforms, FilterOf(sharedData, aspectRatio),
                           fboOffscreen.textureHandles[0], position);
      screenPasses := screenPasses + 1;
    }

    /** Screen pass setup: the default framebuffer over the whole view, with the filter shader. */
    method BindScreen(gpu: Gpu)
      modifies gpu`trace, gpu`boundFramebuffer, gpu`viewport, gpu`currentProgram
      ensures gpu.boundFramebuffer == 0 && gpu.viewport == Rect(0, 0, width, height)
      ensures gpu.currentProgram == shaderFilterDefault.program
      ensures gpu.trace == old(gpu.trace) + ScreenSetupCalls(width, height, shaderFilterDefault.program)
    {
      gpu.BindFramebuffer(0);
      gpu.Viewport(0, 0, width, height);
      shaderFilterDefault.UseProgram(gpu);
    }

    /** Looks up the six filter uniforms and sets them from the shared data and the view's aspect ratio. */
    method SetFilterUniforms(gpu: Gpu) returns (ghost uniforms: Lookups)
      requires shaderFilterDefault.Valid(gpu) && aspectRatio.Length == 2 && sharedData != null && sharedData.Valid()
      modifies shaderFilterDefault`handleMap, gpu`trace
      ensures shaderFilterDefault.Valid(gpu)
      ensures uniforms == ResolveAll(gpu, shaderFilterDefault.program, old(shaderFilterDefault.handleMap), FilterUniforms)
      ensures shaderFilterDefault.handleMap == uniforms.cache
      ensures shaderFilterDefault.program == shaderFilterDefault.cacheOwner ==>
        forall i :: 0 <= i < |FilterUniforms| ==>
          uniforms.handles[i] == gpu.Location(shaderFilterDefault.program, FilterUniforms[i])
      ensures gpu.trace == old(gpu.trace) + uniforms.calls + FilterUniformCalls(uniforms.handles, FilterOf(sharedData, aspectRatio))
    {
      var handles;
      handles, uniforms := LookupFilterUniforms(gpu);
      ghost var looked := gpu.trace;
      gpu.Issue(Uniform1(handles[0], sharedData.brightness));
      gpu.Issue(Uniform1(handles[1], sharedData.contrast));
      gpu.Issue(Uniform1(handles[2], sharedData.saturation));
      gpu.Issue(Uniform1(handles[3], sharedData.cornerRadius));
      gpu.Issue(Uniform2(handles[4], aspectRatio[0], aspectRatio[1]));
      gpu.Issue(Uniform2(handles[5], sharedData.aspectRatioPreview[0], sharedData.aspectRatioPreview[1]));
      FilterUniformsRegrouped(looked, handles, FilterOf(sharedData, aspectRatio));
    }

    /** Samples the offscreen texture on unit 1 and draws the quad at the copy shader's position attribute. */
    method DrawToScreen(gpu: Gpu) returns (ghost position: Lookup)
      requires shaderCopyOes.Valid(gpu) && fboOffscreen.textureHandles.Length > 0
      modifies shaderCopyOes`handleMap, gpu`trace
      ensures shaderCopyOes.Valid(gpu)
      ensures position == ResolveOne(gpu, shaderCopyOes.program, old(shaderCopyOes.handleMap), "aPosition")
      ensures shaderCopyOes.handleMap == position.cache
      ensures shaderCopyOes.program == shaderCopyOes.cacheOwner ==>
        position.handle == gpu.Location(shaderCopyOes.program, "aPosition")
      ensures gpu.trace == old(gpu.trace) + SampleCalls(fboOffscreen.textureHandles[0])
                           + position.calls + QuadCalls(position.handle)
    {
      gpu.Issue(ActiveTexture(1));
      gpu.Issue(Call.BindTexture(Texture2D, fboOffscreen.GetTexture(0)));
      var aPosition := shaderCopyOes.GetHandle(gpu, "aPosition");
      position := ResolveOne(gpu, shaderCopyOes.program, old(shaderCopyOes.handleMap), "aPosition");
      RenderQuad(gpu, aPosition);
    }

    /**
     * Clears the view, runs the copy pass if a camera frame is pending, and
     * always runs the screen pass. The screen pass looks up `aPosition` in the
     * copy shader against the cache the copy pass (if any) left.
     */
    method OnDrawFrame(gpu: Gpu)
      returns (ghost copy: seq<Call>, ghost screen: seq<Call>,
               ghost orientation: Lookup, ghost transform: Lookup, ghost copyPosition: Lookup,
               ghost uniforms: Lookups, ghost position: Lookup)
      requires Valid(gpu)
      requires sharedData != null && sharedData.Valid() && fboOffscreen.textureHandles.Length > 0
      requires surfaceTextureUpdate ==> surfaceTexture != null
      modifies this`transformM, this`surfaceTextureUpdate, this`copyPasses, this`screenPasses,
               shaderCopyOes`handleMap, shaderFilterDefault`handleMap,
               gpu`trace, gpu`boundFramebuffer, gpu`viewport, gpu`currentProgram
      ensures Valid(gpu)
      ensures Frame() == Step(old(Frame()), DrawFrame)
      ensures gpu.trace == old(gpu.trace) + [ClearScreen] + copy + screen
      ensures old(surfaceTextureUpdate) ==>
        && transformM == Matrix.SurfaceTransform(surfaceTexture)
        && CopyPassed(gpu, surfaceTexture, fboOffscreen.frameBufferHandle, fboOffscreen.width, fboOffscreen.height,
                      fboOffscreen.textureHandles[0], shaderCopyOes.program, old(shaderCopyOes.handleMap),
                      sharedData.orientationM, transformM, orientation, transform, copyPosition, copy)
      ensures !old(surfaceTextureUpdate) ==> transformM == old(transformM) && copy == []
      ensures ScreenPassed(gpu, width, height, shaderFilterDefault.program, old(shaderFilterDefault.handleMap),
                           shaderCopyOes.program,
                           if old(surfaceTextureUpdate) then copyPosition.cache else old(shaderCopyOes.handleMap),
                           FilterOf(sharedData, aspectRatio), fboOffscreen.textureHandles[0], uniforms, position, screen)
      ensures shaderFilterDefault.program == shaderFilterDefault.cacheOwner ==>
        forall i :: 0 <= i < |FilterUniforms| ==>
          uniforms.handles[i] == gpu.Location(shaderFilterDefault.program, FilterUniforms[i])
      ensures shaderCopyOes.program == shaderCopyOes.cacheOwner ==>
        position.handle == gpu.Location(shaderCopyOes.program, "aPosition")
      ensures gpu.boundFramebuffer == 0 && gpu.viewport == Rect(0, 0, width, height)
      ensures gpu.currentProgram == shaderFilterDefault.program
    {
      gpu.Issue(ClearScreen);
      orientation, transform, copyPosition, copy := CopyIfPending(gpu);
      uniforms, position, screen := ScreenPass(gpu);
    }

    /** The copy pass when a camera frame is pending; nothing otherwise. */
    method CopyIfPending(gpu: Gpu)
      returns (ghost orientation: Lookup, ghost transform: Lookup, ghost position: Lookup, ghost copy: seq<Call>)
      requires shaderCopyOes.Valid(gpu)
      requires sharedData != null && fboOffscreen.textureHandles.Length > 0
      requires surfaceTextureUpdate ==> surfaceTexture != null
      modifies this`transformM, this`surfaceTextureUpdate, this`copyPasses, shaderCopyOes`handleMap,
               gpu`trace, gpu`boundFramebuffer, gpu`viewport, gpu`currentProgram
      ensures shaderCopyOes.Valid(gpu)
      ensures !surfaceTextureUpdate
      ensures copyPasses == old(copyPasses) + (if old(surfaceTextureUpdate) then 1 else 0)
      ensures gpu.trace == old(gpu.trace) + copy
      ensures old(surfaceTextureUpdate) ==>
        && transformM == Matrix.SurfaceTransform(surfaceTexture)
        && shaderCopyOes.handleMap == position.cache
        && CopyPassed(gpu, surfaceTexture, fboOffscreen.frameBufferHandle, fboOffscreen.width, fboOffscreen.height,
                      fboOffscreen.textureHandles[0], shaderCopyOes.program, old(shaderCopyOes.handleMap),
                      sharedData.orientationM, transformM, orientation, transform, position, copy)
      ensures !old(surfaceTextureUpdate) ==>
        transformM == old(transformM) && shaderCopyOes.handleMap == old(shaderCopyOes.handleMap) && copy == []
    {
      copy := [];
      orientation, transform, position := Lookup(-1, map[], []), Lookup(-1, map[], []), Lookup(-1, map[], []);
      if surfaceTextureUpdate {
        orientation, transform, position, copy := CopyPass(gpu);
      }
    }

    /**
     * Stores the size and its aspect ratio, re-initialises each FBO whose size
     * differs, and replaces the SurfaceTexture by one on the external texture.
     */
    method OnSurfaceChanged(gpu: Gpu, width: int, height: int)
      requires gpu.Valid() && Valid(gpu) && width > 0 && height > 0
      modifies this`width, this`height, aspectRatio, fboExternal, fboOffscreen, this`surfaceTexture,
               this`renderRequested, gpu`released, gpu`nextId, gpu`live, gpu`trace, gpu`boundFramebuffer
      ensures gpu.Valid() && Valid(gpu)
      ensures this.width == width && this.height == height
      ensures aspectRatio[..] == [AspectRatio(width, height).0, AspectRatio(width, height).1]
      ensures fboExternal.width == width && fboExternal.height == height
      ensures fboOffscreen.width == width && fboOffscreen.height == height
      ensures old(fboExternal.width) == width && old(fboExternal.height) == height ==>
        fboExternal.frameBufferHandle == old(fboExternal.frameBufferHandle)
        && fboExternal.textureHandles == old(fboExternal.textureHandles)
      ensures old(fboOffscreen.width) == width && old(fboOffscreen.height) == height ==>
        fboOffscreen.frameBufferHandle == old(fboOffscreen.frameBufferHandle)
        && fboOffscreen.textureHandles == old(fboOffscreen.textureHandles)
      ensures old(fboExternal.width) == width && old(fboExternal.height) == height &&
              old(fboOffscreen.width) == width && old(fboOffscreen.height) == height ==>
        gpu.nextId == old(gpu.nextId) && gpu.live == old(gpu.live)
      ensures surfaceTexture != null && fresh(surfaceTexture) && surfaceTexture !in gpu.released
      ensures surfaceTexture.texture == fboExternal.textureHandles[0]
      ensures gpu.released == old(gpu.released) + SurfaceSet(old(surfaceTexture))
      ensures renderRequested
      ensures gpu.trace == old(gpu.trace)
        + ResizeCalls(old(fboExternal.width), old(fboExternal.height), old(fboExternal.frameBufferHandle),
                      old(fboExternal.textureHandles[..]), fboExternal.frameBufferHandle,
                      fboExternal.textureHandles[..], width, height, true)
        + ResizeCalls(old(fboOffscreen.width), old(fboOffscreen.height), old(fboOffscreen.frameBufferHandle),
                      old(fboOffscreen.textureHandles[..]), fboOffscreen.frameBufferHandle,
                      fboOffscreen.textureHandles[..], width, height, false)
        + SurfaceSwapCalls(surfaceTexture, old(surfaceTexture), hasObserver)
    {
      StoreSize(width, height);
      FitFbos(gpu);
      ReplaceSurfaceTexture(gpu);
    }

    /** Stores the view size and the aspect ratio derived from it. */
    method StoreSize(width: int, height: int)
      requires aspectRatio.Length == 2 && width > 0 && height > 0
      modifies this`width, this`height, aspectRatio
      ensures this.width == width && this.height == height
      ensures aspectRatio[..] == [AspectRatio(width, height).0, AspectRatio(width, height).1]
    {
      this.width := width;
      this.height := height;
      aspectRatio[0] := Min(this.width, this.height) as real / this.width as real;
      aspectRatio[1] := Min(this.width, this.height) as real / this.height as real;
    }

    /** Fits the external-texture FBO, then the offscreen FBO, to the stored view size. */
    method FitFbos(gpu: Gpu)
      requires gpu.Valid() && fboExternal != fboOffscreen && Ready(fboExternal) && Ready(fboOffscreen)
      requires width > 0 && height > 0
      modifies fboExternal, fboOffscreen, gpu`nextId, gpu`live, gpu`trace, gpu`boundFramebuffer
      ensures gpu.Valid() && Ready(fboExternal) && Ready(fboOffscreen)
      ensures fboExternal.width == width && fboExternal.height == height && fboExternal.textureHandles.Length == 1
      ensures fboOffscreen.width == width && fboOffscreen.height == height
      ensures old(fboExternal.width) == width && old(fboExternal.height) == height ==>
        fboExternal.frameBufferHandle == old(fboExternal.frameBufferHandle)
        && fboExternal.textureHandles == old(fboExternal.textureHandles)
      ensures old(fboOffscreen.width) == width && old(fboOffscreen.height) == height ==>
        fboOffscreen.frameBufferHandle == old(fboOffscreen.frameBufferHandle)
        && fboOffscreen.textureHandles == old(fboOffscreen.textureHandles)
      ensures old(fboExternal.width) == width && old(fboExternal.height) == height &&
              old(fboOffscreen.width) == width && old(fboOffscreen.height) == height ==>
        gpu.nextId == old(gpu.nextId) && gpu.live == old(gpu.live)
      ensures gpu.trace == old(gpu.trace)
        + ResizeCalls(old(fboExternal.width), old(fboExternal.height), old(fboExternal.frameBufferHandle),
                      old(fboExternal.textureHandles[..]), fboExternal.frameBufferHandle,
                      fboExternal.textureHandles[..], width, height, true)
        + ResizeCalls(old(fboOffscreen.width), old(fboOffscreen.height), old(fboOffscreen.frameBufferHandle),
                      old(fboOffscreen.textureHandles[..]), fboOffscreen.frameBufferHandle,
                      fboOffscreen.textureHandles[..], width, height, false)
    {
      FitFbo(fboExternal, gpu, width, height, true);
      FitFbo(fboOffscreen, gpu, width, height, false);
    }

    /** The SurfaceTexture replacement step of OnSurfaceChanged, then a render request. */
    method ReplaceSurfaceTexture(gpu: Gpu)
      requires fboExternal.textureHandles.Length > 0
      modifies this`surfaceTexture, this`renderRequested, gpu`released, gpu`trace
      ensures surfaceTexture != null && fresh(surfaceTexture) && surfaceTexture !in gpu.released
      ensures surfaceTexture.texture == fboExternal.textureHandles[0]
      ensures gpu.released == old(gpu.released) + SurfaceSet(old(surfaceTexture))
      ensures renderRequested
      ensures gpu.trace == old(gpu.trace) + SurfaceSwapCalls(surfaceTexture, old(surfaceTexture), hasObserver)
    {
      var oldSurfaceTexture := surfaceTexture;
      surfaceTexture := gpu.NewSurfaceTexture(fboExternal.GetTexture(0));
      gpu.Issue(SetFrameListener(surfaceTexture));
      gpu.Issue(AddFrameAvailableHandler(surfaceTexture));
      ghost var registered := gpu.trace;
      if hasObserver {
        gpu.Issue(NotifyObserver(surfaceTexture));
      }
      ghost var notified := gpu.trace;
      assert notified == registered + ObserverCalls(surfaceTexture, hasObserver);
      if oldSurfaceTexture != null {
        gpu.ReleaseSurfaceTexture(oldSurfaceTexture);
      }
      assert gpu.trace == notified + PreviousReleaseCalls(oldSurfaceTexture);
      SwapRegrouped(old(gpu.trace), surfaceTexture, ObserverCalls(surfaceTexture, hasObserver),
                    PreviousReleaseCalls(oldSurfaceTexture));
      renderRequested := true;
    }

    /**
     * Installs the copy shader, reporting (not propagating) its failure, then
     * the filter shader, whose failure propagates and skips the FBO resets.
     */
    method OnSurfaceCreated(gpu: Gpu) returns (outcome: Outcome)
      requires gpu.Valid() && Valid(gpu)
      modifies shaderCopyOes, shaderFilterDefault, this`reportedErrors, fboExternal, fboOffscreen,
               gpu`nextId, gpu`live, gpu`trace, gpu`shaderSources, gpu`attached
      ensures gpu.Valid() && Valid(gpu)
      ensures outcome == SetProgramOutcome(gpu, filterVertexSource, filterFragmentSource)
      ensures reportedErrors == old(reportedErrors) +
        (if SetProgramOutcome(gpu, copyVertexSource, copyFragmentSource).Fail?
         then [SetProgramOutcome(gpu, copyVertexSource, copyFragmentSource).message] else [])
      ensures shaderCopyOes.Snapshot()
              == Installed(gpu, old(shaderCopyOes.Snapshot()), old(gpu.nextId), copyVertexSource, copyFragmentSource)
      ensures shaderFilterDefault.Snapshot()
              == Installed(gpu, old(shaderFilterDefault.Snapshot()),
                           NextAfter(gpu, old(gpu.nextId), copyVertexSource, copyFragmentSource),
                           filterVertexSource, filterFragmentSource)
      ensures gpu.nextId == NextAfter(gpu, NextAfter(gpu, old(gpu.nextId), copyVertexSource, copyFragmentSource),
                                      filterVertexSource, filterFragmentSource)
      ensures var installed := LiveAfter(gpu,
                LiveAfter(gpu, old(gpu.live), old(shaderCopyOes.Snapshot()), old(gpu.nextId),
                          copyVertexSource, copyFragmentSource),
                old(shaderFilterDefault.Snapshot()),
                NextAfter(gpu, old(gpu.nextId), copyVertexSource, copyFragmentSource),
                filterVertexSource, filterFragmentSource);
        gpu.live.shaders == installed.shaders && gpu.live.programs == installed.programs
      ensures outcome.Pass? ==> fboExternal.IsReset() && fboOffscreen.IsReset()
      ensures outcome.Pass? ==>
        && gpu.live.framebuffers == old(gpu.live.framebuffers)
             - {old(fboExternal.frameBufferHandle)} - {old(fboOffscreen.frameBufferHandle)}
        && gpu.live.textures == old(gpu.live.textures)
             - Elems(old(fboExternal.textureHandles[..])) - Elems(old(fboOffscreen.textureHandles[..]))
      ensures outcome.Fail? ==>
        && fboExternal.frameBufferHandle == old(fboExternal.frameBufferHandle)
        && fboExternal.textureHandles == old(fboExternal.textureHandles)
        && fboExternal.width == old(fboExternal.width) && fboExternal.height == old(fboExternal.height)
        && fboOffscreen.frameBufferHandle == old(fboOffscreen.frameBufferHandle)
        && fboOffscreen.textureHandles == old(fboOffscreen.textureHandles)
        && fboOffscreen.width == old(fboOffscreen.width) && fboOffscreen.height == old(fboOffscreen.height)
        && gpu.live.framebuffers == old(gpu.live.framebuffers) && gpu.live.textures == old(gpu.live.textures)
    {
      var copy := shaderCopyOes.SetProgram(gpu, copyVertexSource, copyFragmentSource);
      if copy.Fail? {
        reportedErrors := reportedErrors + [copy.message];
      }
      outcome := shaderFilterDefault.SetProgram(gpu, filterVertexSource, filterFragmentSource);
      if outcome.Fail? {
        return;
      }
      fboExternal.Reset(gpu);
      fboOffscreen.Reset(gpu);
    }

    method SetObserver(hasObserver: bool)
      modifies this`hasObserver
      ensures this.hasObserver == hasObserver
    {
      this.hasObserver := hasObserver;
    }

    method SetSharedData(sharedData: DataContainer?)
      modifies this`sharedData, this`renderRequested
      ensures this.sharedData == sharedData && renderRequested
    {
      this.sharedData := sharedData;
      renderRequested := true;
    }
  }
}
