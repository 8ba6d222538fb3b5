# FboTextures renderer core in Dafny

This project models the rendering core of FboTextures, an Android camera-filter
application. The camera writes frames into an external OES texture. The
renderer copies each new frame into an offscreen framebuffer object (FBO). It
then draws that FBO onto the screen through a filter shader. The model covers
four parts:

- **FBO holder** (`FboHelper`, module `Fbo`): a framebuffer and its textures.
  - `Init` always calls `Reset` first, so re-initialising never leaks.
  - Only non-external textures get storage.
  - Wrap-S is always set on `GL_TEXTURE_2D`.
- **Shader holder** (`ShaderHelper`, module `Shader`): a program, its two
  shaders and a cache of locations by name.
  - `GetHandle` tries the attribute first, then the uniform, and caches only
    found locations.
  - `SetProgram` follows the code's failure paths: the vertex handle is
    already overwritten when the fragment stage fails to compile, and a link
    failure deletes the *old* program and the *new* shaders. Whether the
    driver runs out of object names is one flag of the context (see
    "Left out").
- **Camera helper** (`CameraHelper`, module `Camera`).
  - The facing-dependent orientation uses C# truncating `%`.
  - The first-match search for a camera facing a given way.
  - The swap-then-ratio preview aspect.
  - The open/closed camera state.
- **Renderer** (`MyGlSurfaceView`, module `SurfaceView`).
  - The new-frame flag is set by `OnFrameAvailable` and consumed by
    `OnDrawFrame`. The copy pass runs only when the flag is set; the screen
    pass always runs.
  - `OnSurfaceChanged` re-initialises an FBO only when its size differs, and
    replaces the SurfaceTexture in a fixed order.
  - `OnSurfaceCreated` installs the shaders and resets the FBOs.

`DataContainer` (module `SharedState`) is the shared state the camera helper
writes and the renderer reads.

OpenGL ES 2.0 and the platform SurfaceTexture are replaced by an abstract
context (module `Gles`, class `Gpu`). Every C# call on the global `GLES20`
becomes a method call on a `Gpu` that is passed in as a parameter. The context:

- hands out fresh object names from one counter;
- keeps, as ghost state, the names that are alive and the trace of the calls
  made to it;
- answers compile status, link status, info logs and attribute/uniform
  locations from oracle functions fixed when it is built. The status and log
  queries (`glGetShaderiv`, `glGetShaderInfoLog`, `glGetProgramiv`,
  `glGetProgramInfoLog`) are read from these oracles and are not recorded in
  the trace; the location queries are.

Program 0 has no locations. Most operations are stated against that trace:
`gpu.trace == old(gpu.trace) + <calls>`, where `<calls>` is a specification
function. Lemmas then prove what the source promises about those call
sequences.

Three consequences of the code that the model keeps:

- The preview aspect of a 1280x720 preview at sensor orientation 90 is
  (1.0, 0.5625). `Camera.PreviewAspectExamples` proves this value.
- A successful `SetProgram` deletes neither the previous program nor its
  shaders. It only replaces the handles and empties the location cache.
- On a failed link, `DeleteProgram` runs on the fields as they then are. It
  deletes the previous program and the two new shaders, and the newly created
  program stays alive, unreferenced. `Shader.SetProgramLeaks` states both
  halves.

## Model

| member | source | states |
|---|---|---|
| Fbo.FboHelper.constructor | FboTextures/FboHelper.cs:7-12 | a new holder is empty: framebuffer -1, no textures, size 0x0 |
| Fbo.FboHelper.Bind | FboTextures/FboHelper.cs:17-20 | binds this framebuffer and sets the viewport to (0, 0, width, height), issuing exactly those two calls |
| Fbo.FboHelper.BindTexture | FboTextures/FboHelper.cs:29-33 | needs an index within the texture array; attaches texture `index` as colour attachment 0 and changes nothing else |
| Fbo.FboHelper.GetTexture | FboTextures/FboHelper.cs:53-55 | needs an index within the texture array; the result is one of the held textures, and nothing is changed |
| Fbo.FboHelper.Reset | FboTextures/FboHelper.cs:127-134 | deletes exactly the held framebuffer and exactly the held textures (live sets lose those and nothing else), then the holder is empty |
| Fbo.FboHelper.Init | FboTextures/FboHelper.cs:84-121 | releases what was held, then holds a fresh framebuffer (left bound) and `textureCount` fresh textures, none of them alive before, size width x height; the live sets are the old ones minus what was held plus what was allocated; the calls are the release followed by the allocation |
| Fbo.FboHelper.Allocate | FboTextures/FboHelper.cs:90-120 | the allocating half of init: size stored, one fresh framebuffer generated and bound, fresh textures generated and configured, live sets grow by exactly those |
| Fbo.AllocateTextures | FboTextures/FboHelper.cs:100-120 | `count` textures with consecutive fresh names, generated in one call, then each configured in array order |
| Fbo.SetupTextures | FboTextures/FboHelper.cs:105-120 | the texture loop issues, in array order, each texture's configuration calls (`TextureSetup`) |
| Fbo.ConfigureTexture | FboTextures/FboHelper.cs:106-119 | one loop pass: bind on the target, wrap-S on GL_TEXTURE_2D, wrap-T/min/mag on the target, storage only on GL_TEXTURE_2D |
| Fbo.TextureCallsStorage | FboTextures/FboHelper.cs:115-119 | one texture's configuration allocates width x height storage once on GL_TEXTURE_2D and never on the external target |
| Fbo.ExternalHasNoStorage | FboTextures/FboHelper.cs:115-119 | on the external target the setup contains no TexImage2D call of any size |
| Fbo.StorageOnlyForInternal | FboTextures/FboHelper.cs:103-119 | the whole setup allocates storage once per texture for GL_TEXTURE_2D and not at all for the external target |
| Fbo.SetupLength | FboTextures/FboHelper.cs:105-120 | the setup has a fixed number of calls per texture (6 on GL_TEXTURE_2D, 5 on the external target) |
| Fbo.SetupBlocks | FboTextures/FboHelper.cs:105-120 | the setup is one block per texture, block i being the configuration of texture i |
| Fbo.WrapSOnTexture2D | FboTextures/FboHelper.cs:105-114 | every wrap-S parameter is set on GL_TEXTURE_2D, every other parameter on the textures' own target |
| Fbo.InitTwice | FboTextures/FboHelper.cs:86-88 | two inits in a row leave alive only what was alive before minus what was held, plus what the second init allocated: nothing the first init allocated leaks |
| Shader.ShaderHelper.constructor | FboTextures/ShaderHelper.cs:11-15 | program and shader handles 0, empty cache |
| Shader.ShaderHelper.DeleteProgram | FboTextures/ShaderHelper.cs:20-25 | deletes the fragment shader, the vertex shader and the program held (in that order), zeroes the three handles and leaves the cache as it is |
| Shader.ResolveOneFacts | FboTextures/ShaderHelper.cs:35-54 | a cached name returns its cached location with no query; otherwise the attribute is queried first, the uniform is queried exactly when the attribute is -1, and the result is cached exactly when it is not -1 |
| Shader.ResolveOneCoherent | FboTextures/ShaderHelper.cs:35-54 | against a cache holding only found locations of the program, a lookup returns the name's location and keeps the cache so |
| Shader.ShaderHelper.GetHandle | FboTextures/ShaderHelper.cs:35-54 | returns, caches and queries as `ResolveOne` says; when the cache belongs to the current program the result is the name's location |
| Shader.ResolveAll | FboTextures/ShaderHelper.cs:64-70 | one handle per name |
| Shader.ResolveAllCoherent | FboTextures/ShaderHelper.cs:64-70 | looking up names in order against a coherent cache yields, for each index, the location of that name |
| Shader.ShaderHelper.GetHandles | FboTextures/ShaderHelper.cs:64-70 | a new array of the names' length whose i-th entry is the i-th lookup, made in index order against the evolving cache |
| Shader.ShaderHelper.LoadShader | FboTextures/ShaderHelper.cs:81-95 | creates, sources and compiles a shader; on a compile error deletes it and fails with its info log; a 0 name from the driver is returned without compiling |
| Shader.SetProgramFailsWhen | FboTextures/ShaderHelper.cs:108-128 | installing fails exactly when a stage fails to compile or the pair fails to link (and the driver handed out names) |
| Shader.ShaderHelper.SetProgram | FboTextures/ShaderHelper.cs:108-128 | the outcome, the holder's handles and cache (`Installed`), the next name (`NextAfter`) and the live shaders and programs (`LiveAfter`) on each path: vertex compile error changes nothing; fragment compile error has already overwritten the vertex handle; link failure zeroes all handles and deletes the old program, keeping the new one alive; success installs the new program, empties the cache and deletes nothing |
| Shader.SetProgramLeaks | FboTextures/ShaderHelper.cs:108-128 | after a link failure the new program is alive while the holder is zeroed, keeps its cache and the old program is gone; after success nothing that was alive is deleted and the installed program is alive with an empty cache |
| Shader.ShaderHelper.CompileStages | FboTextures/ShaderHelper.cs:110-111 | the two stages compiled in order, the vertex handle stored before the fragment stage is attempted, stopping at the first error |
| Shader.ShaderHelper.LinkAndInstall | FboTextures/ShaderHelper.cs:113-127 | once both stages compiled: link failure runs DeleteProgram on the current fields and fails with the link log; otherwise the new program is installed and the cache emptied |
| Shader.ShaderHelper.CreateAndLink | FboTextures/ShaderHelper.cs:113-117 | a fresh program with exactly the vertex then the fragment shader attached, the calls being create, attach, attach, link; when the driver is out of names the program is 0, nothing is attached and the only call is the create |
| Shader.ShaderHelper.UseProgram | FboTextures/ShaderHelper.cs:133-135 | makes the held program current |
| SharedState.AspectRatio | FboTextures/MyGlSurfaceView.cs:175-176 | (min/width, min/height): both in (0, 1], one of them 1, and each times its side is the shorter side |
| SharedState.DataContainer.constructor | FboTextures/DataContainer.cs:5-30 | a two-float preview aspect of zeros, zero filter values, device orientation 0, a zero matrix |
| Camera.CsRemainder | FboTextures/CameraHelper.cs:29-33 | C# `%`: quotient times divisor plus remainder is the dividend, and the remainder has the dividend's sign |
| Camera.OrientationRange | FboTextures/CameraHelper.cs:29-33 | for sensor and device orientations in [0, 360) the result is in [0, 360) and is o - d (front) or o + d (back) modulo 360 |
| Camera.OrientationExamples | FboTextures/CameraHelper.cs:29-33 | back 90/0 gives 90, back 90/90 gives 180, front 270/90 gives 180, front 90/180 gives 270 |
| Camera.CameraHelper.GetOrientation | FboTextures/CameraHelper.cs:24-34 | 0 without shared data, otherwise the facing-dependent rotation, in [0, 360) for in-range inputs |
| Camera.LegalOrientationsTranspose | FboTextures/CameraHelper.cs:170-174 | every legal sensor orientation (0, 90, 180, 270) swaps the preview width and height |
| Camera.OrientedTransposesWhen | FboTextures/CameraHelper.cs:170-174 | a non-square size is swapped exactly when the orientation is a multiple of 90 |
| Camera.PreviewAspect | FboTextures/CameraHelper.cs:168-179 | both ratios in (0, 1], one of them 1 |
| Camera.PreviewAspectExamples | FboTextures/CameraHelper.cs:168-179 | 640x480 at 90 gives (1.0, 0.75); 1280x720 at 90 and at 0 gives (1.0, 0.5625) |
| Camera.FirstMatch | FboTextures/CameraHelper.cs:105-113 | the smallest index of a camera with the wanted facing, or -1 when no camera has it |
| Camera.CameraHelper.constructor | FboTextures/CameraHelper.cs:13-22 | no camera open, camera id 0, no shared data, no surface texture |
| Camera.CameraHelper.ResetCamera | FboTextures/CameraHelper.cs:51-59 | afterwards no camera is open or previewing |
| Camera.CameraHelper.OnPause | FboTextures/CameraHelper.cs:44-47 | forgets the surface texture and releases the camera |
| Camera.CameraHelper.OpenCamera | FboTextures/CameraHelper.cs:68-97 | releases any open camera; for an id of 0 or more opens it with its info and preview size, previewing exactly when there is a surface texture; then publishes the rotation |
| Camera.CameraHelper.SetCameraFront | FboTextures/CameraHelper.cs:102-116 | the camera id becomes the first match (or -1) and is opened; a failed search leaves the last camera's info, as the loop reads each one |
| Camera.CameraHelper.UpdateRotation | FboTextures/CameraHelper.cs:160-180 | with an open camera and shared data: matrix = rotation by the raw sensor orientation, preview aspect = `PreviewAspect`; otherwise nothing changes; the other shared fields never change |
| Camera.CameraHelper.SetSharedData | FboTextures/CameraHelper.cs:130-132 | stores the shared data |
| SurfaceView.MyGlSurfaceView.constructor | FboTextures/MyGlSurfaceView.cs:20-52 | both FBOs empty, both programs 0, no frame pending, no surface texture |
| SurfaceView.MyGlSurfaceView.OnFrameAvailable | FboTextures/MyGlSurfaceView.cs:212-215 | sets the new-frame flag (a `FrameAvailable` step) and requests a render |
| SurfaceView.SignalIdempotent | FboTextures/MyGlSurfaceView.cs:212-215 | a second frame signal before a draw changes nothing |
| SurfaceView.Coalescing | FboTextures/MyGlSurfaceView.cs:101-106 | any number of signals then one draw give at most one copy pass, exactly one if any signal came, and one screen pass |
| SurfaceView.CopyPassBounds | FboTextures/MyGlSurfaceView.cs:101-106 | over any event sequence, copy passes never outnumber draws, and copies plus a pending flag never exceed the signals |
| SurfaceView.ScreenPassPerDraw | FboTextures/MyGlSurfaceView.cs:134-165 | over any event sequence, exactly one screen pass per draw |
| SurfaceView.MyGlSurfaceView.OnDrawFrame | FboTextures/MyGlSurfaceView.cs:94-166 | a `DrawFrame` step of the frame machine; the calls are the clear, then, exactly when the flag was set, the copy pass (`CopyPassed`: its three lookups against the copy cache held before the draw, calls = `CopyCalls`, transform latched) and nothing otherwise, then the screen pass (`ScreenPassed`: the six filter lookups, the `aPosition` lookup against the copy cache the copy pass left, calls = `ScreenCalls`) on framebuffer 0 over the whole view with the filter program current |
| SurfaceView.MyGlSurfaceView.CopyIfPending | FboTextures/MyGlSurfaceView.cs:101-130 | with the flag set: one counted copy pass (`CopyPassed`), flag cleared, transform latched, the copy cache the one its lookups left; with the flag clear: no calls and nothing changed |
| SurfaceView.MyGlSurfaceView.CopyPass | FboTextures/MyGlSurfaceView.cs:101-129 | the copy pass, counted: offscreen FBO bound with its size, copy program current, the three lookups in order, calls = `CopyCalls` |
| SurfaceView.CopyCallsShape | FboTextures/MyGlSurfaceView.cs:101-129 | a copy pass starts with UpdateTexImage, GetTransformMatrix and ends with the quad |
| SurfaceView.MyGlSurfaceView.SetUpCopy | FboTextures/MyGlSurfaceView.cs:103-113 | latches the frame and transform, clears the flag, binds the offscreen FBO and its texture 0, uses the copy program |
| SurfaceView.MyGlSurfaceView.DrawCopy | FboTextures/MyGlSurfaceView.cs:116-129 | looks up uOrientationM, uTransformM, then aPosition, sets the two matrices, selects unit 0, draws the quad |
| SurfaceView.MyGlSurfaceView.ScreenPass | FboTextures/MyGlSurfaceView.cs:134-165 | counted; `ScreenPassed` (lookups against the caches held before it, calls = `ScreenCalls` with the shared filter values and aspect ratios); the six filter uniforms are their locations in the filter program and the quad position is the copy program's `aPosition` |
| SurfaceView.ScreenCallsShape | FboTextures/MyGlSurfaceView.cs:134-165 | a screen pass starts by binding framebuffer 0, samples the given texture and ends with the quad |
| SurfaceView.MyGlSurfaceView.BindScreen | FboTextures/MyGlSurfaceView.cs:135-139 | framebuffer 0, viewport (0, 0, width, height), filter program current |
| SurfaceView.MyGlSurfaceView.LookupFilterUniforms | FboTextures/MyGlSurfaceView.cs:142-148 | the six filter uniforms looked up in order, each its location when the cache is the filter program's |
| SurfaceView.MyGlSurfaceView.SetFilterUniforms | FboTextures/MyGlSurfaceView.cs:142-158 | the lookups, then the four floats from the shared data and the two aspect pairs, in order |
| SurfaceView.MyGlSurfaceView.DrawToScreen | FboTextures/MyGlSurfaceView.cs:161-165 | samples offscreen texture 0 on unit 1 and draws the quad at the copy shader's aPosition |
| SurfaceView.MyGlSurfaceView.RenderQuad | FboTextures/MyGlSurfaceView.cs:238-243 | vertex pointer, enable, draw, at the given attribute |
| SurfaceView.MyGlSurfaceView.OnSurfaceChanged | FboTextures/MyGlSurfaceView.cs:168-205 | stores the size and its aspect ratio; each FBO is re-initialised (external with one OES texture, offscreen with one 2D texture) only when its size differs, so a same-size call creates and deletes no GL object; then a fresh SurfaceTexture on external texture 0 replaces the old one, which is released; a render is requested |
| SurfaceView.MyGlSurfaceView.StoreSize | FboTextures/MyGlSurfaceView.cs:170-176 | the size and `AspectRatio(width, height)` stored |
| SurfaceView.MyGlSurfaceView.FitFbos | FboTextures/MyGlSurfaceView.cs:178-186 | the external FBO then the offscreen FBO fitted to the view size |
| SurfaceView.FitFbo | FboTextures/MyGlSurfaceView.cs:179-186 | an FBO whose size differs is re-initialised with one fresh texture of the new size; one whose size matches keeps its handles, and nothing is allocated or issued |
| SurfaceView.MyGlSurfaceView.ReplaceSurfaceTexture | FboTextures/MyGlSurfaceView.cs:188-204 | a fresh SurfaceTexture on external texture 0, listeners registered, the observer notified when there is one, the old one released last, render requested |
| SurfaceView.SurfaceSwapShape | FboTextures/MyGlSurfaceView.cs:189-202 | the new SurfaceTexture is created first, the observer is notified exactly when there is one, and nothing but the old SurfaceTexture is released, as the last call |
| SurfaceView.MyGlSurfaceView.OnSurfaceCreated | FboTextures/MyGlSurfaceView.cs:217-233 | a copy-shader failure is reported and does not stop; the outcome is the filter shader's; each shader holder ends as `Installed` says for its sources, the filter one starting from the names the copy one left, and the live shaders and programs are the two `LiveAfter` steps composed; on success both FBOs are reset and their names released, on failure both are untouched |
| SurfaceView.MyGlSurfaceView.SetObserver | FboTextures/MyGlSurfaceView.cs:248-250 | records whether there is an observer |
| SurfaceView.MyGlSurfaceView.SetSharedData | FboTextures/MyGlSurfaceView.cs:255-258 | stores the shared data and requests a render |

## Left out

- Pixels, rasterisation, shader semantics, blending and the quad's vertex buffer are not modelled. A draw is one `DrawQuad` call in the trace, and `glClearColor` with `glClear` is one `ClearScreen` call.
- Matrices are symbolic (`Zero`, `RotationZ(degrees)`, `SurfaceTransform(surface)`): `Matrix.SetRotateM` and the transform matrix involve trigonometry on floats.
- Floats are exact reals. `(float)` rounding of the aspect ratios is not modelled.
- The other camera-device calls are not modelled: `Camera.Open`, parameters, `SetPreviewTexture`, `StartPreview`, `StopPreview`, `TakePicture`, `OnResume` and `CameraObserver`. An open camera is a flag, its preview size and whether it previews. The device's cameras are a fixed table.
- Camera.CameraHelper.OpenCamera: requires a camera id below the number of cameras; the platform's `Camera.Open` fails on any other id.
- Camera.CameraHelper.IsCameraFront: a predicate without a contract of its own. `SetCameraFront` states what it returns after a successful search.
- Concurrency is not modelled: frame callbacks arriving on another thread, GLSurfaceView render-request coalescing, and the Handler/toast posting in `showError`. A render request is a boolean, and reported errors are a list of messages.
- `LoadRawString` (resource I/O) is not modelled. The four shader sources are opaque strings fixed when the view is built.
- `Width` and `Height` of `FboHelper` are read as the fields they return.
- The `DataContainer` fields the core never touches are not modelled: `_filter`, `_imageData`, `_imageProgress` and `_imageTime`.
- `Debug.WriteLine` and `Log.Debug` are not modelled.
- The released state of a SurfaceTexture is kept by the context as a set of released SurfaceTextures (`Gpu.released`), not as a flag on each object.
- SurfaceView.MyGlSurfaceView.OnDrawFrame: requires shared data, a SurfaceTexture whenever the flag is set, and a texture in the offscreen FBO. The code dereferences all three without a check, so before the first size change it would throw.
- SurfaceView.MyGlSurfaceView.OnSurfaceChanged: requires a positive size. The aspect ratio divides by the size as floats, which gives infinity or NaN for 0, and exact reals have neither. A 0x0 size on FBOs that are still empty (0x0) skips `init`, so `GetTexture(0)` then throws on the empty texture array. A negative size only makes the GL calls fail, and GL errors are not modelled.
- Fbo.FboHelper.Init: requires a texture count of 0 or more. The code allocates an array of that length.
- Shader.ShaderHelper.SetProgram and Shader.ShaderHelper.CreateAndLink: whether `glCreateShader` and `glCreateProgram` return 0 is one flag of the context (`Gpu.outOfObjects`), so either every create call fails or none does. The case where both shaders are created and compile and then only `glCreateProgram` returns 0 is not modelled. In that case the code skips attaching and linking, sets the program to 0, empties the cache and keeps the two new shaders alive and held.
- Fbo.FboHelper.GetTexture: states only that the result is a held texture, not which index it came from.
- Throwing is an `Outcome`/`Result` value. Only `OnSurfaceCreated` catches, and it records the message.
- Several source methods are split into consecutive helpers (`Allocate`, `CompileStages`, `CopyPass`, `ScreenPass` and others). Each helper is one contiguous stretch of the source method's body, so that every proof stays small.
- The renderer's screen pass uses the copy shader's `aPosition` handle, as the code does.
- `MainActivity.cs` is not part of this model.
