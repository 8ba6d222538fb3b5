/**
 * An abstract OpenGL ES 2.0 context, standing in for the GLES20 / GLES11Ext
 * calls and the platform SurfaceTexture the renderer uses.
 *
 * No pixels are modelled. The context hands out fresh object names, keeps
 * (as ghost state) the set of names that are currently alive and the trace
 * of every call made to it, and answers the questions whose answers depend
 * on shader code (compile status, link status, attribute and uniform
 * locations, info logs) from oracle functions fixed when it is created.
 */
module Gles {

  datatype Target = Texture2D | TextureExternalOes
  datatype TexParam = WrapS | WrapT | MinFilter | MagFilter
  datatype TexValue = ClampToEdge | Nearest | Linear
  datatype ShaderKind = VertexShader | FragmentShader
  datatype Rect = Rect(x: int, y: int, width: int, height: int)

  /** A 4x4 float matrix, recorded only by what it stands for. */
  datatype Matrix =
    | Zero                                   // a freshly allocated float[16]
    | RotationZ(degrees: int)                // Matrix.SetRotateM(m, 0, degrees, 0, 0, 1)
    | SurfaceTransform(source: SurfaceTexture) // what GetTransformMatrix reported

  /** The names of the objects that are alive in the context. */
  datatype Live = Live(framebuffers: set<int>, textures: set<int>,
                       shaders: set<int>, programs: set<int>)

  /** A call made to the context or to a SurfaceTexture, in issue order. */
  datatype Call =
    | ClearScreen                             // glClearColor + glClear
    | GenFramebuffers(framebuffers: seq<int>)
    | BindFramebuffer(framebuffer: int)
    | DeleteFramebuffers(framebuffers: seq<int>)
    | Viewport(rect: Rect)
    | GenTextures(textures: seq<int>)
    | BindTexture(target: Target, texture: int)
    | TexParameter(target: Target, param: TexParam, value: TexValue)
    | TexImage2D(width: int, height: int)     // level 0, RGBA, unsigned bytes, no data, on GL_TEXTURE_2D
    | FramebufferTexture2D(texture: int)      // colour attachment 0 of the bound framebuffer
    | DeleteTextures(textures: seq<int>)
    | ActiveTexture(unit: int)
    | CreateShader(kind: ShaderKind, shader: int)
    | ShaderSource(shader: int, source: string)
    | CompileShader(shader: int)
    | DeleteShader(shader: int)
    | CreateProgram(program: int)
    | AttachShader(program: int, shader: int)
    | LinkProgram(program: int)
    | DeleteProgram(program: int)
    | UseProgram(program: int)
    | GetAttribLocation(program: int, name: string)
    | GetUniformLocation(program: int, name: string)
    | UniformMatrix4(location: int, matrix: Matrix)
    | Uniform1(location: int, x: real)
    | Uniform2(location: int, x: real, y: real)
    | VertexAttribPointer(location: int)      // two floats per vertex from the quad buffer
    | EnableVertexAttribArray(location: int)
    | DrawQuad                                // glDrawArrays(GL_TRIANGLE_STRIP, 0, 4)
    | NewSurfaceTexture(surface: SurfaceTexture)
    | SetFrameListener(surface: SurfaceTexture)
    | AddFrameAvailableHandler(surface: SurfaceTexture) // the C# FrameAvailable event subscription
    | UpdateTexImage(surface: SurfaceTexture)
    | GetTransformMatrix(surface: SurfaceTexture)
    | NotifyObserver(surface: SurfaceTexture)
    | ReleaseSurfaceTexture(surface: SurfaceTexture)

  /** Calls that only change what is drawn, not any state tracked here. */
  predicate Passive(c: Call) {
    c.ClearScreen? || c.TexParameter? || c.TexImage2D? || c.FramebufferTexture2D? ||
    c.ActiveTexture? || c.BindTexture? || c.CompileShader? || c.LinkProgram? ||
    c.UniformMatrix4? || c.Uniform1? || c.Uniform2? || c.VertexAttribPointer? ||
    c.EnableVertexAttribArray? || c.DrawQuad? || c.SetFrameListener? || c.AddFrameAvailableHandler? ||
    c.NotifyObserver?
  }

  function Elems(s: seq<int>): set<int> {
    set x | x in s
  }

  /** Appending two pieces one after the other appends their concatenation. */
  lemma Associates(t: seq<Call>, a: seq<Call>, b: seq<Call>)
    ensures t + a + b == t + (a + b)
  {
  }

  /** Platform video texture: receives camera frames into an external texture. */
  class SurfaceTexture {
    const texture: int

    constructor (texture: int)
      ensures this.texture == texture
    {
      this.texture := texture;
    }
  }

  class Gpu {
    // Oracles: what the driver answers about shader code.
    const attribLocation: (int, string) -> int
    const uniformLocation: (int, string) -> int
    const compiles: string -> bool
    const compileLog: string -> string
    const links: (string, string) -> bool
    const linkLog: (string, string) -> string
    // When true, glCreateShader and glCreateProgram fail and return 0.
    const outOfObjects: bool

    var nextId: int
    var shaderSources: map<int, string>
    var attached: map<int, seq<int>>
    var boundFramebuffer: int
    var viewport: Rect
    var currentProgram: int
    ghost var live: Live
    /** The SurfaceTextures released so far. */
    var released: set<SurfaceTexture>
    ghost var trace: seq<Call>

    /** Where `name` lives in `program`: the attribute if there is one, else the uniform. */
    function Location(program: int, name: string): int {
      if attribLocation(program, name) != -1 then attribLocation(program, name)
      else uniformLocation(program, name)
    }

    /** Program 0 (no program) has no attributes or uniforms. */
    ghost predicate ProgramZeroEmpty() {
      forall n :: Location(0, n) == -1
    }

    ghost predicate Valid()
      reads this`nextId, this`live, this`shaderSources, this`attached
    {
      && nextId >= 1
      && ProgramZeroEmpty()
      && (forall f :: f in live.framebuffers ==> 0 < f < nextId)
      && (forall t :: t in live.textures ==> 0 < t < nextId)
      && (forall s :: s in live.shaders ==> 0 < s < nextId)
      && (forall p :: p in live.programs ==> 0 < p < nextId)
      && (forall s :: s in shaderSources ==> 0 < s < nextId)
      && (forall p :: p in attached ==> 0 < p < nextId)
    }

    constructor (attribLocation: (int, string) -> int, uniformLocation: (int, string) -> int,
                 compiles: string -> bool, compileLog: string -> string,
                 links: (string, string) -> bool, linkLog: (string, string) -> string,
                 outOfObjects: bool)
      requires forall n :: attribLocation(0, n) == -1 && uniformLocation(0, n) == -1
      ensures Valid()
      ensures this.attribLocation == attribLocation && this.uniformLocation == uniformLocation
      ensures this.compiles == compiles && this.compileLog == compileLog
      ensures this.links == links && this.linkLog == linkLog && this.outOfObjects == outOfObjects
      ensures live == Live({}, {}, {}, {}) && trace == [] && released == {}
      ensures boundFramebuffer == 0 && currentProgram == 0
    {
      this.attribLocation, this.uniformLocation := attribLocation, uniformLocation;
      this.compiles, this.compileLog := compiles, compileLog;
      this.links, this.linkLog := links, linkLog;
      this.outOfObjects := outOfObjects;
      nextId := 1;
      shaderSources, attached := map[], map[];
      released := {};
      boundFramebuffer, viewport, currentProgram := 0, Rect(0, 0, 0, 0), 0;
      live := Live({}, {}, {}, {});
      trace := [];
    }

    method Issue(c: Call)
      requires Passive(c)
      modifies this`trace
      ensures trace == old(trace) + [c]
    {
      trace := trace + [c];
    }

    method GenFramebuffer() returns (fb: int)
      requires Valid()
      modifies this`nextId, this`live, this`trace
      ensures Valid()
      ensures fb == old(nextId) && nextId == fb + 1
      ensures live == old(live).(framebuffers := old(live.framebuffers) + {fb})
      ensures trace == old(trace) + [Call.GenFramebuffers([fb])]
    {
      fb := nextId;
      nextId := nextId + 1;
      live := live.(framebuffers := live.framebuffers + {fb});
      trace := trace + [Call.GenFramebuffers([fb])];
    }

    method GenTextures(a: array<int>)
      requires Valid()
      modifies this`nextId, this`live, this`trace, a
      ensures Valid()
      ensures forall i :: 0 <= i < a.Length ==> a[i] == old(nextId) + i
      ensures nextId == old(nextId) + a.Length
      ensures live == old(live).(textures := old(live.textures) + Elems(a[..]))
      ensures trace == old(trace) + [Call.GenTextures(a[..])]
    {
      forall i | 0 <= i < a.Length {
        a[i] := nextId + i;
      }
      nextId := nextId + a.Length;
      live := live.(textures := live.textures + Elems(a[..]));
      trace := trace + [Call.GenTextures(a[..])];
    }

    method BindFramebuffer(fb: int)
      modifies this`boundFramebuffer, this`trace
      ensures boundFramebuffer == fb
      ensures trace == old(trace) + [Call.BindFramebuffer(fb)]
    {
      boundFramebuffer := fb;
      trace := trace + [Call.BindFramebuffer(fb)];
    }

    method Viewport(x: int, y: int, width: int, height: int)
      modifies this`viewport, this`trace
      ensures viewport == Rect(x, y, width, height)
      ensures trace == old(trace) + [Call.Viewport(Rect(x, y, width, height))]
    {
      viewport := Rect(x, y, width, height);
      trace := trace + [Call.Viewport(viewport)];
    }

    /** Deleting a name that is not alive (0, -1, a deleted one) is silently ignored. */
    method DeleteFramebuffers(fbs: seq<int>)
      requires Valid()
      modifies this`live, this`trace
      ensures Valid()
      ensures live == old(live).(framebuffers := old(live.framebuffers) - Elems(fbs))
      ensures trace == old(trace) + [Call.DeleteFramebuffers(fbs)]
    {
      live := live.(framebuffers := live.framebuffers - Elems(fbs));
      trace := trace + [Call.DeleteFramebuffers(fbs)];
    }

    method DeleteTextures(textures: seq<int>)
      requires Valid()
      modifies this`live, this`trace
      ensures Valid()
      ensures live == old(live).(textures := old(live.textures) - Elems(textures))
      ensures trace == old(trace) + [Call.DeleteTextures(textures)]
    {
      live := live.(textures := live.textures - Elems(textures));
      trace := trace + [Call.DeleteTextures(textures)];
    }

    method CreateShader(kind: ShaderKind) returns (s: int)
      requires Valid()
      modifies this`nextId, this`live, this`trace
      ensures Valid()
      ensures outOfObjects ==> s == 0 && nextId == old(nextId) && live == old(live)
      ensures !outOfObjects ==>
        s == old(nextId) && nextId == s + 1 && live == old(live).(shaders := old(live.shaders) + {s})
      ensures trace == old(trace) + [Call.CreateShader(kind, s)]
    {
      if outOfObjects {
        s := 0;
      } else {
        s := nextId;
        nextId := nextId + 1;
        live := live.(shaders := live.shaders + {s});
      }
      trace := trace + [Call.CreateShader(kind, s)];
    }

    method ShaderSource(s: int, source: string)
      requires Valid() && 0 < s < nextId
      modifies this`shaderSources, this`trace
      ensures Valid()
      ensures shaderSources == old(shaderSources)[s := source]
      ensures trace == old(trace) + [Call.ShaderSource(s, source)]
    {
      shaderSources := shaderSources[s := source];
      trace := trace + [Call.ShaderSource(s, source)];
    }

    /** glGetShaderiv(GL_COMPILE_STATUS), after glCompileShader. */
    function CompileStatus(s: int): bool
      reads this
    {
      s in shaderSources && compiles(shaderSources[s])
    }

    function ShaderInfoLog(s: int): string
      reads this
    {
      if s in shaderSources then compileLog(shaderSources[s]) else ""
    }

    method DeleteShader(s: int)
      requires Valid()
      modifies this`live, this`trace
      ensures Valid()
      ensures live == old(live).(shaders := old(live.shaders) - {s})
      ensures trace == old(trace) + [Call.DeleteShader(s)]
    {
      live := live.(shaders := live.shaders - {s});
      trace := trace + [Call.DeleteShader(s)];
    }

    method CreateProgram() returns (p: int)
      requires Valid()
      modifies this`nextId, this`live, this`trace
      ensures Valid()
      ensures outOfObjects ==> p == 0 && nextId == old(nextId) && live == old(live)
      ensures !outOfObjects ==>
        p == old(nextId) && nextId == p + 1 && live == old(live).(programs := old(live.programs) + {p})
      ensures trace == old(trace) + [Call.CreateProgram(p)]
    {
      if outOfObjects {
        p := 0;
      } else {
        p := nextId;
        nextId := nextId + 1;
        live := live.(programs := live.programs + {p});
      }
      trace := trace + [Call.CreateProgram(p)];
    }

    method AttachShader(p: int, s: int)
      requires Valid() && 0 < p < nextId
      modifies this`attached, this`trace
      ensures Valid()
      ensures attached == old(attached)[p := (if p in old(attached) then old(attached)[p] else []) + [s]]
      ensures trace == old(trace) + [Call.AttachShader(p, s)]
    {
      attached := attached[p := (if p in attached then attached[p] else []) + [s]];
      trace := trace + [Call.AttachShader(p, s)];
    }

    /** The sources of the two shaders attached to `p`, if exactly two with sources are. */
    function AttachedSources(p: int): (pair: SourcePair)
      reads this
    {
      if p in attached && |attached[p]| == 2 && attached[p][0] in shaderSources && attached[p][1] in shaderSources
      then Pair(shaderSources[attached[p][0]], shaderSources[attached[p][1]])
      else NoPair
    }

    /** glGetProgramiv(GL_LINK_STATUS), after glLinkProgram. */
    function LinkStatus(p: int): bool
      reads this
    {
      AttachedSources(p).Pair? && links(AttachedSources(p).vertex, AttachedSources(p).fragment)
    }

    function ProgramInfoLog(p: int): string
      reads this
    {
      if AttachedSources(p).Pair? then linkLog(AttachedSources(p).vertex, AttachedSources(p).fragment) else ""
    }

    method DeleteProgram(p: int)
      requires Valid()
      modifies this`live, this`trace
      ensures Valid()
      ensures live == old(live).(programs := old(live.programs) - {p})
      ensures trace == old(trace) + [Call.DeleteProgram(p)]
    {
      live := live.(programs := live.programs - {p});
      trace := trace + [Call.DeleteProgram(p)];
    }

    method UseProgram(p: int)
      modifies this`currentProgram, this`trace
      ensures currentProgram == p
      ensures trace == old(trace) + [Call.UseProgram(p)]
    {
      currentProgram := p;
      trace := trace + [Call.UseProgram(p)];
    }

    method GetAttribLocation(p: int, name: string) returns (loc: int)
      modifies this`trace
      ensures loc == attribLocation(p, name)
      ensures trace == old(trace) + [Call.GetAttribLocation(p, name)]
    {
      loc := attribLocation(p, name);
      trace := trace + [Call.GetAttribLocation(p, name)];
    }

    method GetUniformLocation(p: int, name: string) returns (loc: int)
      modifies this`trace
      ensures loc == uniformLocation(p, name)
      ensures trace == old(trace) + [Call.GetUniformLocation(p, name)]
    {
      loc := uniformLocation(p, name);
      trace := trace + [Call.GetUniformLocation(p, name)];
    }

    method NewSurfaceTexture(texture: int) returns (st: SurfaceTexture)
      modifies this`trace
      ensures fresh(st) && st.texture == texture && st !in released
      ensures trace == old(trace) + [Call.NewSurfaceTexture(st)]
    {
      st := new SurfaceTexture(texture);
      trace := trace + [Call.NewSurfaceTexture(st)];
    }

    method UpdateTexImage(st: SurfaceTexture)
      modifies this`trace
      ensures trace == old(trace) + [Call.UpdateTexImage(st)]
    {
      trace := trace + [Call.UpdateTexImage(st)];
    }

    method GetTransformMatrix(st: SurfaceTexture) returns (m: Matrix)
      modifies this`trace
      ensures m == Matrix.SurfaceTransform(st)
      ensures trace == old(trace) + [Call.GetTransformMatrix(st)]
    {
      m := Matrix.SurfaceTransform(st);
      trace := trace + [Call.GetTransformMatrix(st)];
    }

    method ReleaseSurfaceTexture(st: SurfaceTexture)
      modifies this`trace, this`released
      ensures released == old(released) + {st}
      ensures trace == old(trace) + [Call.ReleaseSurfaceTexture(st)]
    {
      released := released + {st};
      trace := trace + [Call.ReleaseSurfaceTexture(st)];
    }
  }

  datatype SourcePair = NoPair | Pair(vertex: string, fragment: string)
}
