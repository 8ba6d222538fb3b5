/**
 * ShaderHelper: one vertex + fragment program and a cache from attribute or
 * uniform names to their locations in it.
 *
 * The cache is filled lazily and cleared only when a program is installed.
 * Every cached location is a found one (not -1) and is the location of its
 * name in the program the cache was filled from (`cacheOwner`). That is the
 * current program, except after a failed relink: `DeleteProgram` zeroes the
 * handles but keeps the cache.
 */
module Shader {
  import opened Gles
  import opened Outcomes

  /** One name lookup: the handle returned, the cache afterwards, the queries made. */
  datatype Lookup = Lookup(handle: int, cache: map<string, int>, calls: seq<Call>)

  /** Lookups of several names, made in order against an evolving cache. */
  datatype Lookups = Lookups(handles: seq<int>, cache: map<string, int>, calls: seq<Call>)

  /** What `GetHandle(name)` does with `cache` against `program`. */
  function ResolveOne(gpu: Gpu, program: int, cache: map<string, int>, name: string): Lookup {
    if name in cache then Lookup(cache[name], cache, [])
    else
      var attrib := gpu.attribLocation(program, name);
      var handle := if attrib == -1 then gpu.uniformLocation(program, name) else attrib;
      Lookup(handle,
             if handle == -1 then cache else cache[name := handle],
             [GetAttribLocation(program, name)]
             + (if attrib == -1 then [GetUniformLocation(program, name)] else []))
  }

  /** What `GetHandles(names)` does: `ResolveOne` on each name, first to last. */
  function ResolveAll(gpu: Gpu, program: int, cache: map<string, int>, names: seq<string>): (r: Lookups)
    ensures |r.handles| == |names|
    decreases |names|
  {
    if names == [] then Lookups([], cache, [])
    else
      var front := ResolveAll(gpu, program, cache, names[..|names| - 1]);
      var last := ResolveOne(gpu, program, front.cache, names[|names| - 1]);
      Lookups(front.handles + [last.handle], last.cache, front.calls + last.calls)
  }

  /** Looking up one more name extends the lookups of the names before it. */
  lemma ResolveAllSnoc(gpu: Gpu, program: int, cache: map<string, int>, names: seq<string>, name: string)
    ensures ResolveAll(gpu, program, cache, names + [name]) ==
      var front := ResolveAll(gpu, program, cache, names);
      var last := ResolveOne(gpu, program, front.cache, name);
      Lookups(front.handles + [last.handle], last.cache, front.calls + last.calls)
  {
    assert (names + [name])[..|names|] == names;
  }

  /** The lookups of `names` made so far account for `handles`, the cache and the calls since `trace0`. */
  ghost predicate Tracks(gpu: Gpu, program: int, cache0: map<string, int>, names: seq<string>,
                         handles: seq<int>, cache: map<string, int>, trace: seq<Call>, trace0: seq<Call>)
  {
    var r := ResolveAll(gpu, program, cache0, names);
    handles == r.handles && cache == r.cache && trace == trace0 + r.calls
  }

  /** One more lookup keeps `Tracks`. */
  lemma TracksSnoc(gpu: Gpu, program: int, cache0: map<string, int>, names: seq<string>,
                   handles: seq<int>, cache: map<string, int>, trace: seq<Call>, trace0: seq<Call>, name: string)
    requires Tracks(gpu, program, cache0, names, handles, cache, trace, trace0)
    ensures var last := ResolveOne(gpu, program, cache, name);
      Tracks(gpu, program, cache0, names + [name], handles + [last.handle], last.cache, trace + last.calls, trace0)
  {
    ResolveAllSnoc(gpu, program, cache0, names, name);
  }

  /** Every cached location is a found location of its name in `owner`. */
  ghost predicate Coherent(gpu: Gpu, cache: map<string, int>, owner: int) {
    forall n :: n in cache ==> cache[n] != -1 && cache[n] == gpu.Location(owner, n)
  }

  /** The queries and caching rule of one lookup. */
  lemma ResolveOneFacts(gpu: Gpu, program: int, cache: map<string, int>, name: string)
    ensures var r := ResolveOne(gpu, program, cache, name);
      && (name in cache ==> r.handle == cache[name] && r.cache == cache && r.calls == [])
      && (name !in cache ==>
            && r.handle == gpu.Location(program, name)
            && r.calls[0] == GetAttribLocation(program, name)
            && (GetUniformLocation(program, name) in r.calls <==> gpu.attribLocation(program, name) == -1)
            && r.cache == if r.handle == -1 then cache else cache[name := r.handle])
  {
  }

  /**
   * Against a coherent cache, a lookup returns the name's location in the
   * program, and leaves the cache coherent and no smaller. A coherent cache of
   * another program stays coherent while the current handle is 0, since
   * program 0 has no locations.
   */
  lemma ResolveOneCoherent(gpu: Gpu, program: int, owner: int, cache: map<string, int>, name: string)
    requires Coherent(gpu, cache, owner)
    requires program == owner || (program == 0 && gpu.ProgramZeroEmpty())
    ensures var r := ResolveOne(gpu, program, cache, name);
      && Coherent(gpu, r.cache, owner)
      && cache.Keys <= r.cache.Keys
      && (program == owner ==> r.handle == gpu.Location(program, name))
  {
    if program != owner {
      assert gpu.Location(0, name) == -1;
    }
  }

  /** `GetHandles` returns one handle per name, each the name's location when the cache is coherent. */
  lemma {:induction false} ResolveAllCoherent(gpu: Gpu, program: int, cache: map<string, int>, names: seq<string>)
    requires Coherent(gpu, cache, program)
    ensures var r := ResolveAll(gpu, program, cache, names);
      && |r.handles| == |names|
      && Coherent(gpu, r.cache, program)
      && cache.Keys <= r.cache.Keys
      && forall i :: 0 <= i < |names| ==> r.handles[i] == gpu.Location(program, names[i])
    decreases |names|
  {
    if names != [] {
      var front := names[..|names| - 1];
      ResolveAllCoherent(gpu, program, cache, front);
      var f := ResolveAll(gpu, program, cache, front);
      ResolveOneCoherent(gpu, program, program, f.cache, names[|names| - 1]);
    }
  }

  /** What `SetProgram(vertexSource, fragmentSource)` completes with. */
  function SetProgramOutcome(gpu: Gpu, vertexSource: string, fragmentSource: string): Outcome {
    if gpu.outOfObjects then Pass
    else if !gpu.compiles(vertexSource) then Fail(gpu.compileLog(vertexSource))
    else if !gpu.compiles(fragmentSource) then Fail(gpu.compileLog(fragmentSource))
    else if !gpu.links(vertexSource, fragmentSource) then Fail(gpu.linkLog(vertexSource, fragmentSource))
    else Pass
  }

  /** The program, shader handles and location cache a `ShaderHelper` holds. */
  datatype Holder = Holder(program: int, vertex: int, fragment: int, cache: map<string, int>)

  /**
   * What `SetProgram(vertexSource, fragmentSource)` leaves in a holder that
   * held `h`, when the next free object name is `next`: the vertex shader gets
   * `next`, the fragment shader `next + 1` and the program `next + 2`.
   */
  function Installed(gpu: Gpu, h: Holder, next: int, vertexSource: string, fragmentSource: string): Holder {
    if gpu.outOfObjects then Holder(0, 0, 0, map[])
    else if !gpu.compiles(vertexSource) then h
    else if !gpu.compiles(fragmentSource) then h.(vertex := next)
    else if !gpu.links(vertexSource, fragmentSource) then Holder(0, 0, 0, h.cache)
    else Holder(next + 2, next, next + 1, map[])
  }

  /** The next free object name after `SetProgram`, from `next` before it. */
  function NextAfter(gpu: Gpu, next: int, vertexSource: string, fragmentSource: string): int {
    if gpu.outOfObjects then next
    else if !gpu.compiles(vertexSource) then next + 1
    else if !gpu.compiles(fragmentSource) then next + 2
    else next + 3
  }

  /** The live objects after `SetProgram` on a holder that held `h`, from `live` and `next` before it. */
  function LiveAfter(gpu: Gpu, live: Live, h: Holder, next: int, vertexSource: string, fragmentSource: string): Live {
    if gpu.outOfObjects || !gpu.compiles(vertexSource) then live
    else if !gpu.compiles(fragmentSource) then live.(shaders := live.shaders + {next})
    else if !gpu.links(vertexSource, fragmentSource) then live.(programs := (live.programs + {next + 2}) - {h.program})
    else live.(shaders := live.shaders + {next, next + 1}, programs := live.programs + {next + 2})
  }

  /**
   * A failed link leaves the new program alive but held by nobody, and keeps
   * the previous program's cache; a successful install deletes nothing.
   */
  lemma SetProgramLeaks(gpu: Gpu, live: Live, h: Holder, next: int, vertexSource: string, fragmentSource: string)
    requires next > h.program
    ensures var after := LiveAfter(gpu, live, h, next, vertexSource, fragmentSource);
      var held := Installed(gpu, h, next, vertexSource, fragmentSource);
      && (SetProgramOutcome(gpu, vertexSource, fragmentSource).Fail? && gpu.compiles(vertexSource)
            && gpu.compiles(fragmentSource) ==>
            next + 2 in after.programs && held.program == 0 && held.cache == h.cache
            && h.program !in after.programs)
      && (SetProgramOutcome(gpu, vertexSource, fragmentSource).Pass? ==>
            live.shaders <= after.shaders && live.programs <= after.programs
            && (!gpu.outOfObjects ==> held.program in after.programs && held.cache == map[]))
  {
  }

  /** A program fails to install exactly when one stage fails to compile or the two fail to link. */
  lemma SetProgramFailsWhen(gpu: Gpu, vertexSource: string, fragmentSource: string)
    ensures SetProgramOutcome(gpu, vertexSource, fragmentSource).Fail? <==>
              !gpu.outOfObjects &&
              (!gpu.compiles(vertexSource) || !gpu.compiles(fragmentSource) || !gpu.links(vertexSource, fragmentSource))
  {
  }

  class ShaderHelper {
    var program: int
    var shaderFragment: int
    var handleMap: map<string, int>
    var shaderVertex: int
    ghost var cacheOwner: int

    ghost predicate Valid(gpu: Gpu)
      reads this
    {
      Coherent(gpu, handleMap, cacheOwner) && (program == cacheOwner || program == 0) && gpu.ProgramZeroEmpty()
    }

    /** What this holder holds. */
    function Snapshot(): Holder
      reads this
    {
      Holder(program, shaderVertex, shaderFragment, handleMap)
    }

    constructor ()
      ensures program == 0 && shaderFragment == 0 && shaderVertex == 0 && handleMap == map[]
      ensures cacheOwner == 0
    {
      program, shaderFragment, shaderVertex := 0, 0, 0;
      handleMap := map[];
      cacheOwner := 0;
    }

    /** Deletes the fragment shader, the vertex shader and the program held, and zeroes the three. */
    method DeleteProgram(gpu: Gpu)
      requires gpu.Valid()
      modifies this`program, this`shaderVertex, this`shaderFragment, gpu`live, gpu`trace
      ensures gpu.Valid()
      ensures program == 0 && shaderVertex == 0 && shaderFragment == 0
      ensures gpu.live == old(gpu.live).(shaders := old(gpu.live.shaders) - {old(shaderFragment), old(shaderVertex)},
                                         programs := old(gpu.live.programs) - {old(program)})
      ensures gpu.trace == old(gpu.trace) + [DeleteShader(old(shaderFragment)), DeleteShader(old(shaderVertex)),
                                             Call.DeleteProgram(old(program))]
    {
      gpu.DeleteShader(shaderFragment);
      gpu.DeleteShader(shaderVertex);
      gpu.DeleteProgram(program);
      program, shaderVertex, shaderFragment := 0, 0, 0;
    }

    /** The location of `name`: cached, else the attribute, else the uniform; only found ones are cached. */
    method GetHandle(gpu: Gpu, name: string) returns (handle: int)
      requires Valid(gpu)
      modifies this`handleMap, gpu`trace
      ensures Valid(gpu)
      ensures var r := ResolveOne(gpu, program, old(handleMap), name);
        handle == r.handle && handleMap == r.cache && gpu.trace == old(gpu.trace) + r.calls
      ensures program == cacheOwner ==> handle == gpu.Location(program, name)
    {
      ResolveOneCoherent(gpu, program, cacheOwner, handleMap, name);
      if name in handleMap {
        return handleMap[name];
      }
      handle := gpu.GetAttribLocation(program, name);
      if handle == -1 {
        handle := gpu.GetUniformLocation(program, name);
      }
      if handle != -1 {
        handleMap := handleMap[name := handle];
      }
    }

    /** The handles of `names`, looked up in order. */
    method GetHandles(gpu: Gpu, names: array<string>) returns (res: array<int>)
      requires Valid(gpu)
      modifies this`handleMap, gpu`trace
      ensures Valid(gpu)
      ensures fresh(res) && res.Length == names.Length
      ensures var r := ResolveAll(gpu, program, old(handleMap), names[..]);
        res[..] == r.handles && handleMap == r.cache && gpu.trace == old(gpu.trace) + r.calls
      ensures program == cacheOwner ==> forall i :: 0 <= i < names.Length ==> res[i] == gpu.Location(program, names[i])
    {
      res := new int[names.Length];
      for i := 0 to names.Length
        invariant Valid(gpu)
        invariant Tracks(gpu, program, old(handleMap), names[..i], res[..i], handleMap, gpu.trace, old(gpu.trace))
      {
        TracksSnoc(gpu, program, old(handleMap), names[..i], res[..i], handleMap, gpu.trace, old(gpu.trace), names[i]);
        ghost var done := res[..i];
        res[i] := GetHandle(gpu, names[i]);
        assert names[..i + 1] == names[..i] + [names[i]];
        assert res[..i + 1] == done + [res[i]];
      }
      assert names[..names.Length] == names[..];
      assert res[..names.Length] == res[..];
      if program == cacheOwner {
        ResolveAllCoherent(gpu, program, old(handleMap), names[..]);
      }
    }

    /** Creates and compiles one shader; on a compile error deletes it and fails with the log. */
    method LoadShader(gpu: Gpu, kind: ShaderKind, source: string) returns (result: Result<int>)
      requires gpu.Valid()
      modifies gpu`nextId, gpu`live, gpu`trace, gpu`shaderSources
      ensures gpu.Valid()
      ensures gpu.outOfObjects ==>
        && result == Ok(0) && gpu.nextId == old(gpu.nextId) && gpu.live == old(gpu.live)
        && gpu.shaderSources == old(gpu.shaderSources)
        && gpu.trace == old(gpu.trace) + [CreateShader(kind, 0)]
      ensures !gpu.outOfObjects ==>
        var s := old(gpu.nextId);
        && gpu.nextId == s + 1
        && gpu.shaderSources == old(gpu.shaderSources)[s := source]
        && (gpu.compiles(source) ==>
              && result == Ok(s)
              && gpu.live == old(gpu.live).(shaders := old(gpu.live.shaders) + {s})
              && gpu.trace == old(gpu.trace) + [CreateShader(kind, s), ShaderSource(s, source), CompileShader(s)])
        && (!gpu.compiles(source) ==>
              && result == Err(gpu.compileLog(source))
              && gpu.live == old(gpu.live)
              && gpu.trace == old(gpu.trace) + [CreateShader(kind, s), ShaderSource(s, source), CompileShader(s),
                                                DeleteShader(s)])
    {
      var shader := gpu.CreateShader(kind);
      if shader != 0 {
        gpu.ShaderSource(shader, source);
        gpu.Issue(CompileShader(shader));
        if !gpu.CompileStatus(shader) {
          var error := gpu.ShaderInfoLog(shader);
          gpu.DeleteShader(shader);
          return Err(error);
        }
      }
      return Ok(shader);
    }

    /**
     * Compiles both stages and links them. The vertex handle is overwritten
     * before the fragment stage compiles; a link failure runs DeleteProgram on
     * the fields as they then are (old program, new shaders); success installs
     * the new program and empties the cache without deleting anything.
     */
    method SetProgram(gpu: Gpu, vertexSource: string, fragmentSource: string) returns (outcome: Outcome)
      requires gpu.Valid() && Valid(gpu)
      modifies this, gpu`nextId, gpu`live, gpu`trace, gpu`shaderSources, gpu`attached
      ensures gpu.Valid() && Valid(gpu)
      ensures outcome == SetProgramOutcome(gpu, vertexSource, fragmentSource)
      ensures Snapshot() == Installed(gpu, old(Snapshot()), old(gpu.nextId), vertexSource, fragmentSource)
      ensures gpu.nextId == NextAfter(gpu, old(gpu.nextId), vertexSource, fragmentSource)
      ensures gpu.live == LiveAfter(gpu, old(gpu.live), old(Snapshot()), old(gpu.nextId), vertexSource, fragmentSource)
    {
      outcome := CompileStages(gpu, vertexSource, fragmentSource);
      if outcome.Fail? {
        return;
      }
      outcome := LinkAndInstall(gpu, vertexSource, fragmentSource);
    }

    /**
     * The first half of SetProgram: compiles the vertex stage into
     * `shaderVertex`, then the fragment stage into `shaderFragment`, stopping
     * at the first compile error.
     */
    method CompileStages(gpu: Gpu, vertexSource: string, fragmentSource: string) returns (outcome: Outcome)
      requires gpu.Valid()
      modifies this`shaderVertex, this`shaderFragment, gpu`nextId, gpu`live, gpu`trace, gpu`shaderSources
      ensures gpu.Valid()
      ensures outcome == if !gpu.outOfObjects && gpu.compiles(vertexSource) && !gpu.compiles(fragmentSource)
                         then Fail(gpu.compileLog(fragmentSource))
                         else if !gpu.outOfObjects && !gpu.compiles(vertexSource) then Fail(gpu.compileLog(vertexSource))
                         else Pass
      ensures gpu.outOfObjects ==>
        shaderVertex == 0 && shaderFragment == 0 && gpu.live == old(gpu.live) && gpu.nextId == old(gpu.nextId)
      ensures !gpu.outOfObjects ==>
        var v, f := old(gpu.nextId), old(gpu.nextId) + 1;
        && (!gpu.compiles(vertexSource) ==>
              && shaderVertex == old(shaderVertex) && shaderFragment == old(shaderFragment)
              && gpu.live == old(gpu.live) && gpu.nextId == v + 1)
        && (gpu.compiles(vertexSource) ==>
              && shaderVertex == v && gpu.nextId == v + 2
              && (!gpu.compiles(fragmentSource) ==>
                    && shaderFragment == old(shaderFragment)
                    && gpu.live == old(gpu.live).(shaders := old(gpu.live.shaders) + {v}))
              && (gpu.compiles(fragmentSource) ==>
                    && shaderFragment == f
                    && gpu.live == old(gpu.live).(shaders := old(gpu.live.shaders) + {v, f})
                    && v in gpu.shaderSources && gpu.shaderSources[v] == vertexSource
                    && f in gpu.shaderSources && gpu.shaderSources[f] == fragmentSource))
    {
      var vertex := LoadShader(gpu, VertexShader, vertexSource);
      if vertex.Err? {
        return Fail(vertex.message);
      }
      shaderVertex := vertex.value;
      var fragment := LoadShader(gpu, FragmentShader, fragmentSource);
      if fragment.Err? {
        return Fail(fragment.message);
      }
      shaderFragment := fragment.value;
      return Pass;
    }

    /**
     * The second half of SetProgram, once both stages compiled: creates the
     * program, attaches the two shaders, links, and installs it or fails.
     */
    method LinkAndInstall(gpu: Gpu, ghost vertexSource: string, ghost fragmentSource: string)
      returns (outcome: Outcome)
      requires gpu.Valid() && Valid(gpu)
      requires gpu.outOfObjects ==> shaderVertex == 0 && shaderFragment == 0
      requires !gpu.outOfObjects ==>
        && 0 < shaderVertex < gpu.nextId && 0 < shaderFragment < gpu.nextId
        && shaderVertex in gpu.shaderSources && shaderFragment in gpu.shaderSources
        && gpu.shaderSources[shaderVertex] == vertexSource && gpu.shaderSources[shaderFragment] == fragmentSource
      modifies this, gpu`nextId, gpu`live, gpu`trace, gpu`attached
      ensures gpu.Valid() && Valid(gpu)
      ensures gpu.outOfObjects ==>
        && outcome == Pass && program == 0 && shaderVertex == old(shaderVertex) && shaderFragment == old(shaderFragment)
        && handleMap == map[] && gpu.live == old(gpu.live) && gpu.nextId == old(gpu.nextId)
      ensures !gpu.outOfObjects ==>
        var p := old(gpu.nextId);
        && gpu.nextId == p + 1
        && (!gpu.links(vertexSource, fragmentSource) ==>
              && outcome == Fail(gpu.linkLog(vertexSource, fragmentSource))
              && program == 0 && shaderVertex == 0 && shaderFragment == 0 && handleMap == old(handleMap)
              && gpu.live == old(gpu.live).(shaders := old(gpu.live.shaders) - {old(shaderFragment), old(shaderVertex)},
                                            programs := (old(gpu.live.programs) + {p}) - {old(program)}))
        && (gpu.links(vertexSource, fragmentSource) ==>
              && outcome == Pass
              && program == p && shaderVertex == old(shaderVertex) && shaderFragment == old(shaderFragment)
              && handleMap == map[]
              && gpu.live == old(gpu.live).(programs := old(gpu.live.programs) + {p}))
    {
      var newProgram := CreateAndLink(gpu, vertexSource, fragmentSource);
      if newProgram != 0 && !gpu.LinkStatus(newProgram) {
        var error := gpu.ProgramInfoLog(newProgram);
        DeleteProgram(gpu);
        return Fail(error);
      }
      program := newProgram;
      handleMap := map[];
      cacheOwner := newProgram;
      return Pass;
    }

    /** Creates a program, attaches the vertex then the fragment shader held, and links it. */
    method CreateAndLink(gpu: Gpu, ghost vertexSource: string, ghost fragmentSource: string) returns (newProgram: int)
      requires gpu.Valid()
      requires gpu.outOfObjects ==> shaderVertex == 0 && shaderFragment == 0
      requires !gpu.outOfObjects ==>
        && 0 < shaderVertex < gpu.nextId && 0 < shaderFragment < gpu.nextId
        && shaderVertex in gpu.shaderSources && shaderFragment in gpu.shaderSources
        && gpu.shaderSources[shaderVertex] == vertexSource && gpu.shaderSources[shaderFragment] == fragmentSource
      modifies gpu`nextId, gpu`live, gpu`trace, gpu`attached
      ensures gpu.Valid()
      ensures gpu.outOfObjects ==>
        && newProgram == 0 && gpu.nextId == old(gpu.nextId) && gpu.live == old(gpu.live)
        && gpu.attached == old(gpu.attached) && gpu.trace == old(gpu.trace) + [CreateProgram(0)]
      ensures !gpu.outOfObjects ==>
        && newProgram == old(gpu.nextId) && gpu.nextId == newProgram + 1
        && gpu.live == old(gpu.live).(programs := old(gpu.live.programs) + {newProgram})
        && gpu.attached == old(gpu.attached)[newProgram := [shaderVertex, shaderFragment]]
        && gpu.AttachedSources(newProgram) == Pair(vertexSource, fragmentSource)
        && gpu.trace == old(gpu.trace) + [CreateProgram(newProgram), AttachShader(newProgram, shaderVertex),
                                          AttachShader(newProgram, shaderFragment), LinkProgram(newProgram)]
    {
      newProgram := gpu.CreateProgram();
      if newProgram != 0 {
        assert newProgram !in gpu.attached;
        gpu.AttachShader(newProgram, shaderVertex);
        assert gpu.attached[newProgram] == [shaderVertex];
        gpu.AttachShader(newProgram, shaderFragment);
        assert gpu.attached[newProgram] == [shaderVertex, shaderFragment];
        gpu.Issue(LinkProgram(newProgram));
      }
    }

    /** Makes this program current. */
    method UseProgram(gpu: Gpu)
      modifies gpu`currentProgram, gpu`trace
      ensures gpu.currentProgram == program
      ensures gpu.trace == old(gpu.trace) + [Call.UseProgram(program)]
    {
      gpu.UseProgram(program);
    }
  }
}
