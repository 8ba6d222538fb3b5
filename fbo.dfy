/**
 * FboHelper: one framebuffer object and the textures rendered into it.
 *
 * The holder is either empty (framebuffer -1, no textures, size 0x0) or
 * holds what its last `Init` allocated. `Init` always releases what is held
 * first, so repeated initialisation never leaks.
 */
module Fbo {
  import opened Gles

  function TargetFor(textureExternalOes: bool): Target {
    if textureExternalOes then TextureExternalOes else Texture2D
  }

  /** The calls that configure one texture, in the order the init loop makes them. */
  function TextureCalls(texture: int, target: Target, width: int, height: int): seq<Call> {
    [ BindTexture(target, texture),
      TexParameter(Texture2D, WrapS, ClampToEdge),
      TexParameter(target, WrapT, ClampToEdge),
      TexParameter(target, MinFilter, Nearest),
      TexParameter(target, MagFilter, Linear) ]
    + (if target == Texture2D then [TexImage2D(width, height)] else [])
  }

  /** Number of calls `TextureCalls` makes per texture on `target`. */
  function PerTexture(target: Target): nat {
    if target == Texture2D then 6 else 5
  }

  /** The calls that configure `textures`, first to last. */
  function TextureSetup(textures: seq<int>, target: Target, width: int, height: int): seq<Call>
    decreases |textures|
  {
    if textures == [] then []
    else TextureSetup(textures[..|textures| - 1], target, width, height)
         + TextureCalls(textures[|textures| - 1], target, width, height)
  }

  /** The calls `Reset` makes: delete the held framebuffer, then the held textures. */
  function ReleaseCalls(framebuffer: int, textures: seq<int>): seq<Call> {
    [DeleteFramebuffers([framebuffer]), DeleteTextures(textures)]
  }

  /** The calls `Init` makes, given what was held and what is allocated. */
  function InitCalls(oldFramebuffer: int, oldTextures: seq<int>, framebuffer: int, textures: seq<int>,
                     width: int, height: int, textureExternalOes: bool): seq<Call>
  {
    ReleaseCalls(oldFramebuffer, oldTextures)
    + AllocateCalls(framebuffer, textures, width, height, textureExternalOes)
  }

  /** The calls `Init` makes after releasing: generate and bind the framebuffer, generate and configure the textures. */
  function AllocateCalls(framebuffer: int, textures: seq<int>, width: int, height: int, textureExternalOes: bool)
    : seq<Call>
  {
    [GenFramebuffers([framebuffer]), BindFramebuffer(framebuffer), GenTextures(textures)]
    + TextureSetup(textures, TargetFor(textureExternalOes), width, height)
  }

  lemma AllocateRegrouped(t: seq<Call>, framebuffer: int, textures: seq<int>, setup: seq<Call>)
    ensures t + [GenFramebuffers([framebuffer])] + [BindFramebuffer(framebuffer)] + [GenTextures(textures)] + setup
            == t + ([GenFramebuffers([framebuffer]), BindFramebuffer(framebuffer), GenTextures(textures)] + setup)
  {
  }

  /** Number of storage allocations (TexImage2D) of the given size among `calls`. */
  function StorageCount(calls: seq<Call>, width: int, height: int): nat
    decreases |calls|
  {
    if calls == [] then 0
    else StorageCount(calls[..|calls| - 1], width, height)
         + (if calls[|calls| - 1] == TexImage2D(width, height) then 1 else 0)
  }

  lemma {:induction false} StorageCountAppend(a: seq<Call>, b: seq<Call>, width: int, height: int)
    ensures StorageCount(a + b, width, height) == StorageCount(a, width, height) + StorageCount(b, width, height)
    decreases |b|
  {
    if b == [] {
      assert a + b == a;
    } else {
      assert (a + b)[..|a + b| - 1] == a + b[..|b| - 1];
      StorageCountAppend(a, b[..|b| - 1], width, height);
    }
  }

  lemma {:induction false} NoStorage(calls: seq<Call>, width: int, height: int)
    requires forall i :: 0 <= i < |calls| ==> !calls[i].TexImage2D?
    ensures StorageCount(calls, width, height) == 0
    decreases |calls|
  {
    if calls != [] {
      NoStorage(calls[..|calls| - 1], width, height);
    }
  }

  /** One texture's configuration allocates storage once on GL_TEXTURE_2D and never on the external target. */
  lemma TextureCallsStorage(texture: int, target: Target, width: int, height: int)
    ensures StorageCount(TextureCalls(texture, target, width, height), width, height)
            == if target == Texture2D then 1 else 0
  {
    var config := TextureCalls(texture, target, width, height)[..5];
    NoStorage(config, width, height);
    if target == Texture2D {
      StorageCountAppend(config, [TexImage2D(width, height)], width, height);
      assert [TexImage2D(width, height)][..0] == [];
      assert TextureCalls(texture, target, width, height) == config + [TexImage2D(width, height)];
    } else {
      assert TextureCalls(texture, target, width, height) == config;
    }
  }

  /** Each texture gets width x height storage exactly when the target is GL_TEXTURE_2D. */
  lemma {:induction false} StorageOnlyForInternal(textures: seq<int>, target: Target, width: int, height: int)
    ensures StorageCount(TextureSetup(textures, target, width, height), width, height)
            == if target == Texture2D then |textures| else 0
    decreases |textures|
  {
    if textures != [] {
      var front := textures[..|textures| - 1];
      var last := textures[|textures| - 1];
      StorageOnlyForInternal(front, target, width, height);
      StorageCountAppend(TextureSetup(front, target, width, height),
                         TextureCalls(last, target, width, height), width, height);
      TextureCallsStorage(last, target, width, height);
    }
  }

  /** On the external target no storage of any size is allocated: the setup holds no TexImage2D at all. */
  lemma {:induction false} ExternalHasNoStorage(textures: seq<int>, width: int, height: int)
    ensures forall c :: c in TextureSetup(textures, TextureExternalOes, width, height) ==> !c.TexImage2D?
    decreases |textures|
  {
    if textures != [] {
      var front := textures[..|textures| - 1];
      var t := textures[|textures| - 1];
      ExternalHasNoStorage(front, width, height);
      assert TextureCalls(t, TextureExternalOes, width, height)
             == [BindTexture(TextureExternalOes, t), TexParameter(Texture2D, WrapS, ClampToEdge),
                 TexParameter(TextureExternalOes, WrapT, ClampToEdge),
                 TexParameter(TextureExternalOes, MinFilter, Nearest),
                 TexParameter(TextureExternalOes, MagFilter, Linear)];
    }
  }

  /** The setup is `PerTexture` calls per texture. */
  lemma {:induction false} SetupLength(textures: seq<int>, target: Target, width: int, height: int)
    ensures |TextureSetup(textures, target, width, height)| == PerTexture(target) * |textures|
    decreases |textures|
  {
    if textures != [] {
      var n := |textures|;
      SetupLength(textures[..n - 1], target, width, height);
      assert PerTexture(target) * n == PerTexture(target) * (n - 1) + PerTexture(target);
    }
  }

  lemma SliceOfFront(a: seq<Call>, b: seq<Call>, lo: int, hi: int)
    requires 0 <= lo <= hi <= |a|
    ensures (a + b)[lo..hi] == a[lo..hi]
  {
    assert forall j :: 0 <= j < hi - lo ==> (a + b)[lo..hi][j] == a[lo..hi][j];
  }

  lemma SliceOfBack(a: seq<Call>, b: seq<Call>)
    ensures (a + b)[|a|..|a| + |b|] == b
  {
    assert forall j :: 0 <= j < |b| ==> (a + b)[|a|..|a| + |b|][j] == b[j];
  }

  /** The setup is one block of `PerTexture` calls per texture, in array order. */
  lemma {:induction false} SetupBlocks(textures: seq<int>, target: Target, width: int, height: int, i: nat)
    requires i < |textures|
    ensures |TextureSetup(textures, target, width, height)| == PerTexture(target) * |textures|
    ensures TextureSetup(textures, target, width, height)[PerTexture(target) * i .. PerTexture(target) * (i + 1)]
            == TextureCalls(textures[i], target, width, height)
    decreases |textures|
  {
    var k := PerTexture(target);
    var n := |textures|;
    var front := textures[..n - 1];
    var frontSetup := TextureSetup(front, target, width, height);
    var last := TextureCalls(textures[n - 1], target, width, height);
    SetupLength(textures, target, width, height);
    SetupLength(front, target, width, height);
    assert TextureSetup(textures, target, width, height) == frontSetup + last;
    assert k * (i + 1) == k * i + k;
    if i < n - 1 {
      SetupBlocks(front, target, width, height, i);
      assert k * (n - 1) == k * (i + 1) + k * (n - 2 - i);
      SliceOfFront(frontSetup, last, k * i, k * (i + 1));
    } else {
      SliceOfBack(frontSetup, last);
    }
  }

  /** Wrap-S is always set on GL_TEXTURE_2D, whatever the textures' own target. */
  lemma {:induction false} WrapSOnTexture2D(textures: seq<int>, target: Target, width: int, height: int)
    ensures forall c :: c in TextureSetup(textures, target, width, height) && c.TexParameter? && c.param == WrapS
                        ==> c.target == Texture2D
    ensures forall c :: c in TextureSetup(textures, target, width, height) && c.TexParameter? && c.param != WrapS
                        ==> c.target == target
    decreases |textures|
  {
    if textures != [] {
      WrapSOnTexture2D(textures[..|textures| - 1], target, width, height);
    }
  }

  /** The init loop: configure each texture of `handles` on `target`, in order. */
  method SetupTextures(gpu: Gpu, handles: array<int>, target: Target, width: int, height: int)
    modifies gpu`trace
    ensures gpu.trace == old(gpu.trace) + TextureSetup(handles[..], target, width, height)
  {
    for i := 0 to handles.Length
      invariant gpu.trace == old(gpu.trace) + TextureSetup(handles[..i], target, width, height)
    {
      ConfigureTexture(gpu, handles[i], target, width, height);
      assert handles[..i + 1][..i] == handles[..i];
    }
    assert handles[..handles.Length] == handles[..];
  }

  /** One pass of the init loop: bind `texture`, set its wrapping and filtering, and give it storage on GL_TEXTURE_2D. */
  method ConfigureTexture(gpu: Gpu, texture: int, target: Target, width: int, height: int)
    modifies gpu`trace
    ensures gpu.trace == old(gpu.trace) + TextureCalls(texture, target, width, height)
  {
    gpu.Issue(Call.BindTexture(target, texture));
    gpu.Issue(TexParameter(Texture2D, WrapS, ClampToEdge));
    gpu.Issue(TexParameter(target, WrapT, ClampToEdge));
    gpu.Issue(TexParameter(target, MinFilter, Nearest));
    gpu.Issue(TexParameter(target, MagFilter, Linear));
    if target == Texture2D {
      gpu.Issue(TexImage2D(width, height));
    }
  }

  class FboHelper {
    var frameBufferHandle: int
    var textureHandles: array<int>
    var width: int
    var height: int

    /** The empty state: what a new holder starts in and what `Reset` returns to. */
    ghost predicate IsReset()
      reads this
    {
      frameBufferHandle == -1 && textureHandles.Length == 0 && width == 0 && height == 0
    }

    constructor ()
      ensures IsReset() && fresh(textureHandles)
    {
      frameBufferHandle := -1;
      textureHandles := new int[0];
      width, height := 0, 0;
    }

    /** Binds this framebuffer and fits the viewport to it. */
    method Bind(gpu: Gpu)
      modifies gpu`boundFramebuffer, gpu`viewport, gpu`trace
      ensures gpu.boundFramebuffer == frameBufferHandle
      ensures gpu.viewport == Rect(0, 0, width, height)
      ensures gpu.trace == old(gpu.trace) + [BindFramebuffer(frameBufferHandle), Viewport(Rect(0, 0, width, height))]
    {
      gpu.BindFramebuffer(frameBufferHandle);
      gpu.Viewport(0, 0, width, height);
    }

    /** Attaches texture `index` as colour attachment 0 of the bound framebuffer. */
    method BindTexture(gpu: Gpu, index: int)
      requires 0 <= index < textureHandles.Length
      modifies gpu`trace
      ensures gpu.trace == old(gpu.trace) + [FramebufferTexture2D(textureHandles[index])]
    {
      gpu.Issue(FramebufferTexture2D(textureHandles[index]));
    }

    /** The name of texture `index`. */
    function GetTexture(index: int): (texture: int)
      requires 0 <= index < textureHandles.Length
      reads this, textureHandles
      ensures texture in textureHandles[..]
    {
      textureHandles[index]
    }

    /** Releases what is held and returns to the empty state. */
    method Reset(gpu: Gpu)
      requires gpu.Valid()
      modifies this, gpu`live, gpu`trace
      ensures gpu.Valid()
      ensures IsReset() && fresh(textureHandles)
      ensures gpu.live == old(gpu.live).(framebuffers := old(gpu.live.framebuffers) - {old(frameBufferHandle)},
                                         textures := old(gpu.live.textures) - Elems(old(textureHandles[..])))
      ensures gpu.trace == old(gpu.trace) + ReleaseCalls(old(frameBufferHandle), old(textureHandles[..]))
    {
      gpu.DeleteFramebuffers([frameBufferHandle]);
      gpu.DeleteTextures(textureHandles[..]);
      assert forall y :: y in Elems([frameBufferHandle]) <==> y == frameBufferHandle;
      frameBufferHandle := -1;
      textureHandles := new int[0];
      width, height := 0, 0;
    }

    /**
     * Releases what is held, then allocates one framebuffer (left bound) and
     * `textureCount` textures of this size; storage only when not external.
     */
    method Init(gpu: Gpu, width: int, height: int, textureCount: int, textureExternalOes: bool)
      requires gpu.Valid() && textureCount >= 0
      modifies this, gpu`nextId, gpu`live, gpu`trace, gpu`boundFramebuffer
      ensures gpu.Valid()
      ensures this.width == width && this.height == height
      ensures fresh(textureHandles) && textureHandles.Length == textureCount
      ensures frameBufferHandle == old(gpu.nextId) && frameBufferHandle !in old(gpu.live.framebuffers)
      ensures forall i :: 0 <= i < textureCount ==>
                textureHandles[i] == old(gpu.nextId) + 1 + i && textureHandles[i] !in old(gpu.live.textures)
      ensures gpu.nextId == old(gpu.nextId) + 1 + textureCount
      ensures gpu.boundFramebuffer == frameBufferHandle
      ensures gpu.live == old(gpu.live).(
                framebuffers := old(gpu.live.framebuffers) - {old(frameBufferHandle)} + {frameBufferHandle},
                textures := old(gpu.live.textures) - Elems(old(textureHandles[..])) + Elems(textureHandles[..]))
      ensures gpu.trace == old(gpu.trace) + InitCalls(old(frameBufferHandle), old(textureHandles[..]),
                                                       frameBufferHandle, textureHandles[..],
                                                       width, height, textureExternalOes)
    {
      Reset(gpu);
      Allocate(gpu, width, height, textureCount, textureExternalOes);
      Associates(old(gpu.trace), ReleaseCalls(old(frameBufferHandle), old(textureHandles[..])),
                       AllocateCalls(frameBufferHandle, textureHandles[..], width, height, textureExternalOes));
    }

    /** The allocating half of `Init`: a fresh framebuffer, left bound, and `textureCount` fresh textures. */
    method Allocate(gpu: Gpu, width: int, height: int, textureCount: int, textureExternalOes: bool)
      requires gpu.Valid() && textureCount >= 0
      modifies this, gpu`nextId, gpu`live, gpu`trace, gpu`boundFramebuffer
      ensures gpu.Valid()
      ensures this.width == width && this.height == height
      ensures fresh(textureHandles) && textureHandles.Length == textureCount
      ensures frameBufferHandle == old(gpu.nextId) && frameBufferHandle !in old(gpu.live.framebuffers)
      ensures forall i :: 0 <= i < textureCount ==>
                textureHandles[i] == old(gpu.nextId) + 1 + i && textureHandles[i] !in old(gpu.live.textures)
      ensures gpu.nextId == old(gpu.nextId) + 1 + textureCount
      ensures gpu.boundFramebuffer == frameBufferHandle
      ensures gpu.live == old(gpu.live).(framebuffers := old(gpu.live.framebuffers) + {frameBufferHandle},
                                         textures := old(gpu.live.textures) + Elems(textureHandles[..]))
      ensures gpu.trace == old(gpu.trace)
        + AllocateCalls(frameBufferHandle, textureHandles[..], width, height, textureExternalOes)
    {
      this.width := width;
      this.height := height;
      var fb := gpu.GenFramebuffer();
      frameBufferHandle := fb;
      gpu.BindFramebuffer(frameBufferHandle);
      textureHandles := AllocateTextures(gpu, textureCount, TargetFor(textureExternalOes), width, height);
      AllocateRegrouped(old(gpu.trace), fb, textureHandles[..],
                        TextureSetup(textureHandles[..], TargetFor(textureExternalOes), width, height));
    }
  }

  /** The texture half of the init: `count` fresh textures, each configured on `target`. */
  method AllocateTextures(gpu: Gpu, count: int, target: Target, width: int, height: int) returns (handles: array<int>)
    requires gpu.Valid() && count >= 0
    modifies gpu`nextId, gpu`live, gpu`trace
    ensures gpu.Valid()
    ensures fresh(handles) && handles.Length == count
    ensures forall i :: 0 <= i < count ==> handles[i] == old(gpu.nextId) + i && handles[i] !in old(gpu.live.textures)
    ensures gpu.nextId == old(gpu.nextId) + count
    ensures gpu.live == old(gpu.live).(textures := old(gpu.live.textures) + Elems(handles[..]))
    ensures gpu.trace == old(gpu.trace) + [GenTextures(handles[..])] + TextureSetup(handles[..], target, width, height)
  {
    handles := new int[count];
    gpu.GenTextures(handles);
    SetupTextures(gpu, handles, target, width, height);
  }

  /** Initialising twice releases everything the first call allocated. */
  method InitTwice(fbo: FboHelper, gpu: Gpu, width: int, height: int, textureCount: int, textureExternalOes: bool)
    requires gpu.Valid() && textureCount >= 0
    modifies fbo, gpu`nextId, gpu`live, gpu`trace, gpu`boundFramebuffer
    ensures gpu.Valid()
    ensures gpu.live.framebuffers == old(gpu.live.framebuffers) - {old(fbo.frameBufferHandle)} + {fbo.frameBufferHandle}
    ensures gpu.live.textures == old(gpu.live.textures) - Elems(old(fbo.textureHandles[..])) + Elems(fbo.textureHandles[..])
  {
    fbo.Init(gpu, width, height, textureCount, textureExternalOes);
    ghost var first := fbo.frameBufferHandle;
    ghost var firstTextures := fbo.textureHandles[..];
    fbo.Init(gpu, width, height, textureCount, textureExternalOes);
    assert first !in old(gpu.live.framebuffers) && first != fbo.frameBufferHandle;
    forall t | t in firstTextures ensures t !in old(gpu.live.textures) && t !in fbo.textureHandles[..] {
      var i :| 0 <= i < |firstTextures| && firstTextures[i] == t;
    }
  }
}
