/**
 * The OpenGL video widget: the textures it holds for the current frame,
 * the scale that letterboxes the video into the window, and what a repaint
 * draws. GPU textures are objects known only by identity; a ghost log of
 * texture creations and destructions shows that none is leaked.
 */
module Render {
  import opened Wrappers
  import opened Frames

  /** The pixel formats the widget accepts. */
  datatype PixelFormat = YUV420P | RGB24 | BGR24

  /** The internal format a texture is allocated with. */
  datatype TexFormat = RGB8 | R8

  /** The channel order of the bytes uploaded into a texture. */
  datatype Upload = UploadRGB | UploadBGR | UploadRed

  /** A GPU texture: its size, format, the order of the uploaded bytes, and the array they came from. */
  class Texture {
    const width: int
    const height: int
    const format: TexFormat
    const upload: Upload
    const source: Image

    constructor (width: int, height: int, format: TexFormat, upload: Upload, source: Image)
      ensures this.width == width && this.height == height && this.format == format
      ensures this.upload == upload && this.source == source
    {
      this.width := width;
      this.height := height;
      this.format := format;
      this.upload := upload;
      this.source := source;
    }
  }

  /** One texture call on the GL context. */
  datatype GlEvent = Create(created: Texture) | Destroy(destroyed: Texture)

  /** The textures alive after a sequence of GL events. */
  ghost function Live(gl: seq<GlEvent>): set<Texture>
  {
    if gl == [] then {}
    else
      var init := gl[..|gl| - 1];
      match gl[|gl| - 1]
      case Create(t) => Live(init) + {t}
      case Destroy(t) => Live(init) - {t}
  }

  /** The destructions of the held textures, in the order Y, U, V. */
  ghost function Destroys(held: seq<Option<Texture>>): seq<GlEvent>
  {
    if held == [] then []
    else
      Destroys(held[..|held| - 1]) + DestroyOf(held[|held| - 1])
  }

  ghost function DestroyOf(t: Option<Texture>): seq<GlEvent>
  {
    if t.Some? then [Destroy(t.value)] else []
  }

  /** The creations of the held textures, in the order Y, U, V. */
  ghost function Creates(held: seq<Option<Texture>>): seq<GlEvent>
  {
    if held == [] then [] else Creates(held[..|held| - 1]) + CreateOf(held[|held| - 1])
  }

  ghost function CreateOf(t: Option<Texture>): seq<GlEvent>
  {
    if t.Some? then [Create(t.value)] else []
  }

  ghost function SetOf(t: Option<Texture>): set<Texture>
  {
    if t.Some? then {t.value} else {}
  }

  lemma CreatesOfThree(y: Option<Texture>, u: Option<Texture>, v: Option<Texture>)
    ensures Creates([y, u, v]) == CreateOf(y) + CreateOf(u) + CreateOf(v)
  {
    assert [y, u, v][..2] == [y, u];
    assert [y, u][..1] == [y];
    assert [y][..0] == [];
    assert Creates([y]) == CreateOf(y);
  }

  lemma PresentOfThree(y: Option<Texture>, u: Option<Texture>, v: Option<Texture>)
    ensures Present([y, u, v]) == SetOf(y) + SetOf(u) + SetOf(v)
  {
    var held := [y, u, v];
    forall t ensures t in Present(held) <==> t in SetOf(y) + SetOf(u) + SetOf(v) {
      if t in SetOf(y) { assert held[0] == y; }
      if t in SetOf(u) { assert held[1] == u; }
      if t in SetOf(v) { assert held[2] == v; }
    }
  }

  /** The set of textures present among some optional ones. */
  ghost function Present(held: seq<Option<Texture>>): set<Texture>
  {
    set i | 0 <= i < |held| && held[i].Some? :: held[i].value
  }

  lemma DestroysStep(held: seq<Option<Texture>>, i: nat)
    requires i < |held|
    ensures Destroys(held[..i + 1]) == Destroys(held[..i]) + DestroyOf(held[i])
  {
    assert held[..i + 1][..i] == held[..i];
  }

  /** Destroying every held texture in turn removes exactly the held ones from the live set. */
  lemma {:induction false} LiveAfterDestroys(gl: seq<GlEvent>, held: seq<Option<Texture>>)
    ensures Live(gl + Destroys(held)) == Live(gl) - Present(held)
  {
    if held == [] {
      assert gl + [] == gl;
    } else {
      var init, last := held[..|held| - 1], held[|held| - 1];
      LiveAfterDestroys(gl, init);
      AppendDestroys(gl, held);
      LiveAfterDestroyOf(gl + Destroys(init), last);
      PresentSnoc(held);
      SubtractInTurn(Live(gl), Present(init), SetOf(last));
    }
  }

  lemma AppendDestroys(gl: seq<GlEvent>, held: seq<Option<Texture>>)
    requires held != []
    ensures gl + Destroys(held) == (gl + Destroys(held[..|held| - 1])) + DestroyOf(held[|held| - 1])
  {
  }

  lemma SubtractInTurn<T>(a: set<T>, p: set<T>, q: set<T>)
    ensures (a - p) - q == a - (p + q)
  {
  }

  lemma LiveAfterDestroyOf(gl: seq<GlEvent>, t: Option<Texture>)
    ensures Live(gl + DestroyOf(t)) == Live(gl) - SetOf(t)
  {
    if t.Some? {
      LiveAfterDestroy(gl, t.value);
    } else {
      assert gl + [] == gl;
    }
  }

  lemma PresentSnoc(held: seq<Option<Texture>>)
    requires held != []
    ensures Present(held) == Present(held[..|held| - 1]) + SetOf(held[|held| - 1])
  {
    var init := held[..|held| - 1];
    forall t ensures t in Present(held) ==> t in Present(init) + SetOf(held[|held| - 1]) {
      if t in Present(held) {
        var i :| 0 <= i < |held| && held[i].Some? && held[i].value == t;
        if i < |init| {
          assert init[i] == held[i];
        }
      }
    }
    forall t ensures t in Present(init) ==> t in Present(held) {
      if t in Present(init) {
        var i :| 0 <= i < |init| && init[i].Some? && init[i].value == t;
        assert held[i] == init[i];
      }
    }
  }

  lemma LiveAfterDestroy(gl: seq<GlEvent>, t: Texture)
    ensures Live(gl + [Destroy(t)]) == Live(gl) - {t}
  {
    assert (gl + [Destroy(t)])[..|gl|] == gl;
  }

  lemma LiveAfterCreate(gl: seq<GlEvent>, t: Texture)
    ensures Live(gl + [Create(t)]) == Live(gl) + {t}
  {
    assert (gl + [Create(t)])[..|gl|] == gl;
  }

  /** Creating one texture on an empty GPU makes the log and the live set those of a held Y texture. */
  lemma OneCreated(before: seq<GlEvent>, t: Texture)
    requires Live(before) == {}
    ensures Live(before + [Create(t)]) == Present([Some(t), None, None])
    ensures before + [Create(t)] == before + Creates([Some(t), None, None])
  {
    LiveAfterCreate(before, t);
    PresentOfThree(Some(t), None, None);
    CreatesOfThree(Some(t), None, None);
  }

  /** Creating the Y, U and V textures on an empty GPU makes the log and the live set those of the three held textures. */
  lemma ThreeCreated(before: seq<GlEvent>, ty: Texture, tu: Texture, tv: Texture)
    requires Live(before) == {}
    ensures Live(before + [Create(ty), Create(tu), Create(tv)]) == Present([Some(ty), Some(tu), Some(tv)])
    ensures before + [Create(ty), Create(tu), Create(tv)] == before + Creates([Some(ty), Some(tu), Some(tv)])
  {
    ThreeLive(before, ty, tu, tv);
    PresentOfThree(Some(ty), Some(tu), Some(tv));
    CreatesOfThree(Some(ty), Some(tu), Some(tv));
  }

  lemma ThreeLive(before: seq<GlEvent>, ty: Texture, tu: Texture, tv: Texture)
    ensures Live(before + [Create(ty), Create(tu), Create(tv)]) == Live(before) + {ty, tu, tv}
  {
    var g1 := before + [Create(ty)];
    var g2 := g1 + [Create(tu)];
    LiveAfterCreate(before, ty);
    LiveAfterCreate(g1, tu);
    LiveAfterCreate(g2, tv);
    assert g2 + [Create(tv)] == before + [Create(ty), Create(tu), Create(tv)];
  }

  // ---------------------------------------------------------------------------
  // Aspect ratio

  /** The result of `updateAspectRatio`: the two scales, or the ZeroDivisionError of a window of height 0. */
  datatype Scaling = Scale(x: real, y: real) | DivByZero

  /**
   * `updateAspectRatio` for a window of `winW` by `winH` and a video of
   * `vidW` by `vidH`: the side along which the window is relatively
   * longer is shrunk so the picture keeps the video's proportions.
   */
  function Scales(winW: nat, winH: nat, vidW: int, vidH: int): Scaling
  {
    if vidW <= 0 || vidH <= 0 then Scale(1.0, 1.0)
    else if winH == 0 then DivByZero
    else
      var windowAspect := winW as real / winH as real;
      var videoAspect := vidW as real / vidH as real;
      if windowAspect > videoAspect then Scale(videoAspect / windowAspect, 1.0)
      else Scale(1.0, windowAspect / videoAspect)
  }

  lemma QuotientTimesDivisor(a: real, b: real)
    requires b != 0.0
    ensures (a / b) * b == a
  {
  }

  lemma QuotientInUnit(a: real, b: real)
    requires 0.0 <= a <= b && b > 0.0
    ensures 0.0 <= a / b <= 1.0
    ensures a > 0.0 ==> a / b > 0.0
  {
    QuotientTimesDivisor(a, b);
  }

  /**
   * Scales never exceed 1, one of them is exactly 1, and the picture shown
   * (`x * winW` by `y * winH`) has the video's aspect ratio; both are
   * positive whenever the window has a width.
   */
  lemma ScalesLetterbox(winW: nat, winH: nat, vidW: int, vidH: int)
    requires vidW > 0 && vidH > 0 && winH > 0
    ensures Scales(winW, winH, vidW, vidH).Scale?
    ensures var s := Scales(winW, winH, vidW, vidH);
      && 0.0 <= s.x <= 1.0 && 0.0 <= s.y <= 1.0
      && (s.x == 1.0 || s.y == 1.0)
      && s.x * (winW as real / winH as real) == s.y * (vidW as real / vidH as real)
      && (winW > 0 ==> s.x > 0.0 && s.y > 0.0)
  {
    var wa := winW as real / winH as real;
    var va := vidW as real / vidH as real;
    assert wa >= 0.0 && va > 0.0;
    assert winW > 0 ==> wa > 0.0;
    if wa > va {
      QuotientTimesDivisor(va, wa);
      QuotientInUnit(va, wa);
    } else {
      QuotientTimesDivisor(wa, va);
      QuotientInUnit(wa, va);
    }
  }

  /** A video with a non-positive side is never scaled. */
  lemma UnscaledWithoutVideo(winW: nat, winH: nat, vidW: int, vidH: int)
    requires vidW <= 0 || vidH <= 0
    ensures Scales(winW, winH, vidW, vidH) == Scale(1.0, 1.0)
  {
  }

  /** A window twice as wide as the video's proportions shows it at half the width. */
  lemma WideWindowHalvesWidth()
    ensures Scales(1280, 360, 640, 360) == Scale(0.5, 1.0)
  {
    assert (1280 as real) / (360 as real) > (640 as real) / (360 as real);
    assert ((640 as real) / (360 as real)) / ((1280 as real) / (360 as real)) == 0.5;
  }

  // ---------------------------------------------------------------------------
  // Validating the buffer

  /** One element of the list handed in for YUV420P: a numpy array, or anything else. */
  datatype Plane = Arr(image: Image) | NotArray

  /** The `buffer` argument: an ndarray, a list, or any other Python value. */
  datatype Buffer = NdArray(image: Image) | PlaneList(planes: seq<Plane>) | OtherBuffer

  /** How the buffer checks end: accepted, or the exception they raise. */
  datatype Check = Accepted | ValueErr | AttributeErr

  /** The RGB/BGR check: an ndarray with three dimensions, the last of which is 3. */
  function RgbCheck(buffer: Buffer): (r: Check)
    ensures r == Accepted <==> buffer.NdArray? && |buffer.image.shape| == 3 && buffer.image.shape[2] == 3
    ensures r != AttributeErr
  {
    if buffer.NdArray? && |buffer.image.shape| == 3 && buffer.image.shape[2] == 3 then Accepted else ValueErr
  }

  /** `P.shape != shape` for one plane; `.shape` on something that is not an array raises AttributeError. */
  function PlaneCheck(p: Plane, shape: seq<int>): (r: Check)
    ensures r == Accepted <==> p.Arr? && p.image.shape == shape
    ensures r == AttributeErr <==> p.NotArray?
  {
    if p.NotArray? then AttributeErr
    else if p.image.shape != shape then ValueErr
    else Accepted
  }

  /** The YUV420P check: a list of three planes of shapes (h, w), (h // 2, w // 2), (h // 2, w // 2), checked in that order. */
  function YuvCheck(buffer: Buffer, width: int, height: int): (r: Check)
    requires width > 0 && height > 0
    ensures r == Accepted <==>
      && buffer.PlaneList? && |buffer.planes| == 3
      && (forall i :: 0 <= i < 3 ==> buffer.planes[i].Arr?)
      && buffer.planes[0].image.shape == [height, width]
      && buffer.planes[1].image.shape == [height / 2, width / 2]
      && buffer.planes[2].image.shape == [height / 2, width / 2]
    ensures r == AttributeErr ==> buffer.PlaneList? && exists i :: 0 <= i < |buffer.planes| && buffer.planes[i].NotArray?
  {
    if !buffer.PlaneList? || |buffer.planes| != 3 then ValueErr
    else
      var y, u, v := buffer.planes[0], buffer.planes[1], buffer.planes[2];
      var half := [height / 2, width / 2];
      if PlaneCheck(y, [height, width]) != Accepted then PlaneCheck(y, [height, width])
      else if PlaneCheck(u, half) != Accepted then PlaneCheck(u, half)
      else PlaneCheck(v, half)
  }

  // ---------------------------------------------------------------------------
  // The widget

  /** How `setTextureData` ends: normally, or with the exception that escapes it. */
  datatype Outcome = Ok | ValueError | AttributeError | ZeroDivisionError

  /** The byte planes kept for YUV420P frames. */
  datatype YuvPlanes = YuvPlanes(y: Image, u: Image, v: Image)

  /** What a repaint does after clearing the window to black. */
  datatype Paint =
    | Blank                                                              // nothing is drawn
    | DrawQuad(scaleX: real, scaleY: real, yuv: bool, bound: seq<Texture>)   // the quad is drawn with these textures bound to units 0, 1, 2
    | Fault                                                              // `.bind` on a missing texture raises AttributeError

  class RenderWidget {
    /** `initializeGL` has built the shader program and the vertex buffers. */
    var initialized: bool
    /** The widget's own size, `self.width()` and `self.height()`. */
    var windowWidth: nat
    var windowHeight: nat
    var width: int
    var height: int
    var scaleX: real
    var scaleY: real
    var textureY: Option<Texture>
    var textureU: Option<Texture>
    var textureV: Option<Texture>
    var currentFormat: Option<PixelFormat>
    var yuvPlanes: Option<YuvPlanes>
    /** Every texture call made on the GL context, oldest first. */
    ghost var gl: seq<GlEvent>

    function Held(): seq<Option<Texture>>
      reads this
    {
      [textureY, textureU, textureV]
    }

    /** The textures held are exactly the ones alive on the GPU: none is leaked. */
    ghost predicate Valid()
      reads this
    {
      Live(gl) == Present(Held())
    }

    /** A YUV420P picture with a Y texture also has its U and V textures. */
    predicate Consistent()
      reads this
    {
      textureY.Some? && currentFormat == Some(YUV420P) ==> textureU.Some? && textureV.Some?
    }

    constructor (windowWidth: nat, windowHeight: nat)
      ensures Valid() && Consistent()
      ensures !initialized && this.windowWidth == windowWidth && this.windowHeight == windowHeight
      ensures width == 0 && height == 0 && scaleX == 1.0 && scaleY == 1.0
      ensures Held() == [None, None, None] && currentFormat == None && yuvPlanes == None && gl == []
    {
      initialized := false;
      this.windowWidth := windowWidth;
      this.windowHeight := windowHeight;
      width, height := 0, 0;
      scaleX, scaleY := 1.0, 1.0;
      textureY, textureU, textureV := None, None, None;
      currentFormat := None;
      yuvPlanes := None;
      gl := [];
      new;
      assert Present(Held()) == {};
    }

    /** `initializeGL`: the shader program and the quad's buffers exist from now on. */
    method InitializeGL()
      modifies this`initialized
      ensures initialized
    {
      initialized := true;
    }

    /** `updateAspectRatio`: the scales follow `Scales`; on a window of height 0 it raises and leaves them. */
    method UpdateAspectRatio() returns (divByZero: bool)
      modifies this`scaleX, this`scaleY
      ensures divByZero <==> Scales(windowWidth, windowHeight, width, height).DivByZero?
      ensures !divByZero ==> Scale(scaleX, scaleY) == Scales(windowWidth, windowHeight, width, height)
      ensures divByZero ==> scaleX == old(scaleX) && scaleY == old(scaleY)
    {
      if width <= 0 || height <= 0 {
        scaleX, scaleY := 1.0, 1.0;
        return false;
      }
      if windowHeight == 0 {
        return true;
      }
      var windowAspect := windowWidth as real / windowHeight as real;
      var videoAspect := width as real / height as real;
      if windowAspect > videoAspect {
        scaleX := videoAspect / windowAspect;
        scaleY := 1.0;
      } else {
        scaleX := 1.0;
        scaleY := windowAspect / videoAspect;
      }
      return false;
    }

    /** `resizeGL`, after Qt has given the widget its new size. */
    method ResizeGL(w: nat, h: nat) returns (divByZero: bool)
      modifies this`windowWidth, this`windowHeight, this`scaleX, this`scaleY
      ensures windowWidth == w && windowHeight == h
      ensures divByZero <==> Scales(w, h, width, height).DivByZero?
      ensures !divByZero ==> Scale(scaleX, scaleY) == Scales(w, h, width, height)
      ensures divByZero ==> scaleX == old(scaleX) && scaleY == old(scaleY)
    {
      windowWidth, windowHeight := w, h;
      divByZero := UpdateAspectRatio();
    }

    /** The destroy loop and what follows it: every held texture is destroyed, then all are dropped. */
    method DropTextures()
      requires Valid()
      modifies this`gl, this`textureY, this`textureU, this`textureV, this`yuvPlanes
      ensures Valid()
      ensures gl == old(gl) + Destroys(old(Held()))
      ensures Held() == [None, None, None] && yuvPlanes == None
    {
      var held := Held();
      DestroyEach(held);
      LiveAfterDestroys(old(gl), held);
      textureY, textureU, textureV := None, None, None;
      yuvPlanes := None;
      PresentOfThree(None, None, None);
    }

    /** The `for tex in (Y, U, V)` loop: `tex.destroy()` for each texture present. */
    method DestroyEach(held: seq<Option<Texture>>)
      modifies this`gl
      ensures gl == old(gl) + Destroys(held)
    {
      var i := 0;
      while i < |held|
        invariant 0 <= i <= |held|
        invariant gl == old(gl) + Destroys(held[..i])
      {
        DestroysStep(held, i);
        if held[i].Some? {
          gl := gl + [Destroy(held[i].value)];
        }
        i := i + 1;
      }
      assert held[..i] == held;
    }

    /** Creates a texture and records it on the GL log. */
    method NewTexture(w: int, h: int, format: TexFormat, upload: Upload, source: Image) returns (t: Texture)
      modifies this`gl
      ensures fresh(t) && t.width == w && t.height == h && t.format == format && t.upload == upload && t.source == source
      ensures gl == old(gl) + [Create(t)]
    {
      t := new Texture(w, h, format, upload, source);
      gl := gl + [Create(t)];
    }

    /** The RGB24/BGR24 branch, once the old textures are gone: one texture of the frame's size. */
    method UploadRgb(buffer: Buffer, w: int, h: int, fmt: PixelFormat) returns (outcome: Outcome)
      requires Valid() && Held() == [None, None, None] && yuvPlanes == None
      requires fmt != YUV420P
      modifies this`gl, this`textureY
      ensures Valid()
      ensures outcome == Ok || outcome == ValueError
      ensures outcome == Ok <==> RgbCheck(buffer) == Accepted
      ensures outcome == ValueError ==> Held() == [None, None, None]
      ensures outcome == Ok ==>
        && textureY.Some? && textureU == None && textureV == None && fresh(textureY.value)
        && textureY.value.width == w && textureY.value.height == h && textureY.value.format == RGB8
        && textureY.value.source == buffer.image
        && (textureY.value.upload == UploadBGR <==> fmt == BGR24)
      ensures gl == old(gl) + Creates(Held())
      ensures yuvPlanes == None
    {
      if RgbCheck(buffer) != Accepted {
        CreatesOfThree(None, None, None);
        return ValueError;
      }
      var upload := if fmt == BGR24 then UploadBGR else UploadRGB;
      ghost var before := gl;
      PresentOfThree(None, None, None);
      var t := NewTexture(w, h, RGB8, upload, buffer.image);
      OneCreated(before, t);
      textureY := Some(t);
      return Ok;
    }

    /** The YUV420P branch, once the old textures are gone: a full-size Y texture and half-size U and V textures. */
    method UploadYuv(buffer: Buffer, w: int, h: int) returns (outcome: Outcome)
      requires Valid() && Held() == [None, None, None] && yuvPlanes == None
      requires w > 0 && h > 0
      modifies this`gl, this`textureY, this`textureU, this`textureV, this`yuvPlanes
      ensures Valid()
      ensures outcome != ZeroDivisionError
      ensures outcome == Ok <==> YuvCheck(buffer, w, h) == Accepted
      ensures outcome == AttributeError <==> YuvCheck(buffer, w, h) == AttributeErr
      ensures outcome != Ok ==> Held() == [None, None, None] && yuvPlanes == None
      ensures outcome == Ok ==>
        && textureY.Some? && textureU.Some? && textureV.Some?
        && fresh(textureY.value) && fresh(textureU.value) && fresh(textureV.value)
        && textureY.value.width == w && textureY.value.height == h
        && textureU.value.width == w / 2 && textureU.value.height == h / 2
        && textureV.value.width == w / 2 && textureV.value.height == h / 2
        && textureY.value.format == R8 && textureU.value.format == R8 && textureV.value.format == R8
        && yuvPlanes == Some(YuvPlanes(buffer.planes[0].image, buffer.planes[1].image, buffer.planes[2].image))
      ensures gl == old(gl) + Creates(Held())
    {
      var check := YuvCheck(buffer, w, h);
      if check != Accepted {
        CreatesOfThree(None, None, None);
        return if check == AttributeErr then AttributeError else ValueError;
      }
      CreateYuvTextures(buffer.planes[0].image, buffer.planes[1].image, buffer.planes[2].image, w, h);
      return Ok;
    }

    /** The three single-channel textures of a validated YUV420P frame, and the planes kept beside them. */
    method CreateYuvTextures(y: Image, u: Image, v: Image, w: int, h: int)
      requires Valid() && Held() == [None, None, None]
      modifies this`gl, this`textureY, this`textureU, this`textureV, this`yuvPlanes
      ensures Valid()
      ensures textureY.Some? && textureU.Some? && textureV.Some?
      ensures fresh(textureY.value) && fresh(textureU.value) && fresh(textureV.value)
      ensures textureY.value.width == w && textureY.value.height == h && textureY.value.source == y
      ensures textureU.value.width == w / 2 && textureU.value.height == h / 2 && textureU.value.source == u
      ensures textureV.value.width == w / 2 && textureV.value.height == h / 2 && textureV.value.source == v
      ensures textureY.value.format == R8 && textureU.value.format == R8 && textureV.value.format == R8
      ensures yuvPlanes == Some(YuvPlanes(y, u, v))
      ensures gl == old(gl) + Creates(Held())
    {
      ghost var before := gl;
      PresentOfThree(None, None, None);
      var ty := NewTexture(w, h, R8, UploadRed, y);
      var tu := NewTexture(w / 2, h / 2, R8, UploadRed, u);
      var tv := NewTexture(w / 2, h / 2, R8, UploadRed, v);
      assert gl == before + [Create(ty), Create(tu), Create(tv)];
      ThreeCreated(before, ty, tu, tv);
      textureY, textureU, textureV := Some(ty), Some(tu), Some(tv);
      yuvPlanes := Some(YuvPlanes(y, u, v));
    }

    /** The second half of `setTextureData`: the old textures are destroyed, then the buffer is checked and uploaded. */
    method ReplaceTextures(buffer: Buffer, w: int, h: int, fmt: PixelFormat) returns (outcome: Outcome)
      requires Valid() && w > 0 && h > 0
      modifies this`gl, this`textureY, this`textureU, this`textureV, this`yuvPlanes
      ensures Valid()
      ensures outcome != ZeroDivisionError
      ensures gl == old(gl) + Destroys(old(Held())) + Creates(Held())
      ensures outcome == ValueError || outcome == AttributeError ==> Held() == [None, None, None] && yuvPlanes == None
      ensures fmt != YUV420P ==>
        && (outcome == Ok <==> RgbCheck(buffer) == Accepted)
        && (outcome != Ok ==> outcome == ValueError)
        && (outcome == Ok ==>
              && textureY.Some? && textureU == None && textureV == None && yuvPlanes == None && fresh(textureY.value)
              && textureY.value.width == w && textureY.value.height == h && textureY.value.format == RGB8
              && textureY.value.source == buffer.image
              && (textureY.value.upload == UploadBGR <==> fmt == BGR24))
      ensures fmt == YUV420P ==>
        && (outcome == Ok <==> YuvCheck(buffer, w, h) == Accepted)
        && (outcome == AttributeError <==> YuvCheck(buffer, w, h) == AttributeErr)
        && (outcome == Ok ==>
              && textureY.Some? && textureU.Some? && textureV.Some?
              && fresh(textureY.value) && fresh(textureU.value) && fresh(textureV.value)
              && textureY.value.width == w && textureY.value.height == h
              && textureU.value.width == w / 2 && textureU.value.height == h / 2
              && textureV.value.width == w / 2 && textureV.value.height == h / 2
              && textureY.value.format == R8 && textureU.value.format == R8 && textureV.value.format == R8
              && yuvPlanes == Some(YuvPlanes(buffer.planes[0].image, buffer.planes[1].image, buffer.planes[2].image)))
    {
      DropTextures();
      if fmt != YUV420P {
        outcome := UploadRgb(buffer, w, h, fmt);
      } else {
        outcome := UploadYuv(buffer, w, h);
      }
    }

    /**
     * `setTextureData`. A non-positive size is ignored. Otherwise the size
     * and format are stored and the scales recomputed before anything is
     * checked; then every held texture is destroyed, and only then is the
     * buffer validated and new textures created.
     */
    method SetTextureData(buffer: Buffer, w: int, h: int, fmt: PixelFormat) returns (outcome: Outcome)
      requires Valid()
      modifies this`width, this`height, this`currentFormat, this`scaleX, this`scaleY, this`gl, this`textureY, this`textureU, this`textureV, this`yuvPlanes
      ensures Valid()
      // a non-positive size changes nothing
      ensures w <= 0 || h <= 0 ==>
        && outcome == Ok && width == old(width) && height == old(height) && currentFormat == old(currentFormat)
        && scaleX == old(scaleX) && scaleY == old(scaleY) && Held() == old(Held()) && yuvPlanes == old(yuvPlanes) && gl == old(gl)
      // otherwise size and format are stored whatever follows
      ensures w > 0 && h > 0 ==> width == w && height == h && currentFormat == Some(fmt)
      ensures w > 0 && h > 0 ==>
        (outcome == ZeroDivisionError <==> Scales(windowWidth, windowHeight, w, h).DivByZero?)
      // a window of height 0 raises before any texture is touched
      ensures outcome == ZeroDivisionError ==>
        scaleX == old(scaleX) && scaleY == old(scaleY) && Held() == old(Held()) && yuvPlanes == old(yuvPlanes) && gl == old(gl)
      // past that point every old texture is destroyed before any new one is created
      ensures w > 0 && h > 0 && outcome != ZeroDivisionError ==>
        && Scale(scaleX, scaleY) == Scales(windowWidth, windowHeight, w, h)
        && gl == old(gl) + Destroys(old(Held())) + Creates(Held())
      // a failed check leaves no texture at all
      ensures outcome == ValueError || outcome == AttributeError ==> Held() == [None, None, None] && yuvPlanes == None
      ensures w > 0 && h > 0 && fmt != YUV420P && outcome != ZeroDivisionError ==>
        && (outcome == Ok <==> RgbCheck(buffer) == Accepted)
        && (outcome != Ok ==> outcome == ValueError)
        && (outcome == Ok ==>
              && textureY.Some? && textureU == None && textureV == None && yuvPlanes == None && fresh(textureY.value)
              && textureY.value.width == w && textureY.value.height == h && textureY.value.format == RGB8
              && textureY.value.source == buffer.image
              && (textureY.value.upload == UploadBGR <==> fmt == BGR24))
      ensures w > 0 && h > 0 && fmt == YUV420P && outcome != ZeroDivisionError ==>
        && (outcome == Ok <==> YuvCheck(buffer, w, h) == Accepted)
        && (outcome == AttributeError <==> YuvCheck(buffer, w, h) == AttributeErr)
        && (outcome == Ok ==>
              && textureY.Some? && textureU.Some? && textureV.Some?
              && fresh(textureY.value) && fresh(textureU.value) && fresh(textureV.value)
              && textureY.value.width == w && textureY.value.height == h
              && textureU.value.width == w / 2 && textureU.value.height == h / 2
              && textureV.value.width == w / 2 && textureV.value.height == h / 2
              && textureY.value.format == R8 && textureU.value.format == R8 && textureV.value.format == R8
              && yuvPlanes == Some(YuvPlanes(buffer.planes[0].image, buffer.planes[1].image, buffer.planes[2].image)))
      ensures outcome != ZeroDivisionError && ((w > 0 && h > 0) || old(Consistent())) ==> Consistent()
    {
      if w <= 0 || h <= 0 {
        return Ok;
      }
      width, height := w, h;
      currentFormat := Some(fmt);
      var divByZero := UpdateAspectRatio();
      if divByZero {
        return ZeroDivisionError;
      }
      outcome := ReplaceTextures(buffer, w, h, fmt);
    }

    /** `clear`: no textures, no size, no format, both scales 1. */
    method Clear()
      requires Valid()
      modifies this`width, this`height, this`currentFormat, this`scaleX, this`scaleY, this`gl, this`textureY, this`textureU, this`textureV, this`yuvPlanes
      ensures Valid() && Consistent()
      ensures gl == old(gl) + Destroys(old(Held()))
      ensures Held() == [None, None, None] && yuvPlanes == None
      ensures width == 0 && height == 0 && currentFormat == None && scaleX == 1.0 && scaleY == 1.0
    {
      DropTextures();
      width, height := 0, 0;
      currentFormat := None;
      scaleX, scaleY := 1.0, 1.0;
    }

    /** `paintGL`, after the window is cleared to black. */
    function PaintGL(): (p: Paint)
      reads this
      ensures p == Blank <==> !initialized || textureY.None?
      ensures p.DrawQuad? ==>
        && p.yuv == (currentFormat == Some(YUV420P))
        && p.scaleX == scaleX && p.scaleY == scaleY
        && |p.bound| == (if p.yuv then 3 else 1)
        && p.bound[0] == textureY.value
        && (p.yuv ==> textureU.Some? && textureV.Some? && p.bound[1] == textureU.value && p.bound[2] == textureV.value)
      ensures p == Fault <==> initialized && textureY.Some? && currentFormat == Some(YUV420P) && (textureU.None? || textureV.None?)
    {
      if !initialized || textureY.None? then Blank
      else if currentFormat == Some(YUV420P) then
        if textureU.None? || textureV.None? then Fault
        else DrawQuad(scaleX, scaleY, true, [textureY.value, textureU.value, textureV.value])
      else DrawQuad(scaleX, scaleY, false, [textureY.value])
    }
  }

  /** A widget whose textures are consistent never faults on a repaint. */
  lemma ConsistentNeverFaults(r: RenderWidget)
    requires r.Consistent()
    ensures r.PaintGL() != Fault
  {
  }
}
