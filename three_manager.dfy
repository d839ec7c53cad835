/**
 * The state `ThreeManager` keeps between and during renders: the sizes of its render
 * surfaces, the height-map texture and the uniform values of the blur and normal-map
 * passes. The GPU work of `composer.render()` is an abstract step that records what
 * the pass was given.
 */
module Manager {
  import opened Rgba
  import opened Threshold
  import opened NormalConfig

  /**
   * `calculateBlurH`: the horizontal blur step, the signed `blur` divided by the image
   * width and by 5. Its sign is the sign of `blur`: no absolute value is taken.
   */
  function CalculateBlurH(blur: real, width: nat): (r: real)
    requires width > 0
    ensures r * 5.0 * (width as real) == blur
    ensures (r < 0.0) == (blur < 0.0) && (r == 0.0) == (blur == 0.0)
  {
    blur / width as real / 5.0
  }

  /** `calculateBlurV`: the vertical blur step, the same formula over the image height. */
  function CalculateBlurV(blur: real, height: nat): (r: real)
    requires height > 0
    ensures r * 5.0 * (height as real) == blur
    ensures (r < 0.0) == (blur < 0.0) && (r == 0.0) == (blur == 0.0)
  {
    blur / height as real / 5.0
  }

  /** The uniforms of the normal-map material: `dimensions`, `dz`, the three inverts and `type`. */
  datatype NormalUniforms = NormalUniforms(
    dimensions: seq<int>,
    dz: real,
    invertR: int,
    invertG: int,
    invertH: int,
    algorithm: int)

  /** The normal-map uniforms `renderNormalImage` sets for an image of the given size. */
  function UniformsFor(width: nat, height: nat, depth: real, params: Config): NormalUniforms
  {
    NormalUniforms([width, height, 0], depth, params.invertR, params.invertG, params.invertH, params.algorithm)
  }

  /** What one `composer.render()` was given: the uniforms and the height map bound at that moment. */
  datatype Pass = Pass(h: real, v: real, heightMap: Canvas, pixels: seq<Byte>, normal: NormalUniforms)

  class ThreeManager {
    /** The renderer's DOM canvas: its size is the renderer's size, and it is the result of every render. */
    const canvas: Canvas
    var composerWidth: nat
    var composerHeight: nat
    /** Size of the offscreen render target. */
    var targetWidth: nat
    var targetHeight: nat
    /** `texture.image`, the height map the normal-map material samples; unset at first. */
    var texture: Canvas?
    /** Uniform `h` of the horizontal blur pass and `v` of the vertical one. */
    var h: real
    var v: real
    /** Uniforms of the normal-map material. */
    var normal: NormalUniforms
    /** Number of `composer.render()` calls so far. */
    var renders: nat
    /** What each of those calls was given, oldest first. */
    ghost var passes: seq<Pass>

    /**
     * `__initThree` and `__initPostProcessing`: a renderer with its canvas, a render target
     * of size 0 x 0, a texture with no image yet. The shaders' initial uniform values are
     * not part of the model.
     */
    constructor ()
      ensures fresh(canvas)
      ensures targetWidth == 0 && targetHeight == 0
      ensures texture == null
      ensures renders == 0 && passes == []
    {
      canvas := new Canvas(0, 0, []);
      targetWidth, targetHeight := 0, 0;
      texture := null;
      renders := 0;
      passes := [];
    }

    /** `composer.render()`: one run of the pass chain over the current state. */
    method ComposerRender()
      requires texture != null
      modifies this`renders, this`passes
      ensures renders == old(renders) + 1
      ensures passes == old(passes) + [old(Pass(h, v, texture, texture.data[..], normal))]
    {
      ghost var pass := Pass(h, v, texture, texture.data[..], normal);
      renders := renders + 1;
      passes := passes + [pass];
    }

    /**
     * `imageToBlackAndWhite` as written. `typeof image !== HTMLCanvasElement` compares a
     * string with a constructor and so always holds: the pixels are always copied into a
     * fresh canvas, the copy is thresholded, and the copy is dropped. The canvas passed in
     * keeps its pixels. `ok` is false exactly for a zero width or height: for a canvas
     * argument, drawing it onto the copy with `drawImage` throws `InvalidStateError` then.
     */
    method ImageToBlackAndWhite(image: Canvas) returns (ok: bool)
      requires image.Valid()
      ensures ok == (image.width > 0 && image.height > 0)
      ensures image.data[..] == old(image.data[..])
    {
      var copy := new Canvas(image.width, image.height, image.data[..]);
      if copy.width == 0 || copy.height == 0 {
        return false;
      }
      Binarize(copy.data);
      ok := true;
    }

    /**
     * `imageToBlackAndWhite` as evidently intended: a canvas argument is thresholded in
     * place, so that it holds the bilevel mask afterwards. A zero width or height still
     * makes `getImageData` throw, and then nothing changes.
     */
    method ImageToBlackAndWhiteInPlace(image: Canvas) returns (ok: bool)
      requires image.Valid()
      modifies image.data
      ensures ok == (image.width > 0 && image.height > 0)
      ensures ok ==> image.data[..] == Thresholded(old(image.data[..])) && Bilevel(image.data[..])
      ensures !ok ==> image.data[..] == old(image.data[..])
    {
      if image.width == 0 || image.height == 0 {
        return false;
      }
      Binarize(image.data);
      ThresholdedIsBilevel(old(image.data[..]));
      ok := true;
    }

    /**
     * The first half of `renderNormalImage`: every surface takes the image's size, the
     * image becomes the height map, the blur uniforms get the first-pass steps, and the
     * composer renders once. The normal-map uniforms are left as they were.
     */
    method FirstRender(image: Canvas, firstH: real, firstV: real)
      modifies this, canvas
      ensures canvas.Valid() && fresh(canvas.data)
      ensures image.width == old(image.width) && image.height == old(image.height)
      ensures canvas.width == image.width && canvas.height == image.height
      ensures composerWidth == image.width && composerHeight == image.height
      ensures targetWidth == image.width && targetHeight == image.height
      ensures texture == image && h == firstH && v == firstV && normal == old(normal)
      ensures renders == old(renders) + 1
      ensures passes == old(passes) + [Pass(firstH, firstV, image, image.data[..], normal)]
    {
      var width, height := image.width, image.height;
      SetSize(width, height);
      assert image.width == width && image.height == height;
      texture := image;
      h := firstH;
      v := firstV;
      ComposerRender();
    }

    /**
     * `renderNormalImage` as written. `firstH`, `firstV` and `depth` are the floating-point
     * values `calculateBlurH(params.blur, image)`, `calculateBlurV(params.blur, image)` and
     * `calculateDz(params.strength, params.level)` yield; `flattened` is the pixels of the
     * renderer's canvas drawn over a white background after the first render. The call
     * of `imageToBlackAndWhite` leaves those pixels as they are, so the second render
     * samples them unthresholded. A null result stands for the `InvalidStateError` that
     * `drawImage` throws when the renderer's canvas has a zero width or height: the method
     * then stops after the first render.
     */
    method RenderNormalImage(image: Canvas, params: Config, firstH: real, firstV: real, depth: real,
                             flattened: seq<Byte>) returns (result: Canvas?)
      requires |flattened| == 4 * PixelCount(image.width, image.height)
      modifies this, canvas
      ensures image.width == old(image.width) && image.height == old(image.height)
      ensures (result == null) == (image.width == 0 || image.height == 0)
      ensures canvas.width == image.width && canvas.height == image.height
      ensures composerWidth == image.width && composerHeight == image.height
      ensures targetWidth == image.width && targetHeight == image.height
      ensures result == null ==>
        texture == image && h == firstH && v == firstV && normal == old(normal) &&
        renders == old(renders) + 1 &&
        passes == old(passes) + [Pass(firstH, firstV, image, image.data[..], old(normal))]
      ensures result != null ==>
        result == canvas && h == 0.0 && v == 0.0 &&
        normal == UniformsFor(image.width, image.height, depth, params) &&
        texture != null && fresh(texture) &&
        texture.width == image.width && texture.height == image.height &&
        texture.data[..] == flattened &&
        renders == old(renders) + 2 &&
        passes == old(passes) + [
          Pass(firstH, firstV, image, image.data[..], old(normal)),
          Pass(0.0, 0.0, texture, flattened, normal)]
    {
      FirstRender(image, firstH, firstV);
      if canvas.width == 0 || canvas.height == 0 {
        return null;
      }
      var blurred := new Canvas(canvas.width, canvas.height, flattened);
      var _ := ImageToBlackAndWhite(blurred);
      SecondRender(blurred, UniformsFor(image.width, image.height, depth, params));
      result := canvas;
    }

    /**
     * `renderNormalImage` as evidently intended: the composited canvas is thresholded in
     * place before the second render, which therefore samples a bilevel mask. The
     * zero-size error path is the same as in `RenderNormalImage`.
     */
    method RenderNormalImageIntended(image: Canvas, params: Config, firstH: real, firstV: real, depth: real,
                                     flattened: seq<Byte>) returns (result: Canvas?)
      requires |flattened| == 4 * PixelCount(image.width, image.height)
      modifies this, canvas
      ensures image.width == old(image.width) && image.height == old(image.height)
      ensures (result == null) == (image.width == 0 || image.height == 0)
      ensures canvas.width == image.width && canvas.height == image.height
      ensures composerWidth == image.width && composerHeight == image.height
      ensures targetWidth == image.width && targetHeight == image.height
      ensures result == null ==>
        texture == image && h == firstH && v == firstV && normal == old(normal) &&
        renders == old(renders) + 1 &&
        passes == old(passes) + [Pass(firstH, firstV, image, image.data[..], old(normal))]
      ensures result != null ==>
        result == canvas && h == 0.0 && v == 0.0 &&
        normal == UniformsFor(image.width, image.height, depth, params) &&
        texture != null && fresh(texture) &&
        texture.width == image.width && texture.height == image.height &&
        texture.data[..] == Thresholded(flattened) && Bilevel(texture.data[..]) &&
        renders == old(renders) + 2 &&
        passes == old(passes) + [
          Pass(firstH, firstV, image, image.data[..], old(normal)),
          Pass(0.0, 0.0, texture, Thresholded(flattened), normal)]
    {
      FirstRender(image, firstH, firstV);
      if canvas.width == 0 || canvas.height == 0 {
        return null;
      }
      var blurred := new Canvas(canvas.width, canvas.height, flattened);
      var thresholded := ImageToBlackAndWhiteInPlace(blurred);
      assert thresholded;
      SecondRender(blurred, UniformsFor(image.width, image.height, depth, params));
      result := canvas;
    }

    /**
     * The second half of `renderNormalImage` after the threshold call: the composited
     * canvas becomes the height map, the blur uniforms are zeroed, the normal-map
     * uniforms are set, and the composer renders again.
     */
    method SecondRender(heightMap: Canvas, uniforms: NormalUniforms)
      modifies this`texture, this`h, this`v, this`normal, this`renders, this`passes
      ensures texture == heightMap && h == 0.0 && v == 0.0 && normal == uniforms
      ensures renders == old(renders) + 1
      ensures passes == old(passes) + [Pass(0.0, 0.0, heightMap, heightMap.data[..], uniforms)]
    {
      texture := heightMap;
      h, v := 0.0, 0.0;
      normal := uniforms;
      ComposerRender();
    }

    /** Renderer (its canvas), composer and render target all take the given size. */
    method SetSize(width: nat, height: nat)
      modifies canvas, this`composerWidth, this`composerHeight, this`targetWidth, this`targetHeight
      ensures canvas.Valid() && fresh(canvas.data)
      ensures canvas.width == width && canvas.height == height
      ensures composerWidth == width && composerHeight == height
      ensures targetWidth == width && targetHeight == height
    {
      canvas.Resize(width, height);
      composerWidth, composerHeight := width, height;
      targetWidth, targetHeight := width, height;
    }
  }

  /**
   * `NormalMapGenerator`: it owns a manager of its own (not the shared `instance()`) and
   * renders every image with the fixed defaults.
   */
  class Generator {
    const threeManager: ThreeManager

    constructor ()
      ensures fresh(threeManager) && threeManager.renders == 0 && threeManager.passes == []
      ensures threeManager.texture == null
    {
      threeManager := new ThreeManager();
    }

    /**
     * `generateFromImage`: `renderNormalImage` with the defaults, so the normal map is
     * computed with the Sobel kernel and no channel inverted; `depth` stands for the dz of
     * the default strength and level, `firstH` and `firstV` for the blur steps of the
     * default blur.
     */
    method GenerateFromImage(image: Canvas, firstH: real, firstV: real, depth: real, flattened: seq<Byte>)
      returns (result: Canvas?)
      requires |flattened| == 4 * PixelCount(image.width, image.height)
      modifies threeManager, threeManager.canvas
      ensures image.width == old(image.width) && image.height == old(image.height)
      ensures (result == null) == (image.width == 0 || image.height == 0)
      ensures threeManager.canvas.width == image.width && threeManager.canvas.height == image.height
      ensures threeManager.composerWidth == image.width && threeManager.composerHeight == image.height
      ensures threeManager.targetWidth == image.width && threeManager.targetHeight == image.height
      ensures result == null ==>
        threeManager.texture == image && threeManager.h == firstH && threeManager.v == firstV &&
        threeManager.normal == old(threeManager.normal) &&
        threeManager.renders == old(threeManager.renders) + 1 &&
        threeManager.passes == old(threeManager.passes) + [Pass(firstH, firstV, image, image.data[..], old(threeManager.normal))]
      ensures result != null ==>
        result == threeManager.canvas && threeManager.h == 0.0 && threeManager.v == 0.0 &&
        threeManager.normal == NormalUniforms([image.width, image.height, 0], depth, NoInvert, NoInvert, NoInvert, Sobel) &&
        threeManager.texture != null && fresh(threeManager.texture) &&
        threeManager.texture.width == image.width && threeManager.texture.height == image.height &&
        threeManager.texture.data[..] == flattened &&
        threeManager.renders == old(threeManager.renders) + 2 &&
        threeManager.passes == old(threeManager.passes) + [
          Pass(firstH, firstV, image, image.data[..], old(threeManager.normal)),
          Pass(0.0, 0.0, threeManager.texture, flattened, threeManager.normal)]
    {
      result := threeManager.RenderNormalImage(image, Default, firstH, firstV, depth, flattened);
    }
  }

  /**
   * A fact about the defaults on their own: the default blur is negative, so both blur
   * steps computed from it are negative for any non-empty image.
   */
  lemma DefaultBlurStepsNegative(width: nat, height: nat)
    requires width > 0 && height > 0
    ensures CalculateBlurH(Default.blur, width) < 0.0 && CalculateBlurV(Default.blur, height) < 0.0
  {
  }

  /** The class-level slot behind the static field `ThreeManager._instance`. */
  class ManagerSlot {
    var instance: ThreeManager?

    constructor ()
      ensures instance == null
    {
      instance := null;
    }

    /** `ThreeManager.instance()`: create the manager on the first call, then always return it. */
    method Instance() returns (m: ThreeManager)
      modifies this
      ensures instance == m
      ensures old(instance) != null ==> m == old(instance)
      ensures old(instance) == null ==> fresh(m) && m.renders == 0 && m.passes == [] && m.texture == null
    {
      if instance == null {
        instance := new ThreeManager();
      }
      m := instance;
    }
  }

  /** Two calls of `instance()` in a row give the same object, created by the first if needed. */
  method InstanceIsShared(slot: ManagerSlot) returns (first: ThreeManager, second: ThreeManager)
    modifies slot
    ensures first == second && slot.instance == first
    ensures old(slot.instance) != null ==> first == old(slot.instance)
    ensures old(slot.instance) == null ==> fresh(first)
  {
    first := slot.Instance();
    second := slot.Instance();
  }
}
