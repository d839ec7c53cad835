# NormalMap-Online: the ThreeManager core in Dafny

This project models the logic of `ThreeManager` (src/ThreeManager.js) that can be checked without a GPU. It covers three parts:

- **The black/white threshold of `imageToBlackAndWhite`.** For every 4-byte RGBA pixel of a canvas's `ImageData`, R, G and B become 255 when R+G+B is below 100 and 0 otherwise, and alpha becomes 255. The loop is the in-place method `Threshold.Binarize` over an `array<Byte>`. It is proved against the recursive specification `Threshold.Thresholded`, and the lemmas beside it state the per-pixel rule, the strict boundary, and the fact that the threshold inverts its own output.
- **The state `renderNormalImage` leaves behind.** `Manager.ThreeManager` is a class whose fields are the surface sizes, the height-map texture, the blur uniforms `h` and `v`, and the normal-map uniforms (`dimensions`, `dz`, `invertR`, `invertG`, `invertH`, `type`). It also counts the `composer.render()` calls and keeps a ghost log of what each call was given.
- **The lazy singleton `instance()`.** This is `Manager.ManagerSlot.Instance`.

Files:

- `rgba.dfy`: bytes, pixel counts, and the `Canvas` class (size and pixel array).
- `threshold.dfy`: the threshold's specification, its lemmas, and the in-place pixel loop.
- `config.dfy`: the enum encodings of src/config.js (`Sobel` 1, `Scharr` 0, `Invert` -1, `NoInvert` 1) and the parameter record.
- `three_manager.dfy`: the manager class, the blur-step formulas, the generator facade, and the singleton slot.

Two properties of the code shape the model:

- **The threshold is not idempotent.** A white pixel (sum 765) turns black and a black pixel (sum 0) turns white. On a bilevel buffer the threshold is therefore an involution (`ThresholdTwiceRestoresBilevel`), and it never leaves a non-empty buffer unchanged (`NoFixedPoint`).
- **The blur steps use the signed `blur` value.** `calculateBlurH` and `calculateBlurV` divide `blur` itself; no absolute value is taken.

## Model

| member | source | states |
|---|---|---|
| Threshold.Thresholded | src/ThreeManager.js:199-208 | the whole buffer after the pixel loop, pixel by pixel; its length equals the input's |
| Threshold.ThresholdedAt | src/ThreeManager.js:200-207 | for pixel p: R, G and B all become 255 when the input's R+G+B < 100 and all become 0 otherwise; alpha becomes 255 whatever it was |
| Threshold.ThresholdedIsBlackOrWhite | src/ThreeManager.js:201-207 | every byte of the output is 0 or 255 |
| Threshold.ThresholdedIsBilevel | src/ThreeManager.js:201-207 | every output pixel is opaque, with R = G = B and that value either 0 or 255 |
| Threshold.ThresholdedAppend | src/ThreeManager.js:199-208 | each pixel is handled on its own, so thresholding distributes over concatenation of whole-pixel buffers |
| Threshold.ThresholdSwapsBilevel | src/ThreeManager.js:200-206 | on a bilevel buffer the threshold swaps black and white (white sums to 765, black to 0) |
| Threshold.InvertedTwice | src/ThreeManager.js:200-206 | swapping black and white twice gives the buffer back (the partner of ThresholdSwapsBilevel) |
| Threshold.ThresholdTwiceInverts | src/ThreeManager.js:200-206 | thresholding the threshold's output inverts it |
| Threshold.ThresholdTwiceRestoresBilevel | src/ThreeManager.js:200-206 | on bilevel input, thresholding twice restores the input: an involution, not idempotent |
| Threshold.NoFixedPoint | src/ThreeManager.js:200-206 | no non-empty buffer is left unchanged by the threshold |
| Threshold.NotIdempotent | src/ThreeManager.js:200-206 | thresholding a second time always changes a non-empty buffer again |
| Threshold.ThresholdedFill | src/ThreeManager.js:200-207 | a solid-colour image becomes a solid opaque image, white if its sum is below 100 and black otherwise |
| Threshold.GreyBoundary | src/ThreeManager.js:202 | the comparison is strict: sum 99 gives white; sums 100 and 102 give black |
| Threshold.ThresholdedPrefix | src/ThreeManager.js:199-208 | the first n pixels thresholded, built in loop order; its length is 4n |
| Threshold.PrefixMatchesThresholded | src/ThreeManager.js:199-208 | after k iterations the loop's output prefix equals the specification applied to the first k pixels |
| Threshold.ThresholdedPrefixAll | src/ThreeManager.js:199-208 | built over all pixels, the loop-order output equals the specification on the whole buffer |
| Threshold.LoopDone | src/ThreeManager.js:199-208 | once every pixel has been visited, the bytes written are exactly the thresholded input |
| Threshold.ThresholdPixel | src/ThreeManager.js:200-207 | one iteration: bytes i..i+2 get the pixel's grey level, byte i+3 gets 255, and no other byte changes |
| Threshold.Binarize | src/ThreeManager.js:199-208 | the in-place loop leaves exactly the thresholded input in the buffer; its invariants say pixels before the cursor follow the rule and bytes from the cursor on are untouched |
| Manager.ThreeManager.ImageToBlackAndWhite | src/ThreeManager.js:177-211 | as written: the pixels are copied to a fresh canvas that is thresholded and dropped, so the argument's pixels are unchanged; it fails exactly when the width or height is 0 (for a canvas argument, `drawImage` at line 191 throws `InvalidStateError`) |
| Manager.ThreeManager.ImageToBlackAndWhiteInPlace | src/ThreeManager.js:185-210 | as intended: on success the canvas argument holds the thresholded pixels, and they are bilevel; it fails exactly when the width or height is 0, and then nothing changes |
| Manager.CalculateBlurH | src/ThreeManager.js:160-162 | the step times 5 times the width is `blur`; the step has the sign of `blur` and is zero exactly when `blur` is |
| Manager.CalculateBlurV | src/ThreeManager.js:169-171 | the same over the height |
| Manager.ThreeManager.ComposerRender | src/ThreeManager.js:237 | one render: the counter goes up by one and the log gains the uniforms and height map bound at that moment |
| Manager.ThreeManager.SetSize | src/ThreeManager.js:218-220 | renderer canvas, composer and render target all take the given size; nothing else changes |
| Manager.ThreeManager.FirstRender | src/ThreeManager.js:218-237 | every surface takes the image's size, the image is the height map, `h` and `v` hold the first-pass steps, one render ran and saw exactly that state with the normal uniforms left as they were |
| Manager.ThreeManager.RenderNormalImage | src/ThreeManager.js:217-279 | as written: the image keeps its size and every surface is image-sized afterwards. A zero width or height makes `drawImage` at line 252 throw: the result is null, and the state is the one the first render left (`h`, `v` the first-pass steps, the image as height map, one render, normal uniforms unchanged). Otherwise: `h` = `v` = 0; `dimensions` is [width, height, 0]; `dz`, the inverts and `type` come from the arguments; exactly two renders ran; the first saw the image, the first-pass blur values and the previous normal uniforms; the second saw the composited canvas with its pixels unchanged (the threshold at line 254 has no effect on it) and the new uniforms; the result is the manager's canvas |
| Manager.ThreeManager.RenderNormalImageIntended | src/ThreeManager.js:244-276 | as intended: the same error path and final state, except that the second render's height map is the composited canvas thresholded in place, a bilevel mask |
| Manager.ThreeManager.SecondRender | src/ThreeManager.js:256-276 | the given canvas becomes the height map, `h` = `v` = 0, the normal-map uniforms take the given values, and one render ran and saw exactly that state |
| Manager.ThreeManager.constructor | src/ThreeManager.js:103-135 | a fresh manager has its own canvas, a 0 x 0 render target, a texture with no image, and no renders yet |
| Manager.ManagerSlot.Instance | src/ThreeManager.js:95-101 | the first call creates a fresh manager and stores it; every later call returns the stored one |
| Manager.InstanceIsShared | src/ThreeManager.js:95-101 | two calls in a row return the same object, which is the stored instance |
| Manager.Generator.GenerateFromImage | src/NormalMapGenerator.js:26-28 | `renderNormalImage` with the defaults: the same sizes, error path, texture and two render records as `RenderNormalImage`, with the normal-map uniforms [width, height, 0], `dz`, no channel inverted (all three inverts 1) and the Sobel kernel (`type` 1) |
| Manager.Generator.constructor | src/NormalMapGenerator.js:17-19 | the generator owns a fresh manager of its own, with no renders yet |
| Manager.DefaultBlurStepsNegative | src/config.js:22 | a stand-alone fact about the defaults and the formulas of src/ThreeManager.js:161 and 170: the default blur of -6 gives negative blur steps in both directions for any non-empty image; the render methods take those steps as parameters |
| Rgba.PixelCountIsArea | src/ThreeManager.js:195 | a width x height `ImageData` has width * height pixels |
| Rgba.Canvas.constructor | src/ThreeManager.js:188-191 | a canvas of size w x h holding the given pixels; its buffer has 4 * w * h bytes |
| Rgba.Canvas.Resize | src/ThreeManager.js:218 | resizing a canvas sets its size and reallocates it, 4 * w * h bytes of transparent black |

## Left out

- `calculateDz` (src/ThreeManager.js:151-153) uses floating point and `Math.pow` with a real exponent. Its value enters `RenderNormalImage` as the opaque parameter `depth`.
- Manager.CalculateBlurH: computed in exact reals, not IEEE doubles. It requires a positive width, while JavaScript would yield an infinity or NaN for width 0. The first-pass values enter `RenderNormalImage` as the parameters `firstH` and `firstV`.
- Manager.CalculateBlurV: the same simplifications as CalculateBlurH, over the height.
- The shaders and the GPU are not modelled: the blur passes, the normal-map kernel (src/shader/NormalMapShader.js is not part of this model), and what `composer.render()` draws. A render is recorded only as the state it was given.
- `__initThree` and `__initPostProcessing` (src/ThreeManager.js:103-149) are library setup. The constructor keeps only the facts the model uses: a 0 x 0 render target, no texture image, no renders yet. The shaders' initial uniform values are not modelled.
- DOM canvas plumbing is not modelled: `createElement`, `drawImage`, `getImageData`/`putImageData` and the white `fillRect`. Only their failure on a zero width or height is kept, as the null result of `RenderNormalImage` (`drawImage` at line 252) and the `ok` result of `ImageToBlackAndWhite` (`drawImage` at line 191 for a canvas argument); the exception values themselves are not. `RenderNormalImage` takes the composited pixels (`flattened`) as a parameter. `ImageToBlackAndWhite` takes a canvas whose bytes stand for the `ImageData`.
- The device pixel ratio is taken as 1, so the renderer's canvas has exactly the image's size.
- The `needsUpdate` and `uniformsNeedUpdate` flags and the `tHeightMap` binding are not separate fields. The texture the material samples is the field `texture`.
- Threshold.Binarize: requires the buffer length to be a multiple of 4. A browser's `ImageData` always satisfies this.
- src/config.js holds only constants. Its enum values and defaults are in `NormalConfig`. The code does not merge or validate parameters.
- Manager.Generator.GenerateFromImage: `dz` and the first-pass blur steps enter as parameters, like in `RenderNormalImage`, because they are floating-point values.

## Findings

| source | as written | input that shows it | evidently intended | confidence | as-written member | corrected member |
|---|---|---|---|---|---|---|
| src/ThreeManager.js:187 | `typeof image !== HTMLCanvasElement` compares a type-name string with a constructor, so it always holds; the thresholded pixels go to a fresh copy, which is dropped, and the canvas passed at line 254 keeps its pixels | any non-empty canvas, e.g. one opaque white pixel [255, 255, 255, 255]: the threshold would make it black, but the caller's canvas stays white (`Threshold.NoFixedPoint`: the threshold changes every non-empty buffer, so the two results always differ) | a canvas argument is thresholded in place (an `instanceof` test) | not executed | Manager.ThreeManager.ImageToBlackAndWhite | Manager.ThreeManager.ImageToBlackAndWhiteInPlace |
| src/ThreeManager.js:254 | the second render's height map is the composited canvas as drawn, because the call at line 254 leaves it unchanged | any non-empty image: the second pass samples `flattened`, and `Threshold.NoFixedPoint` shows `Thresholded(flattened)` differs from it | the second render samples the thresholded, bilevel mask | not executed | Manager.ThreeManager.RenderNormalImage | Manager.ThreeManager.RenderNormalImageIntended |

