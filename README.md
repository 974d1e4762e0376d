# Verified model of the ONNX Runtime Web image upscaler

This project models `UpscalerONNXRuntimeWeb`, the class behind a browser
super-resolution demo. It loads an ONNX model with the first execution
provider that accepts it, trying "webgpu", then "wasm", then "cpu". It
upscales an image in three steps:

1. It converts the interleaved RGBA `ImageData` buffer to a channel-major
   NCHW float tensor of shape [1, 3, H, W].
2. It runs the session.
3. It converts the output tensor back to an opaque RGBA image of the
   tensor's own size.

If inference fails off "cpu", it asks the caller to reload with another
provider. On "cpu" it rethrows the error.

Modules:

- `Wrappers`: `Option` and `Result`.
- `Providers`: the provider enumeration, the priority list, `indexOf` and the
  successor function (`getNextProvider`, both the class's copy and the
  component's pure copy).
- `Layout`: the `ImageData` class, the index maps, `Preprocess` and
  `Postprocess`. Each is a method that fills a fresh array with the source's
  triple-nested loops and is proved equal to a specification function
  (`TensorOf`, `PixelsOf`). The element formulas, the in-range and injective
  index maps, the clamp and the round trip are proved about those functions.
- `Upscaler`: the class `UpscalerOnnxRuntimeWeb` with the fields `session`
  and `executionProvider`, and the methods `LoadModel`, `TryLoadModel`,
  `Upscale` and `GetNextProvider`. `Upscale` is proved against the value
  function `UpscaleOutcome`.

`Upscaler.FallbackScenario` is a client that uses the contracts alone. It
loads through an engine that accepts only "cpu" and checks that this takes
two failed attempts. With a run that always throws, it checks that
`Upscale` gives "Fallback required" on "webgpu" and the original error on
"cpu".

The inference engine is an oracle passed in as parameters.
`ort.InferenceSession.create` becomes a `SessionFactory`, giving a session
per (model URL, provider) or `None` when creation throws. `session.run`
becomes a `SessionRunner`, which either throws or returns a map of named
tensors. Pixel values are exact reals: `v / 255` is exact and `Math.round(x)`
is `(x + 0.5).Floor`.

Facts about the code that the model keeps:

- The code has no "awaiting fallback" state. A failed `upscale` changes
  neither field.
- "Fallback required" does not name the next provider.
- A failure on "cpu" rethrows the original error. There is no separate
  "inference exhausted" error.
- There is no separate "missing output" error. A result without "output"
  makes the `.dims` read throw a `TypeError` inside the `try`. That error
  goes down the same fallback path as a failed run (`OutputMissing`,
  `MissingOutputFallsBack`).
- A `loadModel` in which every provider fails keeps the previous session and
  provider rather than reverting to "unloaded". Its error names no providers;
  the model returns the warned-about providers as `failed`.
- The session options always name "webgpu" as the execution provider. Only
  the global wasm tuning depends on the provider being tried. The factory's
  provider argument stands for everything that may differ between the
  attempts.
- That tuning (`ort.env.wasm.numThreads = 4`, `simd = true`) is global and is
  never reset. After a "wasm" attempt, the "cpu" attempt makes the same
  `create(modelUrl, options)` call under the same settings. A
  `SessionFactory` may therefore tell "wasm" and "cpu" apart although the
  program does not.

## Model

| member | source | states |
|---|---|---|
| `Providers.IndexOf` | src/components/Upscaler.tsx:91 | `indexOf`: the result is -1 exactly when the provider is absent, and otherwise is the position of its first occurrence |
| `Providers.NextProvider` | src/components/Upscaler.tsx:327-335 | the component's `getNextProvider`: webgpu maps to wasm, wasm to cpu, cpu to null; a successor is always one place later in the priority list |
| `Providers.OrderIsChain` | src/components/Upscaler.tsx:30 | each provider sits at its own position in `["webgpu","wasm","cpu"]`, and the successor of entry i is entry i+1, with none after the last |
| `Layout.ImageData.constructor` | src/components/Upscaler.tsx:183 | `new ImageData(width, height)` may be called only with a positive width and height (the browser throws for zero); it has that size and a zeroed buffer of width·height·4 bytes |
| `Layout.NchwDecode` | src/components/Upscaler.tsx:144 | `c*H*W + h*W + w` lies below 3·H·W, and division and remainder recover c, h and w from it |
| `Layout.NchwEncode` | src/components/Upscaler.tsx:144 | every position below 3·H·W is `c*H*W + h*W + w` for some in-range c, h, w |
| `Layout.RgbaDecode` | src/components/Upscaler.tsx:143 | `(h*W + w)*4 + c` lies below 4·W·H, and division and remainder recover h, w and c from it |
| `Layout.RgbaEncode` | src/components/Upscaler.tsx:187 | every position below 4·W·H is `(y*width + x)*4 + c` for some in-range y, x, c |
| `Layout.Normalize` | src/components/Upscaler.tsx:145 | `b / 255` scaled back by 255 is b, and a byte maps into [0, 1] |
| `Layout.TensorOfAt` | src/components/Upscaler.tsx:138-150 | the tensor of a W×H image has dims [1,3,H,W] and 3·H·W elements; element `c*H*W + h*W + w` is byte `(h*W + w)*4 + c` divided by 255; every index read and written is in bounds |
| `Layout.TensorIndexInjective` | src/components/Upscaler.tsx:140-147 | distinct (c, h, w) give distinct tensor slots and distinct source bytes, so every slot is written once, and no alpha byte (offset 3) is read |
| `Layout.Preprocess` | src/components/Upscaler.tsx:136-151 | the triple loop over a fresh `W*H*3` buffer produces exactly `TensorOf(W, H, data)` |
| `Layout.Round` | src/components/Upscaler.tsx:195 | `Math.round` returns the integer within one half of x, with halves rounded up |
| `Layout.ToByte` | src/components/Upscaler.tsx:193-196 | the clamped, rounded `v*255` is always in [0, 255]; it is 0 for v ≤ 0 (e.g. -0.5), 255 for v ≥ 1 (e.g. 1.5), and the nearest byte in between |
| `Layout.OutputByte` | src/components/Upscaler.tsx:190-196 | a value read inside the buffer goes through `ToByte`; a read past the end is NaN and is stored as 0 |
| `Layout.OutputSize` | src/components/Upscaler.tsx:160-183 | the output size is (height, width) = (`dims[2]`, `dims[3]`); it exists exactly when `dims` has both entries and they meet `Accepts`, the precondition of the `ImageData` constructor that `Postprocess` calls with them |
| `Layout.PixelsOfAt` | src/components/Upscaler.tsx:185-199 | output byte `(y*width + x)*4 + c` is 255 for alpha; for colour it is `ToByte` of tensor element `c*height*width + y*width + x` when that element exists, and 0 when it lies past the end of the data; every byte is in [0, 255] |
| `Layout.Postprocess` | src/components/Upscaler.tsx:153-203 | fails exactly when the size is refused; otherwise the image is `dims[3]` wide and `dims[2]` high whatever the original size, its buffer is `PixelsOf(t, dims[2], dims[3])`, and the image and its buffer are newly allocated |
| `Layout.ToByteOfNormalize` | src/components/Upscaler.tsx:145 | with exact arithmetic, `round(b / 255 * 255)` clamped is b for every byte b |
| `Layout.RoundTrip` | src/components/Upscaler.tsx:140-147 | postprocessing the tensor of an image with unchanged dims keeps the size, reproduces every colour byte and sets every alpha byte to 255 |
| `Layout.OpaqueRoundTrip` | src/components/Upscaler.tsx:193-198 | an image whose alpha bytes are already 255 survives the round trip unchanged |
| `Layout.Convert` | src/components/Upscaler.tsx:160-183 | the picture exists exactly when the size is accepted, and its width and height are `dims[3]` and `dims[2]` |
| `Layout.ConvertWellFormed` | src/components/Upscaler.tsx:193-198 | every output picture has width·height·4 bytes, all in [0, 255], and every alpha byte is 255 |
| `Upscaler.FirstAccepting` | src/components/Upscaler.tsx:30-42 | the chosen position is the first provider whose session creation succeeds; every earlier one failed; it is past the end when all fail |
| `Upscaler.Recover` | src/components/Upscaler.tsx:115-133 | the `catch` gives "Fallback required" off "cpu" and the original error on "cpu"; the null check on the next provider never decides |
| `Upscaler.UpscaleOutcome` | src/components/Upscaler.tsx:97-134 | "Model not loaded" exactly without a session; success exactly when the run, the output lookup and the conversion succeed; on failure, "Fallback required" exactly off "cpu" and the original error on "cpu" |
| `Upscaler.UpscalerOnnxRuntimeWeb.constructor` | src/components/Upscaler.tsx:21-27 | a new upscaler has no session and "webgpu" as its provider |
| `Upscaler.UpscalerOnnxRuntimeWeb.LoadModel` | src/components/Upscaler.tsx:29-43 | providers are tried in the order webgpu, wasm, cpu; the method stops at the first success and sets the session and provider from it; the warned-about providers are exactly those before it; if all fail, neither field changes |
| `Upscaler.UpscalerOnnxRuntimeWeb.TryLoadModel` | src/components/Upscaler.tsx:76-86 | `session` and `executionProvider` are assigned only when session creation succeeds; a failed creation changes neither |
| `Upscaler.UpscalerOnnxRuntimeWeb.GetNextProvider` | src/components/Upscaler.tsx:89-95 | there is no next provider exactly on "cpu"; otherwise the next provider is the one after the current provider in the priority list |
| `Upscaler.UpscalerOnnxRuntimeWeb.Upscale` | src/components/Upscaler.tsx:97-134 | the outcome is `UpscaleOutcome` of the current session and provider, and any image returned is newly allocated and holds the converted output; with no `modifies` clause, no outcome changes `session` or `executionProvider` |
| `Upscaler.IdentityEngineRoundTrip` | src/components/Upscaler.tsx:102-114 | with an engine that returns its input as "output", `upscale` returns the image at its own size, with colour bytes unchanged and alpha 255 |
| `Upscaler.MissingOutputFallsBack` | src/components/Upscaler.tsx:107-110 | outputs without "output" lead to "Fallback required" off "cpu" and to the rethrown `TypeError` on "cpu" |

## Left out

- The React component `Upscaler` (hooks, canvas, `FileReader`, DOM rendering) is presentation. Only its copy of `getNextProvider` is modelled.
- The ONNX Runtime engine is an oracle (`SessionFactory`, `SessionRunner`); session creation and execution themselves are foreign library calls.
- The session option contents and the global `ort.env.wasm` thread and SIMD settings are also left out. They are opaque configuration passed to the library.
- `console.log`, `console.warn` and `console.error` output, including the uneven-scale warning, are left out. That warning is a float-ratio diagnostic that never affects the result. The only log kept is the failed-provider list, returned as data.
- `expectedInputShape` is assigned in the constructor and never read. The input and output names are fixed, so they are module constants.
- IEEE float32 storage and arithmetic: values are exact reals.
- Async suspension: all calls are sequential.
- `export/export.py` and `export/quantize.py` are left out. They are model-export scripts made only of foreign library calls.
- Layout.OutputSize: very large positive sizes, for which the `ImageData` buffer cannot be allocated, are treated as accepted. A negative size is treated as refused, because it wraps to a size no buffer can hold.
- Layout.Preprocess: requires the buffer length width·height·4, which every browser `ImageData` guarantees.
- Upscaler.UpscalerOnnxRuntimeWeb.Upscale: "performs no conversion when no session is loaded" holds because the body returns before `Preprocess`. No contract states it.
