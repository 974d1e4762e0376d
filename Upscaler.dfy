/**
 * The orchestrator `UpscalerONNXRuntimeWeb`: it loads a model with the first
 * execution provider that accepts it, and upscales an image by converting it
 * to a tensor, running the session and converting the output back. The
 * inference engine is an oracle: a session factory and a session runner
 * passed in by the caller.
 */
module Upscaler {
  import opened Wrappers
  import opened Providers
  import opened Layout

  /** The input and output names the constructor fixes to match the model. */
  const InputName: string := "input"
  const OutputName: string := "output"

  /** An engine session handle; what it is inside the engine is not modelled. */
  datatype Session = Session(handle: nat)

  /**
   * The errors that can reach the `catch` of `upscale`: an engine failure,
   * the `TypeError` of reading `.dims` when the outputs lack "output", and
   * the `ImageData` constructor refusing the output size.
   */
  datatype Error = EngineError(message: string) | OutputMissing | ImageSizeRejected

  /** What one `session.run(feeds)` does: throw, or return the named output tensors. */
  datatype RunOutcome = Threw(message: string) | Returned(outputs: map<string, Tensor>)

  /** `ort.InferenceSession.create(modelUrl, options)` tried with a provider: a session, or `None` when it throws. */
  type SessionFactory = (string, Provider) -> Option<Session>

  /** `session.run(feeds)`. */
  type SessionRunner = (Session, map<string, Tensor>) -> RunOutcome

  /** How `upscale` ends: the image, or one of the three ways it throws. */
  datatype Upscaled<+I> = Ok(image: I) | NotLoaded | FallbackRequired | Rethrown(error: Error)

  /**
   * The position in `order` of the first provider whose session creation
   * succeeds, or `|order|` when none does: every provider before it failed.
   */
  function FirstAccepting(modelUrl: string, create: SessionFactory, order: seq<Provider>): (i: nat)
    ensures i <= |order|
    ensures forall j :: 0 <= j < i ==> create(modelUrl, order[j]).None?
    ensures i < |order| ==> create(modelUrl, order[i]).Some?
  {
    if order == [] then 0
    else if create(modelUrl, order[0]).Some? then 0
    else 1 + FirstAccepting(modelUrl, create, order[1..])
  }

  /**
   * The body of the `try` in `upscale`: run the session on the tensor of the
   * image under the input name, take the tensor named "output" and convert
   * it to a picture.
   */
  function Inference(s: Session, W: nat, H: nat, bytes: seq<int>, run: SessionRunner): Result<Picture, Error>
    requires |bytes| == W * H * 4
  {
    match run(s, map[InputName := TensorOf(W, H, bytes)])
    case Threw(message) => Failure(EngineError(message))
    case Returned(outputs) =>
      if OutputName !in outputs then Failure(OutputMissing)
      else
        match Convert(outputs[OutputName])
        case None => Failure(ImageSizeRejected)
        case Some(p) => Success(p)
  }

  /**
   * The `catch` of `upscale`: off the last provider it asks for a reload
   * with the next one, on "cpu" it rethrows the original error. The check
   * that a next provider exists never fails, because only "cpu" has none.
   */
  function Recover<I>(e: Error, provider: Provider): (r: Upscaled<I>)
    ensures r == if provider == Cpu then Rethrown(e) else FallbackRequired
  {
    if provider != Cpu && NextProvider(provider).Some? then FallbackRequired else Rethrown(e)
  }

  /**
   * What `upscale` does, as a value: without a session it throws "Model not
   * loaded"; otherwise it returns the converted output, or on any failure
   * inside the `try` asks for a fallback off "cpu" and rethrows on "cpu".
   */
  function UpscaleOutcome(session: Option<Session>, provider: Provider, W: nat, H: nat, bytes: seq<int>, run: SessionRunner): (r: Upscaled<Picture>)
    requires |bytes| == W * H * 4
    ensures r.NotLoaded? <==> session.None?
    ensures r.Ok? <==> session.Some? && Inference(session.value, W, H, bytes, run).Success?
    ensures r.Ok? ==> Inference(session.value, W, H, bytes, run) == Success(r.image)
    ensures r.FallbackRequired? <==> session.Some? && Inference(session.value, W, H, bytes, run).Failure? && provider != Cpu
    ensures r.Rethrown? ==> session.Some? && provider == Cpu && Inference(session.value, W, H, bytes, run) == Failure(r.error)
  {
    match session
    case None => NotLoaded
    case Some(s) =>
      match Inference(s, W, H, bytes, run)
      case Success(p) => Ok(p)
      case Failure(e) => Recover(e, provider)
  }

  /** The outcome `r` of the method is the outcome `o` of the model, with the image read as a picture. */
  ghost predicate Agrees(r: Upscaled<ImageData>, o: Upscaled<Picture>)
    reads if r.Ok? then {r.image.data} else {}
  {
    match r
    case Ok(image) => o.Ok? && Shows(image, o.image)
    case NotLoaded => o.NotLoaded?
    case FallbackRequired => o.FallbackRequired?
    case Rethrown(e) => o == Rethrown(e)
  }

  class UpscalerOnnxRuntimeWeb {
    var session: Option<Session>
    var executionProvider: Provider

    /** A fresh upscaler has no session and "webgpu" as its provider. */
    constructor ()
      ensures session == None && executionProvider == WebGpu
    {
      session := None;
      executionProvider := WebGpu;
    }

    /**
     * `loadModel`: tries "webgpu", "wasm" and "cpu" strictly in that order
     * and stops at the first that accepts the model; `failed` lists the
     * providers warned about before it. When all three fail it throws
     * (`loaded` is false) and neither field has changed.
     */
    method LoadModel(modelUrl: string, create: SessionFactory) returns (loaded: bool, failed: seq<Provider>)
      modifies this
      ensures var i := FirstAccepting(modelUrl, create, Order);
        failed == Order[..i] && (loaded <==> i < |Order|) &&
        (loaded ==> session == create(modelUrl, Order[i]) && executionProvider == Order[i]) &&
        (!loaded ==> session == old(session) && executionProvider == old(executionProvider))
    {
      var providers := Order;
      failed := [];
      for k := 0 to |providers|
        invariant failed == providers[..k]
        invariant forall j :: 0 <= j < k ==> create(modelUrl, providers[j]).None?
        invariant session == old(session) && executionProvider == old(executionProvider)
      {
        var ok := TryLoadModel(modelUrl, providers[k], create);
        if ok {
          loaded := true;
          return;
        }
        failed := failed + [providers[k]];
      }
      loaded := false;
    }

    /**
     * `tryLoadModel`: creates a session for `provider`; only when creation
     * succeeds are `session` and then `executionProvider` assigned.
     */
    method TryLoadModel(modelUrl: string, provider: Provider, create: SessionFactory) returns (ok: bool)
      modifies this
      ensures ok <==> create(modelUrl, provider).Some?
      ensures ok ==> session == create(modelUrl, provider) && executionProvider == provider
      ensures !ok ==> session == old(session) && executionProvider == old(executionProvider)
    {
      var created := create(modelUrl, provider);
      if created.None? {
        return false;
      }
      session := created;
      executionProvider := provider;
      ok := true;
    }

    /** `getNextProvider`: the provider after the current one in the priority list, none after "cpu". */
    function GetNextProvider(): (r: Option<Provider>)
      reads this
      ensures r.None? <==> executionProvider == Cpu
      ensures r.Some? ==> IndexOf(Order, r.value) == IndexOf(Order, executionProvider) + 1
    {
      NextProvider(executionProvider)
    }

    /**
     * `upscale`: its outcome is `UpscaleOutcome` of the current session and
     * provider. It has no `modifies` clause: no outcome, and in particular no
     * failure, changes `session` or `executionProvider`.
     */
    method Upscale(imageData: ImageData, run: SessionRunner) returns (r: Upscaled<ImageData>)
      requires imageData.data.Length == imageData.width * imageData.height * 4
      ensures Agrees(r, UpscaleOutcome(session, executionProvider, imageData.width, imageData.height, imageData.data[..], run))
      ensures r.Ok? ==> fresh(r.image) && fresh(r.image.data)
    {
      if session.None? {
        return NotLoaded;
      }
      var tensor := Preprocess(imageData);
      var feeds := map[InputName := tensor];
      var error: Error;
      match run(session.value, feeds) {
        case Threw(message) =>
          error := EngineError(message);
        case Returned(outputMap) =>
          if OutputName !in outputMap {
            error := OutputMissing;
          } else {
            var output := Postprocess(outputMap[OutputName], imageData.width, imageData.height);
            if output.Some? {
              return Ok(output.value);
            }
            error := ImageSizeRejected;
          }
      }
      if executionProvider != Cpu {
        var nextProvider := GetNextProvider();
        if nextProvider.Some? {
          return FallbackRequired;
        }
      }
      return Rethrown(error);
    }
  }

  /**
   * With an engine that hands the input tensor back unchanged as "output",
   * `upscale` of a valid image returns an image of the same size with every
   * colour byte reproduced and every pixel opaque.
   */
  lemma IdentityEngineRoundTrip(s: Session, provider: Provider, W: nat, H: nat, bytes: seq<int>, run: SessionRunner)
    requires W >= 1 && H >= 1 && |bytes| == W * H * 4
    requires forall i :: 0 <= i < |bytes| ==> 0 <= bytes[i] <= 255
    requires run(s, map[InputName := TensorOf(W, H, bytes)]) == Returned(map[OutputName := TensorOf(W, H, bytes)])
    ensures var r := UpscaleOutcome(Some(s), provider, W, H, bytes, run);
      r.Ok? && r.image.width == W && r.image.height == H && |r.image.pixels| == |bytes| &&
      forall k :: 0 <= k < |bytes| ==> r.image.pixels[k] == if k % 4 == 3 then 255 else bytes[k]
  {
    RoundTrip(W, H, bytes);
  }

  /**
   * Outputs without "output" take the same path as a run that throws: a
   * fallback request off "cpu", and on "cpu" the error is rethrown.
   */
  lemma MissingOutputFallsBack(s: Session, provider: Provider, W: nat, H: nat, bytes: seq<int>, run: SessionRunner)
    requires |bytes| == W * H * 4
    requires run(s, map[InputName := TensorOf(W, H, bytes)]).Returned?
    requires OutputName !in run(s, map[InputName := TensorOf(W, H, bytes)]).outputs
    ensures UpscaleOutcome(Some(s), provider, W, H, bytes, run) ==
      if provider == Cpu then Rethrown(OutputMissing) else FallbackRequired
  {
  }

  /**
   * A client of the contracts alone: an engine that accepts the model only
   * on "cpu" is loaded after exactly two failed attempts. Then an engine
   * whose runs always throw gives "Fallback required" on "webgpu" and the
   * original error on "cpu", and neither failure changes the provider.
   */
  method FallbackScenario(modelUrl: string)
  {
    var upscaler := new UpscalerOnnxRuntimeWeb();
    var image := new ImageData(2, 2);
    var failing: SessionRunner := (s, feeds) => Threw("device lost");

    var r := upscaler.Upscale(image, failing);
    assert r.NotLoaded?;

    var gpuOnly: SessionFactory := (url, p) => if p == WebGpu then Some(Session(1)) else None;
    var loaded, failed := upscaler.LoadModel(modelUrl, gpuOnly);
    assert FirstAccepting(modelUrl, gpuOnly, Order) == 0;
    assert loaded && failed == [] && upscaler.executionProvider == WebGpu;
    r := upscaler.Upscale(image, failing);
    assert r.FallbackRequired? && upscaler.executionProvider == WebGpu;

    var cpuOnly: SessionFactory := (url, p) => if p == Cpu then Some(Session(2)) else None;
    loaded, failed := upscaler.LoadModel(modelUrl, cpuOnly);
    assert cpuOnly(modelUrl, Order[0]).None? && cpuOnly(modelUrl, Order[1]).None? && cpuOnly(modelUrl, Order[2]).Some?;
    assert FirstAccepting(modelUrl, cpuOnly, Order) == 2;
    assert loaded && failed == [WebGpu, Wasm] && upscaler.executionProvider == Cpu;
    r := upscaler.Upscale(image, failing);
    assert r == Rethrown(EngineError("device lost")) && upscaler.session == Some(Session(2));
  }
}
