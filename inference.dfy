/**
 * The inference side (app/src/model.py): the lazily loaded model held in
 * `_model`, `load_model(force_reload)`, and `predict_image_bytes`, whose
 * error answers are modelled exactly and whose numerics are opaque.
 */
module Inference {
  import opened Common
  import Registry

  const ModelPath := "/models/model_latest.pth"

  const ClassNames: seq<string> :=
    ["airplane", "automobile", "bird", "cat", "deer", "dog", "frog", "horse", "ship", "truck"]

  /** The app loads the file the trainer promotes. */
  lemma ModelPathIsLatest()
    ensures ModelPath == Registry.Latest
  {
  }

  /** A network built with `len(CLASS_NAMES)` outputs and the given state dict loaded. */
  datatype Net = Net(weights: Bytes)

  /** `model_latest.pth` as `load_model` finds it. */
  datatype LatestFile =
    | Absent                     // os.path.exists is false
    | Loadable(weights: Bytes)   // torch.load and load_state_dict succeed
    | Corrupt(message: string)   // one of them raises, with this str(e)

  /**
   * The latest file inside the model directory, given which contents fail
   * to load and with which message.
   */
  function LatestIn(files: map<string, Bytes>, loadError: Bytes -> Option<string>): LatestFile {
    if Registry.Latest !in files then Absent
    else match loadError(files[Registry.Latest])
      case Some(m) => Corrupt(m)
      case None => Loadable(files[Registry.Latest])
  }

  /** What `load_model` returns, or the exception it lets through. */
  datatype LoadResult = Returned(ok: bool) | LoadRaised(message: string)

  /**
   * `load_model(force_reload)` on the cached model: the result and the
   * cache afterwards. A cached model is kept unless a reload is forced; a
   * missing file gives `False` and changes nothing; otherwise the model is
   * rebuilt from the file.
   */
  function LoadStep(cached: Option<Net>, force: bool, latest: LatestFile): (LoadResult, Option<Net>) {
    if cached.Some? && !force then (Returned(true), cached)
    else match latest
      case Absent => (Returned(false), cached)
      case Corrupt(m) => (LoadRaised(m), cached)
      case Loadable(w) => (Returned(true), Some(Net(w)))
  }

  /**
   * The three transitions: a cached model without a forced reload is kept
   * and reported; a missing file changes nothing and reports `False`; a
   * loadable file replaces the cache, whatever it held.
   */
  lemma LoadTransitions(cached: Option<Net>, force: bool, latest: LatestFile)
    ensures cached.Some? && !force ==> LoadStep(cached, force, latest) == (Returned(true), cached)
    ensures (cached.None? || force) && latest.Absent? ==> LoadStep(cached, force, latest) == (Returned(false), cached)
    ensures (cached.None? || force) && latest.Loadable?
            ==> LoadStep(cached, force, latest) == (Returned(true), Some(Net(latest.weights)))
    ensures LoadStep(cached, force, latest).0 == Returned(true) ==> LoadStep(cached, force, latest).1.Some?
    ensures LoadStep(cached, force, latest).1 != cached ==> LoadStep(cached, force, latest).1 == Some(Net(latest.weights))
  {
  }

  /** A forced reload always reads the file when it exists, even with a model cached. */
  lemma ForceReadsFile(cached: Option<Net>, w: Bytes)
    ensures LoadStep(cached, true, Loadable(w)) == (Returned(true), Some(Net(w)))
  {
  }

  /**
   * Loading twice without forcing is loading once: the second call keeps
   * the model the first one left, whatever the file now holds.
   */
  lemma LoadTwice(cached: Option<Net>, latest1: LatestFile, latest2: LatestFile)
    requires LoadStep(cached, false, latest1).0 == Returned(true)
    ensures var m := LoadStep(cached, false, latest1).1;
            LoadStep(m, false, latest2) == (Returned(true), m)
  {
  }

  /**
   * Once the trainer has promoted an artifact that loads, a forced reload
   * serves exactly its weights.
   */
  lemma PromotedIsServed(files: map<string, Bytes>, path: string, loadError: Bytes -> Option<string>, cached: Option<Net>)
    requires Registry.Promote(files, path).0.None?
    requires loadError(files[path]).None?
    ensures LoadStep(cached, true, LatestIn(Registry.Promote(files, path).1, loadError))
            == (Returned(true), Some(Net(files[path])))
  {
  }

  // ---------------------------------------------------------------------
  // Prediction

  /**
   * What `Image.open(...).convert("RGB")` gives: the image's RGB pixels,
   * or `UnidentifiedImageError`.
   */
  datatype ImageInput = Decoded(pixels: Bytes) | Unidentified

  /** The dictionary `predict_image_bytes` returns, or the exception it lets through. */
  datatype Prediction =
    | Predicted(className: string, confidence: real)
    | Error(message: string)
    | PredictRaised(message: string)

  const NoModelError := "No model at " + ModelPath
  const InvalidImage := "Invalid image file"

  /** `torch.max(probs, 0)`: the first index holding the largest value. */
  function ArgMax(s: seq<real>): (i: nat)
    requires |s| > 0
    ensures i < |s|
    ensures forall j :: 0 <= j < |s| ==> s[j] <= s[i]
    ensures forall j :: 0 <= j < i ==> s[j] < s[i]
  {
    if |s| == 1 then 0
    else
      var k := ArgMax(s[..|s| - 1]);
      assert forall j :: 0 <= j < |s| - 1 ==> s[..|s| - 1][j] == s[j];
      if s[|s| - 1] > s[k] then |s| - 1 else k
  }

  /** The answer for a decoded image on a loaded network: the most probable class. */
  function Classify(net: Net, pixels: Bytes, forward: (Net, Bytes) -> seq<real>): Prediction
    requires forall n: Net, x: Bytes :: |forward(n, x)| == |ClassNames|
  {
    var probs := forward(net, pixels);
    var i := ArgMax(probs);
    Predicted(ClassNames[i], probs[i])
  }

  /**
   * `predict_image_bytes(image_bytes)` on the cached model: the answer and
   * the cache afterwards. `forward` is the network followed by `softmax`.
   */
  function PredictOutcome(cached: Option<Net>, image: ImageInput, latest: LatestFile,
                             forward: (Net, Bytes) -> seq<real>): (Prediction, Option<Net>)
    requires forall n: Net, x: Bytes :: |forward(n, x)| == |ClassNames|
  {
    var (loaded, m) := if cached.None? then LoadStep(cached, false, latest) else (Returned(true), cached);
    if loaded.LoadRaised? then (PredictRaised(loaded.message), m)
    else if !loaded.ok then (Error(NoModelError), m)
    else if image.Unidentified? then (Error(InvalidImage), m)
    else (Classify(m.value, image.pixels, forward), m)
  }

  /** With no model and no file, the answer names the missing path and nothing is cached. */
  lemma NoModelAnswer(image: ImageInput, forward: (Net, Bytes) -> seq<real>)
    requires forall n: Net, x: Bytes :: |forward(n, x)| == |ClassNames|
    ensures PredictOutcome(None, image, Absent, forward) == (Error("No model at " + ModelPath), None)
  {
  }

  /**
   * An image that cannot be identified is answered "Invalid image file";
   * a model loaded on the way stays cached.
   */
  lemma InvalidImageAnswer(cached: Option<Net>, latest: LatestFile, forward: (Net, Bytes) -> seq<real>)
    requires forall n: Net, x: Bytes :: |forward(n, x)| == |ClassNames|
    requires cached.Some? || latest.Loadable?
    ensures var (answer, m) := PredictOutcome(cached, Unidentified, latest, forward);
            && answer == Error(InvalidImage)
            && m == (if cached.Some? then cached else Some(Net(latest.weights)))
  {
  }

  /**
   * A prediction names one of the ten classes, with the largest
   * probability the network gives, and the first class holding it.
   */
  lemma PredictionIsAClass(cached: Option<Net>, image: ImageInput, latest: LatestFile,
                              forward: (Net, Bytes) -> seq<real>)
    requires forall n: Net, x: Bytes :: |forward(n, x)| == |ClassNames|
    ensures var (answer, m) := PredictOutcome(cached, image, latest, forward);
            answer.Predicted? ==>
              && m.Some? && image.Decoded?
              && exists i :: 0 <= i < |ClassNames| && ClassNames[i] == answer.className
                     && answer.confidence == forward(m.value, image.pixels)[i]
                     && (forall j :: 0 <= j < |ClassNames| ==> forward(m.value, image.pixels)[j] <= answer.confidence)
                     && (forall j :: 0 <= j < i ==> forward(m.value, image.pixels)[j] < answer.confidence)
  {
    var (answer, m) := PredictOutcome(cached, image, latest, forward);
    if answer.Predicted? {
      var i := ArgMax(forward(m.value, image.pixels));
      assert ClassNames[i] == answer.className;
    }
  }

  /**
   * Predictions keep using a cached model, whatever the file now holds:
   * a newer promoted artifact is served only after a forced reload.
   */
  lemma CachedModelIsStale(net: Net, image: ImageInput, latest: LatestFile, forward: (Net, Bytes) -> seq<real>)
    requires forall n: Net, x: Bytes :: |forward(n, x)| == |ClassNames|
    ensures PredictOutcome(Some(net), image, latest, forward).1 == Some(net)
    ensures image.Decoded? ==> PredictOutcome(Some(net), image, latest, forward).0 == Classify(net, image.pixels, forward)
  {
  }

  /** The module-level `_model`. */
  class ModelCache {
    var model: Option<Net>

    /** Import time: nothing loaded. */
    constructor ()
      ensures model == None
    {
      model := None;
    }

    /** `load_model(force_reload)` */
    method LoadModel(force: bool, latest: LatestFile) returns (result: LoadResult)
      modifies this
      ensures (result, model) == LoadStep(old(model), force, latest)
    {
      if model.Some? && !force {
        return Returned(true);
      }
      if latest.Absent? {
        return Returned(false);
      }
      if latest.Corrupt? {
        return LoadRaised(latest.message);
      }
      model := Some(Net(latest.weights));
      result := Returned(true);
    }

    /** `predict_image_bytes(image_bytes)` */
    method PredictImageBytes(image: ImageInput, latest: LatestFile, forward: (Net, Bytes) -> seq<real>)
      returns (answer: Prediction)
      requires forall n: Net, x: Bytes :: |forward(n, x)| == |ClassNames|
      modifies this
      ensures (answer, model) == PredictOutcome(old(model), image, latest, forward)
    {
      if model.None? {
        var loaded := LoadModel(false, latest);
        if loaded.LoadRaised? {
          return PredictRaised(loaded.message);
        }
        if !loaded.ok {
          return Error(NoModelError);
        }
      }
      if image.Unidentified? {
        return Error(InvalidImage);
      }
      var probs := forward(model.value, image.pixels);
      var i := ArgMax(probs);
      answer := Predicted(ClassNames[i], probs[i]);
    }
  }
}
