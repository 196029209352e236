/**
 * The non-config workflow object: an inference workflow whose network,
 * inferer and pre- and post-processing are built in code, each only when no
 * caller has injected one, and bound into an evaluator by `initialize`.
 */
module Workflow {
  import opened Wrappers
  import opened Framework
  import opened Properties

  /** The value `initialize` builds for an unset slot; nothing for the two slots it never fills. */
  function DefaultFor(k: Slot, outputDir: string): Option<Value>
  {
    match k
    case BundleRoot => None
    case Device => None
    case NetworkDef => Some(DefaultNetwork)
    case Inferer => Some(DefaultInferer)
    case Preprocessing => Some(DefaultPreprocessing)
    case Postprocessing => Some(DefaultPostprocessing(outputDir))
  }

  /** `o` when it holds a value, otherwise `d`. */
  function OrDefault(o: Option<Value>, d: Value): Option<Value>
  {
    if o.None? then Some(d) else o
  }

  /** The slots after `initialize`: each of the four lazy slots gets its default only if unset. */
  function WithDefaults(s: Slots, outputDir: string): (r: Slots)
    ensures forall k: Slot :: s.At(k).Some? ==> r.At(k) == s.At(k)
    ensures r.bundleRoot == s.bundleRoot && r.device == s.device
    ensures r.networkDef.Some? && r.inferer.Some? && r.preprocessing.Some? && r.postprocessing.Some?
  {
    s.(preprocessing := OrDefault(s.preprocessing, DefaultPreprocessing),
       networkDef := OrDefault(s.networkDef, DefaultNetwork),
       inferer := OrDefault(s.inferer, DefaultInferer),
       postprocessing := OrDefault(s.postprocessing, DefaultPostprocessing(outputDir)))
  }

  /** Slot by slot: an injected value is kept, an unset slot takes its default. */
  lemma WithDefaultsAt(s: Slots, outputDir: string, k: Slot)
    ensures WithDefaults(s, outputDir).At(k) == if s.At(k).Some? then s.At(k) else DefaultFor(k, outputDir)
  {
  }

  /** Initializing twice is the same as initializing once. */
  lemma WithDefaultsIdempotent(s: Slots, outputDir: string)
    ensures WithDefaults(WithDefaults(s, outputDir), outputDir) == WithDefaults(s, outputDir)
  {
  }

  /** A value injected with `_set_property` before `initialize` is what the name reads afterwards. */
  lemma OverrideSurvivesInitialize(s: Slots, name: string, spec: PropertySpec,
                                    v: Value, outputDir: string, getSpec: PropertySpec)
    requires ParseName(name).Some?
    ensures Assign(s, name, spec, Some(v)).Ok?
    ensures Lookup(WithDefaults(Assign(s, name, spec, Some(v)).value, outputDir), name, getSpec) == Ok(Some(v))
  {
  }

  /** After `initialize`, the four lazily built properties all read as set. */
  lemma LazyPropertiesReadableAfterInitialize(s: Slots, outputDir: string, k: Slot, spec: PropertySpec)
    requires k in {NetworkDef, Inferer, Preprocessing, Postprocessing}
    ensures Lookup(WithDefaults(s, outputDir), NameOf(k), spec).Ok?
    ensures Lookup(WithDefaults(s, outputDir), NameOf(k), spec).value.Some?
  {
  }

  /** The evaluator `initialize` binds to the given slots and input file. */
  function BindEvaluator(s: Slots, filename: string): (e: Evaluator)
    ensures e.device == s.At(Device) && e.network == s.At(NetworkDef)
    ensures e.inferer == s.At(Inferer) && e.postprocessing == s.At(Postprocessing)
    ensures e.valDataLoader.images == [filename] && e.valDataLoader.transform == s.At(Preprocessing)
    ensures e.valDataLoader.batchSize == 1 && e.valDataLoader.numWorkers == 4 && !e.amp
  {
    Evaluator(s.device, Loader([filename], s.preprocessing, 1, 4), s.networkDef, s.inferer, s.postprocessing, false)
  }

  class NonConfigWorkflow {
    /** The role tag passed to the bundle workflow base class. */
    const workflow: string
    var filename: string
    var outputDir: string
    var bundleRoot: Option<Value>
    var device: Option<Value>
    var networkDef: Option<Value>
    var inferer: Option<Value>
    var preprocessing: Option<Value>
    var postprocessing: Option<Value>
    var evaluator: Option<Evaluator>
    /** The evaluators `run` has delegated to, in order. */
    ghost var runs: seq<Evaluator>

    /** The six property slots as one record. */
    function PropertySlots(): Slots
      reads this
    {
      Slots(bundleRoot, device, networkDef, inferer, preprocessing, postprocessing)
    }

    constructor (filename: string, outputDir: string)
      ensures workflow == "inference"
      ensures this.filename == filename && this.outputDir == outputDir
      ensures bundleRoot == Some(Path("will override")) && device == Some(Cpu)
      ensures networkDef == None && inferer == None
      ensures preprocessing == None && postprocessing == None
      ensures evaluator == None && runs == []
    {
      workflow := "inference";
      this.filename := filename;
      this.outputDir := outputDir;
      bundleRoot := Some(Path("will override"));
      device := Some(Cpu);
      networkDef := None;
      inferer := None;
      preprocessing := None;
      postprocessing := None;
      evaluator := None;
      runs := [];
    }

    /**
     * Builds the defaults that are still missing, then binds the evaluator to
     * the current device, network, inferer and post-processing and to a
     * loader over the input file.
     */
    method Initialize()
      modifies this`preprocessing, this`networkDef, this`inferer, this`postprocessing, this`evaluator
      ensures PropertySlots() == WithDefaults(old(PropertySlots()), outputDir)
      ensures evaluator == Some(BindEvaluator(PropertySlots(), filename))
    {
      if preprocessing.None? {
        preprocessing := Some(DefaultPreprocessing);
      }
      var dataloader := Loader([filename], preprocessing, 1, 4);
      if networkDef.None? {
        networkDef := Some(DefaultNetwork);
      }
      if inferer.None? {
        inferer := Some(DefaultInferer);
      }
      if postprocessing.None? {
        postprocessing := Some(DefaultPostprocessing(outputDir));
      }
      evaluator := Some(Evaluator(device, dataloader, networkDef, inferer, postprocessing, false));
    }

    /** Delegates once to the evaluator; raises when `initialize` has not built one. */
    method Run() returns (r: Outcome<Error>)
      modifies this`runs
      ensures r == (if evaluator.None? then Fail(NoEvaluator) else Pass)
      ensures runs == if evaluator.None? then old(runs) else old(runs) + [evaluator.value]
    {
      if evaluator.None? {
        return Fail(NoEvaluator);
      }
      runs := runs + [evaluator.value];
      r := Pass;
    }

    /** Teardown reports success, whatever the state. */
    function Finalize(): (ok: bool)
      ensures ok
    {
      true
    }

    /** `_get_property` on this object's slots. */
    function GetProperty(name: string, spec: PropertySpec): (r: Result<Option<Value>, Error>)
      reads this
      ensures ParseName(name).Some? ==> r == Ok(PropertySlots().At(ParseName(name).value))
      ensures r.Err? <==> ParseName(name).None? && spec.required
      ensures r.Err? ==> r.error == UnsupportedProperty(name)
      ensures ParseName(name).None? && r.Ok? ==> r.value == None
    {
      Lookup(PropertySlots(), name, spec)
    }

    /** Stores `value` in the named slot; an unknown name raises when required and is ignored otherwise. */
    method SetProperty(name: string, spec: PropertySpec, value: Option<Value>) returns (r: Outcome<Error>)
      modifies this`bundleRoot, this`device, this`networkDef, this`inferer,
               this`preprocessing, this`postprocessing
      ensures Assign(old(PropertySlots()), name, spec, value)
           == (if r.Pass? then Ok(PropertySlots()) else Err(r.error))
      ensures r.Fail? ==> PropertySlots() == old(PropertySlots())
      ensures r.Pass? && ParseName(name).Some? ==> GetProperty(name, spec) == Ok(value)
    {
      r := Pass;
      if name == "bundle_root" {
        bundleRoot := value;
      } else if name == "device" {
        device := value;
      } else if name == "network_def" {
        networkDef := value;
      } else if name == "inferer" {
        inferer := value;
      } else if name == "preprocessing" {
        preprocessing := value;
      } else if name == "postprocessing" {
        postprocessing := value;
      } else if spec.required {
        r := Fail(UnsupportedProperty(name));
      }
    }
  }
}
