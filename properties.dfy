/**
 * The property store of the non-config workflow: six named slots, read and
 * written by name, with the bundle's per-property "required" flag deciding
 * what happens to a name the workflow does not know.
 */
module Properties {
  import opened Wrappers
  import opened Framework

  /** The six property names the workflow supports. */
  datatype Slot = BundleRoot | Device | NetworkDef | Inferer | Preprocessing | Postprocessing

  /** The property name under which each slot is reached. */
  function NameOf(k: Slot): string
  {
    match k
    case BundleRoot => "bundle_root"
    case Device => "device"
    case NetworkDef => "network_def"
    case Inferer => "inferer"
    case Preprocessing => "preprocessing"
    case Postprocessing => "postprocessing"
  }

  /** The slot a property name denotes, if any: the inverse of NameOf. */
  function ParseName(name: string): (r: Option<Slot>)
    ensures r.Some? ==> NameOf(r.value) == name
    ensures r.None? ==> forall k: Slot :: NameOf(k) != name
  {
    if name == "bundle_root" then Some(BundleRoot)
    else if name == "device" then Some(Device)
    else if name == "network_def" then Some(NetworkDef)
    else if name == "inferer" then Some(Inferer)
    else if name == "preprocessing" then Some(Preprocessing)
    else if name == "postprocessing" then Some(Postprocessing)
    else None
  }

  /** Every slot is reached by its own name. */
  lemma ParseNameOf(k: Slot)
    ensures ParseName(NameOf(k)) == Some(k)
  {
  }

  /** The metadata the bundle attaches to a property; only its REQUIRED entry is read. */
  datatype PropertySpec = PropertySpec(required: bool)

  /** What the workflow raises. */
  datatype Error =
    | UnsupportedProperty(name: string)  // ValueError for an unknown required property
    | NoEvaluator                        // AttributeError: `run` before `initialize`

  /** The text the raised exception carries; an unsupported property's name follows its opening quote. */
  function Message(e: Error): (m: string)
    ensures e.UnsupportedProperty? ==> 22 + |e.name| <= |m| && m[22..22 + |e.name|] == e.name
  {
    match e
    case UnsupportedProperty(name) =>
      "unsupported property '" + name + "' is required in the bundle properties."
    case NoEvaluator => "'NoneType' object has no attribute 'run'"
  }

  /** The message of an unsupported-property error determines the offending name. */
  lemma {:induction false} MessageNamesProperty(a: string, b: string)
    requires Message(UnsupportedProperty(a)) == Message(UnsupportedProperty(b))
    ensures a == b
  {
    var prefix, suffix := "unsupported property '", "' is required in the bundle properties.";
    var m := Message(UnsupportedProperty(a));
    assert m == prefix + a + suffix;
    assert m == prefix + b + suffix;
    assert |a| == |b|;
    assert a == m[|prefix|..|prefix| + |a|];
    assert b == m[|prefix|..|prefix| + |b|];
  }

  /** The six slots of one workflow object. */
  datatype Slots = Slots(bundleRoot: Option<Value>, device: Option<Value>,
                         networkDef: Option<Value>, inferer: Option<Value>,
                         preprocessing: Option<Value>, postprocessing: Option<Value>)
  {
    /** The content of slot `k`. */
    function At(k: Slot): Option<Value>
    {
      match k
      case BundleRoot => bundleRoot
      case Device => device
      case NetworkDef => networkDef
      case Inferer => inferer
      case Preprocessing => preprocessing
      case Postprocessing => postprocessing
    }

    /** These slots with slot `k` holding `v` and every other slot as it was. */
    function With(k: Slot, v: Option<Value>): (r: Slots)
      ensures r.At(k) == v
      ensures forall j: Slot :: j != k ==> r.At(j) == At(j)
    {
      match k
      case BundleRoot => this.(bundleRoot := v)
      case Device => this.(device := v)
      case NetworkDef => this.(networkDef := v)
      case Inferer => this.(inferer := v)
      case Preprocessing => this.(preprocessing := v)
      case Postprocessing => this.(postprocessing := v)
    }
  }

  /**
   * `_get_property`: the content of the named slot; for another name, an
   * error when the property is required and nothing otherwise.
   */
  function Lookup(s: Slots, name: string, spec: PropertySpec): (r: Result<Option<Value>, Error>)
    ensures ParseName(name).Some? ==> r == Ok(s.At(ParseName(name).value))
    ensures r.Err? <==> ParseName(name).None? && spec.required
    ensures r.Err? ==> r.error == UnsupportedProperty(name)
    ensures ParseName(name).None? && r.Ok? ==> r.value == None
  {
    if name == "bundle_root" then Ok(s.bundleRoot)
    else if name == "device" then Ok(s.device)
    else if name == "network_def" then Ok(s.networkDef)
    else if name == "inferer" then Ok(s.inferer)
    else if name == "preprocessing" then Ok(s.preprocessing)
    else if name == "postprocessing" then Ok(s.postprocessing)
    else if spec.required then Err(UnsupportedProperty(name))
    else Ok(None)
  }

  /**
   * What `_set_property` does to the slots: the named slot takes the value;
   * another name raises when required and changes nothing otherwise.
   */
  function Assign(s: Slots, name: string, spec: PropertySpec, v: Option<Value>): (r: Result<Slots, Error>)
    ensures ParseName(name).Some? ==> r == Ok(s.With(ParseName(name).value, v))
    ensures r.Err? <==> ParseName(name).None? && spec.required
    ensures r.Err? ==> r.error == UnsupportedProperty(name)
    ensures ParseName(name).None? && r.Ok? ==> r.value == s
  {
    if name == "bundle_root" then Ok(s.(bundleRoot := v))
    else if name == "device" then Ok(s.(device := v))
    else if name == "network_def" then Ok(s.(networkDef := v))
    else if name == "inferer" then Ok(s.(inferer := v))
    else if name == "preprocessing" then Ok(s.(preprocessing := v))
    else if name == "postprocessing" then Ok(s.(postprocessing := v))
    else if spec.required then Err(UnsupportedProperty(name))
    else Ok(s)
  }

  /** Setting a known property and reading it back, under any metadata, gives the value set. */
  lemma LookupAfterAssign(s: Slots, name: string, setSpec: PropertySpec, getSpec: PropertySpec, v: Option<Value>)
    requires ParseName(name).Some?
    ensures Assign(s, name, setSpec, v).Ok?
    ensures Lookup(Assign(s, name, setSpec, v).value, name, getSpec) == Ok(v)
  {
  }

  /** Setting one property leaves what every other name reads unchanged. */
  lemma AssignLeavesOthers(s: Slots, name: string, spec: PropertySpec, v: Option<Value>,
                           other: string, otherSpec: PropertySpec)
    requires Assign(s, name, spec, v).Ok?
    requires other != name
    ensures Lookup(Assign(s, name, spec, v).value, other, otherSpec) == Lookup(s, other, otherSpec)
  {
  }

  /** For a name outside the six, reading and writing raise exactly when the property is required. */
  lemma UnknownNameRaisesIffRequired(s: Slots, name: string, spec: PropertySpec, v: Option<Value>)
    requires forall k: Slot :: NameOf(k) != name
    ensures Lookup(s, name, spec).Err? <==> spec.required
    ensures Assign(s, name, spec, v).Err? <==> spec.required
  {
  }

  /** For an optional name outside the six, reading gives nothing and writing changes nothing. */
  lemma UnknownOptionalIsInert(s: Slots, name: string, spec: PropertySpec, v: Option<Value>)
    requires forall k: Slot :: NameOf(k) != name
    requires !spec.required
    ensures Lookup(s, name, spec) == Ok(None)
    ensures Assign(s, name, spec, v) == Ok(s)
  {
  }

  /** Writing back what a known name reads changes nothing. */
  lemma AssignWhatWasRead(s: Slots, name: string, spec: PropertySpec)
    requires ParseName(name).Some?
    ensures Lookup(s, name, spec).Ok?
    ensures Assign(s, name, spec, Lookup(s, name, spec).value) == Ok(s)
  {
  }

  /** A second write to the same name replaces the first. */
  lemma AssignTwice(s: Slots, name: string, spec1: PropertySpec, v1: Option<Value>,
                    spec2: PropertySpec, v2: Option<Value>)
    requires ParseName(name).Some?
    ensures Assign(s, name, spec1, v1).Ok?
    ensures Assign(Assign(s, name, spec1, v1).value, name, spec2, v2) == Assign(s, name, spec2, v2)
  {
  }

  /** Writes to two different known names can be made in either order. */
  lemma AssignCommutes(s: Slots, n1: string, spec1: PropertySpec, v1: Option<Value>,
                       n2: string, spec2: PropertySpec, v2: Option<Value>)
    requires ParseName(n1).Some? && ParseName(n2).Some? && n1 != n2
    ensures Assign(s, n1, spec1, v1).Ok? && Assign(s, n2, spec2, v2).Ok?
    ensures Assign(Assign(s, n1, spec1, v1).value, n2, spec2, v2)
         == Assign(Assign(s, n2, spec2, v2).value, n1, spec1, v1)
  {
  }

  /** One `_set_property` call. */
  datatype Write = Write(name: string, spec: PropertySpec, value: Option<Value>)

  /** A write that raises: an unknown name marked required. */
  predicate Rejected(w: Write)
  {
    ParseName(w.name).None? && w.spec.required
  }

  /** The state after a run of `_set_property` calls, and what the run raised, if anything. */
  datatype Applied = Applied(slots: Slots, raised: Option<Error>)

  /** One accepted write changes only the slot its name denotes. */
  lemma AssignWriteAt(s: Slots, w: Write, k: Slot)
    requires !Rejected(w)
    ensures Assign(s, w.name, w.spec, w.value).Ok?
    ensures Assign(s, w.name, w.spec, w.value).value.At(k)
         == if w.name == NameOf(k) then w.value else s.At(k)
  {
    ParseNameOf(k);
    match ParseName(w.name)
    case None =>
    case Some(j) =>
      if j != k {
        ParseNameOf(j);
      }
  }

  /**
   * A sequence of `_set_property` calls. The first call that raises ends the
   * run; the writes made before it stay in place.
   */
  function AssignAll(s: Slots, ws: seq<Write>): (r: Applied)
    ensures r.raised.Some? <==> exists i :: 0 <= i < |ws| && Rejected(ws[i])
    ensures r.raised.Some? ==>
      exists i :: 0 <= i < |ws| && Rejected(ws[i]) && (forall j :: 0 <= j < i ==> !Rejected(ws[j]))
                  && r.raised.value == UnsupportedProperty(ws[i].name)
    ensures r.raised == if Accepted(ws) < |ws| then Some(UnsupportedProperty(ws[Accepted(ws)].name)) else None
    ensures forall k: Slot :: r.slots.At(k) == LastWritten(ws[..Accepted(ws)], k, s.At(k))
    decreases |ws|
  {
    if ws == [] then Applied(s, None)
    else
      match Assign(s, ws[0].name, ws[0].spec, ws[0].value)
      case Err(e) => Applied(s, Some(e))
      case Ok(t) =>
        var r := AssignAll(t, ws[1..]);
        assert forall i :: 1 <= i < |ws| ==> ws[i] == ws[1..][i - 1];
        AcceptedStep(ws);
        AssignAllStep(s, t, ws);
        r
  }

  /** When the first write is accepted, the accepted prefix is that write followed by the rest's. */
  lemma AcceptedStep(ws: seq<Write>)
    requires ws != [] && !Rejected(ws[0])
    ensures Accepted(ws) == 1 + Accepted(ws[1..])
    ensures ws[..Accepted(ws)] == [ws[0]] + ws[1..][..Accepted(ws[1..])]
  {
  }

  /** The slots after the first accepted write `t`, seen through LastWritten. */
  lemma AssignAllStep(s: Slots, t: Slots, ws: seq<Write>)
    requires ws != [] && !Rejected(ws[0])
    requires Assign(s, ws[0].name, ws[0].spec, ws[0].value) == Ok(t)
    ensures forall k: Slot :: LastWritten(ws[..Accepted(ws)], k, s.At(k))
                           == LastWritten(ws[1..][..Accepted(ws[1..])], k, t.At(k))
  {
    AcceptedStep(ws);
    forall k: Slot
      ensures LastWritten(ws[..Accepted(ws)], k, s.At(k)) == LastWritten(ws[1..][..Accepted(ws[1..])], k, t.At(k))
    {
      AssignWriteAt(s, ws[0], k);
      var p := ws[..Accepted(ws)];
      assert p[0] == ws[0] && p[1..] == ws[1..][..Accepted(ws[1..])];
    }
  }

  /** How many leading writes of `ws` are accepted: every write before the first rejected one. */
  function Accepted(ws: seq<Write>): (n: nat)
    ensures n <= |ws|
    ensures forall j :: 0 <= j < n ==> !Rejected(ws[j])
    ensures n < |ws| ==> Rejected(ws[n])
    decreases |ws|
  {
    if ws == [] || Rejected(ws[0]) then 0
    else
      var n := 1 + Accepted(ws[1..]);
      assert forall j :: 1 <= j < |ws| ==> ws[j] == ws[1..][j - 1];
      n
  }

  /** The value of the last write to slot `k`'s name, or `current` when there is none. */
  function LastWritten(ws: seq<Write>, k: Slot, current: Option<Value>): Option<Value>
    decreases |ws|
  {
    if ws == [] then current
    else LastWritten(ws[1..], k, if ws[0].name == NameOf(k) then ws[0].value else current)
  }

  /**
   * After a run of writes, every known name reads the value of its last
   * accepted write, or its earlier value when no accepted write named it.
   */
  lemma LookupAfterAssignAll(s: Slots, ws: seq<Write>, k: Slot, spec: PropertySpec)
    ensures Lookup(AssignAll(s, ws).slots, NameOf(k), spec)
         == Ok(LastWritten(ws[..Accepted(ws)], k, s.At(k)))
  {
    ParseNameOf(k);
  }
}
