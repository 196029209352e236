# NonConfigWorkflow: a verified model of a hand-written bundle workflow

This project models `NonConfigWorkflow`, a MONAI test fixture. The fixture implements the bundle-workflow
contract directly in Python, without a configuration file. The model covers its property store. That store
has six named slots (`bundle_root`, `device`, `network_def`, `inferer`, `preprocessing`, `postprocessing`).
`_get_property` reads them and `_set_property` writes them, dispatching on the property name. A bundle
property marked *required* that the workflow does not know raises `ValueError`. An optional unknown property
is silently ignored. The model also covers the lifecycle: `initialize` builds a default for each of the four
lazily built slots that is still `None`, then binds an evaluator to the current slots; `run` delegates to
that evaluator; `finalize` returns `True`.

Files:
- `wrappers.dfy`: `Option` (with `None` for Python's `None`), `Result` and `Outcome`.
- `framework.dfy`: the framework objects as plain configuration records (`Compose`, `UNet`,
  `SlidingWindowInferer`, the dictionary transforms, the data loader and the evaluator). It also holds the
  fixed defaults `initialize` builds.
- `properties.dfy`: the six slots as a record `Slots`. `Lookup` is `_get_property` and `Assign` is what
  `_set_property` does. Both are written as the source's `if` chain over names. Their contracts refer to an
  independent enum-keyed view: `Slot`, `NameOf`/`ParseName`, `Slots.At`/`Slots.With`. The file also covers
  runs of several writes (`AssignAll`).
- `workflow.dfy`: the class `NonConfigWorkflow`, with one mutable field per slot plus `filename`,
  `outputDir` and `evaluator`. Its methods are proved against `Assign`, `WithDefaults` and `BindEvaluator`.

Some facts about the code that the model keeps:
- The default UNet has four strides for five channel stages (tests/nonconfig_workflow.py:65-66).
- The object keeps no lifecycle state. `initialize` can run again, and `finalize` changes nothing.
- `run` before `initialize` calls `run` on `None` and raises `AttributeError` (tests/nonconfig_workflow.py:92).
  The model returns `Fail(NoEvaluator)` in that case.

## Model

| member | source | states |
|---|---|---|
| `Properties.ParseName` | tests/nonconfig_workflow.py:98-109 | the six recognised names map to slots; a result of `Some(k)` means `NameOf(k)` is the name; `None` means no slot has that name |
| `Properties.ParseNameOf` | tests/nonconfig_workflow.py:98-109 | every slot's name is recognised as that slot |
| `Properties.Slots.With` | tests/nonconfig_workflow.py:113-125 | a write to one slot changes that slot to the value and leaves the other five unchanged |
| `Properties.Lookup` | tests/nonconfig_workflow.py:97-111 | a known name reads its slot; an unknown name raises `UnsupportedProperty(name)` exactly when the property is required, and otherwise returns `None` |
| `Properties.Assign` | tests/nonconfig_workflow.py:113-127 | a known name stores the value in its slot only; an unknown name raises exactly when required, and otherwise leaves the slots unchanged |
| `Properties.Message` | tests/nonconfig_workflow.py:92-111 | for an unsupported property, the `ValueError` text of line 111 carries the offending name right after its opening quote; the `NoEvaluator` case is the fixed `AttributeError` text of calling `run` on `None` at line 92 (the evaluator is `None` from line 49 until `initialize`), given by the body only |
| `Properties.MessageNamesProperty` | tests/nonconfig_workflow.py:111 | two equal unsupported-property messages name the same property, so the message identifies the offending name |
| `Properties.LookupAfterAssign` | tests/nonconfig_workflow.py:97-125 | for each of the six names, set then get returns the value set, whatever metadata each call receives |
| `Properties.AssignLeavesOthers` | tests/nonconfig_workflow.py:113-125 | after a successful set, every other name reads as before |
| `Properties.UnknownNameRaisesIffRequired` | tests/nonconfig_workflow.py:97-127 | for a name outside the six, both get and set raise if and only if the property is required |
| `Properties.UnknownOptionalIsInert` | tests/nonconfig_workflow.py:97-127 | for an optional name outside the six, get returns `None` and set changes no slot |
| `Properties.AssignWhatWasRead` | tests/nonconfig_workflow.py:97-125 | writing back the value a known name reads leaves the slots unchanged |
| `Properties.AssignTwice` | tests/nonconfig_workflow.py:113-125 | a second set of the same name overrides the first completely |
| `Properties.AssignCommutes` | tests/nonconfig_workflow.py:113-125 | sets of two different known names give the same slots in either order |
| `Properties.AssignAll` | tests/nonconfig_workflow.py:113-127 | a run of sets raises if and only if one of them names an unknown required property; the error names the first such property, `ws[Accepted(ws)]`; every slot ends up holding its last write among the accepted writes `ws[..Accepted(ws)]`, so the writes before the raising one stay applied |
| `Properties.Accepted` | tests/nonconfig_workflow.py:113-127 | the writes applied in a run are exactly those before the first write that raises |
| `Properties.LookupAfterAssignAll` | tests/nonconfig_workflow.py:97-127 | after a run of sets, whether or not one raised, each known name reads the value of its last accepted set, or its earlier value if no accepted set named it |
| `Workflow.WithDefaults` | tests/nonconfig_workflow.py:53-80 | `initialize` never overwrites a slot that is set; it leaves `bundle_root` and `device` unchanged; afterwards the network, inferer, pre-processing and post-processing are all set |
| `Workflow.WithDefaultsAt` | tests/nonconfig_workflow.py:53-80 | slot by slot: a set value is kept, and an unset lazy slot takes its fixed default (the post-processing default writes into the output directory with postfix `seg`) |
| `Workflow.WithDefaultsIdempotent` | tests/nonconfig_workflow.py:53-80 | filling in the defaults a second time changes nothing |
| `Workflow.OverrideSurvivesInitialize` | tests/nonconfig_workflow.py:53-125 | a value injected with set before `initialize` is what get returns after it |
| `Workflow.LazyPropertiesReadableAfterInitialize` | tests/nonconfig_workflow.py:53-109 | after `initialize`, getting any of the four lazily built properties returns a value |
| `Workflow.BindEvaluator` | tests/nonconfig_workflow.py:57-89 | the evaluator is bound to the current device, network, inferer and post-processing, and to a loader over the single input file with the current pre-processing, batch size 1 and four workers; mixed precision is off |
| `Workflow.NonConfigWorkflow.constructor` | tests/nonconfig_workflow.py:39-49 | the role is `"inference"`; `bundle_root` is `"will override"` and `device` is the CPU; the other four slots and the evaluator are unset |
| `Workflow.NonConfigWorkflow.Initialize` | tests/nonconfig_workflow.py:51-89 | the new slots are `WithDefaults` of the old ones; the evaluator is `BindEvaluator` of the new slots; nothing else changes |
| `Workflow.NonConfigWorkflow.Run` | tests/nonconfig_workflow.py:91-92 | delegates exactly once to the evaluator, or raises when there is none |
| `Workflow.NonConfigWorkflow.GetProperty` | tests/nonconfig_workflow.py:97-111 | reads the object's six slots through `Lookup`: a known name gives its slot; an unknown name raises `UnsupportedProperty(name)` exactly when required, and otherwise gives `None` |
| `Workflow.NonConfigWorkflow.Finalize` | tests/nonconfig_workflow.py:94-95 | returns true in every state |
| `Workflow.NonConfigWorkflow.SetProperty` | tests/nonconfig_workflow.py:113-127 | the new slots and the outcome are those of `Assign`; a raising call changes nothing; a successful set of a known name reads back the value; `filename`, `outputDir` and the evaluator never change |

## Left out

- `set_determinism(0)` is left out. It seeds process-global random state inside the framework.
- The framework constructors (`Compose`, `UNet`, `SlidingWindowInferer` and the transforms) are modelled only
  as records of their arguments. Their behaviour lives in a library that is not part of this model.
- `SlidingWindowInferer`'s `overlap=0.25` is left out. It is a floating-point setting with no logic here.
- `Dataset` and `DataLoader` are kept only as a record of their configuration: the single input path, the
  transform, batch size 1 and four workers. Loading, batching and the worker processes are I/O and
  concurrency.
- `network.to(device)` is modelled as the identity. A PyTorch module moves itself and returns itself.
  Device transfer is not modelled.
- `Workflow.NonConfigWorkflow.Run`: the evaluator's run loop (inference, writing the segmentation file) is
  foreign code. The model only logs which evaluator was run, in the ghost field `runs`.
- The `BundleWorkflow` base class and its public `get_property`/`set_property` wrappers are not part of
  this model. Only the dispatch of `_get_property`/`_set_property` is modelled.
- Property metadata is a record with a boolean `required`. Python's `KeyError` for metadata without a
  `REQUIRED` entry, and truthiness of non-boolean flags, are not modelled.
- Values other than the ones the workflow builds are opaque (`Foreign`). A non-module value injected as
  `network_def` would fail in `.to(device)`; the model does not capture this.
