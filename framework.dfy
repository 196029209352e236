/**
 * The deep-learning framework objects that the workflow wires together.
 * Their behaviour is not part of this model: each object is recorded only
 * by the configuration it was constructed with, so that two constructions
 * with the same arguments give the same value.
 */
module Framework {
  import opened Wrappers

  /** Dictionary transforms, by the keyword arguments they are built with. */
  datatype Transform =
    | LoadImaged(keys: string)
    | EnsureChannelFirstd(keys: string)
    | ScaleIntensityd(keys: string)
    | Activationsd(keys: string, softmax: bool)
    | AsDiscreted(keys: string, argmax: bool)
    | SaveImaged(keys: string, outputDir: string, outputPostfix: string)

  /** A value a property slot can hold. */
  datatype Value =
    | Path(path: string)
    | TorchDevice(kind: string)
    | UNet(spatialDims: nat, inChannels: nat, outChannels: nat,
           channels: seq<nat>, strides: seq<nat>, numResUnits: nat, norm: string)
    | SlidingWindowInferer(roiSize: seq<nat>, swBatchSize: nat)
    | Compose(transforms: seq<Transform>)
      /** Any object a caller injects that the workflow itself never builds. */
    | Foreign(id: nat)

  const Cpu: Value := TorchDevice("cpu")

  /** Load the image, move channels first, scale intensities. */
  const DefaultPreprocessing: Value :=
    Compose([LoadImaged("image"), EnsureChannelFirstd("image"), ScaleIntensityd("image")])

  /** A 3-D, one-in/two-out residual UNet with batch normalisation. */
  const DefaultNetwork: Value :=
    UNet(3, 1, 2, [2, 2, 4, 8, 4], [2, 2, 2, 2], 2, "batch")

  /** Sliding windows of 64x64x32 voxels, four windows per batch. */
  const DefaultInferer: Value := SlidingWindowInferer([64, 64, 32], 4)

  /** Softmax, arg-max, then save the prediction into `outputDir` with postfix "seg". */
  function DefaultPostprocessing(outputDir: string): Value
  {
    Compose([Activationsd("pred", true), AsDiscreted("pred", true),
             SaveImaged("pred", outputDir, "seg")])
  }

  /** A data loader over a dataset of image paths, by its configuration. */
  datatype Loader = Loader(images: seq<string>, transform: Option<Value>,
                           batchSize: nat, numWorkers: nat)

  /** A supervised evaluator, by the objects it was bound to. */
  datatype Evaluator = Evaluator(device: Option<Value>, valDataLoader: Loader,
                                 network: Option<Value>, inferer: Option<Value>,
                                 postprocessing: Option<Value>, amp: bool)
}
