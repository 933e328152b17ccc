/**
 * The pipeline controller: the named slots, the default hooks that `init`
 * installs, and the promise chains of `to_blob` and `to_canvas`, which thread
 * `env` through the slots in a fixed order and stop at the first rejection.
 */
module Pipeline {
  import opened Results
  import opened Sizing
  import opened Context
  import opened Stages
  import opened Hooks

  const BlobToImageName := "_blob_to_image"
  const TransformName := "_transform"
  const CleanupName := "_cleanup"
  const CreateBlobName := "_create_blob"

  const StageNames: set<string> := {BlobToImageName, TransformName, CleanupName, CreateBlobName}

  /** The slots `to_blob` chains, in order. */
  const ToBlobStages: seq<string> := [BlobToImageName, TransformName, CleanupName, CreateBlobName]

  /** The slots `to_canvas` chains, in order: no encoding. */
  const ToCanvasStages: seq<string> := [BlobToImageName, TransformName, CleanupName]

  /** The slots of a new instance: the prototype methods. */
  function PrototypeSlots(): (slots: Slots)
    ensures slots.Keys == StageNames
  {
    map[BlobToImageName := Prototype(BlobToImage),
        TransformName := Prototype(Transform),
        CleanupName := Prototype(Cleanup),
        CreateBlobName := Prototype(CreateBlob)]
  }

  /** The three hooks of the JPEG plugin module; their code is not part of this model. */
  datatype JpegPlugins = JpegPlugins(patchExif: Hook, rotateCanvas: Hook, attachOrigSegments: Hook)

  /**
   * The slots after `init`: EXIF patching before decoding, canvas rotation
   * after the transform, and re-attaching the original JPEG segments after
   * encoding.  None of the three wraps throws: the slots exist and the hooks
   * are functions.
   */
  function InstallDefaults(slots: Slots, plugins: JpegPlugins): (r: Slots)
    requires StageNames <= slots.Keys
    ensures r.Keys == slots.Keys
    ensures Flatten(r[BlobToImageName]) == [HookStep(plugins.patchExif)] + Flatten(slots[BlobToImageName])
    ensures Flatten(r[TransformName]) == Flatten(slots[TransformName]) + [HookStep(plugins.rotateCanvas)]
    ensures Flatten(r[CreateBlobName]) == Flatten(slots[CreateBlobName]) + [HookStep(plugins.attachOrigSegments)]
    ensures forall n :: n in slots && n != BlobToImageName && n != TransformName && n != CreateBlobName
                        ==> r[n] == slots[n]
  {
    var s1 := WrapBefore(slots, BlobToImageName, FunctionValue(plugins.patchExif)).value;
    var s2 := WrapAfter(s1, TransformName, FunctionValue(plugins.rotateCanvas)).value;
    WrapAfter(s2, CreateBlobName, FunctionValue(plugins.attachOrigSegments)).value
  }

  /** `Promise.resolve(env).then(slot1).then(slot2)...`: each slot's function runs on the previous result. */
  function RunPipeline(slots: Slots, names: seq<string>, dom: Dom, env: Env): Result<Env, Error>
    requires forall n :: n in names ==> n in slots
    decreases |names|
  {
    if |names| == 0 then Ok(env)
    else
      match RunStage(slots[names[0]], dom, env)
      case Err(e) => Err(e)
      case Ok(next) => RunPipeline(slots, names[1..], dom, next)
  }

  /** Every step the chain runs, slot after slot. */
  function FlattenAll(slots: Slots, names: seq<string>): seq<Step>
    requires forall n :: n in names ==> n in slots
    decreases |names|
  {
    if |names| == 0 then [] else Flatten(slots[names[0]]) + FlattenAll(slots, names[1..])
  }

  /** The chain is one flat sequence of hooks and prototype stages, run in order. */
  lemma {:induction false} PipelineIsStepSequence(slots: Slots, names: seq<string>, dom: Dom, env: Env)
    requires forall n :: n in names ==> n in slots
    ensures RunPipeline(slots, names, dom, env) == RunSteps(FlattenAll(slots, names), dom, env)
    decreases |names|
  {
    if |names| > 0 {
      var s := slots[names[0]];
      RunStageIsSequence(s, dom, env);
      RunStepsAppend(Flatten(s), FlattenAll(slots, names[1..]), dom, env);
      match RunStage(s, dom, env) {
        case Err(e) =>
        case Ok(next) => PipelineIsStepSequence(slots, names[1..], dom, next);
      }
    }
  }

  /** Chaining `a` then `b` is running `a` and, if it fulfils, `b` on its result. */
  lemma {:induction false} PipelineAppend(slots: Slots, a: seq<string>, b: seq<string>, dom: Dom, env: Env)
    requires forall n :: n in a + b ==> n in slots
    ensures var first := RunPipeline(slots, a, dom, env);
            RunPipeline(slots, a + b, dom, env) == if first.Err? then first else RunPipeline(slots, b, dom, first.value)
    decreases |a|
  {
    if |a| == 0 {
      assert a + b == b;
    } else {
      assert (a + b)[0] == a[0];
      assert (a + b)[1..] == a[1..] + b;
      match RunStage(slots[a[0]], dom, env) {
        case Err(e) =>
        case Ok(next) => PipelineAppend(slots, a[1..], b, dom, next);
      }
    }
  }

  /**
   * Once the chain up to slot `k` rejects, the rest of the chain never runs:
   * the outcome is that rejection, whatever the later slots hold.
   */
  lemma {:induction false} PipelineStopsAtFirstFailure(
    slots: Slots, other: Slots, names: seq<string>, k: nat, dom: Dom, env: Env)
    requires forall n :: n in names ==> n in slots && n in other
    requires k < |names|
    requires forall i :: 0 <= i <= k ==> other[names[i]] == slots[names[i]]
    requires RunPipeline(slots, names[..k + 1], dom, env).Err?
    ensures RunPipeline(other, names, dom, env) == RunPipeline(slots, names[..k + 1], dom, env)
    decreases k
  {
    var prefix := names[..k + 1];
    assert prefix[0] == names[0];
    assert other[names[0]] == slots[names[0]];
    match RunStage(slots[names[0]], dom, env) {
      case Err(e) =>
      case Ok(next) =>
        assert prefix[1..] == names[1..][..k];
        if k > 0 {
          forall i | 0 <= i <= k - 1 ensures other[names[1..][i]] == slots[names[1..][i]] {
            assert names[1..][i] == names[i + 1];
          }
          PipelineStopsAtFirstFailure(slots, other, names[1..], k - 1, dom, next);
        }
    }
  }

  /** What `to_blob` settles with: `env.out_blob` of the final `env`, or the first rejection. */
  function ToBlobResult(slots: Slots, dom: Dom, env: Env): Result<Option<Blob>, Error>
    requires StageNames <= slots.Keys
  {
    match RunPipeline(slots, ToBlobStages, dom, env)
    case Err(e) => Err(e)
    case Ok(final) => Ok(final.outBlob)
  }

  /** What `to_canvas` settles with: `env.out_canvas` of the final `env`, or the first rejection. */
  function ToCanvasResult(slots: Slots, dom: Dom, env: Env): Result<Option<Canvas>, Error>
    requires StageNames <= slots.Keys
  {
    match RunPipeline(slots, ToCanvasStages, dom, env)
    case Err(e) => Err(e)
    case Ok(final) => Ok(final.outCanvas)
  }

  /** `to_blob` runs what `to_canvas` runs, then the `_create_blob` slot, only if the first three fulfilled. */
  lemma ToBlobExtendsToCanvas(slots: Slots, dom: Dom, env: Env)
    requires StageNames <= slots.Keys
    ensures var canvasRun := RunPipeline(slots, ToCanvasStages, dom, env);
            RunPipeline(slots, ToBlobStages, dom, env)
            == if canvasRun.Err? then canvasRun else RunStage(slots[CreateBlobName], dom, canvasRun.value)
  {
    assert ToBlobStages == ToCanvasStages + [CreateBlobName];
    PipelineAppend(slots, ToCanvasStages, [CreateBlobName], dom, env);
  }

  /** A decoding failure rejects both entry points before any later slot runs. */
  lemma DecodeFailureStopsPipeline(slots: Slots, other: Slots, dom: Dom, env: Env)
    requires StageNames <= slots.Keys && StageNames <= other.Keys
    requires other[BlobToImageName] == slots[BlobToImageName]
    requires RunStage(slots[BlobToImageName], dom, env).Err?
    ensures ToBlobResult(other, dom, env) == Err(RunStage(slots[BlobToImageName], dom, env).error)
    ensures ToCanvasResult(other, dom, env) == Err(RunStage(slots[BlobToImageName], dom, env).error)
  {
    var e := RunStage(slots[BlobToImageName], dom, env).error;
    assert ToBlobStages[..1] == [BlobToImageName] && ToCanvasStages[..1] == [BlobToImageName];
    assert RunPipeline(slots, [BlobToImageName], dom, env) == Err(e);
    PipelineStopsAtFirstFailure(slots, other, ToBlobStages, 0, dom, env);
    PipelineStopsAtFirstFailure(slots, other, ToCanvasStages, 0, dom, env);
  }

  /** With the default hooks installed on a new instance, `to_blob` runs these seven steps in this order. */
  lemma DefaultToBlobOrder(plugins: JpegPlugins)
    ensures FlattenAll(InstallDefaults(PrototypeSlots(), plugins), ToBlobStages)
            == [HookStep(plugins.patchExif), PrototypeStep(BlobToImage),
                PrototypeStep(Transform), HookStep(plugins.rotateCanvas),
                PrototypeStep(Cleanup),
                PrototypeStep(CreateBlob), HookStep(plugins.attachOrigSegments)]
  {
    var slots := InstallDefaults(PrototypeSlots(), plugins);
    var names := ToBlobStages;
    assert names[1..] == [TransformName, CleanupName, CreateBlobName];
    assert names[1..][1..] == [CleanupName, CreateBlobName];
    assert names[1..][1..][1..] == [CreateBlobName];
    assert names[1..][1..][1..][1..] == [];
    var b, t, c, z := slots[BlobToImageName], slots[TransformName], slots[CleanupName], slots[CreateBlobName];
    assert Flatten(b) == [HookStep(plugins.patchExif), PrototypeStep(BlobToImage)];
    assert Flatten(t) == [PrototypeStep(Transform), HookStep(plugins.rotateCanvas)];
    assert Flatten(c) == [PrototypeStep(Cleanup)];
    assert Flatten(z) == [PrototypeStep(CreateBlob), HookStep(plugins.attachOrigSegments)];
    assert FlattenAll(slots, names[1..][1..][1..]) == Flatten(z);
    assert FlattenAll(slots, names[1..][1..]) == Flatten(c) + Flatten(z);
    assert FlattenAll(slots, names[1..]) == Flatten(t) + Flatten(c) + Flatten(z);
    assert FlattenAll(slots, names) == Flatten(b) + Flatten(t) + Flatten(c) + Flatten(z);
  }

  /**
   * Without hooks, a `to_canvas` run that fulfils yields a canvas of exactly
   * the size the output rule gives for the decoded image and the `max` option.
   */
  lemma PrototypeCanvasSize(dom: Dom, blob: Blob, max: MaxOption, pica: Backend)
    ensures var r := ToCanvasResult(PrototypeSlots(), dom, NewEnv(blob, max, pica));
            var loaded := dom.loadImage(dom.createObjectURL(blob));
            && (loaded.None? ==> r == Err(ImageLoadFailed))
            && (r.Ok? ==>
                  && loaded.Some? && r.value.Some?
                  && (r.value.value.width, r.value.value.height)
                     == OutputSize(loaded.value.0, loaded.value.1, EffectiveMax(max)))
  {
    var slots, env := PrototypeSlots(), NewEnv(blob, max, pica);
    assert ToCanvasStages[1..] == [TransformName, CleanupName];
    assert ToCanvasStages[1..][1..] == [CleanupName];
    assert ToCanvasStages[1..][1..][1..] == [];
    var decoded := BlobToImageStage(dom, env);
    assert RunStage(slots[BlobToImageName], dom, env) == decoded;
    if decoded.Ok? {
      var transformed := TransformStage(decoded.value);
      assert RunStage(slots[TransformName], dom, decoded.value) == transformed;
      if transformed.Ok? {
        var cleaned := CleanupStage(transformed.value);
        assert RunStage(slots[CleanupName], dom, transformed.value) == cleaned;
        assert cleaned.Ok? && cleaned.value.outCanvas == transformed.value.outCanvas;
        assert RunPipeline(slots, ToCanvasStages[1..][1..], dom, transformed.value) == cleaned;
        assert RunPipeline(slots, ToCanvasStages[1..], dom, decoded.value) == cleaned;
        assert RunPipeline(slots, ToCanvasStages, dom, env) == cleaned;
      } else {
        assert RunPipeline(slots, ToCanvasStages[1..], dom, decoded.value) == transformed;
        assert RunPipeline(slots, ToCanvasStages, dom, env) == transformed;
      }
    }
  }
}
