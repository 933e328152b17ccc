# image-blob-reduce: the hookable resize pipeline, in Dafny

`ImageBlobReduce` turns an image blob into a smaller re-encoded blob (`to_blob`) or a
canvas (`to_canvas`). It does this by passing one `env` record through a fixed chain of
named stages: `_blob_to_image`, `_transform`, `_cleanup` and `_create_blob`. Plugins use
`before(name, fn)` and `after(name, fn)` to splice their own functions around a stage.
Each call replaces the stage's slot on the object with a closure around its old value. The
first `to_blob` or `to_canvas` call on an instance runs `init`, which installs the three
JPEG hooks. The `initialized` flag stops later calls from installing them again.

This project models that core:

- `sizing.dfy` (`Sizing`): the output-size rule of `_transform` and the
  `options.max || Infinity` default. It uses exact integer arithmetic, where
  `Math.round(n / d)` is `(2n + d) / (2d)` with floor division.
- `context.dfy` (`Context`): the `env` record, the blob, image and canvas values, and the
  two outside capabilities. `Dom` stands for the browser's object URLs and image loading.
  `Backend` stands for pica's `resize` and `toBlob`. Both are opaque functions that may fail.
- `stages.dfy` (`Stages`): the four prototype stages, as functions from `env` to a settled
  result.
- `hooks.dfy` (`Hooks`): a slot's current function, written as the nest of closures that
  `before` and `after` build. `Flatten` gives the flat list of steps that the nest runs,
  and a lemma shows that the nest and the list agree. `WrapBefore` and `WrapAfter` give the
  slot table after a call, or the error the call throws.
- `pipeline.dfy` (`Pipeline`): the default slots, what `init` installs, and the promise
  chains of `to_blob` and `to_canvas`. A chain stops at the first rejection.
- `reducer.dfy` (`Reducer`): the `ImageBlobReduce` object itself. It is a class whose slot
  table `before` and `after` overwrite in place, and whose `initialized` flag `to_blob` and
  `to_canvas` test and set. A ghost counter records how often `init` has run.

A settled promise is a `Result`: `Ok` when it fulfils, `Err` when it rejects.

## Model

| member | source | states |
|---|---|---|
| `Sizing.EffectiveMax` | index.js:26 | the effective bound is `options.max` when it is truthy and finite; a missing `max`, `0` or `Infinity` gives no bound |
| `Sizing.RoundHalfUp` | index.js:113-114 | the result is `Math.round(num / den)`: the integer within one half of `num / den`, with a tie going up |
| `Sizing.RoundHalfUpUnique` | index.js:113-114 | only one integer lies that close, so the rounding is determined by that bracket |
| `Sizing.ScaledAxis` | index.js:113-114 | one axis is `Math.max(Math.round(dim * limit / longest), 1)`, so it is never below 1; `ScaledAxisWithinLimit` and `ScaledLongestIsLimit` state its bounds |
| `Sizing.OutputSize` | index.js:109-114 | both output sides are at least 1; OutputNeverUpscales, OutputKeepsFittingSize, OutputLongerSideIsBound and OutputNonPositiveBound state the rest of its behaviour |
| `Sizing.ScaledAxisWithinLimit` | index.js:113-114 | with a bound between 1 and the longest side, a scaled axis is between 1 and the bound |
| `Sizing.ScaledLongestIsLimit` | index.js:109-113 | the longest side scales to exactly the bound |
| `Sizing.OutputNeverUpscales` | index.js:109-114 | for every bound, each output side is at least 1 and at most the source side |
| `Sizing.OutputKeepsFittingSize` | index.js:109-111 | with no bound, or a bound at least the longest side, the output size is the source size |
| `Sizing.OutputLongerSideIsBound` | index.js:109-114 | with a bound of at least 1 below the longest side, the longer output side equals the bound and neither side exceeds it |
| `Sizing.OutputNonPositiveBound` | index.js:109-114 | a negative bound makes the output 1x1 |
| `Sizing.OutputExamples` | index.js:109-114 | 10x10 with `max: 5` gives 5x5; 400x300 with `max: 100` gives 100x75; `max: 0` keeps the size |
| `Context.NewEnv` | index.js:26 | a fresh `env` carries the blob, the pica instance and `EffectiveMax` of the `max` option as its bound, and has no image, URL, canvas, output blob or hook-added field |
| `Stages.BlobToImageStage` | index.js:94-105 | the stage fulfils exactly when the image loads from the blob's object URL, and then sets `image` (with the loaded size) and `image_url`; otherwise it rejects with the load error; no other field changes |
| `Stages.TransformStage` | index.js:108-122 | with no image it rejects; on success the canvas has the size from the output rule, which is within the image's size; pica drew it with `alpha` true exactly for `image/png`; only `out_canvas` changes; a pica rejection passes through unchanged |
| `Stages.CleanupStage` | index.js:125-135 | the stage nulls `image` and `image_url` and keeps every other field; it rejects only when `image` is already null |
| `Stages.CreateBlobStage` | index.js:138-144 | `out_blob` becomes pica's encoding of `out_canvas` in the input's MIME type; `out_canvas` and every other field stay as they were; an encoder rejection passes through |
| `Hooks.RunStage` | index.js:67-71 | calling a wrapped slot; no contract of its own; RunStageIsSequence, BeforeRunsHookFirst and AfterRunsHookLast state its behaviour |
| `Hooks.RunStepsAppend` | index.js:33-38 | running two step lists one after the other equals running the first and, only if it fulfils, the second on its result |
| `Hooks.RunStageIsSequence` | index.js:60-91 | a slot's nest of closures behaves exactly as its flattened list of hooks and prototype stage |
| `Hooks.WrapBefore` | index.js:60-74 | `before` throws "does not exist" for an unknown slot, else "function expected" for a non-function; otherwise it changes only slot `name`, which now runs `fn` first and then the old function's steps |
| `Hooks.WrapAfter` | index.js:77-91 | `after` throws the same two errors; otherwise it changes only slot `name`, which now runs the old function's steps and then `fn` |
| `Hooks.BeforeRunsHookFirst` | index.js:67-71 | the wrapped slot runs `fn`, then the old function on `fn`'s result; when `fn` rejects, that rejection is the result and the old function never runs |
| `Hooks.AfterRunsHookLast` | index.js:84-88 | the wrapped slot runs the old function, then `fn` on its result; when the old function rejects, `fn` never runs |
| `Hooks.RegisterAllOrder` | index.js:60-91 | after any sequence of `before` and `after` calls on a slot, the `before` hooks run newest first, then the original function, then the `after` hooks oldest first |
| `Pipeline.PrototypeSlots` | index.js:94-144 | a new instance has exactly the four stage slots |
| `Pipeline.InstallDefaults` | index.js:16-20 | `init` puts the EXIF hook in front of `_blob_to_image`, the rotation hook after `_transform` and the segment hook after `_create_blob`; `_cleanup` is left as it was |
| `Pipeline.RunPipeline` | index.js:33-37 | the `.then` chain over the slots; no contract of its own; PipelineIsStepSequence, PipelineAppend and PipelineStopsAtFirstFailure state its behaviour |
| `Pipeline.ToBlobResult` | index.js:33-38 | `to_blob`'s promise settles with the final `env.out_blob` or the first rejection; no contract of its own; DecodeFailureStopsPipeline states its rejection case, and ToBlobExtendsToCanvas relates the chain behind it to `to_canvas`'s |
| `Pipeline.ToCanvasResult` | index.js:52-56 | `to_canvas`'s promise settles with the final `env.out_canvas` or the first rejection; no contract of its own; DecodeFailureStopsPipeline and PrototypeCanvasSize state its behaviour |
| `Pipeline.PipelineIsStepSequence` | index.js:33-38 | the promise chain is one flat sequence of steps, the slots' steps in slot order |
| `Pipeline.PipelineAppend` | index.js:33-38 | chaining two lists of slots equals running the first and, only if it fulfils, the second on its result |
| `Pipeline.PipelineStopsAtFirstFailure` | index.js:33-38 | once a prefix of the chain rejects, the outcome is that rejection, whatever the later slots hold; so they never run, and that includes `_cleanup` |
| `Pipeline.ToBlobExtendsToCanvas` | index.js:23-57 | `to_blob` runs the three stages of `to_canvas`, then `_create_blob` only if those three fulfilled |
| `Pipeline.DecodeFailureStopsPipeline` | index.js:33-38 | if `_blob_to_image` rejects, both entry points reject with that error and no later slot affects the outcome |
| `Pipeline.DefaultToBlobOrder` | index.js:16-38 | on a new instance after `init`, `to_blob` runs: EXIF patch, decode, transform, rotation, cleanup, encode, segment reattachment |
| `Pipeline.PrototypeCanvasSize` | index.js:42-57 | without hooks, a failed image load rejects `to_canvas`; when `to_canvas` fulfils, its canvas has exactly the size the output rule gives for the decoded image and `max` |
| `Reducer.ImageBlobReduce.constructor` | index.js:7-13 | a new instance is not initialized, has the prototype slots and uses `options.pica` if given, else the default pica |
| `Reducer.ImageBlobReduce.Before` | index.js:60-74 | the slot table becomes `WrapBefore`'s result and `this` is returned; on an error nothing changes |
| `Reducer.ImageBlobReduce.After` | index.js:77-91 | the slot table becomes `WrapAfter`'s result and `this` is returned; on an error nothing changes |
| `Reducer.ImageBlobReduce.Init` | index.js:16-20 | the slot table becomes `InstallDefaults` of the old one; the three wraps never throw |
| `Reducer.ImageBlobReduce.ToBlob` | index.js:23-39 | the first call installs the default hooks and sets `initialized`, and later calls change no slot; the result is `out_blob` of the four-slot chain on a fresh `env`, or its first rejection |
| `Reducer.ImageBlobReduce.ToCanvas` | index.js:42-57 | the same lazy `init`; the result is `out_canvas` of the three-slot chain, or its first rejection |
| `Reducer.DefaultsInstalledOnce` | index.js:28-31 | after any non-empty sequence of `to_blob` and `to_canvas` calls, in any mix, a new instance has installed the default hooks exactly once, and its slots are the prototype methods with the three default hooks |

## Left out

- The browser's side effects. Creating the object URL and loading the `<img>` are the
  `Dom` parameter. `URL.revokeObjectURL` and `image.src = ''` in `_cleanup` are not modelled.
  So the model cannot show the two paths on which the object URL created at index.js:98 is
  never revoked. One is `_blob_to_image` rejecting through `onerror` (index.js:102). The
  other is `_transform` rejecting after a decode, because the chain never reaches `_cleanup`.
- pica's `resize` and `toBlob` are opaque parameters that may fail. Their code is not part of
  this model.
- `lib/jpeg_plugins` is not part of this model. Its three hooks are opaque functions, and only
  their names and positions are modelled.
- `_getUint8Array` (FileReader and ArrayBuffer I/O) is not modelled. The pipeline never
  calls it.
- Promise scheduling and concurrency are not modelled. A chain is modelled as sequential
  `Result` binding. Concurrent runs on one instance are not modelled either, but the
  flag's test-and-set happens synchronously before the chain starts.
- `env` is passed by value. The source mutates one object in place, and each stage
  returns it. The model gives the same outcomes unless a hook keeps a reference to `env`
  and changes it later, which is aliasing the model does not capture.
- Hooks are called with `this` bound to the instance. A hook that calls back into the
  instance, for example to wrap more slots during a run, is not modelled.
- Hook results are `Result`s. A `before` hook that returns something other than a promise
  makes the wrapper throw a TypeError, because `.then` is called on its result
  (index.js:68). In the model that case is the `before` hook's own `Err`. An `after` hook's
  result is returned from a `.then` callback (index.js:85-87), so a plain value is accepted
  there. The model gives every hook a `Result`, so that difference does not show.
- Hook-added fields of `env` are `Env.extra`, a map from field name to an opaque value.
  In the source, `env` is an open object, and a hook can add a field of any type for a
  later hook to read. The four stages keep `extra` unchanged. The types of those values
  are not modelled.
- Floating point: the size rule uses exact arithmetic. IEEE rounding of `max / D` and
  `dim * scale` can differ from it when the exact value lies just at a half.
- Sizing.EffectiveMax: only integer values and `Infinity` are modelled for `max`.
  Fractional and non-numeric values are not. `NaN` is falsy, so it behaves like a missing
  `max`.
- Sizing.OutputSize: loaded images are at least 1x1. In the source, an image with one zero
  side still gets `Math.max(Math.round(0), 1) == 1` on that axis (index.js:113-114), which is
  larger than the source side. That is why the source can only promise
  `out_width <= max(w, 1)`. An image with both sides zero and a negative bound makes
  `max / 0` equal `-Infinity`, and `0 * -Infinity` is `NaN` (index.js:109, 113). None of
  these zero-side cases is modelled.
- Hooks.WrapBefore: the slot table holds only the four stage slots. In the source,
  `before` accepts any truthy property of the object, such as `init` or `pica`, and
  overwrites it. The model reports such a name as missing.
- Hooks.WrapAfter: the same restriction to the four stage slots applies.
- Notes on the source that the model follows:
  - `options.max || Infinity` (index.js:26, 45) makes a `max` of `0` unbounded, as well as a
    missing one.
  - The slot names are `_blob_to_image`, `_transform`, `_cleanup` and `_create_blob`
    (index.js:34-37).
  - `_cleanup` throws a TypeError at index.js:126 when `env.image` is null, so it rejects
    if a hook has nulled `env.image` before it runs.
