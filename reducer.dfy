/**
 * The `ImageBlobReduce` object: its slot table, which `before` and `after`
 * overwrite in place, and the `initialized` flag that makes the first
 * `to_blob` / `to_canvas` call install the default hooks, and no later one.
 */
module Reducer {
  import opened Results
  import opened Sizing
  import opened Context
  import opened Hooks
  import opened Pipeline

  class ImageBlobReduce {
    /** `this[method_name]` for the four stage slots. */
    var slots: Slots
    var initialized: bool
    /** How many times `init` has installed the default hooks on this instance. */
    ghost var installs: nat
    const pica: Backend
    /** The JPEG plugin module the default hooks come from. */
    const plugins: JpegPlugins

    ghost predicate Valid()
      reads this
    {
      slots.Keys == StageNames
    }

    /** `new ImageBlobReduce(options)`: `options.pica` if given, else a default pica instance. */
    constructor (givenPica: Option<Backend>, defaultPica: Backend, plugins: JpegPlugins)
      ensures Valid() && !initialized && installs == 0
      ensures slots == PrototypeSlots()
      ensures pica == (if givenPica.Some? then givenPica.value else defaultPica)
      ensures this.plugins == plugins
    {
      slots := PrototypeSlots();
      initialized := false;
      installs := 0;
      pica := if givenPica.Some? then givenPica.value else defaultPica;
      this.plugins := plugins;
    }

    /** `before(method_name, fn)`: throws without changing anything, or wraps one slot and returns `this`. */
    method Before(name: string, fn: HookArg) returns (r: Result<ImageBlobReduce, ConfigError>)
      requires Valid()
      modifies this`slots
      ensures Valid()
      ensures r.Ok? <==> WrapBefore(old(slots), name, fn).Ok?
      ensures r.Ok? ==> r.value == this && slots == WrapBefore(old(slots), name, fn).value
      ensures r.Err? ==> r.error == WrapBefore(old(slots), name, fn).error && slots == old(slots)
    {
      if name !in slots {
        return Err(MethodMissing(name));
      }
      if fn.NonFunction? {
        return Err(NotAFunction);
      }
      var oldFn := slots[name];
      slots := slots[name := BeforeHook(fn.fn, oldFn)];
      return Ok(this);
    }

    /** `after(method_name, fn)`: throws without changing anything, or wraps one slot and returns `this`. */
    method After(name: string, fn: HookArg) returns (r: Result<ImageBlobReduce, ConfigError>)
      requires Valid()
      modifies this`slots
      ensures Valid()
      ensures r.Ok? <==> WrapAfter(old(slots), name, fn).Ok?
      ensures r.Ok? ==> r.value == this && slots == WrapAfter(old(slots), name, fn).value
      ensures r.Err? ==> r.error == WrapAfter(old(slots), name, fn).error && slots == old(slots)
    {
      if name !in slots {
        return Err(MethodMissing(name));
      }
      if fn.NonFunction? {
        return Err(NotAFunction);
      }
      var oldFn := slots[name];
      slots := slots[name := AfterHook(oldFn, fn.fn)];
      return Ok(this);
    }

    /** `init`: the three default wraps; none of them throws. */
    method Init()
      requires Valid()
      modifies this`slots, this`installs
      ensures Valid()
      ensures slots == InstallDefaults(old(slots), plugins)
      ensures installs == old(installs) + 1
    {
      var exif := Before(BlobToImageName, FunctionValue(plugins.patchExif));
      var rotate := After(TransformName, FunctionValue(plugins.rotateCanvas));
      var segments := After(CreateBlobName, FunctionValue(plugins.attachOrigSegments));
      installs := installs + 1;
    }

    /** `to_blob(blob, options)`: lazy `init`, then the four-slot chain; settles with `env.out_blob`. */
    method ToBlob(blob: Blob, max: MaxOption, dom: Dom) returns (r: Result<Option<Blob>, Error>)
      requires Valid()
      modifies this`slots, this`initialized, this`installs
      ensures Valid() && initialized
      ensures slots == if old(initialized) then old(slots) else InstallDefaults(old(slots), plugins)
      ensures installs == if old(initialized) then old(installs) else old(installs) + 1
      ensures r == ToBlobResult(slots, dom, NewEnv(blob, max, pica))
    {
      var env := NewEnv(blob, max, pica);
      if !initialized {
        Init();
        initialized := true;
      }
      r := ToBlobResult(slots, dom, env);
    }

    /** `to_canvas(blob, options)`: lazy `init`, then the first three slots; settles with `env.out_canvas`. */
    method ToCanvas(blob: Blob, max: MaxOption, dom: Dom) returns (r: Result<Option<Canvas>, Error>)
      requires Valid()
      modifies this`slots, this`initialized, this`installs
      ensures Valid() && initialized
      ensures slots == if old(initialized) then old(slots) else InstallDefaults(old(slots), plugins)
      ensures installs == if old(initialized) then old(installs) else old(installs) + 1
      ensures r == ToCanvasResult(slots, dom, NewEnv(blob, max, pica))
    {
      var env := NewEnv(blob, max, pica);
      if !initialized {
        Init();
        initialized := true;
      }
      r := ToCanvasResult(slots, dom, env);
    }
  }

  /** One call on the instance: `to_blob` when `toBlob` holds, else `to_canvas`. */
  datatype Call = Call(toBlob: bool, blob: Blob, max: MaxOption)

  /**
   * However many `to_blob` and `to_canvas` calls a new instance serves, in
   * whatever mix, it installs the default hooks exactly once: its slots end
   * as the prototype methods with the three default hooks.
   */
  method DefaultsInstalledOnce(pica: Backend, plugins: JpegPlugins, dom: Dom, calls: seq<Call>)
    returns (reducer: ImageBlobReduce)
    requires |calls| >= 1
    ensures reducer.installs == 1 && reducer.initialized
    ensures reducer.slots == InstallDefaults(PrototypeSlots(), plugins)
  {
    reducer := new ImageBlobReduce(None, pica, plugins);
    var i := 0;
    while i < |calls|
      invariant 0 <= i <= |calls|
      invariant reducer.Valid() && reducer.plugins == plugins
      invariant reducer.installs == (if i == 0 then 0 else 1)
      invariant reducer.initialized == (i > 0)
      invariant reducer.slots == if i == 0 then PrototypeSlots() else InstallDefaults(PrototypeSlots(), plugins)
    {
      var call := calls[i];
      if call.toBlob {
        var outBlob := reducer.ToBlob(call.blob, call.max, dom);
      } else {
        var outCanvas := reducer.ToCanvas(call.blob, call.max, dom);
      }
      i := i + 1;
    }
  }
}
