/**
 * The four prototype stages of `ImageBlobReduce`: `_blob_to_image`,
 * `_transform`, `_cleanup` and `_create_blob`.  Each takes `env` and settles
 * with the updated `env` or with an error; the field assignments of the
 * source become record updates.
 */
module Stages {
  import opened Results
  import opened Sizing
  import opened Context

  datatype StageKind = BlobToImage | Transform | Cleanup | CreateBlob

  const PngMime := "image/png"

  /** `_blob_to_image`: load the blob into an `<img>` through an object URL. */
  function BlobToImageStage(dom: Dom, env: Env): (r: Result<Env, Error>)
    ensures r.Ok? <==> dom.loadImage(dom.createObjectURL(env.blob)).Some?
    ensures r.Err? ==> r.error == ImageLoadFailed
    ensures r.Ok? ==>
      var url := dom.createObjectURL(env.blob);
      && r.value.image.Some? && r.value.image.value.src == url
      && (r.value.image.value.width, r.value.image.value.height) == dom.loadImage(url).value
      && r.value.imageUrl == Some(url)
      && r.value.(image := env.image, imageUrl := env.imageUrl) == env
  {
    var url := dom.createObjectURL(env.blob);
    match dom.loadImage(url)
    case None => Err(ImageLoadFailed)
    case Some((w, h)) => Ok(env.(image := Some(Image(w, h, url)), imageUrl := Some(url)))
  }

  /** `_transform`: allocate the output canvas at `OutputSize` and let pica draw into it. */
  function TransformStage(env: Env): (r: Result<Env, Error>)
    ensures env.image.None? ==> r == Err(NullImage)
    ensures r.Ok? ==>
      && env.image.Some? && r.value.outCanvas.Some?
      && var img, c := env.image.value, r.value.outCanvas.value;
      && (c.width, c.height) == OutputSize(img.width, img.height, env.max)
      && 1 <= c.width <= img.width && 1 <= c.height <= img.height
      && env.pica.resize(img, Canvas(c.width, c.height, []), env.blob.mime == PngMime) == Ok(c.pixels)
      && r.value.(outCanvas := env.outCanvas) == env
    ensures r.Err? && env.image.Some? ==>
      var img := env.image.value;
      var (w, h) := OutputSize(img.width, img.height, env.max);
      env.pica.resize(img, Canvas(w, h, []), env.blob.mime == PngMime) == Err(r.error)
  {
    match env.image
    case None => Err(NullImage)
    case Some(img) =>
      var (w, h) := OutputSize(img.width, img.height, env.max);
      OutputNeverUpscales(img.width, img.height, env.max);
      var canvas := Canvas(w, h, []);
      match env.pica.resize(img, canvas, env.blob.mime == PngMime)
      case Err(e) => Err(e)
      case Ok(pixels) => Ok(env.(outCanvas := Some(canvas.(pixels := pixels))))
  }

  /** `_cleanup`: drop the `<img>` and its object URL; every other field is kept. */
  function CleanupStage(env: Env): (r: Result<Env, Error>)
    ensures r.Ok? <==> env.image.Some?
    ensures r.Err? ==> r.error == NullImage
    ensures r.Ok? ==>
      && r.value.image.None? && r.value.imageUrl.None?
      && r.value.(image := env.image, imageUrl := env.imageUrl) == env
  {
    match env.image
    case None => Err(NullImage)
    case Some(_) => Ok(env.(image := None, imageUrl := None))
  }

  /** `_create_blob`: encode the output canvas in the input's MIME type into `env.out_blob`. */
  function CreateBlobStage(env: Env): (r: Result<Env, Error>)
    ensures r.Ok? ==>
      && r.value.outBlob.Some?
      && env.pica.toBlob(env.outCanvas, env.blob.mime) == Ok(r.value.outBlob.value)
      && r.value.outCanvas == env.outCanvas
      && r.value.(outBlob := env.outBlob) == env
    ensures r.Err? ==> env.pica.toBlob(env.outCanvas, env.blob.mime) == Err(r.error)
  {
    match env.pica.toBlob(env.outCanvas, env.blob.mime)
    case Err(e) => Err(e)
    case Ok(b) => Ok(env.(outBlob := Some(b)))
  }

  /** The behaviour a slot has before any hook wraps it. */
  function RunPrototype(kind: StageKind, dom: Dom, env: Env): Result<Env, Error>
  {
    match kind
    case BlobToImage => BlobToImageStage(dom, env)
    case Transform => TransformStage(env)
    case Cleanup => CleanupStage(env)
    case CreateBlob => CreateBlobStage(env)
  }
}
