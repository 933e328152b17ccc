/**
 * The per-call record `env` that every stage receives and hands on, and the
 * capabilities the stages call out to: the browser (`window.URL`, image
 * loading) and the `pica` resizer/encoder.  Both capabilities are opaque
 * functions that may fail.
 */
module Context {
  import opened Results
  import opened Sizing

  type Url = string

  /** An input or output payload: its declared MIME type (`blob.type`) and bytes. */
  datatype Blob = Blob(mime: string, bytes: seq<int>)

  /** A loaded `<img>`: its natural size and the object URL it was loaded from. */
  datatype Image = Image(width: Dim, height: Dim, src: Url)

  /** A `<canvas>`: its size and what has been drawn on it. */
  datatype Canvas = Canvas(width: int, height: int, pixels: seq<int>)

  /** Why a pipeline run rejects. */
  datatype Error =
    | ImageLoadFailed          // `onerror` of the `<img>`: "failed to create Image() from blob"
    | NullImage                // a stage read a field of `env.image` after it was nulled
    | Rejected(reason: string) // a rejection from pica or from a hook, passed on unchanged

  /** The `pica` instance: `resize(from, to, { alpha })` draws into `to`; `toBlob(canvas, type)` encodes. */
  datatype Backend = Backend(
    resize: (Image, Canvas, bool) -> Result<seq<int>, Error>,
    toBlob: (Option<Canvas>, string) -> Result<Blob, Error>)

  /** The browser: `URL.createObjectURL` and loading an `<img>` from a URL (its size, or `None` on `onerror`). */
  datatype Dom = Dom(
    createObjectURL: Blob -> Url,
    loadImage: Url -> Option<(Dim, Dim)>)

  /**
   * The `env` object; `None` stands for a field that is unset or null.
   * `extra` holds the fields hooks add for later hooks to read, with opaque values.
   */
  datatype Env = Env(
    blob: Blob,
    max: Bound,
    pica: Backend,
    image: Option<Image>,
    imageUrl: Option<Url>,
    outCanvas: Option<Canvas>,
    outBlob: Option<Blob>,
    extra: map<string, seq<int>>)

  /** A stage or a hook: takes `env` and settles with an `env` or an error. */
  type Hook = Env -> Result<Env, Error>

  /** `{ blob: blob, max: options.max || Infinity, pica: this.pica }`. */
  function NewEnv(blob: Blob, max: MaxOption, pica: Backend): (env: Env)
    ensures env.blob == blob && env.pica == pica
    ensures env.max == EffectiveMax(max)
    ensures env.max.AtMost? <==> Truthy(max) && !max.Infinite?
    ensures env.image.None? && env.imageUrl.None? && env.outCanvas.None? && env.outBlob.None?
    ensures env.extra == map[]
  {
    Env(blob, EffectiveMax(max), pica, None, None, None, None, map[])
  }
}
