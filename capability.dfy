/**
 * WebXR capability detection (src/components/ARExperience.tsx and
 * src/app/ar-experience/page.tsx).
 *
 * The capability is a tri-state `boolean | null` that starts as `null`
 * (Unknown) and is written by one mount effect from the outcome of
 * `navigator.xr.isSessionSupported("immersive-ar")`.  The effect issues at
 * most one write, so the state is a function of a single probe outcome.
 */
module Capability {
  import opened Wrappers

  /** The `boolean | null` state: `null` is Unknown. */
  datatype Support = Unknown | Known(supported: bool)

  /** What the environment does when the mount effect probes it. */
  datatype Probe =
    | NoBrowser          // no `window` and no `navigator` global (never the case where effects run)
    | XrAbsent           // `"xr" in navigator` is false
    | XrNullish          // `"xr" in navigator` holds but `navigator.xr` is null/undefined
    | Settles(answer: bool) // `isSessionSupported` resolves with `answer`
    | Rejects            // `isSessionSupported` rejects

  /**
   * The single write the `CustomARButton` effect performs (its guard is
   * `typeof navigator !== "undefined" && "xr" in navigator`).
   * `None` means the setter is never called.
   */
  function ButtonProbeWrite(p: Probe): (w: Option<bool>)
    ensures w == None <==> p == XrNullish
    ensures p.Settles? ==> w == Some(p.answer)
    ensures w == Some(true) <==> p == Settles(true)
  {
    match p
    case NoBrowser => Some(false)
    case XrAbsent => Some(false)
    case XrNullish => None           // the optional chain `navigator.xr?.` short-circuits
    case Settles(b) => Some(b)
    case Rejects => Some(false)
  }

  /**
   * The single write the `ARExperience` component and the AR page effect
   * perform (their guard is `typeof window !== "undefined"`, then
   * `"xr" in navigator`).
   */
  function ViewProbeWrite(p: Probe): (w: Option<bool>)
    ensures w == None <==> p == NoBrowser || p == XrNullish
    ensures p.Settles? ==> w == Some(p.answer)
    ensures w == Some(true) <==> p == Settles(true)
  {
    match p
    case NoBrowser => None
    case XrAbsent => Some(false)
    case XrNullish => None
    case Settles(b) => Some(b)
    case Rejects => Some(false)
  }

  /** Applies the effect's write, if any, to the current state. */
  function Apply(s: Support, w: Option<bool>): Support {
    match w
    case Some(b) => Known(b)
    case None => s
  }

  /** The button's capability once its mount effect has settled. */
  function ButtonSupport(p: Probe): (s: Support)
    ensures s == Known(false) <==> p in {NoBrowser, XrAbsent, Rejects, Settles(false)}
    ensures s == Known(true) <==> p == Settles(true)
    ensures s == Unknown <==> p == XrNullish
  {
    Apply(Unknown, ButtonProbeWrite(p))
  }

  /** The view's (and the AR page's) capability once its mount effect has settled. */
  function ViewSupport(p: Probe): (s: Support)
    ensures s == Known(false) <==> p in {XrAbsent, Rejects, Settles(false)}
    ensures s == Known(true) <==> p == Settles(true)
    ensures s == Unknown <==> p in {NoBrowser, XrNullish}
  {
    Apply(Unknown, ViewProbeWrite(p))
  }

  /** The three buttons `CustomARButton` can render. */
  datatype Button = Checking | NotSupported | StartAr

  /** Which button `CustomARButton` renders for its capability state. */
  function ButtonFor(s: Support): (b: Button)
    ensures b == Checking <==> s == Unknown
    ensures b == NotSupported <==> s == Known(false)
    ensures b == StartAr <==> s == Known(true)
  {
    match s
    case Unknown => Checking
    case Known(false) => NotSupported
    case Known(true) => StartAr
  }

  /** The caption of each button. */
  function Label(b: Button): string {
    match b
    case Checking => "Checking AR..."
    case NotSupported => "AR Not Supported"
    case StartAr => "Start AR"
  }

  /** Only the "Start AR" button reacts to a click (it shows an alert). */
  predicate Clickable(b: Button) {
    b.StartAr?
  }

  /** The button reacts to a click only after the probe has resolved with `true`. */
  lemma ClickableOnlyWhenSupported(p: Probe)
    ensures Clickable(ButtonFor(ButtonSupport(p))) <==> p == Settles(true)
  {
  }

  /** `ARExperience` shows its not-supported overlay on `arSupported === false`. */
  function ShowsOverlay(s: Support): (shown: bool)
    ensures shown <==> s == Known(false)
  {
    s.Known? && !s.supported
  }

  /** The three captions are pairwise different, so a caption identifies the state. */
  lemma LabelIdentifiesState(s: Support, t: Support)
    ensures Label(ButtonFor(s)) == Label(ButtonFor(t)) <==> s == t
  {
  }

  /** The caption shown for each capability state, in both directions. */
  lemma ButtonCaption(s: Support)
    ensures Label(ButtonFor(s)) == "Checking AR..." <==> s == Unknown
    ensures Label(ButtonFor(s)) == "AR Not Supported" <==> s == Known(false)
    ensures Label(ButtonFor(s)) == "Start AR" <==> s == Known(true)
  {
  }

  /**
   * The button and the overlay make separate `isSessionSupported` calls;
   * assuming both calls see the same outcome `p`, they agree in a browser:
   * the button says "AR Not Supported" exactly when the overlay is shown.
   * The only other outcome, no `navigator` global, cannot arise where
   * effects run; were it reached, only the button would resolve (to `false`).
   */
  lemma ButtonAgreesWithOverlay(p: Probe)
    ensures p != NoBrowser ==>
      (Label(ButtonFor(ButtonSupport(p))) == "AR Not Supported" <==> ShowsOverlay(ViewSupport(p)))
    ensures p == NoBrowser ==>
      ButtonFor(ButtonSupport(p)) == NotSupported && !ShowsOverlay(ViewSupport(p))
  {
  }

  /** A probe failure never surfaces as an error or as "supported": it resolves to `false`. */
  lemma RejectionIsUnsupported()
    ensures ButtonSupport(Rejects) == ViewSupport(Rejects) == Known(false)
    ensures ButtonFor(ViewSupport(Rejects)) == NotSupported
  {
  }
}
