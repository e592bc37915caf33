/**
 * The lazily loaded image with a pulsing placeholder and a gradient
 * fallback. The same component appears three times in the source, under
 * three names (ProjectImage, AchievementImage and CertificateImage), with
 * identical state and rendering; it is modelled once here.
 *
 * State: `isLoading` starts true, `hasError` starts false; `onLoad` clears
 * `isLoading`; `onError` sets `hasError` and clears `isLoading`.
 */
module LazyImage {

  datatype LoadState = LoadState(isLoading: bool, hasError: bool)

  /** The callbacks the `<img>` element can fire. */
  datatype ImageEvent = Loaded | Failed

  /** What is drawn for a given state. */
  datatype Layers = Layers(
    pulse: bool,         // the animate-pulse placeholder
    fallback: bool,      // the gradient fallback block
    image: bool,         // the <img> element itself
    imageVisible: bool)  // opacity-100 rather than opacity-0 on the <img>

  const Initial := LoadState(true, false)

  function Step(s: LoadState, e: ImageEvent): (r: LoadState)
    ensures !r.isLoading
    ensures r.hasError <==> s.hasError || e == Failed
  {
    match e
    case Loaded => s.(isLoading := false)
    case Failed => LoadState(false, true)
  }

  /** The state after a run of callbacks, in order. */
  function Run(s: LoadState, events: seq<ImageEvent>): (r: LoadState)
    ensures events == [] ==> r == s
    ensures events != [] ==> !r.isLoading
    ensures r.hasError <==> s.hasError || Failed in events
    decreases |events|
  {
    if events == [] then s
    else
      var r := Run(Step(s, events[0]), events[1..]);
      assert events == [events[0]] + events[1..];
      r
  }

  /** The three conditional blocks of the component. */
  function Render(s: LoadState): (v: Layers)
    ensures v.pulse <==> s.isLoading && !s.hasError
    ensures v.fallback <==> s.hasError
    ensures v.image <==> !s.hasError
    ensures v.imageVisible <==> !s.isLoading
  {
    Layers(s.isLoading && !s.hasError, s.hasError, !s.hasError, !s.isLoading)
  }

  /** Exactly one of the image and the fallback is in the tree, and the pulse only ever sits under an image. */
  lemma ImageXorFallback(s: LoadState)
    ensures Render(s).image != Render(s).fallback
    ensures Render(s).pulse ==> Render(s).image && !Render(s).imageVisible
  {
  }

  /** Every state reachable from the initial one: an error always ends the loading phase. */
  ghost predicate Consistent(s: LoadState)
  {
    s.hasError ==> !s.isLoading
  }

  lemma {:induction false} RunKeepsConsistent(s: LoadState, events: seq<ImageEvent>)
    requires Consistent(s)
    ensures Consistent(Run(s, events))
    decreases |events|
  {
    if events != [] {
      RunKeepsConsistent(Step(s, events[0]), events[1..]);
    }
  }

  /** Once an error has been seen, no later callback brings the image back. */
  lemma {:induction false} ErrorIsFinal(s: LoadState, events: seq<ImageEvent>)
    requires s.hasError && Consistent(s)
    ensures Run(s, events).hasError && !Run(s, events).isLoading
    ensures Render(Run(s, events)) == Layers(false, true, false, true)
    decreases |events|
  {
    if events != [] {
      ErrorIsFinal(Step(s, events[0]), events[1..]);
    }
  }

  /** From the initial state, the image stays in the tree as long as no error arrives. */
  lemma {:induction false} NoErrorKeepsImage(s: LoadState, events: seq<ImageEvent>)
    requires !s.hasError
    requires forall i :: 0 <= i < |events| ==> events[i] == Loaded
    ensures !Run(s, events).hasError
    ensures events != [] ==> !Run(s, events).isLoading
    decreases |events|
  {
    if events != [] {
      NoErrorKeepsImage(Step(s, events[0]), events[1..]);
    }
  }

  /** The component's two `useState` hooks and their callbacks. */
  class ImageComponent {
    var isLoading: bool
    var hasError: bool

    function State(): LoadState
      reads this
    {
      LoadState(isLoading, hasError)
    }

    constructor ()
      ensures State() == Initial
    {
      isLoading := true;
      hasError := false;
    }

    /** `onLoad={() => setIsLoading(false)}` */
    method OnLoad()
      modifies this
      ensures State() == Step(old(State()), Loaded)
      ensures !isLoading && hasError == old(hasError)
    {
      isLoading := false;
    }

    /** `onError={() => { setHasError(true); setIsLoading(false); }}` */
    method OnError()
      modifies this
      ensures State() == Step(old(State()), Failed)
      ensures hasError && !isLoading
    {
      hasError := true;
      isLoading := false;
    }

    function View(): Layers
      reads this
    {
      Render(State())
    }
  }
}
