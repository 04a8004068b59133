/** The scroll-reveal wrapper: a set of named animation variants, merged
    with an optional start delay, and a one-shot "in view" signal that
    chooses which variant is animated to. */
module AnimatedSection {
  import opened Js

  /** The JavaScript values that occur in animation variants. Functions
      (variant resolvers) are opaque and carry only a name. */
  datatype Value =
    | Undefined
    | Num(n: real)
    | Text(s: string)
    | Flag(b: bool)
    | List(items: seq<Value>)
    | Record(fields: map<string, Value>)
    | Resolver(name: string)

  /** A variants object: variant name to target. */
  type Variants = map<string, Value>

  /** Property access: a missing key reads as `undefined`. */
  function Get(m: map<string, Value>, key: string): (v: Value)
    ensures key !in m ==> v == Undefined
    ensures key in m ==> v == m[key]
  {
    if key in m then m[key] else Undefined
  }

  /** The own properties `{...v}` copies into an object literal: the fields
      of an object; nothing from `undefined`, a number, a boolean or a
      function. */
  function Spread(v: Value): (m: map<string, Value>)
    ensures v.Record? ==> m == v.fields
    ensures !v.Record? ==> m == map[]
  {
    match v
    case Record(fields) => fields
    case _ => map[]
  }

  /** `typeof v === 'object' && 'transition' in v ? v.transition : {}`,
      spread into the new transition. */
  function InheritedTransition(visible: Value): map<string, Value>
  {
    if visible.Record? && "transition" in visible.fields
    then Spread(visible.fields["transition"])
    else map[]
  }

  /** The variants the wrapper hands to the animation library. A zero
      delay is falsy and passes the variants through; any other delay
      rebuilds `hidden` and `visible`, overriding `delay` inside the
      visible variant's transition. */
  function MotionVariants(variants: Variants, delay: real): Variants
  {
    if delay == 0.0 then variants
    else
      var visible := Get(variants, "visible");
      var transition := InheritedTransition(visible)["delay" := Num(delay)];
      map["hidden" := Get(variants, "hidden"),
          "visible" := Record(Spread(visible)["transition" := Record(transition)])]
  }

  lemma ZeroDelayIsIdentity(variants: Variants)
    ensures MotionVariants(variants, 0.0) == variants
  {
  }

  /** The fields of a variants object's `visible` target, and of that
      target's `transition`. */
  function VisibleOf(r: Variants): map<string, Value>
  {
    Spread(Get(r, "visible"))
  }

  function TransitionOf(r: Variants): map<string, Value>
  {
    Spread(Get(VisibleOf(r), "transition"))
  }

  /** A delayed merge has exactly the keys `hidden` and `visible`, keeps
      `hidden` as it was (or `undefined`, if it was missing). */
  lemma DelayedKeys(variants: Variants, delay: real)
    requires delay != 0.0
    ensures MotionVariants(variants, delay).Keys == {"hidden", "visible"}
    ensures MotionVariants(variants, delay)["hidden"] == Get(variants, "hidden")
    ensures MotionVariants(variants, delay)["visible"].Record?
  {
  }

  /** Every key of the input's visible variant other than `transition`
      keeps its value, and no key other than `transition` is added. */
  lemma DelayedKeepsVisible(variants: Variants, delay: real)
    requires delay != 0.0
    ensures var visible := VisibleOf(MotionVariants(variants, delay));
      && visible.Keys == VisibleOf(variants).Keys + {"transition"}
      && forall k :: k in VisibleOf(variants) && k != "transition" ==>
           visible[k] == VisibleOf(variants)[k]
  {
  }

  /** The new transition sets `delay`, keeps every other key of the old
      transition and adds none. */
  lemma DelayedTransition(variants: Variants, delay: real)
    requires delay != 0.0
    ensures var t := TransitionOf(MotionVariants(variants, delay));
      var before := InheritedTransition(Get(variants, "visible"));
      && t.Keys == before.Keys + {"delay"}
      && t["delay"] == Num(delay)
      && forall k :: k in before && k != "delay" ==> t[k] == before[k]
  {
  }

  /** Without a transition on the input, the transition is exactly
      `{ delay }`. */
  lemma DelayedWithoutTransition(variants: Variants, delay: real)
    requires delay != 0.0
    requires "transition" !in VisibleOf(variants)
    ensures TransitionOf(MotionVariants(variants, delay)) == map["delay" := Num(delay)]
  {
  }

  /** Merging a second time with the same delay changes nothing. */
  lemma {:induction false} MergeIdempotent(variants: Variants, delay: real)
    ensures MotionVariants(MotionVariants(variants, delay), delay) == MotionVariants(variants, delay)
  {
    if delay != 0.0 {
      var once := MotionVariants(variants, delay);
      var visible := Get(variants, "visible");
      var transition := InheritedTransition(visible)["delay" := Num(delay)];
      var fields := Spread(visible)["transition" := Record(transition)];
      assert Get(once, "visible") == Record(fields);
      assert InheritedTransition(Record(fields)) == transition;
      assert transition["delay" := Num(delay)] == transition;
      assert fields["transition" := Record(transition)] == fields;
    }
  }

  // ---------------------------------------------------------------------
  // Default props

  /** `fadeInUp`: fade in while rising 32px. */
  const FadeInUp: Variants := map[
    "hidden" := Record(map["opacity" := Num(0.0), "y" := Num(32.0)]),
    "visible" := Record(map[
      "opacity" := Num(1.0),
      "y" := Num(0.0),
      "transition" := Record(map[
        "duration" := Num(0.65),
        "ease" := List([Num(0.22), Num(1.0), Num(0.36), Num(1.0)])])])]

  /** The props the merge depends on; `None` is an omitted prop. */
  datatype Props = Props(variants: Option<Variants>, delay: Option<real>)

  /** Destructuring defaults: `variants = fadeInUp`, `delay = 0`. */
  function PropsVariants(p: Props): (v: Variants)
    ensures p.variants.None? ==> v == FadeInUp
    ensures p.variants.Some? ==> v == p.variants.value
  {
    if p.variants.Some? then p.variants.value else FadeInUp
  }

  function PropsDelay(p: Props): (d: real)
    ensures p.delay.None? ==> d == 0.0
    ensures p.delay.Some? ==> d == p.delay.value
  {
    if p.delay.Some? then p.delay.value else 0.0
  }

  /** With no props at all the wrapper animates plain `fadeInUp`. */
  lemma DefaultPropsGiveFadeInUp()
    ensures MotionVariants(PropsVariants(Props(None, None)), PropsDelay(Props(None, None))) == FadeInUp
  {
  }

  /** A delay on `fadeInUp` keeps its duration and easing and adds the
      delay. */
  lemma DelayedFadeInUp(delay: real)
    requires delay != 0.0
    ensures TransitionOf(MotionVariants(FadeInUp, delay)) ==
      map["duration" := Num(0.65),
          "ease" := List([Num(0.22), Num(1.0), Num(0.36), Num(1.0)]),
          "delay" := Num(delay)]
  {
    var visible := Get(FadeInUp, "visible");
    assert "transition" in visible.fields;
  }

  // ---------------------------------------------------------------------
  // The in-view signal and the animate target

  /** `useInView(ref, { once: true })` after a sequence of intersection
      samples, earliest first: true from the first intersecting sample
      on. */
  function InViewAfter(samples: seq<bool>): bool
    decreases |samples|
  {
    samples != [] && (InViewAfter(samples[..|samples| - 1]) || samples[|samples| - 1])
  }

  /** The latch is set exactly when some sample intersected. */
  lemma {:induction false} InViewIffSomeSample(samples: seq<bool>)
    ensures InViewAfter(samples) <==> exists i :: 0 <= i < |samples| && samples[i]
    decreases |samples|
  {
    if samples != [] {
      var init := samples[..|samples| - 1];
      InViewIffSomeSample(init);
      if exists i :: 0 <= i < |init| && init[i] {
        var i :| 0 <= i < |init| && init[i];
        assert samples[i];
      }
      if exists i :: 0 <= i < |samples| && samples[i] {
        var i :| 0 <= i < |samples| && samples[i];
        if i < |init| { assert init[i]; }
      }
    }
  }

  /** Once in view, always in view: later samples cannot clear it. */
  lemma {:induction false} InViewStaysTrue(samples: seq<bool>, later: seq<bool>)
    requires InViewAfter(samples)
    ensures InViewAfter(samples + later)
    decreases |later|
  {
    if later != [] {
      var init := later[..|later| - 1];
      InViewStaysTrue(samples, init);
      assert (samples + later)[..|samples + later| - 1] == samples + init;
    } else {
      assert samples + later == samples;
    }
  }

  datatype AnimateTarget = Hidden | Visible

  /** `animate={isInView ? 'visible' : 'hidden'}`, after `initial="hidden"`. */
  function AnimateOf(samples: seq<bool>): (t: AnimateTarget)
    ensures t == Visible <==> exists i :: 0 <= i < |samples| && samples[i]
  {
    InViewIffSomeSample(samples);
    if InViewAfter(samples) then Visible else Hidden
  }

  /** The section starts hidden and, once visible, never goes back. */
  lemma RevealIsOneShot(samples: seq<bool>, later: seq<bool>)
    ensures AnimateOf([]) == Hidden
    ensures AnimateOf(samples) == Visible ==> AnimateOf(samples + later) == Visible
  {
    if InViewAfter(samples) {
      InViewStaysTrue(samples, later);
    }
  }
}
