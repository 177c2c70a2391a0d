/**
 * The global progress indicator (bz-global-progress.c): its properties and
 * their clamping setters, the spring animations its setters configure, the
 * rule that lets the fill jump rather than animate when it falls back or
 * barely moves, and the fill chosen for each progress bar theme.
 */
module GlobalProgress {
  import opened Wrappers
  import PreferencesDialog

  /** CLAMP (x, 0.0, 1.0) */
  function Clamp01(x: real): (r: real)
    ensures 0.0 <= r <= 1.0
    ensures 0.0 <= x <= 1.0 ==> r == x
    ensures x < 0.0 ==> r == 0.0
    ensures x > 1.0 ==> r == 1.0
  {
    if x < 0.0 then 0.0 else if x > 1.0 then 1.0 else x
  }

  /** MAX (x, 0.0) */
  function AtLeastZero(x: real): (r: real)
    ensures r >= 0.0 && r >= x
    ensures x >= 0.0 ==> r == x
  {
    if x > 0.0 then x else 0.0
  }

  /** G_APPROX_VALUE (a, b, 0.001) */
  predicate Approx(a: real, b: real)
  {
    (if a > b then a - b else b - a) < 0.001
  }

  /** The spring parameters the animations use. */
  datatype Spring = TransitionUp | TransitionDown | PendingSpring | FractionSpring

  /** An animation's configured end points and whether it is playing. */
  datatype Animation = Animation(from: real, to: real, spring: Spring, playing: bool)

  class Indicator {
    var child: Option<nat>          // a widget, by identity
    var active: bool
    var pending: bool
    var fraction: real
    var actualFraction: real
    var pendingProgress: real
    var transitionProgress: real
    var expandSize: int
    var transition: Animation
    var pendingAnimation: Animation
    var fractionAnimation: Animation

    /** What every setter keeps. */
    predicate Valid()
      reads this
    {
      && 0.0 <= fraction <= 1.0
      && 0.0 <= actualFraction <= 1.0
      && pendingProgress >= 0.0
      && transitionProgress >= 0.0
      && expandSize >= 0
      && (transition.to == 1.0 || transition.to == 0.0)
      && (pendingAnimation.to == 1.0 || pendingAnimation.to == 0.0)
      && (fractionAnimation.playing ==> fractionAnimation.from < fractionAnimation.to)
    }

    /** bz_global_progress_init */
    constructor ()
      ensures Valid()
      ensures child == None && !active && !pending
      ensures fraction == 0.0 && actualFraction == 0.0 && pendingProgress == 0.0 && transitionProgress == 0.0
      ensures expandSize == 100
      ensures transition == Animation(0.0, 0.0, TransitionUp, false)
      ensures pendingAnimation == Animation(0.0, 0.0, PendingSpring, false)
      ensures fractionAnimation == Animation(0.0, 0.0, FractionSpring, false)
    {
      child := None;
      active, pending := false, false;
      fraction, actualFraction, pendingProgress, transitionProgress := 0.0, 0.0, 0.0, 0.0;
      expandSize := 100;
      transition := Animation(0.0, 0.0, TransitionUp, false);
      pendingAnimation := Animation(0.0, 0.0, PendingSpring, false);
      fractionAnimation := Animation(0.0, 0.0, FractionSpring, false);
    }

    /**
     * bz_global_progress_set_child. Setting the current child changes
     * nothing, and a child that already has a parent is refused; otherwise
     * the previous child, if any, is released.
     */
    method SetChild(c: Option<nat>, hasParent: bool) returns (released: Option<nat>)
      modifies this`child
      ensures c == old(child) || (c.Some? && hasParent) ==> child == old(child) && released == None
      ensures !(c == old(child) || (c.Some? && hasParent)) ==> child == c && released == old(child)
    {
      if child == c {
        return None;
      }
      if c.Some? && hasParent {
        return None;
      }
      released := child;
      child := c;
    }

    /** bz_global_progress_set_active: on a change, spring from the current transition towards 1 or 0. */
    method SetActive(a: bool)
      requires Valid()
      modifies this`active, this`transition
      ensures Valid() && active == a
      ensures a == old(active) ==> transition == old(transition)
      ensures a != old(active) ==>
        transition == Animation(transitionProgress, if a then 1.0 else 0.0, if a then TransitionUp else TransitionDown, true)
    {
      if a == active {
        return;
      }
      active := a;
      transition := Animation(transitionProgress, if a then 1.0 else 0.0, if a then TransitionUp else TransitionDown, true);
    }

    /** bz_global_progress_set_pending */
    method SetPending(p: bool)
      requires Valid()
      modifies this`pending, this`pendingAnimation
      ensures Valid() && pending == p
      ensures p == old(pending) ==> pendingAnimation == old(pendingAnimation)
      ensures p != old(pending) ==>
        pendingAnimation == Animation(pendingProgress, if p then 1.0 else 0.0, PendingSpring, true)
    {
      if p == pending {
        return;
      }
      pending := p;
      pendingAnimation := Animation(pendingProgress, if p then 1.0 else 0.0, PendingSpring, true);
    }

    /**
     * bz_global_progress_set_fraction. The target is clamped; a target below
     * the shown fill, or within 0.001 of it, is shown at once with the
     * animation reset; a larger one is sprung towards from the shown fill.
     */
    method SetFraction(f: real)
      requires Valid()
      modifies this`fraction, this`actualFraction, this`fractionAnimation
      ensures Valid()
      ensures fraction == Clamp01(f)
      ensures fraction < old(actualFraction) || Approx(old(actualFraction), fraction) ==>
        actualFraction == fraction && fractionAnimation == old(fractionAnimation).(playing := false)
      ensures !(fraction < old(actualFraction) || Approx(old(actualFraction), fraction)) ==>
        actualFraction == old(actualFraction) &&
        fractionAnimation == Animation(old(actualFraction), fraction, old(fractionAnimation).spring, true)
    {
      var last := actualFraction;
      fraction := Clamp01(f);
      if fraction < last || Approx(last, fraction) {
        fractionAnimation := fractionAnimation.(playing := false);
        SetActualFraction(fraction);
      } else {
        fractionAnimation := Animation(actualFraction, fraction, fractionAnimation.spring, true);
      }
    }

    /** bz_global_progress_set_actual_fraction, which the fraction animation also drives. */
    method SetActualFraction(f: real)
      requires Valid()
      modifies this`actualFraction
      ensures Valid() && actualFraction == Clamp01(f)
    {
      actualFraction := Clamp01(f);
    }

    /** bz_global_progress_set_transition_progress, driven by the transition animation. */
    method SetTransitionProgress(p: real)
      requires Valid()
      modifies this`transitionProgress
      ensures Valid() && transitionProgress == AtLeastZero(p)
    {
      transitionProgress := AtLeastZero(p);
    }

    /** bz_global_progress_set_pending_progress, driven by the pending animation. */
    method SetPendingProgress(p: real)
      requires Valid()
      modifies this`pendingProgress
      ensures Valid() && pendingProgress == AtLeastZero(p)
    {
      pendingProgress := AtLeastZero(p);
    }

    /** bz_global_progress_set_expand_size */
    method SetExpandSize(n: int)
      requires Valid()
      modifies this`expandSize
      ensures Valid() && expandSize == (if n > 0 then n else 0)
    {
      expandSize := if n > 0 then n else 0;
    }
  }

  /** The fill never moves backwards by animation: it either jumps to the target or springs upwards to it. */
  lemma FractionMovesOnlyUp(last: real, f: real)
    requires 0.0 <= last <= 1.0
    ensures var target := Clamp01(f);
            !(target < last || Approx(last, target)) ==> last + 0.001 <= target
  {
  }

  // ---------------------------------------------------------------------
  // The fill of the bar

  /** A colour stop of a gradient; every stop of the source is fully opaque. */
  datatype Stop = Stop(offset: real, red: real, green: real, blue: real)

  datatype Fill = Solid | Gradient(theme: string, stops: seq<Stop>)

  const Gradients: map<string, seq<Stop>> := map[
    "sunset" := [Stop(0.0, 1.0, 0.494, 0.373), Stop(1.0, 0.996, 0.706, 0.482)],
    "desert" := [Stop(0.0, 0.82, 0.416, 0.416), Stop(1.0, 0.969, 0.698, 0.404)],
    "pastel-sky" := [Stop(0.0, 0.631, 0.769, 0.992), Stop(1.0, 0.761, 0.914, 0.984)],
    "aurora" := [Stop(0.0, 0.659, 1.0, 0.471), Stop(0.5, 0.471, 1.0, 0.839), Stop(1.0, 0.298, 0.765, 1.0)],
    "berry" := [Stop(0.0, 1.0, 0.42, 0.796), Stop(0.5, 0.541, 0.169, 0.886), Stop(1.0, 0.18, 0.169, 1.0)],
    "monochrome" := [Stop(0.0, 0.059, 0.059, 0.059), Stop(0.5, 0.42, 0.42, 0.42), Stop(1.0, 1.0, 1.0, 1.0)],
    "tropical" := [Stop(0.0, 1.0, 0.373, 0.427), Stop(0.5, 1.0, 0.765, 0.443), Stop(1.0, 0.0, 0.824, 1.0)],
    "meadow" := [Stop(0.0, 0.659, 0.878, 0.388), Stop(1.0, 0.337, 0.651, 0.184)],
    "nebula" := [Stop(0.0, 0.984, 0.761, 0.922), Stop(0.5, 0.631, 0.549, 0.82), Stop(1.0, 0.310, 0.675, 0.996)],
    "candy" := [Stop(0.0, 1.0, 0.604, 0.620), Stop(0.5, 0.996, 0.812, 0.937), Stop(1.0, 0.965, 0.827, 0.396)],
    "ocean-deep" := [Stop(0.0, 0.169, 0.345, 0.463), Stop(0.5, 0.306, 0.263, 0.463), Stop(1.0, 0.106, 0.424, 0.659)]
  ]

  /**
   * The fill snapshot draws for the theme setting (None: no settings). The
   * accent colour is used for "accent-color", for no settings and for any
   * theme without a gradient.
   */
  function FillFor(theme: Option<string>): (f: Fill)
    ensures theme.None? ==> f == Solid
    ensures f.Gradient? <==>
              theme.Some? && PreferencesDialog.ThemeIndex(theme.value).Some? && PreferencesDialog.ThemeIndex(theme.value).value > 0
    ensures f.Gradient? ==> theme == Some(f.theme) && WellFormed(f.stops)
  {
    GradientsWellFormed();
    GradientsNameButtons();
    ThemeButtonsHaveGradients();
    if theme.Some? && theme.value in Gradients then Gradient(theme.value, Gradients[theme.value]) else Solid
  }

  /** Every gradient runs from offset 0 to offset 1 with ascending stops. */
  predicate WellFormed(stops: seq<Stop>)
  {
    && |stops| >= 2
    && stops[0].offset == 0.0
    && stops[|stops| - 1].offset == 1.0
    && (forall i, j :: 0 <= i < j < |stops| ==> stops[i].offset < stops[j].offset)
    && (forall i :: 0 <= i < |stops| ==> 0.0 <= stops[i].red <= 1.0 && 0.0 <= stops[i].green <= 1.0 && 0.0 <= stops[i].blue <= 1.0)
  }

  /**
   * Each theme of the preferences dialog but the first has a gradient, and
   * the first ("accent-color") has none; so every theme button's
   * choice is honoured.
   */
  lemma ThemeButtonsHaveGradients()
    ensures forall i :: 0 < i < |PreferencesDialog.BarThemes| ==> PreferencesDialog.BarThemes[i].id in Gradients
    ensures PreferencesDialog.BarThemes[0].id !in Gradients
  {
  }

  /** Every gradient belongs to a theme button other than the first. */
  lemma GradientsNameButtons()
    ensures forall t :: t in Gradients ==>
              PreferencesDialog.ThemeIndex(t).Some? && PreferencesDialog.ThemeIndex(t).value > 0
  {
  }

  /** Every gradient the bar can draw is well formed. */
  lemma GradientsWellFormed()
    ensures forall t :: t in Gradients ==> WellFormed(Gradients[t])
  {
  }

  /** Four gradients have two stops, the rest three. */
  lemma GradientStopCounts()
    ensures forall t :: t in Gradients ==> (|Gradients[t]| == 2 <==> t in {"sunset", "desert", "pastel-sky", "meadow"})
    ensures forall t :: t in Gradients ==> (|Gradients[t]| == 3 <==> t !in {"sunset", "desert", "pastel-sky", "meadow"})
  {
  }
}
