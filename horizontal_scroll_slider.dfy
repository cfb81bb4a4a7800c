/**
 * The horizontal scroll slider: on viewports at least 1024 pixels wide the
 * card row is pinned and moved sideways while the page scrolls down; on
 * smaller ones it is a plain, natively scrollable row.
 *
 * Widths are pixels, modelled exactly as `real`.
 */
module HorizontalScrollSlider {
  import opened Wrappers
  import opened Browser

  /** Width of the `max-w-7xl` content container. */
  const MaxWidth: real := 1280.0
  /** The container's `lg:px-10` side padding. */
  const BasePadding: real := 40.0
  /** Smallest viewport width that counts as desktop. */
  const DesktopMin: real := 1024.0
  const DefaultGap: real := 80.0

  /** `checkDesktop`: the viewport is at least 1024 pixels wide. */
  function IsDesktop(innerWidth: real): (desktop: bool)
    ensures desktop <==> innerWidth >= DesktopMin
    ensures desktop ==> innerWidth > 0.0
  {
    innerWidth >= DesktopMin
  }

  /** `getLeftPadding`: the left edge of the centred container's content. */
  function LeftPadding(vw: real): (p: real)
    ensures p >= BasePadding
    ensures vw <= MaxWidth ==> p == BasePadding
  {
    if vw > MaxWidth then (vw - MaxWidth) / 2.0 + BasePadding else BasePadding
  }

  /** The inline style `max(2.5rem, calc((100vw - 80rem) / 2 + 2.5rem))`. */
  function CssPaddingLeft(vw: real): (p: real)
    ensures p >= BasePadding && p >= (vw - MaxWidth) / 2.0 + BasePadding
    ensures p == BasePadding || p == (vw - MaxWidth) / 2.0 + BasePadding
  {
    var centred := (vw - MaxWidth) / 2.0 + BasePadding;
    if centred > BasePadding then centred else BasePadding
  }

  /** The padding the script computes is the one the slider's style applies. */
  lemma PaddingMatchesStyle(vw: real)
    ensures LeftPadding(vw) == CssPaddingLeft(vw)
  {
    if vw > MaxWidth {
      assert (vw - MaxWidth) / 2.0 > 0.0;
    } else {
      assert (vw - MaxWidth) / 2.0 <= 0.0;
    }
  }

  /**
   * On a viewport wider than the container, the padding beyond the base
   * padding is exactly the margin that centres the container.
   */
  lemma PaddingCentresContainer(vw: real)
    requires vw > MaxWidth
    ensures 2.0 * (LeftPadding(vw) - BasePadding) + MaxWidth == vw
  {
  }

  /** `getScrollAmount`: the `x` the tween ends at, with the right margin equal to the left padding. */
  function ScrollAmount(sliderWidth: real, vw: real): (x: real)
    ensures sliderWidth + x == vw - LeftPadding(vw)
  {
    -(sliderWidth - vw + LeftPadding(vw))
  }

  /** The `end` option: how far the page scrolls while the slider is pinned. */
  function EndDistance(sliderWidth: real, vw: real): (d: real)
    ensures d + vw == sliderWidth + LeftPadding(vw)
  {
    sliderWidth - vw + LeftPadding(vw)
  }

  /**
   * At the end of the tween the slider's right edge sits as far from the
   * viewport's right edge as its content starts from the left one.
   */
  lemma EqualMarginsAtEnd(sliderWidth: real, vw: real)
    ensures vw - (ScrollAmount(sliderWidth, vw) + sliderWidth) == LeftPadding(vw)
  {
  }

  /** The vertical distance of the pinned stretch is the horizontal distance travelled. */
  lemma EndMatchesTravel(sliderWidth: real, vw: real)
    ensures EndDistance(sliderWidth, vw) == -ScrollAmount(sliderWidth, vw)
  {
  }

  /**
   * With `ease: "none"`, the `x` reached after scrolling `d` pixels into the
   * pinned stretch is the target scaled by the progress `d / end`.
   */
  function OffsetAt(sliderWidth: real, vw: real, d: real): (x: real)
    requires EndDistance(sliderWidth, vw) > 0.0
    ensures 0.0 <= d <= EndDistance(sliderWidth, vw) ==> ScrollAmount(sliderWidth, vw) <= x <= 0.0
  {
    var e, target := EndDistance(sliderWidth, vw), ScrollAmount(sliderWidth, vw);
    assert target == -e;
    assert 0.0 <= d <= e ==> 0.0 <= d / e <= 1.0;
    (d / e) * target
  }

  /** Scrolling down by `d` moves the cards left by exactly `d`, from 0 at the start to the target at the end. */
  lemma ScrollMapsOneToOne(sliderWidth: real, vw: real, d: real)
    requires EndDistance(sliderWidth, vw) > 0.0
    requires 0.0 <= d <= EndDistance(sliderWidth, vw)
    ensures OffsetAt(sliderWidth, vw, d) == -d
    ensures d == 0.0 ==> OffsetAt(sliderWidth, vw, d) == 0.0
    ensures d == EndDistance(sliderWidth, vw) ==> OffsetAt(sliderWidth, vw, d) == ScrollAmount(sliderWidth, vw)
  {
    var e := EndDistance(sliderWidth, vw);
    EndMatchesTravel(sliderWidth, vw);
    calc {
      OffsetAt(sliderWidth, vw, d);
      (d / e) * (-e);
      -((d / e) * e);
      { assert (d / e) * e == d; }
      -d;
    }
  }

  datatype Card = Card(title: string, description: string)

  /** One `<SliderCard key={title} ... index={index}>`. */
  datatype CardView = CardView(key: string, title: string, description: string, index: nat)

  datatype Layout = NativeScroll | Pinned

  datatype SliderView = SliderView(layout: Layout, outerClass: string, gap: real, cards: seq<CardView>)

  /** The `gap` prop, defaulting to 80 when it is not given. */
  function GapOf(gap: Option<real>): (g: real)
    ensures gap.Some? ==> g == gap.value
    ensures gap.None? ==> g == DefaultGap
  {
    if gap.Some? then gap.value else DefaultGap
  }

  /** Every card, in order, with its position as `index`. */
  function CardViews(cards: seq<Card>): (views: seq<CardView>)
    ensures |views| == |cards|
    ensures forall i :: 0 <= i < |cards| ==>
              views[i] == CardView(cards[i].title, cards[i].title, cards[i].description, i)
  {
    seq(|cards|, i requires 0 <= i < |cards| => CardView(cards[i].title, cards[i].title, cards[i].description, i))
  }

  /** What the component renders: the native row with half the gap below desktop, the pinned row otherwise. */
  function Render(isDesktop: bool, cards: seq<Card>, gap: Option<real>, className: Option<string>): (v: SliderView)
    ensures v.layout == NativeScroll <==> !isDesktop
    ensures !isDesktop ==> 2.0 * v.gap == GapOf(gap)
    ensures isDesktop ==> v.gap == GapOf(gap)
    ensures v.cards == CardViews(cards)
    ensures Truthy(className) ==> |v.outerClass| >= |className.value|
                                  && v.outerClass[|v.outerClass| - |className.value|..] == className.value
  {
    var extra := if Truthy(className) then className.value else "";
    if !isDesktop then SliderView(NativeScroll, "overflow-x-auto pb-8 " + extra, GapOf(gap) / 2.0, CardViews(cards))
    else SliderView(Pinned, "relative overflow-hidden " + extra, GapOf(gap), CardViews(cards))
  }

  /** Below desktop every card is shown, in order, with half the gap. */
  lemma NativeRowShowsEveryCard(cards: seq<Card>, gap: Option<real>, className: Option<string>)
    ensures var v := Render(false, cards, gap, className);
            && v.layout == NativeScroll
            && 2.0 * v.gap == GapOf(gap)
            && |v.cards| == |cards|
            && forall i :: 0 <= i < |cards| ==> v.cards[i].title == cards[i].title && v.cards[i].index == i
  {
  }

  /** A ScrollTrigger instance and the element that triggers it. */
  datatype Trigger = Trigger(id: nat, target: nat)

  /** `ts` without the triggers of `target`, the others in their order. */
  function KeepOthers(ts: seq<Trigger>, target: nat): (r: seq<Trigger>)
    ensures forall t :: t in r <==> t in ts && t.target != target
    ensures |r| <= |ts|
  {
    if ts == [] then []
    else if ts[0].target == target then KeepOthers(ts[1..], target)
    else [ts[0]] + KeepOthers(ts[1..], target)
  }

  /** The triggers of `target`, in their order. */
  function TriggersOf(ts: seq<Trigger>, target: nat): (r: seq<Trigger>)
    ensures forall t :: t in r <==> t in ts && t.target == target
  {
    if ts == [] then []
    else if ts[0].target == target then [ts[0]] + TriggersOf(ts[1..], target)
    else TriggersOf(ts[1..], target)
  }

  lemma {:induction false} KeepOthersAppend(a: seq<Trigger>, b: seq<Trigger>, target: nat)
    ensures KeepOthers(a + b, target) == KeepOthers(a, target) + KeepOthers(b, target)
  {
    if a == [] {
      assert a + b == b;
    } else {
      assert (a + b)[1..] == a[1..] + b;
      KeepOthersAppend(a[1..], b, target);
    }
  }

  /** Tearing down one container leaves every other container's triggers as they were, in order. */
  lemma {:induction false} KeepOthersSparesOtherTargets(ts: seq<Trigger>, mine: nat, other: nat)
    requires mine != other
    ensures TriggersOf(KeepOthers(ts, mine), other) == TriggersOf(ts, other)
  {
    if ts != [] {
      KeepOthersSparesOtherTargets(ts[1..], mine, other);
      if ts[0].target != mine {
        assert ([ts[0]] + KeepOthers(ts[1..], mine))[1..] == KeepOthers(ts[1..], mine);
      }
    }
  }

  /** Removing a container's triggers a second time removes nothing more. */
  lemma {:induction false} KeepOthersIdempotent(ts: seq<Trigger>, target: nat)
    ensures KeepOthers(KeepOthers(ts, target), target) == KeepOthers(ts, target)
  {
    if ts != [] {
      KeepOthersIdempotent(ts[1..], target);
      if ts[0].target != target {
        assert ([ts[0]] + KeepOthers(ts[1..], target))[1..] == KeepOthers(ts[1..], target);
      }
    }
  }

  /** `ts` without the trigger `t`. */
  function Remove(ts: seq<Trigger>, t: Trigger): (r: seq<Trigger>)
    ensures forall u :: u in r <==> u in ts && u != t
  {
    if ts == [] then []
    else if ts[0] == t then Remove(ts[1..], t)
    else [ts[0]] + Remove(ts[1..], t)
  }

  lemma {:induction false} RemoveAbsent(ts: seq<Trigger>, t: Trigger)
    requires t !in ts
    ensures Remove(ts, t) == ts
  {
    if ts != [] {
      RemoveAbsent(ts[1..], t);
    }
  }

  /** Killing the first of the triggers still to visit leaves the rest as they were. */
  lemma {:induction false} RemoveFront(kept: seq<Trigger>, t: Trigger, rest: seq<Trigger>)
    requires t !in kept && t !in rest
    ensures Remove(kept + [t] + rest, t) == kept + rest
  {
    if kept == [] {
      assert kept + [t] + rest == [t] + rest;
      assert ([t] + rest)[1..] == rest;
      RemoveAbsent(rest, t);
    } else {
      assert (kept + [t] + rest)[1..] == kept[1..] + [t] + rest;
      RemoveFront(kept[1..], t, rest);
      assert kept == [kept[0]] + kept[1..];
    }
  }

  /** No trigger appears twice. */
  predicate Distinct(ts: seq<Trigger>)
  {
    forall i, j :: 0 <= i < j < |ts| ==> ts[i].id != ts[j].id
  }

  /** `ScrollTrigger`'s global list of live triggers. */
  class TriggerRegistry {
    var triggers: seq<Trigger>
    var nextId: nat

    /** Trigger ids are distinct and were handed out before. */
    ghost predicate Valid()
      reads this
    {
      Distinct(triggers) && forall t :: t in triggers ==> t.id < nextId
    }

    constructor ()
      ensures Valid() && triggers == []
    {
      triggers := [];
      nextId := 0;
    }

    /** A new trigger for `target`, as the tween's `scrollTrigger` option creates. */
    method Create(target: nat) returns (t: Trigger)
      requires Valid()
      modifies this
      ensures Valid()
      ensures t.target == target && t !in old(triggers)
      ensures triggers == old(triggers) + [t]
    {
      t := Trigger(nextId, target);
      triggers := triggers + [t];
      nextId := nextId + 1;
    }

    /** `st.kill()`. */
    method Kill(t: Trigger)
      modifies this`triggers
      ensures triggers == Remove(old(triggers), t)
    {
      triggers := Remove(triggers, t);
    }

    /** `ScrollTrigger.getAll().forEach(st => { if (st.vars.trigger === target) st.kill() })`. */
    method KillAllFor(target: nat)
      requires Valid()
      modifies this`triggers
      ensures Valid()
      ensures triggers == KeepOthers(old(triggers), target)
    {
      var all := triggers;
      var i := 0;
      while i < |all|
        invariant 0 <= i <= |all|
        invariant triggers == KeepOthers(all[..i], target) + all[i..]
      {
        var st := all[i];
        KillStep(all, i, target);
        if st.target == target {
          Kill(st);
        }
        i := i + 1;
      }
      assert all[..i] == all;
      KeepOthersDistinct(all, target);
    }
  }

  /** One step of the teardown loop: killing `all[i]` when it is on `target` moves the loop's state on by one. */
  lemma KillStep(all: seq<Trigger>, i: nat, target: nat)
    requires Distinct(all) && i < |all|
    ensures var before := KeepOthers(all[..i], target) + all[i..];
            var after := KeepOthers(all[..i + 1], target) + all[i + 1..];
            && (all[i].target == target ==> after == Remove(before, all[i]))
            && (all[i].target != target ==> after == before)
  {
    var st := all[i];
    assert all[..i + 1] == all[..i] + [st];
    KeepOthersAppend(all[..i], [st], target);
    assert [st][1..] == [];
    assert all[i..] == [st] + all[i + 1..];
    if st.target == target {
      assert st !in all[..i] && st !in all[i + 1..] by {
        forall j | 0 <= j < |all| && j != i
          ensures all[j] != st
        {
          assert all[j].id != st.id;
        }
      }
      var kept := KeepOthers(all[..i], target);
      assert KeepOthers([st], target) == [];
      assert kept + all[i..] == kept + [st] + all[i + 1..];
      RemoveFront(kept, st, all[i + 1..]);
    } else {
      assert KeepOthers([st], target) == [st];
    }
  }

  /** Dropping triggers keeps the rest distinct. */
  lemma {:induction false} KeepOthersDistinct(ts: seq<Trigger>, target: nat)
    requires Distinct(ts)
    ensures Distinct(KeepOthers(ts, target))
  {
    if ts != [] {
      assert Distinct(ts[1..]) by {
        forall i, j | 0 <= i < j < |ts[1..]|
          ensures ts[1..][i].id != ts[1..][j].id
        {
          assert ts[1..][i] == ts[i + 1] && ts[1..][j] == ts[j + 1];
        }
      }
      KeepOthersDistinct(ts[1..], target);
      if ts[0].target != target {
        var r := KeepOthers(ts[1..], target);
        forall j | 0 <= j < |r|
          ensures ts[0].id != r[j].id
        {
          assert r[j] in ts[1..];
          var k :| 0 <= k < |ts[1..]| && ts[1..][k] == r[j];
          assert ts[k + 1] == r[j];
        }
        var full := [ts[0]] + r;
        forall i, j | 0 <= i < j < |full|
          ensures full[i].id != full[j].id
        {
          if i == 0 {
            assert full[j] == r[j - 1];
          } else {
            assert full[i] == r[i - 1] && full[j] == r[j - 1];
          }
        }
      }
    }
  }

  /** One mounted slider with its container element. */
  class Slider {
    const container: nat
    const window: Window
    const registry: TriggerRegistry
    var isDesktop: bool
    /** The resize handler the first effect registered. */
    var resizeHandler: Option<nat>
    /** The trigger of the live tween, when the second effect created one. */
    var tween: Option<Trigger>

    ghost predicate Valid()
      reads this, window, registry
    {
      window.Valid() && registry.Valid()
      && (tween.Some? ==> isDesktop && tween.value.target == container)
    }

    /** The first render: `useState(false)`, so the native row. */
    constructor (container: nat, window: Window, registry: TriggerRegistry)
      requires window.Valid() && registry.Valid()
      ensures Valid()
      ensures this.container == container && this.window == window && this.registry == registry
      ensures !isDesktop && resizeHandler == None && tween == None
    {
      this.container := container;
      this.window := window;
      this.registry := registry;
      isDesktop := false;
      resizeHandler := None;
      tween := None;
    }

    method CheckDesktop(innerWidth: real)
      requires Valid() && tween == None
      modifies this`isDesktop
      ensures Valid()
      ensures isDesktop == IsDesktop(innerWidth)
    {
      isDesktop := innerWidth >= DesktopMin;
    }

    /** The first effect: check the width now and on every resize. */
    method MountResizeEffect(innerWidth: real)
      requires Valid() && tween == None && resizeHandler == None
      modifies this`isDesktop, this`resizeHandler, window
      ensures Valid()
      ensures isDesktop == IsDesktop(innerWidth)
      ensures resizeHandler.Some?
      ensures window.listeners == old(window.listeners) + [Listener(Resize, resizeHandler.value)]
    {
      CheckDesktop(innerWidth);
      var h := window.AddEventListener(Resize);
      resizeHandler := Some(h);
    }

    /** The first effect's cleanup. */
    method UnmountResizeEffect()
      requires Valid()
      modifies this`resizeHandler, window`listeners
      ensures Valid() && resizeHandler == None
      ensures old(resizeHandler).None? ==> window.listeners == old(window.listeners)
      ensures old(resizeHandler).Some? ==>
                window.listeners == Without(old(window.listeners), Listener(Resize, old(resizeHandler).value))
    {
      if resizeHandler.Some? {
        window.RemoveEventListener(Resize, resizeHandler.value);
        resizeHandler := None;
      }
    }

    /** The second effect: nothing below desktop or without both elements, otherwise one tween and its trigger. */
    method RunTweenEffect(containerPresent: bool, sliderPresent: bool)
      requires Valid() && tween == None
      modifies this`tween, registry
      ensures Valid()
      ensures !(isDesktop && containerPresent && sliderPresent) ==> tween == None && unchanged(registry)
      ensures isDesktop && containerPresent && sliderPresent ==>
                tween.Some? && tween.value !in old(registry.triggers)
                && registry.triggers == old(registry.triggers) + [tween.value]
    {
      if !isDesktop || !containerPresent || !sliderPresent {
        return;
      }
      var t := registry.Create(container);
      tween := Some(t);
    }

    /** The second effect's cleanup: kill the tween and every trigger on this container. */
    method CleanupTweenEffect()
      requires Valid()
      modifies this`tween, registry`triggers
      ensures Valid() && tween == None
      ensures old(tween).Some? ==> registry.triggers == KeepOthers(old(registry.triggers), container)
      ensures old(tween).None? ==> registry.triggers == old(registry.triggers)
    {
      if tween.Some? {
        tween := None;
        registry.KillAllFor(container);
      }
    }

    /**
     * A resize event reaches `checkDesktop` while it is registered; when the
     * mode flips, the second effect is cleaned up and runs again.
     */
    method OnResize(innerWidth: real, containerPresent: bool, sliderPresent: bool)
      requires Valid()
      modifies this`isDesktop, this`tween, registry
      ensures Valid()
      ensures resizeHandler.Some? && window.Registered(Listener(Resize, resizeHandler.value)) ==>
                isDesktop == IsDesktop(innerWidth)
      ensures !(resizeHandler.Some? && window.Registered(Listener(Resize, resizeHandler.value))) ==>
                isDesktop == old(isDesktop) && tween == old(tween) && unchanged(registry)
      ensures old(isDesktop) && !isDesktop && old(tween).Some? ==>
                tween == None && registry.triggers == KeepOthers(old(registry.triggers), container)
      ensures old(isDesktop) && !isDesktop && old(tween).None? ==>
                tween == None && registry.triggers == old(registry.triggers)
      ensures isDesktop == old(isDesktop) ==> tween == old(tween) && unchanged(registry)
      ensures !old(isDesktop) && isDesktop && containerPresent && sliderPresent ==>
                tween.Some? && tween.value.target == container && tween.value !in old(registry.triggers)
                && registry.triggers == old(registry.triggers) + [tween.value]
      ensures !old(isDesktop) && isDesktop && !(containerPresent && sliderPresent) ==>
                tween == None && registry.triggers == old(registry.triggers)
    {
      if !(resizeHandler.Some? && window.Registered(Listener(Resize, resizeHandler.value))) {
        return;
      }
      if IsDesktop(innerWidth) == isDesktop {
        return;
      }
      CleanupTweenEffect();
      CheckDesktop(innerWidth);
      RunTweenEffect(containerPresent, sliderPresent);
    }
  }

  /**
   * A slider mounted on a narrow window that is then widened to desktop size
   * switches to the pinned layout with one scroll trigger on its container.
   */
  method WidenLifecycle(container: nat, window: Window, registry: TriggerRegistry, narrow: real, wide: real)
    requires window.Valid() && registry.Valid()
    requires narrow < DesktopMin <= wide
    modifies window, registry
    ensures |registry.triggers| == |old(registry.triggers)| + 1
  {
    var slider := new Slider(container, window, registry);
    slider.MountResizeEffect(narrow);
    slider.RunTweenEffect(true, true);
    assert slider.tween == None && !slider.isDesktop;
    slider.OnResize(wide, true, true);
    assert slider.isDesktop && slider.tween.Some? && slider.tween.value.target == container;
  }
}
