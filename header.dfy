/**
 * The site header: a fixed bar whose visibility can follow the scroll
 * position, and one navigation link per top-level navigation item.
 */
module Header {
  import opened Wrappers
  import opened CmsTypes
  import opened Browser

  /** An `<a key={href} href={href}>{label}</a>` navigation link. */
  datatype NavLink = NavLink(key: string, href: string, text: string)

  function NavLinks(nav: SiteNavigation): (links: seq<NavLink>)
    ensures |links| == |nav.items|
    ensures forall i :: 0 <= i < |links| ==>
              links[i].href == nav.items[i].href && links[i].key == nav.items[i].href
              && links[i].text == nav.items[i].caption
  {
    seq(|nav.items|, i requires 0 <= i < |nav.items| => NavLink(nav.items[i].href, nav.items[i].href, nav.items[i].caption))
  }

  /** Nested children are not rendered: only each top-level item's label and href matter. */
  lemma NavLinksIgnoreChildren(a: SiteNavigation, b: SiteNavigation)
    requires |a.items| == |b.items|
    requires forall i :: 0 <= i < |a.items| ==>
               a.items[i].caption == b.items[i].caption && a.items[i].href == b.items[i].href
    ensures NavLinks(a) == NavLinks(b)
  {
  }

  const BaseClasses: seq<string> :=
    ["fixed", "top-0", "z-50", "w-full", "border-b", "border-border-default", "bg-surface-primary/95", "backdrop-blur-sm"]

  /** The transition part of the header's class list. */
  function TransitionClasses(scrollBehavior: bool, visible: bool): (cls: seq<string>)
    ensures !scrollBehavior ==> cls == []
    ensures scrollBehavior ==> "transition-transform" in cls
    ensures scrollBehavior ==> ("translate-y-0" in cls <==> visible)
    ensures scrollBehavior ==> ("-translate-y-full" in cls <==> !visible)
  {
    if !scrollBehavior then []
    else if visible then ["transition-transform", "translate-y-0", "duration-300", "ease-out"]
    else ["transition-transform", "-translate-y-full", "duration-[60ms]", "ease-in"]
  }

  /** One mounted `<Header>`. */
  class HeaderState {
    const navigation: SiteNavigation
    const window: Window
    var scrollBehavior: bool
    var isVisible: bool
    /** The scroll handler the effect registered and has not removed yet. */
    var handler: Option<nat>

    /** A registered handler belongs to the current effect, which only runs with `scrollBehavior`. */
    ghost predicate Valid()
      reads this, window
    {
      window.Valid() && (handler.Some? ==> scrollBehavior)
    }

    /** The first render: `useState(!scrollBehavior)`. */
    constructor (navigation: SiteNavigation, scrollBehavior: bool, window: Window)
      requires window.Valid()
      ensures Valid()
      ensures this.navigation == navigation && this.window == window
      ensures this.scrollBehavior == scrollBehavior && isVisible == !scrollBehavior && handler == None
    {
      this.navigation := navigation;
      this.window := window;
      this.scrollBehavior := scrollBehavior;
      isVisible := !scrollBehavior;
      handler := None;
    }

    /** The class list of the `<header>` element. */
    function Classes(): (cls: seq<string>)
      reads this
      ensures !scrollBehavior ==> cls == BaseClasses
      ensures |cls| >= |BaseClasses| && cls[..|BaseClasses|] == BaseClasses
      ensures scrollBehavior ==> ("translate-y-0" in cls <==> isVisible) && ("-translate-y-full" in cls <==> !isVisible)
    {
      var transition := TransitionClasses(scrollBehavior, isVisible);
      assert "translate-y-0" !in BaseClasses && "-translate-y-full" !in BaseClasses;
      assert forall c :: c in BaseClasses + transition <==> c in BaseClasses || c in transition;
      BaseClasses + transition
    }

    /** The effect: without `scrollBehavior` it returns at once, otherwise it adds one scroll listener. */
    method RunEffect()
      requires Valid() && handler.None?
      modifies this`handler, window
      ensures Valid()
      ensures !scrollBehavior ==> handler.None? && unchanged(window)
      ensures scrollBehavior ==> handler.Some?
      ensures scrollBehavior ==> window.listeners == old(window.listeners) + [Listener(Scroll, handler.value)]
      ensures scrollBehavior ==> Listener(Scroll, handler.value) !in old(window.listeners)
    {
      if !scrollBehavior {
        return;
      }
      var h := window.AddEventListener(Scroll);
      handler := Some(h);
    }

    /** The effect's cleanup removes exactly the listener it added. */
    method CleanupEffect()
      requires Valid()
      modifies this`handler, window`listeners
      ensures Valid() && handler.None?
      ensures old(handler).None? ==> window.listeners == old(window.listeners)
      ensures old(handler).Some? ==>
                window.listeners == Without(old(window.listeners), Listener(Scroll, old(handler).value))
    {
      if handler.Some? {
        window.RemoveEventListener(Scroll, handler.value);
        handler := None;
      }
    }

    /** A scroll event reaches `handleScroll` only while it is registered. */
    method OnScroll(scrollY: real)
      modifies this`isVisible
      ensures handler.Some? && window.Registered(Listener(Scroll, handler.value)) ==> isVisible == (scrollY > 0.0)
      ensures !(handler.Some? && window.Registered(Listener(Scroll, handler.value))) ==> isVisible == old(isVisible)
    {
      if handler.Some? && window.Registered(Listener(Scroll, handler.value)) {
        if scrollY > 0.0 {
          isVisible := true;
        } else {
          isVisible := false;
        }
      }
    }

    /**
     * A new `scrollBehavior` prop: the effect depends on it, so its cleanup
     * runs and it runs again. `isVisible` keeps its state across the change.
     */
    method SetScrollBehavior(b: bool)
      requires Valid()
      requires handler.Some? ==> window.Registered(Listener(Scroll, handler.value))
      modifies this`handler, this`scrollBehavior, window
      ensures Valid()
      ensures scrollBehavior == b && isVisible == old(isVisible)
      ensures b == old(scrollBehavior) ==> handler == old(handler) && unchanged(window)
      ensures b != old(scrollBehavior) ==> (handler.Some? <==> b)
      ensures b != old(scrollBehavior) && old(handler).Some? ==> !window.Registered(Listener(Scroll, old(handler).value))
      ensures b != old(scrollBehavior) && b ==> window.Registered(Listener(Scroll, handler.value))
      ensures b != old(scrollBehavior) ==>
                var kept := if old(handler).Some? then Without(old(window.listeners), Listener(Scroll, old(handler).value))
                            else old(window.listeners);
                window.listeners == (if b then kept + [Listener(Scroll, handler.value)] else kept)
    {
      if b == scrollBehavior {
        return;
      }
      CleanupEffect();
      scrollBehavior := b;
      RunEffect();
    }
  }

  /**
   * A header with `scrollBehavior`: hidden at first, shown once the page is
   * scrolled, hidden again at the top, and leaving no listener behind.
   */
  method ScrollLifecycle(nav: SiteNavigation, window: Window, y: real)
    requires window.Valid()
    requires y > 0.0
    modifies window
    ensures window.listeners == old(window.listeners)
  {
    var header := new HeaderState(nav, true, window);
    assert !header.isVisible && "-translate-y-full" in header.Classes();
    header.RunEffect();
    header.OnScroll(y);
    assert header.isVisible && "translate-y-0" in header.Classes();
    header.OnScroll(0.0);
    assert !header.isVisible;
    var h := header.handler.value;
    header.CleanupEffect();
    WithoutAppended(old(window.listeners), Listener(Scroll, h));
  }

  /**
   * A header rendered without `scrollBehavior` and then given it: its state is
   * kept (visible), and from then on scrolling hides and shows it.
   */
  method TurnOnLifecycle(nav: SiteNavigation, window: Window, y: real)
    requires window.Valid()
    requires y > 0.0
    modifies window
    ensures |window.listeners| == |old(window.listeners)| + 1
  {
    var header := new HeaderState(nav, false, window);
    header.RunEffect();
    header.SetScrollBehavior(true);
    assert header.isVisible && header.handler.Some?;
    header.OnScroll(0.0);
    assert !header.isVisible && "-translate-y-full" in header.Classes();
    header.OnScroll(y);
    assert header.isVisible;
  }

  /** Without `scrollBehavior` the header is always visible and registers nothing. */
  method StaticLifecycle(nav: SiteNavigation, window: Window, y: real)
    requires window.Valid()
    modifies window
    ensures window.listeners == old(window.listeners)
  {
    var header := new HeaderState(nav, false, window);
    header.RunEffect();
    header.OnScroll(y);
    assert header.isVisible && header.Classes() == BaseClasses;
    header.CleanupEffect();
  }
}
