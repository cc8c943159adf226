/**
 * The site header (component `LuxuriousHeader` and its hook `useScrollDirection`).
 *
 * The hook tracks the scroll direction with a dead band of 10 pixels, so that
 * small jitters do not flip it. The header itself is hidden on the admin
 * pages, is transparent on the home and restaurant pages until the page
 * scrolls, shows the user's first name and has a mobile menu that opens and
 * closes.
 */
module Header {
  import opened Wrappers

  // ---------------------------------------------------------------------------
  // Scroll direction

  datatype Direction = Up | Down

  /** Movement, in pixels, that a direction change must exceed. */
  const DeadBand: real := 10.0

  /** The hook's remembered state: the direction it reports and the last position it saw. */
  datatype ScrollState = ScrollState(scrollDirection: Direction, lastScrollY: real)

  /** The direction of one movement: down exactly when the page moved further down. */
  function ComputedDirection(lastScrollY: real, scrollY: real): (d: Direction)
    ensures d == Down <==> scrollY > lastScrollY
  {
    if scrollY > lastScrollY then Down else Up
  }

  /** Negative positions (overscroll) are remembered as 0. */
  function ClampScroll(scrollY: real): (r: real)
    ensures r >= 0.0
    ensures scrollY >= 0.0 ==> r == scrollY
  {
    if scrollY > 0.0 then scrollY else 0.0
  }

  /**
   * One scroll event: the direction changes only to the direction of this
   * movement, and only when the movement exceeds the dead band; the
   * remembered position becomes the clamped new position.
   */
  function ScrollStep(s: ScrollState, scrollY: real): (r: ScrollState)
    ensures r.lastScrollY == ClampScroll(scrollY)
    ensures r.scrollDirection != s.scrollDirection ==>
              r.scrollDirection == ComputedDirection(s.lastScrollY, scrollY)
    ensures (scrollY - s.lastScrollY > DeadBand || scrollY - s.lastScrollY < -DeadBand) ==>
              r.scrollDirection == ComputedDirection(s.lastScrollY, scrollY)
    ensures -DeadBand <= scrollY - s.lastScrollY <= DeadBand ==> r.scrollDirection == s.scrollDirection
  {
    var direction := ComputedDirection(s.lastScrollY, scrollY);
    var moved := scrollY - s.lastScrollY;
    var d := if direction != s.scrollDirection && (moved > DeadBand || moved < -DeadBand)
             then direction else s.scrollDirection;
    ScrollState(d, ClampScroll(scrollY))
  }

  /**
   * One scroll event as the hook sees it: the listener's step, and, when the
   * direction changed, the effect re-run with `[scrollDirection]` that
   * installs a fresh listener starting from the offset as it is, unclamped.
   */
  function HookStep(s: ScrollState, scrollY: real): (r: ScrollState)
    ensures r.scrollDirection == ScrollStep(s, scrollY).scrollDirection
    ensures r.scrollDirection == s.scrollDirection ==> r.lastScrollY == ClampScroll(scrollY)
    ensures r.scrollDirection != s.scrollDirection ==> r.lastScrollY == scrollY
  {
    var r := ScrollStep(s, scrollY);
    if r.scrollDirection != s.scrollDirection then r.(lastScrollY := scrollY) else r
  }

  /** The state after a run of scroll events at the given positions. */
  function Track(s: ScrollState, positions: seq<real>): (r: ScrollState)
    ensures positions == [] ==> r == s
    ensures positions != [] ==> r.lastScrollY == ClampScroll(positions[|positions| - 1])
                                || r.lastScrollY == positions[|positions| - 1]
    decreases |positions|
  {
    if positions == [] then s else Track(HookStep(s, positions[0]), positions[1..])
  }

  /** Tracking a longer run is tracking its prefix, then one more event. */
  lemma {:induction false} TrackLast(s: ScrollState, positions: seq<real>)
    requires positions != []
    ensures Track(s, positions) == HookStep(Track(s, positions[..|positions| - 1]), positions[|positions| - 1])
    decreases |positions|
  {
    if |positions| > 1 {
      TrackLast(HookStep(s, positions[0]), positions[1..]);
      assert positions[1..][..|positions| - 2] == positions[..|positions| - 1][1..];
    }
  }

  /** Every event moves by at most the dead band from the remembered (clamped) position. */
  ghost predicate Gentle(lastScrollY: real, positions: seq<real>)
    decreases |positions|
  {
    positions == []
    || (-DeadBand <= positions[0] - lastScrollY <= DeadBand && Gentle(ClampScroll(positions[0]), positions[1..]))
  }

  /**
   * Scrolling in steps no larger than the dead band never changes the
   * reported direction, however far the page travels in total.
   */
  lemma {:induction false} GentleScrollKeepsDirection(s: ScrollState, positions: seq<real>)
    requires Gentle(s.lastScrollY, positions)
    ensures Track(s, positions).scrollDirection == s.scrollDirection
    decreases |positions|
  {
    if positions != [] {
      GentleScrollKeepsDirection(HookStep(s, positions[0]), positions[1..]);
    }
  }

  /**
   * The remembered position is the last one, clamped and so never negative,
   * unless the last event changed the direction: then the new listener starts
   * from the last position as it was.
   */
  lemma TrackedPosition(s: ScrollState, positions: seq<real>)
    requires positions != []
    ensures var before := Track(s, positions[..|positions| - 1]);
            var after := Track(s, positions);
            && (after.scrollDirection == before.scrollDirection ==>
                  after.lastScrollY == ClampScroll(positions[|positions| - 1]) && after.lastScrollY >= 0.0)
            && (after.scrollDirection != before.scrollDirection ==>
                  after.lastScrollY == positions[|positions| - 1])
  {
    TrackLast(s, positions);
  }

  /**
   * A direction change during overscroll leaves a negative position behind,
   * and the next movement is measured from it: from "up" at the top, going
   * down to 30, bouncing to -5 and settling at 6 ends "down", where a single
   * listener, measuring 6 from the clamped 0, would have stayed "up".
   */
  lemma OverscrollAfterDirectionChange()
    ensures Track(ScrollState(Up, 0.0), [30.0, -5.0]) == ScrollState(Up, -5.0)
    ensures Track(ScrollState(Up, 0.0), [30.0, -5.0, 6.0]) == ScrollState(Down, 6.0)
    ensures ScrollStep(ScrollStep(ScrollStep(ScrollState(Up, 0.0), 30.0), -5.0), 6.0).scrollDirection == Up
  {
  }

  /** `useScrollDirection`: the state and the listener's captured `lastScrollY`. */
  class ScrollDirectionTracker {
    var scrollDirection: Direction
    var lastScrollY: real

    function State(): ScrollState
      reads this
    {
      ScrollState(scrollDirection, lastScrollY)
    }

    /** The hook starts "up" and the listener starts from the current offset. */
    constructor (pageYOffset: real)
      ensures State() == ScrollState(Up, pageYOffset)
    {
      scrollDirection := Up;
      lastScrollY := pageYOffset;
    }

    /** `updateScrollDirection`; reports whether the direction changed. */
    method OnScroll(scrollY: real) returns (changed: bool)
      modifies this
      ensures State() == ScrollStep(old(State()), scrollY)
      ensures changed <==> scrollDirection != old(scrollDirection)
    {
      var direction := if scrollY > lastScrollY then Down else Up;
      changed := false;
      if direction != scrollDirection && (scrollY - lastScrollY > DeadBand || scrollY - lastScrollY < -DeadBand) {
        scrollDirection := direction;
        changed := true;
      }
      lastScrollY := if scrollY > 0.0 then scrollY else 0.0;
    }

    /**
     * A direction change re-runs the hook's effect, which installs a new
     * listener starting from the then-current offset (not clamped).
     */
    method Resubscribe(pageYOffset: real)
      modifies this
      ensures State() == ScrollState(old(scrollDirection), pageYOffset)
    {
      lastScrollY := pageYOffset;
    }

    /**
     * One scroll event at `scrollY`: the listener runs and, when it changed
     * the direction, the effect re-subscribes at the same offset.
     */
    method Scroll(scrollY: real)
      modifies this
      ensures State() == HookStep(old(State()), scrollY)
    {
      var changed := OnScroll(scrollY);
      if changed {
        Resubscribe(scrollY);
      }
    }
  }

  // ---------------------------------------------------------------------------
  // Page predicates

  /**
   * The page counts as scrolled once it is more than 10 pixels down; an
   * overscroll above the top counts as not scrolled, as its clamped position does.
   */
  predicate IsScrolled(scrollY: real): (r: bool)
    ensures r <==> ClampScroll(scrollY) > DeadBand
  {
    scrollY > 10.0
  }

  /** The restaurant landing pages, none of which lies below an admin prefix. */
  predicate IsRestaurantPage(pathname: string): (r: bool)
    ensures r ==> |pathname| > 1 && pathname[0] == '/' && !ShouldHideHeader(pathname)
  {
    RestaurantPagesShown();
    pathname == "/tolvsrod" || pathname == "/teie" || pathname == "/sentrum"
  }

  /** The header is see-through on the home page and the restaurant pages, until scrolled. */
  function IsTransparent(pathname: string, isScrolled: bool): (r: bool)
    ensures r <==> pathname in {"/", "/tolvsrod", "/teie", "/sentrum"} && !isScrolled
  {
    var isHomePage := pathname == "/";
    (isHomePage || IsRestaurantPage(pathname)) && !isScrolled
  }

  /** Prefixes of the admin pages, where the header is not shown. */
  const HiddenPages: seq<string> := ["/profile", "/categories", "/menu-items", "/users", "/orders", "/oversikt", "/restaurants"]

  /** `pages.some(page => pathname.startsWith(page))`. */
  function SomePrefix(pages: seq<string>, pathname: string): (r: bool)
    ensures r <==> exists i :: 0 <= i < |pages| && pages[i] <= pathname
  {
    if pages == [] then false
    else pages[0] <= pathname || SomePrefix(pages[1..], pathname)
  }

  /** The header hides exactly on paths that start with one of the admin prefixes. */
  function ShouldHideHeader(pathname: string): (r: bool)
    ensures r <==> exists i :: 0 <= i < |HiddenPages| && HiddenPages[i] <= pathname
  {
    SomePrefix(HiddenPages, pathname)
  }

  /** Every page below an admin prefix is hidden, whatever follows the prefix. */
  lemma AdminSubpagesHidden(i: nat, rest: string)
    requires i < |HiddenPages|
    ensures ShouldHideHeader(HiddenPages[i] + rest)
  {
    assert HiddenPages[i] <= HiddenPages[i] + rest;
  }

  /** A path whose second character starts no admin prefix keeps its header. */
  lemma SecondCharacterNotAdmin(p: string)
    requires |p| > 1 && p[1] !in "pcmuor"
    ensures !ShouldHideHeader(p)
  {
    forall i | 0 <= i < |HiddenPages| ensures !(HiddenPages[i] <= p) {
      assert HiddenPages[i][1] in "pcmuor";
    }
  }

  /** No admin prefix starts a restaurant page: they differ in the second character. */
  lemma RestaurantPagesShown()
    ensures !ShouldHideHeader("/tolvsrod") && !ShouldHideHeader("/teie") && !ShouldHideHeader("/sentrum")
  {
    SecondCharacterNotAdmin("/tolvsrod");
    SecondCharacterNotAdmin("/teie");
    SecondCharacterNotAdmin("/sentrum");
  }

  /** The home page, the menu and the restaurant pages keep their header. */
  lemma PublicPagesShown()
    ensures !ShouldHideHeader("/") && !ShouldHideHeader("/menu")
    ensures forall p :: IsRestaurantPage(p) ==> !ShouldHideHeader(p)
  {
    forall p | IsRestaurantPage(p) ensures !ShouldHideHeader(p) {
      forall i | 0 <= i < |HiddenPages| ensures !(HiddenPages[i] <= p) {
        assert HiddenPages[i][1] != p[1];
      }
    }
  }

  // ---------------------------------------------------------------------------
  // User name and mobile menu

  /** The text before the first space (`s.split(" ")[0]`). */
  function BeforeFirstSpace(s: string): (r: string)
    ensures r <= s && ' ' !in r
    ensures |r| < |s| ==> s[|r|] == ' '
  {
    if s == [] || s[0] == ' ' then [] else [s[0]] + BeforeFirstSpace(s[1..])
  }

  /** The name shown: a name containing a space is cut before its first space; others stay as they are. */
  function FirstName(userName: string): (r: string)
    ensures ' ' in userName ==> ' ' !in r && r + " " <= userName
    ensures ' ' !in userName ==> r == userName
  {
    if ' ' in userName then BeforeFirstSpace(userName) else userName
  }

  /** `userData?.name || userData?.email`, then shortened when it contains a space. */
  function UserName(name: Option<string>, email: Option<string>): (r: Option<string>)
    ensures name.Some? && name.value != "" ==> r == Some(FirstName(name.value))
    ensures (name.None? || name.value == "") && email.Some? ==> r == Some(FirstName(email.value))
    ensures (name.None? || name.value == "") && email.None? ==> r.None?
  {
    var userName := if name.Some? && name.value != "" then name else email;
    if userName.Some? && userName.value != "" && ' ' in userName.value
    then Some(BeforeFirstSpace(userName.value))
    else userName
  }

  /** The mobile menu's state and the header's scrolled flag. */
  class HeaderMenu {
    var isOpen: bool
    var isScrolled: bool

    constructor ()
      ensures !isOpen && !isScrolled
    {
      isOpen := false;
      isScrolled := false;
    }

    /** The menu button. */
    method ToggleMenu()
      modifies this
      ensures isOpen == !old(isOpen) && isScrolled == old(isScrolled)
    {
      isOpen := !isOpen;
    }

    /** Following a link in the menu. */
    method CloseMenu()
      modifies this
      ensures !isOpen && isScrolled == old(isScrolled)
    {
      isOpen := false;
    }

    /** The header's own scroll listener. */
    method HandleScroll(scrollY: real)
      modifies this
      ensures isScrolled == IsScrolled(scrollY) && isOpen == old(isOpen)
    {
      isScrolled := scrollY > 10.0;
    }
  }
}
