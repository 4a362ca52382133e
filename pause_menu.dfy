/**
 * The tab strip of the pause menu and the menu's choice of what listens.
 *
 * The strip lays its tabs out side by side across the menu's width, with a
 * gap of 10 between neighbours. A click while the game is paused selects the
 * tab strictly under the mouse; a click on an edge, outside every tab, or while
 * the game runs changes nothing. Drawing the menu turns the save manager's
 * input listening off on the controls tab and on on the save tab.
 */
module PauseMenus {
  import opened Geometry
  import opened Options

  const CONTROLS := "CONTROLS"
  const SAVE := "SAVE"

  /** The width of the whole menu. */
  const WIDTH := 750.0
  /** Half the gap between neighbouring tabs. */
  const MARGIN := 5.0
  const TAB_HEIGHT := 75.0

  /** The menu's top-left corner, centred on a camera of the given size. */
  function Start(cameraSize: Vector): (s: Vector)
    ensures s.x + WIDTH / 2.0 == cameraSize.x / 2.0
    ensures s.y - 75.0 == cameraSize.y / 6.0
  {
    Vector(cameraSize.x / 2.0 - WIDTH / 2.0, cameraSize.y / 6.0 + 75.0)
  }

  /** One tab: its name, its position in the strip and its rectangle. */
  datatype Tab = Tab(name: string, index: nat, sx: real, sy: real, w: real, h: real)

  /** The width of each of `n` tabs. */
  function TabWidth(n: nat): real
    requires n > 0
  {
    WIDTH / n as real - 10.0
  }

  /** Tab `i` of `n`, for a menu whose corner is `start`. */
  function TabAt(name: string, i: nat, n: nat, start: Vector): Tab
    requires n > 0
  {
    Tab(name, i, start.x + (TabWidth(n) + 2.0 * MARGIN) * i as real, start.y - 100.0, TabWidth(n), TAB_HEIGHT)
  }

  /** The strip for the given names. */
  function Layout(names: seq<string>, start: Vector): (r: seq<Tab>)
    ensures |r| == |names| && Indexed(r)
    ensures forall i :: 0 <= i < |r| ==> r[i].name == names[i]
  {
    seq(|names|, i requires 0 <= i < |names| => TabAt(names[i], i, |names|, start))
  }

  /** Whether the mouse is strictly inside a tab: a point on an edge is not. */
  predicate Inside(t: Tab, mouse: Vector)
  {
    mouse.x > t.sx && mouse.y > t.sy && mouse.x < t.sx + t.w && mouse.y < t.sy + t.h
  }

  /**
   * The position of the tab a click selects. Every tab's listener sees the
   * click, in the order the tabs were added, so the last tab under the mouse wins.
   */
  function LastHit(tabs: seq<Tab>, mouse: Vector): (r: Option<nat>)
    ensures r.Some? ==> r.value < |tabs| && Inside(tabs[r.value], mouse)
    ensures r.Some? ==> forall j :: r.value < j < |tabs| ==> !Inside(tabs[j], mouse)
    ensures r.None? <==> forall j :: 0 <= j < |tabs| ==> !Inside(tabs[j], mouse)
    decreases |tabs|
  {
    if tabs == [] then None
    else if Inside(tabs[|tabs| - 1], mouse) then Some(|tabs| - 1)
    else LastHit(tabs[..|tabs| - 1], mouse)
  }

  /** Each tab's index is its position in the strip. */
  predicate Indexed(tabs: seq<Tab>)
  {
    forall k :: 0 <= k < |tabs| ==> tabs[k].index == k
  }

  /** Tab `i` of the strip: its name, index and rectangle. */
  lemma LayoutTab(names: seq<string>, start: Vector, i: nat)
    requires i < |names|
    ensures var t := Layout(names, start)[i];
            var w := WIDTH / |names| as real - 10.0;
            && |Layout(names, start)| == |names|
            && t.name == names[i] && t.index == i
            && t.w == w && t.sx == start.x + (w + 10.0) * i as real
            && t.sy == start.y - 100.0 && t.h == 75.0
  {
  }

  /** Neighbouring tabs are separated by a gap of exactly 10 and share their row. */
  lemma TabGap(names: seq<string>, start: Vector, i: nat)
    requires i + 1 < |names|
    ensures var tabs := Layout(names, start);
            tabs[i + 1].sx - (tabs[i].sx + tabs[i].w) == 2.0 * MARGIN
            && tabs[i + 1].sy == tabs[i].sy && tabs[i + 1].h == tabs[i].h
  {
    var w := TabWidth(|names|);
    var tabs := Layout(names, start);
    assert tabs[i + 1].sx == tabs[i].sx + (w + 2.0 * MARGIN);
  }

  /** A later tab starts at least 10 past the end of an earlier one, unless tabs have no width. */
  lemma Separated(names: seq<string>, start: Vector, lo: nat, hi: nat)
    requires lo < hi < |names|
    ensures var tabs := Layout(names, start);
            tabs[lo].w <= 0.0 || tabs[lo].sx + tabs[lo].w + 2.0 * MARGIN <= tabs[hi].sx
  {
    var tabs := Layout(names, start);
    var w := TabWidth(|names|);
    var e := (hi - lo) as real - 1.0;
    assert tabs[hi].sx - tabs[lo].sx == (w + 10.0) * (e + 1.0);
    if w > 0.0 {
      assert (w + 10.0) * e >= 0.0;
    }
  }

  /** No point lies strictly inside two different tabs of the strip. */
  lemma LayoutDisjoint(names: seq<string>, start: Vector, i: nat, j: nat, mouse: Vector)
    requires i < |names| && j < |names|
    requires Inside(Layout(names, start)[i], mouse) && Inside(Layout(names, start)[j], mouse)
    ensures i == j
  {
    if i < j {
      Separated(names, start, i, j);
    } else if j < i {
      Separated(names, start, j, i);
    }
  }

  /**
   * A click on the strip selects tab `i` exactly when the mouse is strictly
   * inside it, and selects nothing exactly when it is inside none.
   */
  lemma ClickSelects(names: seq<string>, start: Vector, mouse: Vector, i: nat)
    ensures LastHit(Layout(names, start), mouse) == Some(i)
            <==> i < |names| && Inside(Layout(names, start)[i], mouse)
  {
    var tabs := Layout(names, start);
    var r := LastHit(tabs, mouse);
    if i < |names| && Inside(tabs[i], mouse) {
      assert r.Some?;
      LayoutDisjoint(names, start, i, r.value, mouse);
    }
  }

  // ---------------------------------------------------------------------------
  // The objects

  class PauseMenuTabs {
    var tabs: seq<Tab>
    var active: nat

    predicate Valid()
      reads this
    {
      Indexed(tabs) && (|tabs| > 0 ==> active < |tabs|)
    }

    constructor (tabNames: seq<string>, start: Vector)
      ensures Valid()
      ensures tabs == Layout(tabNames, start)
      ensures active == 0
    {
      var laidOut: seq<Tab> := [];
      var i := 0;
      // With no names no tab is laid out, so the width is never used.
      var w := if |tabNames| == 0 then 0.0 else TabWidth(|tabNames|);
      while i < |tabNames|
        invariant 0 <= i <= |tabNames|
        invariant |laidOut| == i
        invariant forall k :: 0 <= k < i ==> laidOut[k] == TabAt(tabNames[k], k, |tabNames|, start)
      {
        var newTab := Tab(tabNames[i], i, start.x + (w + 2.0 * MARGIN) * i as real, start.y - 100.0, w, TAB_HEIGHT);
        laidOut := laidOut + [newTab];
        i := i + 1;
      }
      tabs := laidOut;
      active := 0;
    }

    /**
     * The name of the active tab: the tab whose index is the active one. On an
     * empty strip there is no such tab and the lookup fails, so a tab is required.
     */
    function ActiveTab(): (r: string)
      requires Valid() && |tabs| > 0
      reads this
      ensures forall k :: 0 <= k < |tabs| && tabs[k].index == active ==> r == tabs[k].name
    {
      tabs[active].name
    }

    /** The click listeners: while paused, the last tab strictly under the mouse becomes active. */
    method Click(mouse: Vector, running: bool)
      requires Valid()
      modifies this`active
      ensures Valid()
      ensures running ==> active == old(active)
      ensures !running ==>
                active == match LastHit(tabs, mouse) case Some(k) => k case None => old(active)
    {
      if running {
        return;
      }
      var hit := LastHit(tabs, mouse);
      if hit.Some? {
        active := tabs[hit.value].index;
      }
    }
  }

  /** The save manager's listening as decided by the active tab; `None` leaves it as it is. */
  function ListenFor(activeTab: string): (r: Option<bool>)
    ensures activeTab == CONTROLS ==> r == Some(false)
    ensures activeTab == SAVE ==> r == Some(true)
    ensures r.None? <==> activeTab != CONTROLS && activeTab != SAVE
  {
    if activeTab == CONTROLS then Some(false)
    else if activeTab == SAVE then Some(true)
    else None
  }

  class PauseMenu {
    const tabs: PauseMenuTabs

    /** The menu's strip holds the controls tab and then the save tab. */
    predicate Valid()
      reads this, tabs
    {
      tabs.Valid() && |tabs.tabs| == 2 && tabs.tabs[0].name == CONTROLS && tabs.tabs[1].name == SAVE
    }

    constructor (cameraSize: Vector)
      ensures fresh(tabs) && Valid()
      ensures tabs.tabs == Layout([CONTROLS, SAVE], Start(cameraSize)) && tabs.active == 0
    {
      tabs := new PauseMenuTabs([CONTROLS, SAVE], Start(cameraSize));
    }

    /** The active tab's name, which is always one of the menu's two tabs. */
    function ActiveTab(): (r: string)
      requires Valid()
      reads this, tabs
      ensures r == CONTROLS || r == SAVE
      ensures r == SAVE <==> tabs.active == 1
    {
      tabs.ActiveTab()
    }

    /** What drawing the menu does to the save manager: the decision for the active tab. */
    method Draw() returns (listen: Option<bool>)
      requires Valid()
      ensures listen == ListenFor(ActiveTab())
      ensures listen.Some?
    {
      listen := ListenFor(ActiveTab());
    }
  }

  /**
   * The pause menu's two tabs: whichever is active, drawing decides the
   * listening, off on the controls tab (0) and on on the save tab (1).
   */
  lemma MenuListening(start: Vector, active: nat)
    requires active < 2
    ensures ListenFor(Layout([CONTROLS, SAVE], start)[active].name) == Some(active == 1)
  {
  }

  /**
   * Clicking the menu keeps its invariant: whatever the clicks, a tab stays
   * active and drawing always decides the listening.
   */
  lemma {:induction false} MenuClicksKeepDecision(start: Vector, active: nat, clicks: seq<Vector>)
    requires active < 2
    ensures var tabs := Layout([CONTROLS, SAVE], start);
            var last := ActiveAfter(tabs, active, clicks);
            last < 2 && ListenFor(tabs[last].name) == Some(last == 1)
    decreases |clicks|
  {
    var tabs := Layout([CONTROLS, SAVE], start);
    if clicks != [] {
      var next := match LastHit(tabs, clicks[0]) case Some(k) => k case None => active;
      MenuClicksKeepDecision(start, next, clicks[1..]);
    } else {
      MenuListening(start, active);
    }
  }

  /** The active tab after a series of paused clicks on a strip. */
  function ActiveAfter(tabs: seq<Tab>, active: nat, clicks: seq<Vector>): nat
    decreases |clicks|
  {
    if clicks == [] then active
    else
      var next := match LastHit(tabs, clicks[0]) case Some(k) => k case None => active;
      ActiveAfter(tabs, next, clicks[1..])
  }
}
