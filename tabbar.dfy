/**
 * The custom bottom tab bar of psiagram/components/tabBar.tsx: which routes
 * get a tab, which tab is focused, which icon each shows, and what a press
 * does. The navigation state is the route list `state.routes` with the
 * focused position `state.index`; the effect of a press is returned as a
 * value (the event it emits and the route it navigates to, if any).
 */
module TabBar {
  import opened Wrappers

  /** The routes that get a tab, in the order of the declaration. */
  const AllowedTabs: seq<string> := ["feed", "groups", "createPost", "search", "myProfile"]

  const FallbackIcon: string := "ellipse-outline"

  datatype Route = Route(key: string, name: string)

  predicate Allowed(r: Route) { r.name in AllowedTabs }

  /**
   * `getIcon`: the filled icon of a known route when focused, its outline
   * variant when not; every other route name gets the outline ellipse.
   */
  function GetIcon(routeName: string, focused: bool): (icon: string)
    ensures routeName !in AllowedTabs ==> icon == FallbackIcon
    ensures routeName in AllowedTabs ==> icon != FallbackIcon
  {
    if routeName == "feed" then (if focused then "paw" else "paw-outline")
    else if routeName == "groups" then (if focused then "people" else "people-outline")
    else if routeName == "createPost" then (if focused then "add-circle" else "add-circle-outline")
    else if routeName == "search" then (if focused then "search" else "search-outline")
    else if routeName == "myProfile" then (if focused then "person" else "person-outline")
    else FallbackIcon
  }

  /** The unfocused icon of a known route is its focused icon with "-outline" appended. */
  lemma UnfocusedIsOutline(routeName: string)
    requires routeName in AllowedTabs
    ensures GetIcon(routeName, false) == GetIcon(routeName, true) + "-outline"
  {
  }

  /** For known routes the icon tells both the route and whether it is focused. */
  lemma IconDeterminesTab(n1: string, f1: bool, n2: string, f2: bool)
    requires n1 in AllowedTabs && n2 in AllowedTabs
    requires GetIcon(n1, f1) == GetIcon(n2, f2)
    ensures n1 == n2 && f1 == f2
  {
    var i1, i2 := GetIcon(n1, f1), GetIcon(n2, f2);
    assert |i1| == |i2|;
    assert i1[1] == i2[1];
    assert i1[|i1| - 1] == i2[|i2| - 1];
  }

  /** `isCenter`: only the feed tab gets the centre style. */
  function IsCenter(routeName: string): (center: bool)
    ensures center <==> routeName == AllowedTabs[0]
  {
    routeName == "feed"
  }

  /**
   * A tab has the centre style exactly when it is the feed tab, and the
   * centre tab shows the paw icon, filled when focused.
   */
  lemma CenterTabShowsPaw(routes: seq<Route>, stateIndex: int, k: nat)
    requires k < |Tabs(routes, stateIndex)|
    ensures Tabs(routes, stateIndex)[k].center <==> Tabs(routes, stateIndex)[k].name == "feed"
    ensures Tabs(routes, stateIndex)[k].center ==>
      Tabs(routes, stateIndex)[k].icon == if Tabs(routes, stateIndex)[k].focused then "paw" else "paw-outline"
  {
  }

  /** `state.routes.filter(route => ALLOWED_TABS.includes(route.name))`. */
  function Visible(routes: seq<Route>): (kept: seq<Route>)
    ensures |kept| <= |routes|
    ensures forall k :: 0 <= k < |kept| ==> Allowed(kept[k])
  {
    if routes == [] then []
    else (if Allowed(routes[0]) then [routes[0]] else []) + Visible(routes[1..])
  }

  /** A route gets a tab exactly when it is in the state and its name is allowed. */
  lemma {:induction false} VisibleMembership(routes: seq<Route>, r: Route)
    ensures r in Visible(routes) <==> r in routes && Allowed(r)
  {
    if routes != [] {
      VisibleMembership(routes[1..], r);
      assert routes == [routes[0]] + routes[1..];
    }
  }

  /** The filter keeps relative order: filtering a concatenation concatenates the filtered parts. */
  lemma {:induction false} VisibleConcat(a: seq<Route>, b: seq<Route>)
    ensures Visible(a + b) == Visible(a) + Visible(b)
  {
    if a == [] {
      assert a + b == b;
    } else {
      assert (a + b)[0] == a[0];
      assert (a + b)[1..] == a[1..] + b;
      VisibleConcat(a[1..], b);
    }
  }

  /** Filtering the tabs again keeps them all. */
  lemma {:induction false} VisibleIdempotent(routes: seq<Route>)
    ensures Visible(Visible(routes)) == Visible(routes)
  {
    if routes != [] {
      var head := if Allowed(routes[0]) then [routes[0]] else [];
      VisibleConcat(head, Visible(routes[1..]));
      VisibleIdempotent(routes[1..]);
    }
  }

  /** `state.routes.findIndex(r => r.key === key)`: the first position with that key, or -1. */
  function FindIndex(routes: seq<Route>, key: string): (i: int)
    ensures -1 <= i < |routes|
    ensures i >= 0 ==> routes[i].key == key && forall j :: 0 <= j < i ==> routes[j].key != key
    ensures i == -1 <==> forall j :: 0 <= j < |routes| ==> routes[j].key != key
  {
    if routes == [] then -1
    else if routes[0].key == key then 0
    else
      var j := FindIndex(routes[1..], key);
      if j == -1 then -1 else j + 1
  }

  /** Navigation keeps route keys distinct. */
  predicate UniqueKeys(routes: seq<Route>) {
    forall i, j :: 0 <= i < j < |routes| ==> routes[i].key != routes[j].key
  }

  datatype Tab = Tab(key: string, name: string, focused: bool, icon: string, center: bool)

  /** One rendered tab: focused when `state.index` is its position in the unfiltered routes. */
  function MakeTab(routes: seq<Route>, stateIndex: int, r: Route): Tab {
    var focused := stateIndex == FindIndex(routes, r.key);
    Tab(r.key, r.name, focused, GetIcon(r.name, focused), IsCenter(r.name))
  }

  /** The tabs the bar renders, in route order. */
  function Tabs(routes: seq<Route>, stateIndex: int): (tabs: seq<Tab>)
    ensures |tabs| == |Visible(routes)|
    ensures forall k :: 0 <= k < |tabs| ==>
      tabs[k].key == Visible(routes)[k].key && tabs[k].name == Visible(routes)[k].name &&
      (tabs[k].focused <==> stateIndex == FindIndex(routes, tabs[k].key)) &&
      tabs[k].icon == GetIcon(tabs[k].name, tabs[k].focused) &&
      tabs[k].center == IsCenter(tabs[k].name)
  {
    var v := Visible(routes);
    seq(|v|, k requires 0 <= k < |v| => MakeTab(routes, stateIndex, v[k]))
  }

  /**
   * With distinct keys, the k-th tab stands for some position i of the
   * unfiltered routes, and it is focused exactly when `state.index` is i.
   */
  lemma TabFocusedIffAtStateIndex(routes: seq<Route>, stateIndex: int, k: nat)
    requires UniqueKeys(routes) && k < |Tabs(routes, stateIndex)|
    ensures exists i :: (0 <= i < |routes| && routes[i] == Visible(routes)[k] &&
      (Tabs(routes, stateIndex)[k].focused <==> stateIndex == i))
  {
    var v := Visible(routes);
    VisibleMembership(routes, v[k]);
    var i :| 0 <= i < |routes| && routes[i] == v[k];
    assert FindIndex(routes, v[k].key) == i;
  }

  /** The filter keeps keys distinct. */
  lemma {:induction false} VisibleUniqueKeys(routes: seq<Route>)
    requires UniqueKeys(routes)
    ensures UniqueKeys(Visible(routes))
  {
    if routes != [] {
      var rest := routes[1..];
      assert UniqueKeys(rest) by {
        forall i, j | 0 <= i < j < |rest| ensures rest[i].key != rest[j].key {
          assert rest[i] == routes[i + 1] && rest[j] == routes[j + 1];
        }
      }
      VisibleUniqueKeys(rest);
      if Allowed(routes[0]) {
        var v := Visible(routes);
        forall j | 1 <= j < |v| ensures v[0].key != v[j].key {
          assert v[j] == Visible(rest)[j - 1];
          VisibleMembership(rest, v[j]);
          var m :| 0 <= m < |rest| && rest[m] == v[j];
          assert routes[m + 1] == v[j];
        }
      }
    }
  }

  /** With distinct keys at most one tab is focused. */
  lemma AtMostOneFocused(routes: seq<Route>, stateIndex: int, k1: nat, k2: nat)
    requires UniqueKeys(routes)
    requires k1 < |Tabs(routes, stateIndex)| && k2 < |Tabs(routes, stateIndex)|
    requires Tabs(routes, stateIndex)[k1].focused && Tabs(routes, stateIndex)[k2].focused
    ensures k1 == k2
  {
    var v := Visible(routes);
    VisibleUniqueKeys(routes);
    TabFocusedIffAtStateIndex(routes, stateIndex, k1);
    TabFocusedIffAtStateIndex(routes, stateIndex, k2);
    assert v[k1] == routes[stateIndex] == v[k2];
  }

  /** When `state.index` points at a route without a tab, no tab is focused. */
  lemma HiddenRouteFocusesNothing(routes: seq<Route>, stateIndex: int, k: nat)
    requires UniqueKeys(routes) && 0 <= stateIndex < |routes| && !Allowed(routes[stateIndex])
    requires k < |Tabs(routes, stateIndex)|
    ensures !Tabs(routes, stateIndex)[k].focused
  {
    TabFocusedIffAtStateIndex(routes, stateIndex, k);
  }

  /** The event a press emits. */
  datatype Event = Event(kind: string, target: string, canPreventDefault: bool)

  /** What a press does: the event it emits and the route it navigates to, if any. */
  datatype Press = Press(emitted: Event, navigateTo: Option<string>)

  /**
   * `onPress`: always emits a preventable "tabPress" aimed at the tab's
   * route; navigates to the route only when its tab is not focused and no
   * listener prevented the default.
   */
  function OnPress(tab: Tab, defaultPrevented: bool): (p: Press)
    ensures p.emitted == Event("tabPress", tab.key, true)
    ensures p.navigateTo.Some? <==> !tab.focused && !defaultPrevented
    ensures p.navigateTo.Some? ==> p.navigateTo.value == tab.name
  {
    var event := Event("tabPress", tab.key, true);
    if !tab.focused && !defaultPrevented then Press(event, Some(tab.name)) else Press(event, None)
  }

  /**
   * With distinct keys, pressing the k-th tab navigates exactly when it
   * stands for a route other than the one at `state.index` and the press was
   * not prevented.
   */
  lemma PressNavigatesIffOtherRoute(routes: seq<Route>, stateIndex: int, k: nat, defaultPrevented: bool)
    requires UniqueKeys(routes) && k < |Tabs(routes, stateIndex)|
    ensures exists i :: (0 <= i < |routes| && routes[i] == Visible(routes)[k] &&
      (OnPress(Tabs(routes, stateIndex)[k], defaultPrevented).navigateTo.Some? <==>
        stateIndex != i && !defaultPrevented))
  {
    TabFocusedIffAtStateIndex(routes, stateIndex, k);
  }
}
