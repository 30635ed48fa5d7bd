/** The bottom tab bar: Dashboard and Profile are tabs that select the
    screen above the bar; the Scan button in the middle opens the scanner
    route instead of selecting anything. */
module BottomTabs {
  import opened Navigation

  datatype Tab = Dashboard | Scan | Profile

  /** The bar's buttons, left to right. */
  const Tabs: seq<Tab> := [Dashboard, Scan, Profile]

  /** What `renderScreen` shows above the bar. */
  datatype Screen = DashboardView | ScanPlaceholder | ProfileView

  /** Each tab has its own screen: Dashboard and Profile show their views,
      and only Scan gives the empty placeholder. */
  function RenderScreen(selected: Tab): (s: Screen)
    ensures s == DashboardView <==> selected == Dashboard
    ensures s == ProfileView <==> selected == Profile
    ensures s == ScanPlaceholder <==> selected == Scan
  {
    match selected
    case Dashboard => DashboardView
    case Scan => ScanPlaceholder
    case Profile => ProfileView
  }

  /** A rendered button: the raised Scan button, or a tab drawn focused or not. */
  datatype Button = ScanButton | TabButton(tab: Tab, focused: bool)

  predicate IsFocused(b: Button) {
    b.TabButton? && b.focused
  }

  function ButtonFor(tab: Tab, selected: Tab): Button {
    if tab == Scan then ScanButton else TabButton(tab, selected == tab)
  }

  /** `TABS.map(...)`: one button per tab, in order. */
  function Buttons(tabs: seq<Tab>, selected: Tab): (bar: seq<Button>)
    ensures |bar| == |tabs|
    ensures forall i :: 0 <= i < |tabs| ==> bar[i] == ButtonFor(tabs[i], selected)
  {
    if tabs == [] then [] else [ButtonFor(tabs[0], selected)] + Buttons(tabs[1..], selected)
  }

  /** With a selection other than Scan, exactly one button is drawn focused,
      and it is the selected tab's. */
  lemma OneFocusedTab(selected: Tab)
    requires selected != Scan
    ensures exists i :: 0 <= i < |Tabs| && IsFocused(Buttons(Tabs, selected)[i])
    ensures forall i :: 0 <= i < |Tabs| && IsFocused(Buttons(Tabs, selected)[i]) ==>
      Buttons(Tabs, selected)[i] == TabButton(selected, true)
    ensures forall i, j ::
      (0 <= i < |Tabs| && 0 <= j < |Tabs| && IsFocused(Buttons(Tabs, selected)[i])
       && IsFocused(Buttons(Tabs, selected)[j])) ==> i == j
  {
    var bar := Buttons(Tabs, selected);
    var k := if selected == Dashboard then 0 else 2;
    assert Tabs[k] == selected && IsFocused(bar[k]);
  }

  class BottomTabs {
    var selected: Tab
    var navigations: seq<NavAction>

    /** The selection is always a real tab, never Scan. */
    ghost predicate Valid()
      reads this
    {
      selected != Scan
    }

    constructor()
      ensures Valid() && selected == Dashboard && navigations == []
    {
      selected := Dashboard;
      navigations := [];
    }

    /** Pressing the Dashboard or Profile tab selects it. */
    method PressTab(tab: Tab)
      requires Valid() && tab != Scan
      modifies this
      ensures Valid() && selected == tab && navigations == old(navigations)
    {
      selected := tab;
    }

    /** `onPressScan`: navigate to the Scan route; the selection stays. */
    method PressScan()
      requires Valid()
      modifies this
      ensures Valid() && selected == old(selected)
      ensures navigations == old(navigations) + [Navigate(ScanRoute)]
    {
      navigations := navigations + [Navigate(ScanRoute)];
    }

    /** The screen above the bar; the Scan placeholder is never shown. */
    function Screen(): (s: Screen)
      requires Valid()
      reads this
      ensures s != ScanPlaceholder
      ensures s == DashboardView <==> selected == Dashboard
    {
      RenderScreen(selected)
    }

    /** The bar as drawn for the current selection. */
    function Bar(): (bar: seq<Button>)
      reads this
      ensures |bar| == |Tabs| && bar[1] == ScanButton
    {
      Buttons(Tabs, selected)
    }
  }
}
