/**
 * The page's state: the theme, the selected tab, the search text and the
 * project whose detail dialog is open. Event handlers overwrite one cell each;
 * the gallery and the dialog are recomputed from them.
 */
module Portfolio {
  import opened Catalog
  import opened Gallery
  import opened Theme
  import Strings

  datatype Option<T> = None | Some(value: T)

  class State {
    var theme: string
    var tab: string
    var query: string
    /** The project shown in the detail dialog, if any: a single slot. */
    var active: Option<Project>

    ghost predicate Valid()
      reads this
    {
      IsTheme(theme) && IsTabKey(tab)
    }

    /** The initial state: the "all" tab, an empty search box, no dialog. */
    constructor (prefersDark: bool)
      ensures Valid()
      ensures theme == InitialTheme(prefersDark)
      ensures tab == ALL && query == "" && active == None
    {
      assert TYPES[0].key == ALL;
      theme := InitialTheme(prefersDark);
      tab := ALL;
      query := "";
      active := None;
    }

    /** The tab bar's handler: it passes one of the tab keys. */
    method SetTab(key: string)
      requires Valid() && IsTabKey(key)
      modifies this`tab
      ensures Valid() && tab == key
    {
      tab := key;
    }

    /** The search box's handler: the raw text, untrimmed. */
    method SetQuery(text: string)
      requires Valid()
      modifies this`query
      ensures Valid() && query == text
    {
      query := text;
    }

    /** A card's click handler: opens the dialog on `p`, replacing any open one. */
    method Select(p: Project)
      requires Valid()
      modifies this`active
      ensures Valid() && active == Some(p) && DialogOpen()
    {
      active := Some(p);
    }

    /** The dialog's close handler. */
    method Dismiss()
      requires Valid()
      modifies this`active
      ensures Valid() && active == None && !DialogOpen()
    {
      active := None;
    }

    /** The header's theme button. */
    method ToggleTheme()
      requires Valid()
      modifies this`theme
      ensures Valid() && theme == Toggled(old(theme))
    {
      theme := Toggled(theme);
    }

    /** Two presses of the theme button on any page restore its theme. */
    method ToggleThemeTwice()
      requires Valid()
      modifies this`theme
      ensures Valid() && theme == old(theme)
    {
      ToggleInvolution(theme);
      ToggleTheme();
      ToggleTheme();
    }

    /** The cards the gallery shows: catalog records that pass the current tab and query, and all of them. */
    function Visible(): (r: seq<Project>)
      reads this
      ensures forall i :: 0 <= i < |r| ==> r[i] in PROJECTS && Shown(tab, query, r[i])
      ensures forall j :: 0 <= j < |PROJECTS| && Shown(tab, query, PROJECTS[j]) ==> PROJECTS[j] in r
    {
      Filtered(PROJECTS, tab, query)
    }

    /** The dialog's `open` flag: whether a project is active. */
    predicate DialogOpen()
      reads this
    {
      active.Some?
    }
  }

  /** Opening a card and closing its dialog: the slot holds the card, then nothing; the dialog is open, then closed. */
  method SelectThenDismiss(prefersDark: bool, p: Project)
    returns (during: Option<Project>, after: Option<Project>, openDuring: bool, openAfter: bool)
    ensures during == Some(p) && after == None
    ensures openDuring && !openAfter
  {
    var page := new State(prefersDark);
    page.Select(p);
    during := page.active;
    openDuring := page.DialogOpen();
    page.Dismiss();
    after := page.active;
    openAfter := page.DialogOpen();
  }

  /** Two presses of the theme button bring back the initial theme. */
  method ToggleTwice(prefersDark: bool) returns (first: string, second: string)
    ensures first != InitialTheme(prefersDark) && IsTheme(first)
    ensures second == InitialTheme(prefersDark)
  {
    var page := new State(prefersDark);
    page.ToggleTheme();
    first := page.theme;
    page.ToggleTheme();
    second := page.theme;
    ToggleInvolution(InitialTheme(prefersDark));
  }

  /** Typing a query that differs from the current one only in letter case leaves the gallery as it is. */
  method RetypeInOtherCase(prefersDark: bool, q1: string, q2: string) returns (before: seq<Project>, after: seq<Project>)
    requires Strings.Lower(q1) == Strings.Lower(q2)
    ensures before == after
  {
    var page := new State(prefersDark);
    page.SetQuery(q1);
    before := page.Visible();
    page.SetQuery(q2);
    after := page.Visible();
    CaseInsensitive(PROJECTS, page.tab, q1, q2);
  }
}
