/**
 * The tab bar shown above a poll's pages: which tab the current path
 * selects, which tabs the poll's status shows or disables, and where
 * selecting a tab navigates.
 */
module PollNavigation {
  import opened Wrappers
  import opened PollModel
  import Decimal

  datatype Tab = EditTab | StatsTab | TakeTab

  predicate NoSlash(s: string) {
    forall i :: 0 <= i < |s| ==> s[i] != '/'
  }

  /** The path with one trailing '/' dropped, as the route patterns allow it. */
  function DropTrailingSlash(p: string): (r: string)
    ensures r == p || (p == r + "/")
  {
    if |p| > 0 && p[|p| - 1] == '/' then p[..|p| - 1] else p
  }

  /**
   * Whether `p` matches the route `/polls/:id` followed by `tail` (nothing,
   * "/edit" or "/stats"), where `:id` is one non-empty segment.
   */
  predicate MatchesRoute(p: string, tail: string) {
    var body := DropTrailingSlash(p);
    |body| >= 7 + |tail| && body[..7] == "/polls/" &&
    body[|body| - |tail|..] == tail &&
    var id := body[7..|body| - |tail|];
    id != "" && NoSlash(id)
  }

  const EditTail: string := "/edit"
  const StatsTail: string := "/stats"

  /**
   * The selected tab: the first of the edit, stats and take routes the path
   * matches, or none.
   */
  function CurrentTab(p: string): (t: Option<Tab>)
    ensures t == Some(EditTab) <==> MatchesRoute(p, EditTail)
    ensures t == Some(StatsTab) <==> MatchesRoute(p, StatsTail) && !MatchesRoute(p, EditTail)
    ensures t == Some(TakeTab) <==>
      (MatchesRoute(p, "") && !MatchesRoute(p, StatsTail) && !MatchesRoute(p, EditTail))
  {
    if MatchesRoute(p, EditTail) then Some(EditTab)
    else if MatchesRoute(p, StatsTail) then Some(StatsTab)
    else if MatchesRoute(p, "") then Some(TakeTab)
    else None
  }

  /** The value each tab carries and `handleChange` receives. */
  function TabValue(t: Tab): string {
    match t
    case EditTab => "edit"
    case StatsTab => "stats"
    case TakeTab => "take"
  }

  function TailOf(t: Tab): string {
    match t
    case EditTab => EditTail
    case StatsTab => StatsTail
    case TakeTab => ""
  }

  /** The path a tab leads to for poll `pollId`. */
  function PathFor(t: Tab, pollId: int): string {
    "/polls/" + Decimal.IntString(pollId) + TailOf(t)
  }

  /** Selecting a tab navigates to its path; any other value navigates nowhere. */
  function HandleChange(newValue: string, pollId: int): (dest: Option<string>)
    ensures dest.Some? <==> (exists t :: TabValue(t) == newValue)
    ensures forall t :: TabValue(t) == newValue ==> dest == Some(PathFor(t, pollId))
  {
    if newValue == "edit" then assert TabValue(EditTab) == newValue; Some(PathFor(EditTab, pollId))
    else if newValue == "stats" then assert TabValue(StatsTab) == newValue; Some(PathFor(StatsTab, pollId))
    else if newValue == "take" then assert TabValue(TakeTab) == newValue; Some(PathFor(TakeTab, pollId))
    else None
  }

  lemma IdSegmentHasNoSlash(pollId: int)
    ensures NoSlash(Decimal.IntString(pollId)) && Decimal.IntString(pollId) != ""
  {
    var s := Decimal.IntString(pollId);
    if pollId < 0 {
      assert s == "-" + Decimal.NatString(-pollId);
      assert Decimal.AllDigits(s[1..]);
    } else {
      assert Decimal.AllDigits(s);
    }
  }

  /** The tab a path leads to is the tab that path selects. */
  lemma PathSelectsItsTab(t: Tab, pollId: int)
    ensures CurrentTab(PathFor(t, pollId)) == Some(t)
  {
    var id := Decimal.IntString(pollId);
    var p := PathFor(t, pollId);
    IdSegmentHasNoSlash(pollId);
    assert DropTrailingSlash(p) == p by {
      if t == TakeTab {
        assert p[|p| - 1] == id[|id| - 1];
      }
    }
    match t
    case EditTab =>
      assert p[7..|p| - 5] == id;
    case StatsTab =>
      assert p[7..|p| - 6] == id;
    case TakeTab =>
      assert p[7..] == id;
  }

  /** Navigating through a tab and reading the tab back from the new path agree. */
  lemma HandleChangeSelectsTab(t: Tab, pollId: int)
    ensures HandleChange(TabValue(t), pollId).Some?
    ensures CurrentTab(HandleChange(TabValue(t), pollId).value) == Some(t)
  {
    PathSelectsItsTab(t, pollId);
  }

  /** Whether a tab is rendered and, if so, whether it is disabled. */
  datatype TabState = Hidden | Shown(disabled: bool)

  datatype NavTabs = NavTabs(current: Option<Tab>, editor: TabState, stats: TabState, takeLabel: string)

  /**
   * The tab bar: nothing without a status; the Editor tab for a draft or when
   * it is the selected tab, disabled unless the poll is a draft; the Stats tab
   * for an active or finished poll or when it is selected; the take tab
   * always, labelled "Preview" on a draft and "Poll Link" otherwise.
   */
  function Navigation(status: Option<Status>, path: string): (n: Option<NavTabs>)
    ensures n.None? <==> status.None?
    ensures n.Some? ==> n.value.current == CurrentTab(path)
    ensures n.Some? ==> (n.value.editor.Shown? <==> status == Some(Draft) || CurrentTab(path) == Some(EditTab))
    ensures n.Some? && n.value.editor.Shown? ==> (n.value.editor.disabled <==> status != Some(Draft))
    ensures n.Some? ==> (n.value.stats.Shown? <==>
      (status == Some(Active) || status == Some(Finished) || CurrentTab(path) == Some(StatsTab)))
    ensures n.Some? && n.value.stats.Shown? ==> !n.value.stats.disabled
    ensures n.Some? ==> (n.value.takeLabel == "Preview" <==> status == Some(Draft))
    ensures n.Some? ==> (n.value.takeLabel == "Poll Link" <==> status != Some(Draft))
  {
    if status.None? then None
    else
      var current := CurrentTab(path);
      var editor := if status == Some(Draft) || current == Some(EditTab) then Shown(status != Some(Draft)) else Hidden;
      var stats := if status == Some(Active) || status == Some(Finished) || current == Some(StatsTab) then Shown(false) else Hidden;
      Some(NavTabs(current, editor, stats, if status == Some(Draft) then "Preview" else "Poll Link"))
  }

  /** The tab bar always renders the tab the path selects. */
  lemma SelectedTabIsRendered(status: Status, path: string)
    ensures var n := Navigation(Some(status), path).value;
      (n.current == Some(EditTab) ==> n.editor.Shown?) &&
      (n.current == Some(StatsTab) ==> n.stats.Shown?)
  {
  }

  /** On a draft the Stats tab appears only when its own path is open. */
  lemma DraftHidesStats(path: string)
    ensures var n := Navigation(Some(Draft), path).value;
      n.stats.Shown? <==> MatchesRoute(path, StatsTail) && !MatchesRoute(path, EditTail)
  {
  }
}
