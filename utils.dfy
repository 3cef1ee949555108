/**
 * The three global lists of the program (issues, statuses, projects) and the
 * configuration store, with the loading and rendering operations of utils.go.
 * Searches and configuration writes are outside the model: their results are
 * parameters (`Result` of a search, `Outcome` of a write).
 */
module Utils {
  import opened Wrappers
  import opened Strings
  import opened Paging
  import opened PagedList
  import opened ListProperties
  import opened Store

  /** An issue as the search returns it; only its key and summary are shown. */
  datatype Issue = Issue(key: string, summary: string)

  /** A snapshot of the three lists and the store. */
  datatype World = World(issues: ListState, statuses: ListState, projects: ListState, store: Projects)

  ghost predicate Sound(w: World) {
    Consistent(w.issues) && Consistent(w.statuses) && Consistent(w.projects)
  }

  /** An issue row: the key left-aligned in two columns, a blank, the summary. */
  function IssueRow(i: Issue): (r: string)
    ensures |r| == (if |i.key| < 2 then 2 else |i.key|) + 1 + |i.summary|
    ensures r[..|i.key|] == i.key && r[|r| - |i.summary|..] == i.summary
    ensures forall k :: |i.key| <= k < |r| - |i.summary| ==> r[k] == ' '
  {
    PadRight(i.key, 2) + " " + i.summary
  }

  function IssueRows(issues: seq<Issue>): (r: seq<string>)
    ensures |r| == |issues|
    ensures forall k :: 0 <= k < |issues| ==> r[k] == IssueRow(issues[k])
  {
    seq(|issues|, k requires 0 <= k < |issues| => IssueRow(issues[k]))
  }

  const NoIssuesTitle: string := "No issues in FF"
  const NoProjectsTitle: string := "No projects (Ctrl-f to add)"
  const ProjectsTab: string := " Projects "
  const StatusesFetchFailedTitle: string := " Projects > Statuses | Fetched failed "

  function FetchIssuesFailedTitle(code: string): string {
    " Failed to load issues from: " + code + " "
  }

  /** `RenderIssuesList`: the issues list is reset, then shows one row per issue, or the "no issues" title. */
  function RenderIssuesStep(w: World, issues: seq<Issue>): (r: World)
    requires Sound(w)
    ensures Sound(r) && r == w.(issues := r.issues)
    ensures r.issues.items == IssueRows(issues) && CursorOnPage(r.issues) && r.issues.code == w.issues.code
    ensures |issues| == 0 ==> r.issues.title == NoIssuesTitle
    ensures |issues| > 0 ==> r.issues.title == w.issues.title && r.issues.pageIndex == 0
  {
    var l := ResetStep(w.issues);
    SetItemsAfterReset(w.issues, IssueRows(issues));
    if |issues| == 0 then w.(issues := SetTitleStep(l, NoIssuesTitle))
    else w.(issues := SetItemsStep(l, IssueRows(issues)))
  }

  /**
   * `RenderStatusesList`: the statuses list is reset; a non-empty result is
   * shown lower-cased and saved, all true, under the list's code, and the
   * outcome is that of the write.
   */
  function RenderStatusesStep(w: World, names: seq<string>, write: Outcome): (r: (World, Outcome))
    requires Sound(w)
    ensures Sound(r.0) && r.0 == w.(statuses := r.0.statuses, store := r.0.store)
    ensures r.0.statuses.items == LowerAll(names) && CursorOnPage(r.0.statuses)
    ensures r.0.statuses.code == w.statuses.code && r.0.statuses.title == w.statuses.title
    ensures |names| == 0 ==> r.0.store == w.store && r.1 == Pass
    ensures |names| > 0 ==> r.0.store == WithStatuses(w.store, w.statuses.code, LowerAll(names)) && r.1 == write
  {
    var l := ResetStep(w.statuses);
    SetItemsAfterReset(w.statuses, LowerAll(names));
    if |names| == 0 then (w.(statuses := l), Pass)
    else (w.(statuses := SetItemsStep(l, LowerAll(names)), store := WithStatuses(w.store, w.statuses.code, LowerAll(names))), write)
  }

  /**
   * `FetchIssues`: the code is set on the issues list; a failed search shows
   * a failure title, clears the view and is returned, a successful one is
   * rendered.
   */
  function FetchIssuesStep(w: World, code: string, search: Result<seq<Issue>>): (r: (World, Outcome))
    requires Sound(w)
    ensures Sound(r.0) && r.0 == w.(issues := r.0.issues) && r.0.issues.code == code
    ensures search.Err? ==> r.1 == Fail(search.message) && r.0.issues == SetCodeStep(w.issues, code).(shownTitle := FetchIssuesFailedTitle(code), view := [])
    ensures search.Ok? ==> r.1 == Pass && r.0.issues.items == IssueRows(search.value) && CursorOnPage(r.0.issues)
  {
    var l := SetCodeStep(w.issues, code);
    if search.Err? then (w.(issues := l.(shownTitle := FetchIssuesFailedTitle(code), view := [])), Fail(search.message))
    else (RenderIssuesStep(w.(issues := l), search.value), Pass)
  }

  /**
   * `FetchStatuses`: the code is set on the statuses list; a failed search
   * shows a failure title and clears the view but is not reported; a
   * successful one is rendered and saved.
   */
  function FetchStatusesStep(w: World, code: string, search: Result<seq<string>>, write: Outcome): (r: (World, Outcome))
    requires Sound(w)
    ensures Sound(r.0) && r.0 == w.(statuses := r.0.statuses, store := r.0.store) && r.0.statuses.code == code
    ensures search.Err? ==> r.1 == Pass && r.0.store == w.store
    ensures search.Err? ==> r.0.statuses == SetCodeStep(w.statuses, code).(shownTitle := StatusesFetchFailedTitle, view := [])
    ensures search.Ok? ==> r == RenderStatusesStep(w.(statuses := SetCodeStep(w.statuses, code)), search.value, write)
  {
    var l := SetCodeStep(w.statuses, code);
    if search.Err? then (w.(statuses := l.(shownTitle := StatusesFetchFailedTitle, view := [])), Pass)
    else RenderStatusesStep(w.(statuses := l), search.value, write)
  }

  /**
   * `LoadProjects`, given the saved codes in the order the store lists them:
   * the projects list shows them; with none saved both lists are reset and
   * get their "no projects" and "no issues" titles.
   */
  function LoadProjectsStep(w: World, listing: seq<string>): (r: World)
    requires Sound(w)
    ensures Sound(r) && r.store == w.store && r.statuses == w.statuses
    ensures r.projects.items == listing && r.projects.code == w.projects.code
    ensures |listing| > 0 ==> r.issues == w.issues && r.projects.title == ProjectsTab
    ensures |listing| == 0 ==> r.projects.title == NoProjectsTitle && CursorOnPage(r.projects)
    ensures |listing| == 0 ==> r.issues.items == [] && r.issues.title == "No issues"
  {
    var p := SetTitleStep(w.projects, ProjectsTab);
    var w1 :=
      if |listing| == 0 then
        w.(projects := ResetStep(SetTitleStep(p, NoProjectsTitle)),
           issues := SetTitleStep(ResetStep(w.issues), "No issues"))
      else w.(projects := p);
    w1.(projects := SetItemsStep(w1.projects, listing))
  }

  /** The three lists of the program and its configuration store. */
  class App {
    const issues: List
    const statuses: List
    const projects: List
    var store: Projects

    ghost predicate Valid()
      reads this, issues, statuses, projects
    {
      issues != statuses && issues != projects && statuses != projects &&
      issues.Valid() && statuses.Valid() && projects.Valid()
    }

    function Snapshot(): World
      reads this, issues, statuses, projects
    {
      World(issues.State(), statuses.State(), projects.State(), store)
    }

    constructor (issues: List, statuses: List, projects: List, store: Projects)
      requires issues != statuses && issues != projects && statuses != projects
      requires issues.Valid() && statuses.Valid() && projects.Valid()
      ensures Valid() && this.issues == issues && this.statuses == statuses && this.projects == projects
      ensures this.store == store
    {
      this.issues, this.statuses, this.projects, this.store := issues, statuses, projects, store;
    }

    /** `GetSavedProjects`: one upper-cased entry per saved project, in the store's order. */
    method GetSavedProjects() returns (r: seq<string>)
      ensures multiset(r) == UpperAll(SavedCodes(store))
    {
      var codes := SavedCodes(store);
      var rest := codes;
      r := [];
      while rest != {}
        invariant rest <= codes
        invariant multiset(r) + UpperAll(rest) == UpperAll(codes)
        decreases rest
      {
        var c :| c in rest;
        UpperAllRemove(rest, c);
        r := r + [Upper(c)];
        rest := rest - {c};
      }
    }

    /** `GetSavedStatusesByProjectCode`: each status name saved for the code, once. */
    method GetSavedStatusesByProjectCode(code: string) returns (r: seq<string>)
      ensures |r| == |StatusesOf(store, Lower(code)).Keys|
      ensures forall k :: k in r <==> k in StatusesOf(store, Lower(code))
      ensures forall i, j :: 0 <= i < j < |r| ==> r[i] != r[j]
    {
      var keys := StatusesOf(store, Lower(code)).Keys;
      var rest := keys;
      r := [];
      while rest != {}
        invariant rest <= keys
        invariant forall k :: k in r <==> k in keys - rest
        invariant |r| + |rest| == |keys|
        invariant forall i, j :: 0 <= i < j < |r| ==> r[i] != r[j]
        decreases rest
      {
        var k :| k in rest;
        assert k !in r;
        r := r + [k];
        rest := rest - {k};
      }
    }

    /**
     * `SetNewStatusesByProjectCode`: the statuses map of the code is replaced
     * by the given names, all true; the outcome is that of the write.
     */
    method SetNewStatusesByProjectCode(code: string, value: seq<string>, write: Outcome) returns (err: Outcome)
      modifies this
      ensures store == WithStatuses(old(store), code, value) && err == write
    {
      var newValue: map<string, bool> := map[];
      var i := 0;
      while i < |value|
        invariant 0 <= i <= |value|
        invariant newValue == AllTrue(value[..i])
      {
        assert value[..i + 1] == value[..i] + [value[i]];
        newValue := newValue[value[i] := true];
        i := i + 1;
      }
      assert value[..i] == value;
      store := store[Lower(code) := Project(newValue)];
      err := write;
    }

    /** `LoadProjects`. */
    method LoadProjects()
      requires Valid()
      modifies issues, projects
      ensures Valid()
      ensures multiset(projects.items) == UpperAll(SavedCodes(store))
      ensures Snapshot() == LoadProjectsStep(old(Snapshot()), projects.items)
    {
      projects.SetTitle(ProjectsTab);
      var saved := GetSavedProjects();
      if |saved| == 0 {
        projects.SetTitle(NoProjectsTitle);
        projects.Reset();
        issues.Reset();
        issues.SetTitle("No issues");
      }
      projects.SetItems(saved);
    }

    /** `RenderIssuesList`. */
    method RenderIssuesList(found: seq<Issue>)
      requires Valid()
      modifies issues
      ensures Valid() && Snapshot() == RenderIssuesStep(old(Snapshot()), found)
    {
      issues.Reset();
      if |found| == 0 {
        issues.SetTitle(NoIssuesTitle);
        return;
      }
      var data := [];
      var k := 0;
      while k < |found|
        invariant 0 <= k <= |found| && |data| == k
        invariant forall j :: 0 <= j < k ==> data[j] == IssueRow(found[j])
      {
        data := data + [IssueRow(found[k])];
        k := k + 1;
      }
      issues.SetItems(data);
    }

    /** `RenderStatusesList`. */
    method RenderStatusesList(names: seq<string>, write: Outcome) returns (err: Outcome)
      requires Valid()
      modifies this, statuses
      ensures Valid() && (Snapshot(), err) == RenderStatusesStep(old(Snapshot()), names, write)
    {
      ghost var w0 := Snapshot();
      statuses.Reset();
      if |names| == 0 {
        return Pass;
      }
      var data := [];
      var k := 0;
      while k < |names|
        invariant 0 <= k <= |names| && |data| == k
        invariant forall j :: 0 <= j < k ==> data[j] == Lower(names[j])
      {
        data := data + [Lower(names[k])];
        k := k + 1;
      }
      assert data == LowerAll(names);
      statuses.SetItems(data);
      ghost var w1 := Snapshot();
      assert w1 == w0.(statuses := w1.statuses) && w1.statuses == SetItemsStep(ResetStep(w0.statuses), data);
      err := SetNewStatusesByProjectCode(statuses.code, data, write);
    }

    /** `FetchIssues`, with the search result as a parameter. */
    method FetchIssues(code: string, search: Result<seq<Issue>>) returns (err: Outcome)
      requires Valid()
      modifies issues
      ensures Valid() && (Snapshot(), err) == FetchIssuesStep(old(Snapshot()), code, search)
    {
      issues.SetCode(code);
      if search.Err? {
        issues.shownTitle := FetchIssuesFailedTitle(code);
        issues.Clear();
        return Fail(search.message);
      }
      RenderIssuesList(search.value);
      err := Pass;
    }

    /** `FetchStatuses`, with the search result and the write outcome as parameters. */
    method FetchStatuses(code: string, search: Result<seq<string>>, write: Outcome) returns (err: Outcome)
      requires Valid()
      modifies this, statuses
      ensures Valid() && (Snapshot(), err) == FetchStatusesStep(old(Snapshot()), code, search, write)
    {
      statuses.SetCode(code);
      if search.Err? {
        statuses.shownTitle := StatusesFetchFailedTitle;
        statuses.Clear();
        return Pass;
      }
      err := RenderStatusesList(search.value, write);
    }
  }
}
