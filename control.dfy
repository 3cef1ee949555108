/**
 * The key handlers of control.go that change the lists and the store. Every
 * `g.Update` callback runs at once, and the handler's outcome is the
 * callback's. Searches and writes are parameters, as in `Utils`.
 */
module Control {
  import opened Wrappers
  import opened Strings
  import opened PagedList
  import opened Store
  import opened Utils

  const StatusesErrorTitle: string := " Projects > Statuses (Error!) "
  const StatusesFetchingTitle: string := " Projects > Statuses | Fetching... "
  const IssuesFetchingTitle: string := " Issues | Fetching... "
  const IssuesErrorTitle: string := " Issues (Error!) "
  const IssuesTitle: string := " Issues "
  const ProjectExistsAlert: string := "Project already exist"

  /** The status key `ToggleStatus` derives from a statuses row: lower-cased, first four bytes dropped. */
  function ToggleKey(item: string): (k: string)
    requires |item| >= 4
    ensures |k| == |item| - 4
    ensures forall i :: 0 <= i < |k| ==> k[i] == LowerChar(item[i + 4])
  {
    Lower(item)[4..]
  }

  /** The rows `ToggleStatus` can act on: none, or one of at least four bytes. */
  ghost predicate ToggleReady(w: World) {
    Sound(w) && CursorOnPage(w.statuses) &&
    (CurrentItemOf(w.statuses) == "" || |CurrentItemOf(w.statuses)| >= 4)
  }

  /**
   * `ToggleStatus`: the flag of the current status is toggled under the
   * lower-cased code of the issues list; then the statuses are fetched again,
   * the cursor row is put back and the issues are fetched again.
   */
  function ToggleStatusStep(w: World, statusesSearch: Result<seq<string>>, write: Outcome,
                            issuesSearch: Result<seq<Issue>>): (r: (World, Outcome))
    requires ToggleReady(w)
    ensures Sound(r.0)
    ensures CurrentItemOf(w.statuses) == "" ==> r == (w, Pass)
  {
    var item := CurrentItemOf(w.statuses);
    if item == "" then (w, Pass)
    else
      var cursor := w.statuses.cursorY;
      var code := Lower(w.issues.code);
      var w1 := w.(store := Toggled(w.store, code, ToggleKey(item)));
      var f := FetchStatusesStep(w1, code, statusesSearch, write);
      if f.1.Fail? then (f.0.(statuses := SetTitleStep(f.0.statuses, StatusesErrorTitle)), Pass)
      else FetchIssuesStep(f.0.(statuses := f.0.statuses.(cursorY := cursor)), code, issuesSearch)
  }

  /** Whether `SubmitPrompt` adds the new code: non-blank, not saved yet, and the search succeeded. */
  predicate NewCodeAccepted(st: Projects, raw: string, search: Result<seq<string>>) {
    TrimSpace(raw) != "" && !Saved(st, TrimSpace(raw)) && search.Ok?
  }

  /**
   * The new-code branch of `SubmitPrompt`: the trimmed code is added with all
   * its statuses, lower-cased, set to true, and the projects are loaded again;
   * or an alert says why not.
   */
  function SubmitNewCodeStep(w: World, raw: string, search: Result<seq<string>>, listing: seq<string>): (r: (World, Option<string>))
    requires Sound(w)
    ensures Sound(r.0)
  {
    var value := TrimSpace(raw);
    if value == "" then (w, None)
    else if Saved(w.store, value) then (w, Some(ProjectExistsAlert))
    else if search.Err? then (w, Some(search.message))
    else
      var st := w.store[value := Project(AllTrue(LowerAll(search.value)))];
      (LoadProjectsStep(w.(store := st), listing), None)
  }

  /** The delete branch of `SubmitAlert`: the lower-cased, trimmed value is set to nil and the projects are loaded again. */
  function SubmitDeleteStep(w: World, value: string, listing: seq<string>): (r: World)
    requires Sound(w)
    ensures Sound(r)
  {
    var v := TrimSpace(value);
    if v == "" then w else LoadProjectsStep(w.(store := Deleted(w.store, Lower(v))), listing)
  }

  /**
   * `OnSelectProject`: the issues of the current project are fetched; the
   * view is cleared and the title says so while fetching.
   */
  function OnSelectProjectStep(w: World, search: Result<seq<Issue>>): (r: (World, Outcome))
    requires Sound(w) && CursorOnPage(w.projects)
    ensures Sound(r.0)
  {
    var code := CurrentItemOf(w.projects);
    if code == "" then (w, Pass)
    else
      var l := SetCodeStep(SetTitleStep(w.issues.(view := []), IssuesFetchingTitle), code);
      var f := FetchIssuesStep(w.(issues := l), code, search);
      if f.1.Fail? then f
      else (f.0.(issues := SetTitleStep(f.0.issues, IssuesTitle)), Pass)
  }

  /** The part of `OnEnterProject` after the issues: fetch the statuses and set the titles. */
  function EnterStatusesStep(w: World, code: string, statusesSearch: Result<seq<string>>, write: Outcome): (r: World)
    requires Sound(w)
    ensures Sound(r) && r.issues.items == w.issues.items && r.issues.code == w.issues.code
  {
    var f := FetchStatusesStep(w, code, statusesSearch, write);
    if f.1.Fail? then f.0.(statuses := SetTitleStep(f.0.statuses, StatusesErrorTitle))
    else
      f.0.(issues := SetTitleStep(f.0.issues, IssuesTitle),
           statuses := SetTitleStep(f.0.statuses, " Projects > Statuses (" + code + ")"),
           projects := SetTitleStep(f.0.projects, ProjectsTab))
  }

  /**
   * `OnEnterProject`: the code is set on the issues list before it is
   * compared, so the issues are fetched exactly when the list is then empty;
   * a failed issues fetch ends the handler, otherwise the statuses follow.
   */
  function OnEnterProjectStep(w: World, issuesSearch: Result<seq<Issue>>,
                              statusesSearch: Result<seq<string>>, write: Outcome): (r: World)
    requires Sound(w) && CursorOnPage(w.projects)
    ensures Sound(r)
  {
    var code := CurrentItemOf(w.projects);
    if code == "" then w
    else
      var i1 := SetTitleStep(SetCodeStep(w.issues, code), IssuesFetchingTitle);
      var w1 := w.(issues := i1, statuses := SetTitleStep(w.statuses, StatusesFetchingTitle));
      var isSameProject := i1.code == code;
      if |i1.items| == 0 || !isSameProject then
        var f := FetchIssuesStep(w1, code, issuesSearch);
        if f.1.Fail? then f.0.(issues := SetTitleStep(f.0.issues, IssuesErrorTitle))
        else EnterStatusesStep(f.0, code, statusesSearch, write)
      else EnterStatusesStep(w1, code, statusesSearch, write)
  }

  /** The branch name `GitBranchPrompt` proposes for an issue row. */
  function BranchName(item: string, prefix: string): (r: string)
    ensures prefix == "" ==> r == DashForSpace(item)
    ensures prefix != "" ==> r == prefix + "/" + DashForSpace(item)
  {
    var issueName := DashForSpace(item);
    if prefix != "" then prefix + "/" + issueName else issueName
  }

  /** `ToggleStatus`, with the searches and the write as parameters. */
  method ToggleStatus(app: App, statusesSearch: Result<seq<string>>, write: Outcome,
                      issuesSearch: Result<seq<Issue>>) returns (err: Outcome)
    requires app.Valid() && ToggleReady(app.Snapshot())
    modifies app, app.issues, app.statuses
    ensures app.Valid()
    ensures (app.Snapshot(), err) == ToggleStatusStep(old(app.Snapshot()), statusesSearch, write, issuesSearch)
  {
    var currentItem := app.statuses.CurrentItem();
    if currentItem == "" {
      return Pass;
    }
    var currentCursor := app.statuses.cursorY;
    var projectCode := Lower(app.issues.code);
    var statusKey := ToggleKey(currentItem);
    app.store := Toggled(app.store, projectCode, statusKey);
    var e := app.FetchStatuses(projectCode, statusesSearch, write);
    if e.Fail? {
      app.statuses.SetTitle(StatusesErrorTitle);
      return Pass;
    }
    e := app.statuses.SetCursor(currentCursor);
    err := app.FetchIssues(projectCode, issuesSearch);
  }

  /**
   * The new-code branch of `SubmitPrompt`; `alert` is the text of the alert
   * raised, if any. The projects list is loaded again in the store's order.
   */
  method SubmitNewCode(app: App, raw: string, search: Result<seq<string>>) returns (alert: Option<string>)
    requires app.Valid()
    modifies app, app.issues, app.projects
    ensures app.Valid()
    ensures (app.Snapshot(), alert) == SubmitNewCodeStep(old(app.Snapshot()), raw, search, app.projects.items)
    ensures NewCodeAccepted(old(app.store), raw, search) ==> multiset(app.projects.items) == UpperAll(SavedCodes(app.store))
  {
    var value := TrimSpace(raw);
    if |value| == 0 {
      return None;
    }
    if Saved(app.store, value) {
      return Some(ProjectExistsAlert);
    }
    if search.Err? {
      return Some(search.message);
    }
    var convertedStatuses := ConvertStatuses(search.value);
    ghost var w0 := app.Snapshot();
    app.store := app.store[value := Project(convertedStatuses)];
    assert app.Snapshot() == w0.(store := w0.store[value := Project(AllTrue(LowerAll(search.value)))]);
    app.LoadProjects();
    alert := None;
  }

  /** The `convertedStatuses` loop of the new-code branch: every status name, lower-cased, mapped to true. */
  method ConvertStatuses(names: seq<string>) returns (m: map<string, bool>)
    ensures forall k :: k in m <==> exists i :: 0 <= i < |names| && k == Lower(names[i])
    ensures forall k :: k in m ==> m[k]
    ensures m == AllTrue(LowerAll(names))
  {
    m := map[];
    var i := 0;
    while i < |names|
      invariant 0 <= i <= |names|
      invariant m == AllTrue(LowerAll(names)[..i])
    {
      assert LowerAll(names)[..i + 1] == LowerAll(names)[..i] + [Lower(names[i])];
      m := m[Lower(names[i]) := true];
      i := i + 1;
    }
    assert LowerAll(names)[..i] == LowerAll(names);
  }

  /** The delete branch of `SubmitAlert`, given the alert's value. */
  method SubmitDelete(app: App, value: string)
    requires app.Valid()
    modifies app, app.issues, app.projects
    ensures app.Valid()
    ensures app.Snapshot() == SubmitDeleteStep(old(app.Snapshot()), value, app.projects.items)
    ensures TrimSpace(value) != "" ==> multiset(app.projects.items) == UpperAll(SavedCodes(app.store))
  {
    var v := TrimSpace(value);
    if |v| == 0 {
      return;
    }
    app.store := Deleted(app.store, Lower(v));
    app.LoadProjects();
  }

  /** `OnSelectProject`, with the issues search as a parameter. */
  method OnSelectProject(app: App, search: Result<seq<Issue>>) returns (err: Outcome)
    requires app.Valid() && CursorOnPage(app.projects.State())
    modifies app.issues
    ensures app.Valid()
    ensures (app.Snapshot(), err) == OnSelectProjectStep(old(app.Snapshot()), search)
  {
    var projectCode := app.projects.CurrentItem();
    if projectCode == "" {
      return Pass;
    }
    app.issues.Clear();
    app.issues.SetTitle(IssuesFetchingTitle);
    app.issues.SetCode(projectCode);
    err := app.FetchIssues(projectCode, search);
    if err.Fail? {
      return;
    }
    app.issues.SetTitle(IssuesTitle);
  }

  /** `OnEnterProject`, with the searches and the write as parameters; it always succeeds. */
  method OnEnterProject(app: App, issuesSearch: Result<seq<Issue>>,
                        statusesSearch: Result<seq<string>>, write: Outcome) returns (err: Outcome)
    requires app.Valid() && CursorOnPage(app.projects.State())
    modifies app, app.issues, app.statuses, app.projects
    ensures app.Valid() && err == Pass
    ensures app.Snapshot() == OnEnterProjectStep(old(app.Snapshot()), issuesSearch, statusesSearch, write)
  {
    var currentItem := app.projects.CurrentItem();
    if currentItem == "" {
      return Pass;
    }
    var projectCode := currentItem;
    ghost var w0 := app.Snapshot();
    app.issues.SetCode(projectCode);
    app.statuses.SetTitle(StatusesFetchingTitle);
    app.issues.SetTitle(IssuesFetchingTitle);
    var isSameProject := app.issues.code == projectCode;
    var empty := app.issues.IsEmpty();
    ghost var w1 := app.Snapshot();
    assert w1 == w0.(issues := SetTitleStep(SetCodeStep(w0.issues, projectCode), IssuesFetchingTitle),
                     statuses := SetTitleStep(w0.statuses, StatusesFetchingTitle));
    if empty || !isSameProject {
      var e := app.FetchIssues(projectCode, issuesSearch);
      if e.Fail? {
        app.issues.SetTitle(IssuesErrorTitle);
        return Pass;
      }
    }
    EnterStatuses(app, projectCode, statusesSearch, write);
    err := Pass;
  }

  /** The statuses fetch and the final titles of `OnEnterProject`. */
  method EnterStatuses(app: App, code: string, statusesSearch: Result<seq<string>>, write: Outcome)
    requires app.Valid()
    modifies app, app.issues, app.statuses, app.projects
    ensures app.Valid()
    ensures app.Snapshot() == EnterStatusesStep(old(app.Snapshot()), code, statusesSearch, write)
  {
    var e := app.FetchStatuses(code, statusesSearch, write);
    if e.Fail? {
      app.statuses.SetTitle(StatusesErrorTitle);
      return;
    }
    app.issues.SetTitle(IssuesTitle);
    app.statuses.SetTitle(" Projects > Statuses (" + code + ")");
    app.projects.SetTitle(ProjectsTab);
  }

  /**
   * The branch-name part of `GitBranchPrompt`: the name proposed for the
   * current issue row, none on an empty list. `prefix` is the configured git
   * prefix.
   */
  method GitBranchPrompt(app: App, prefix: string) returns (r: Option<string>)
    requires app.Valid() && CursorOnPage(app.issues.State())
    ensures CurrentItemOf(app.issues.State()) == "" ==> r == None
    ensures CurrentItemOf(app.issues.State()) != "" ==> r == Some(BranchName(CurrentItemOf(app.issues.State()), prefix))
  {
    var currentItem := app.issues.CurrentItem();
    if currentItem == "" {
      return None;
    }
    var issueName := DashForSpace(currentItem);
    var branchName := issueName;
    if prefix != "" {
      branchName := prefix + "/" + issueName;
    }
    r := Some(branchName);
  }
}
