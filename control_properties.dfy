/** What the loaders of utils.go and the handlers of control.go promise. */
module ControlProperties {
  import opened Wrappers
  import opened Strings
  import opened PagedList
  import opened ListProperties
  import opened Store
  import opened StoreProperties
  import opened Utils
  import opened Control

  /** A failed issues fetch clears the view only: the rows under the same code stay. */
  lemma FetchIssuesFailureKeepsRows(w: World, code: string, message: string)
    requires Sound(w) && w.issues.code == code
    ensures var r := FetchIssuesStep(w, code, Err(message));
      r.1 == Fail(message) && r.0.issues.items == w.issues.items && r.0.issues.view == [] &&
      r.0.issues.shownTitle == FetchIssuesFailedTitle(code)
  {
  }

  /** `FetchStatuses` reports a failure only when a non-empty result could not be written; a failed search is swallowed. */
  lemma FetchStatusesFailsOnlyOnWrite(w: World, code: string, search: Result<seq<string>>, write: Outcome)
    requires Sound(w)
    ensures FetchStatusesStep(w, code, search, write).1.Fail? <==>
      search.Ok? && |search.value| > 0 && write.Fail?
  {
  }

  /** After a successful statuses fetch the saved flags are exactly the shown rows, all true. */
  lemma FetchedStatusesAreSaved(w: World, code: string, names: seq<string>, write: Outcome)
    requires Sound(w) && |names| > 0
    ensures var r := FetchStatusesStep(w, code, Ok(names), write).0;
      r.statuses.code == code && Saved(r.store, Lower(code)) &&
      (forall k :: k in StatusesOf(r.store, Lower(code)) <==> k in r.statuses.items) &&
      (forall k :: k in StatusesOf(r.store, Lower(code)) ==> StatusesOf(r.store, Lower(code))[k])
  {
    var r := FetchStatusesStep(w, code, Ok(names), write).0;
    WithStatusesForgetsChoices(w.store, code, LowerAll(names));
  }

  /** Loading the projects in the store's order shows one row per saved project, its code upper-cased. */
  lemma LoadProjectsShowsSaved(w: World, listing: seq<string>)
    requires Sound(w) && multiset(listing) == UpperAll(SavedCodes(w.store))
    ensures var r := LoadProjectsStep(w, listing);
      |r.projects.items| == |SavedCodes(w.store)| &&
      (forall c :: Saved(w.store, c) ==> Upper(c) in r.projects.items) &&
      (SavedCodes(w.store) == {} ==> r.projects.title == NoProjectsTitle && r.issues.items == [])
  {
    ListingOfSaved(w.store, listing);
  }

  /** The rows rendered for a non-empty issue search: one per issue, in order, key first. */
  lemma RenderedIssueRows(w: World, issues: seq<Issue>)
    requires Sound(w)
    ensures var r := RenderIssuesStep(w, issues).issues;
      |r.items| == |issues| &&
      forall k :: 0 <= k < |issues| ==>
        r.items[k][..|issues[k].key|] == issues[k].key &&
        r.items[k][|r.items[k]| - |issues[k].summary|..] == issues[k].summary
  {
    forall k | 0 <= k < |issues|
      ensures IssueRow(issues[k])[..|issues[k].key|] == issues[k].key
    {
      var p := PadRight(issues[k].key, 2);
      assert IssueRow(issues[k]) == p + " " + issues[k].summary;
      assert (p + " " + issues[k].summary)[..|issues[k].key|] == p[..|issues[k].key|];
    }
  }

  /** `ToggleStatus` on a row of at least four bytes when the refetch fails: the toggle stays, the cursor row comes back. */
  lemma ToggleKeptWhenRefetchFails(w: World, message: string, write: Outcome, issuesSearch: Result<seq<Issue>>)
    requires ToggleReady(w) && CurrentItemOf(w.statuses) != ""
    ensures var r := ToggleStatusStep(w, Err(message), write, issuesSearch).0;
      r.store == Toggled(w.store, Lower(w.issues.code), ToggleKey(CurrentItemOf(w.statuses))) &&
      r.statuses.cursorY == w.statuses.cursorY
  {
  }

  /**
   * With one store for both libraries, a successful refetch overwrites the
   * statuses of the code with all-true flags, so the toggle does not last.
   */
  lemma ToggleUndoneByRefetch(w: World, names: seq<string>, issuesSearch: Result<seq<Issue>>)
    requires ToggleReady(w) && CurrentItemOf(w.statuses) != "" && |names| > 0
    ensures var r := ToggleStatusStep(w, Ok(names), Pass, issuesSearch).0;
      StatusesOf(r.store, Lower(w.issues.code)) == AllTrue(LowerAll(names)) &&
      r.statuses.cursorY == w.statuses.cursorY && r.statuses.pageIndex == 0
  {
    var code := Lower(w.issues.code);
    var w1 := w.(store := Toggled(w.store, code, ToggleKey(CurrentItemOf(w.statuses))));
    var f := FetchStatusesStep(w1, code, Ok(names), Pass);
    LowerIdempotent(w.issues.code);
    assert f.0.store == WithStatuses(w1.store, code, LowerAll(names));
    assert StatusesOf(f.0.store, code) == AllTrue(LowerAll(names));
    var g := FetchIssuesStep(f.0.(statuses := f.0.statuses.(cursorY := w.statuses.cursorY)), code, issuesSearch);
    assert ToggleStatusStep(w, Ok(names), Pass, issuesSearch) == g;
    assert g.0.store == f.0.store;
  }

  /** The row of a rendered statuses list `ToggleStatus` acts on, as written, for the status "open". */
  lemma ToggleKeyMissesStatus()
    ensures ToggleKey("open") == ""
    ensures var st := map["ff" := Project(map["open" := true])];
      var r := Toggled(st, "ff", ToggleKey("open"));
      StatusesOf(r, "ff")["open"] && "" in StatusesOf(r, "ff")
  {
    assert Lower("open") == "open";
  }

  /** The status key of a statuses row as intended: the row itself, lower-cased. */
  function ToggleKeyFixed(item: string): (k: string)
    ensures |k| == |item| && Lower(k) == k
  {
    LowerIdempotent(item);
    Lower(item)
  }

  /** With the intended key, toggling the current row of a rendered statuses list flips exactly that status's saved flag. */
  lemma ToggleFixedFlipsShownStatus(st: Projects, code: string, names: seq<string>, j: int)
    requires 0 <= j < |names|
    ensures var saved := WithStatuses(st, code, LowerAll(names));
      var item := LowerAll(names)[j];
      var r := Toggled(saved, Lower(code), ToggleKeyFixed(item));
      item in StatusesOf(r, Lower(code)) && !StatusesOf(r, Lower(code))[item] &&
      StatusesOf(r, Lower(code)).Keys == StatusesOf(saved, Lower(code)).Keys
  {
    var item := LowerAll(names)[j];
    LowerIdempotent(names[j]);
    assert ToggleKeyFixed(item) == item;
    assert item in LowerAll(names);
  }

  /** The three ways the new-code branch of `SubmitPrompt` ends. */
  lemma SubmitNewCodeOutcomes(w: World, raw: string, search: Result<seq<string>>, listing: seq<string>)
    requires Sound(w)
    ensures var r := SubmitNewCodeStep(w, raw, search, listing);
      (TrimSpace(raw) == "" ==> r == (w, None)) &&
      (TrimSpace(raw) != "" && Saved(w.store, TrimSpace(raw)) ==> r == (w, Some(ProjectExistsAlert))) &&
      (TrimSpace(raw) != "" && !Saved(w.store, TrimSpace(raw)) && search.Err? ==> r == (w, Some(search.message))) &&
      (NewCodeAccepted(w.store, raw, search) ==>
        r.1 == None && Saved(r.0.store, TrimSpace(raw)) &&
        StatusesOf(r.0.store, TrimSpace(raw)) == AllTrue(LowerAll(search.value)) &&
        SavedCodes(r.0.store) == SavedCodes(w.store) + {TrimSpace(raw)} &&
        r.0.projects.items == listing)
  {
  }

  /** A code once added is refused the second time, whatever the search says. */
  lemma SubmitNewCodeTwice(w: World, raw: string, names: seq<string>, search: Result<seq<string>>, l1: seq<string>, l2: seq<string>)
    requires Sound(w) && NewCodeAccepted(w.store, raw, Ok(names))
    ensures SubmitNewCodeStep(SubmitNewCodeStep(w, raw, Ok(names), l1).0, raw, search, l2).1 == Some(ProjectExistsAlert)
  {
  }

  /** Deleting a non-blank value unsaves its lower-cased form and nothing else; a blank value changes nothing. */
  lemma SubmitDeleteOutcome(w: World, value: string, listing: seq<string>)
    requires Sound(w)
    ensures var r := SubmitDeleteStep(w, value, listing);
      (TrimSpace(value) == "" ==> r == w) &&
      (TrimSpace(value) != "" ==>
        !Saved(r.store, Lower(TrimSpace(value))) &&
        SavedCodes(r.store) == SavedCodes(w.store) - {Lower(TrimSpace(value))} &&
        r.projects.items == listing)
  {
  }

  /** `OnSelectProject` on a project row: the issues list takes the code and shows the search result, or the error is returned. */
  lemma OnSelectProjectOutcome(w: World, search: Result<seq<Issue>>)
    requires Sound(w) && CursorOnPage(w.projects) && CurrentItemOf(w.projects) != ""
    ensures var r := OnSelectProjectStep(w, search);
      r.0.issues.code == CurrentItemOf(w.projects) && r.0.store == w.store && r.0.statuses == w.statuses &&
      (search.Ok? ==> r.1 == Pass && r.0.issues.items == IssueRows(search.value) && r.0.issues.title == IssuesTitle) &&
      (search.Err? ==> r.1 == Fail(search.message) && r.0.issues.view == [])
  {
  }

  /** In `OnEnterProject` the issues are fetched again exactly when the issues list is empty after taking the code. */
  lemma OnEnterRefetchRule(w: World, issuesSearch: Result<seq<Issue>>, statusesSearch: Result<seq<string>>, write: Outcome)
    requires Sound(w) && CursorOnPage(w.projects) && CurrentItemOf(w.projects) != ""
    ensures var code := CurrentItemOf(w.projects); var r := OnEnterProjectStep(w, issuesSearch, statusesSearch, write);
      (w.issues.code == code && |w.issues.items| > 0 ==> r.issues.items == w.issues.items) &&
      ((w.issues.code != code || |w.issues.items| == 0) && issuesSearch.Ok? ==> r.issues.items == IssueRows(issuesSearch.value)) &&
      r.issues.code == code
  {
    var code := CurrentItemOf(w.projects);
    var i1 := SetTitleStep(SetCodeStep(w.issues, code), IssuesFetchingTitle);
    assert i1.code == code;
    assert w.issues.code == code ==> i1.items == w.issues.items;
  }

  /** A failed issues fetch in `OnEnterProject` skips the statuses: they keep their rows and the store is unchanged. */
  lemma OnEnterIssuesFailure(w: World, message: string, statusesSearch: Result<seq<string>>, write: Outcome)
    requires Sound(w) && CursorOnPage(w.projects) && CurrentItemOf(w.projects) != ""
    requires w.issues.code != CurrentItemOf(w.projects) || |w.issues.items| == 0
    ensures var r := OnEnterProjectStep(w, Err(message), statusesSearch, write);
      r.store == w.store && r.statuses.items == w.statuses.items &&
      r.statuses.title == StatusesFetchingTitle && r.issues.title == IssuesErrorTitle
  {
  }

  /** A successful `OnEnterProject` names the project in the statuses title and saves its statuses. */
  lemma OnEnterSuccess(w: World, issuesSearch: Result<seq<Issue>>, names: seq<string>)
    requires Sound(w) && CursorOnPage(w.projects) && CurrentItemOf(w.projects) != "" && issuesSearch.Ok? && |names| > 0
    ensures var code := CurrentItemOf(w.projects); var r := OnEnterProjectStep(w, issuesSearch, Ok(names), Pass);
      r.statuses.title == " Projects > Statuses (" + code + ")" && r.issues.title == IssuesTitle &&
      r.projects.title == ProjectsTab && r.statuses.items == LowerAll(names) &&
      StatusesOf(r.store, Lower(code)) == AllTrue(LowerAll(names))
  {
  }

  /**
   * Entering the shown row of a project saved in lower case refetches its
   * statuses under that same key: the saved projects stay the same.
   */
  lemma OnEnterAddsNoProject(w: World, issuesSearch: Result<seq<Issue>>, statusesSearch: Result<seq<string>>, write: Outcome)
    requires Sound(w) && CursorOnPage(w.projects) && Saved(w.store, Lower(CurrentItemOf(w.projects)))
    ensures SavedCodes(OnEnterProjectStep(w, issuesSearch, statusesSearch, write).store) == SavedCodes(w.store)
  {
    var code := CurrentItemOf(w.projects);
    var r := OnEnterProjectStep(w, issuesSearch, statusesSearch, write);
    if statusesSearch.Ok? && |statusesSearch.value| > 0 {
      WithStatusesFoldsCase(w.store, code, LowerAll(statusesSearch.value));
      assert r.store == w.store || r.store == WithStatuses(w.store, code, LowerAll(statusesSearch.value));
    } else {
      assert r.store == w.store;
    }
  }

  /** A branch name has no blanks when the prefix has none, and it ends with the row, blanks turned into dashes. */
  lemma BranchNameShape(item: string, prefix: string)
    requires ' ' !in prefix
    ensures ' ' !in BranchName(item, prefix)
    ensures |BranchName(item, prefix)| == |item| + (if prefix == "" then 0 else |prefix| + 1)
    ensures BranchName(item, prefix)[|BranchName(item, prefix)| - |item|..] == DashForSpace(item)
  {
    var d := DashForSpace(item);
    if prefix != "" {
      var r := prefix + "/" + d;
      assert r[|r| - |item|..] == d;
      forall i | 0 <= i < |r|
        ensures r[i] != ' '
      {
        if i < |prefix| { assert r[i] == prefix[i]; }
        else if i > |prefix| { assert r[i] == d[i - |prefix| - 1]; }
      }
    }
  }
}
