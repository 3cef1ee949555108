/**
 * The configuration store as the handlers see it: under `projects`, one entry
 * per project code holding a `statuses` map from status name to "included".
 * A deleted project keeps its key with a nil value; every read treats such an
 * entry as absent.
 */
module Store {
  import opened Strings

  datatype Entry = Nil | Project(statuses: map<string, bool>)

  type Projects = map<string, Entry>

  /** `projects.<code>` exists and is not nil. */
  predicate Saved(st: Projects, code: string) {
    code in st && st[code].Project?
  }

  /** The codes of the saved projects. */
  function SavedCodes(st: Projects): (r: set<string>)
    ensures forall c :: c in r <==> Saved(st, c)
  {
    set c | c in st && st[c].Project?
  }

  /** `projects.<code>.statuses`, empty for a code that is not saved. */
  function StatusesOf(st: Projects, code: string): (r: map<string, bool>)
    ensures Saved(st, code) ==> r == st[code].statuses
    ensures !Saved(st, code) ==> r == map[]
  {
    if Saved(st, code) then st[code].statuses else map[]
  }

  /** Every given name mapped to true, as the new-code branch and `SetNewStatusesByProjectCode` build it. */
  function AllTrue(names: seq<string>): (m: map<string, bool>)
    ensures forall k :: k in m <==> k in names
    ensures forall k :: k in m ==> m[k]
  {
    map k | k in names :: true
  }

  /** The status names of a search result, lower-cased, in order. */
  function LowerAll(names: seq<string>): (r: seq<string>)
    ensures |r| == |names|
    ensures forall i :: 0 <= i < |names| ==> r[i] == Lower(names[i])
  {
    seq(|names|, i requires 0 <= i < |names| => Lower(names[i]))
  }

  /**
   * The status flag at `projects.<code>.statuses.<key>` toggled: an existing
   * flag is negated, an absent one is set to true.
   */
  function Toggled(st: Projects, code: string, key: string): (r: Projects)
    ensures Saved(r, code) && key in StatusesOf(r, code)
    ensures StatusesOf(r, code)[key] == (key !in StatusesOf(st, code) || !StatusesOf(st, code)[key])
    ensures forall k :: k != key && k in StatusesOf(st, code) ==>
      k in StatusesOf(r, code) && StatusesOf(r, code)[k] == StatusesOf(st, code)[k]
    ensures forall k :: k != key && k in StatusesOf(r, code) ==> k in StatusesOf(st, code)
    ensures forall c :: c != code ==> (c in r <==> c in st) && (c in st ==> r[c] == st[c])
  {
    var m := StatusesOf(st, code);
    st[code := Project(m[key := if key in m then !m[key] else true])]
  }

  /**
   * `projects.<code>.statuses` written through viper, which folds keys to
   * lower case: the statuses of the lower-cased code become exactly the given
   * names, all true.
   */
  function WithStatuses(st: Projects, code: string, names: seq<string>): (r: Projects)
    ensures Saved(r, Lower(code)) && StatusesOf(r, Lower(code)) == AllTrue(names)
    ensures forall c :: c != Lower(code) ==> (c in r <==> c in st) && (c in st ==> r[c] == st[c])
  {
    st[Lower(code) := Project(AllTrue(names))]
  }

  /** `projects.<code>` set to nil: the project is no longer saved, nothing else changes. */
  function Deleted(st: Projects, code: string): (r: Projects)
    ensures !Saved(r, code) && SavedCodes(r) == SavedCodes(st) - {code}
    ensures forall c :: c != code ==> (c in r <==> c in st) && (c in st ==> r[c] == st[c])
  {
    st[code := Nil]
  }

  /** The upper-cased codes of a set of codes, counted once per code. */
  ghost function UpperAll(codes: set<string>): (r: multiset<string>)
    ensures |r| == |codes|
    decreases codes
  {
    if codes == {} then multiset{}
    else
      var c :| c in codes;
      multiset{Upper(c)} + UpperAll(codes - {c})
  }

  /** `UpperAll` may take out any code first. */
  lemma {:induction false} UpperAllRemove(codes: set<string>, c: string)
    requires c in codes
    ensures UpperAll(codes) == multiset{Upper(c)} + UpperAll(codes - {c})
    decreases codes
  {
    var d :| d in codes && UpperAll(codes) == multiset{Upper(d)} + UpperAll(codes - {d});
    if d != c {
      UpperAllRemove(codes - {d}, c);
      UpperAllRemove(codes - {c}, d);
      assert codes - {d} - {c} == codes - {c} - {d};
    }
  }

  /** Every entry of `UpperAll` is the upper-cased form of one of the codes, and each code contributes. */
  lemma {:induction false} UpperAllMembers(codes: set<string>)
    ensures forall c :: c in codes ==> Upper(c) in UpperAll(codes)
    ensures forall x :: x in UpperAll(codes) ==> exists c :: c in codes && x == Upper(c)
    decreases codes
  {
    if codes != {} {
      var c :| c in codes;
      UpperAllRemove(codes, c);
      UpperAllMembers(codes - {c});
    }
  }
}

/** What the store operations promise together. */
module StoreProperties {
  import opened Strings
  import opened Store

  /** Toggling an existing flag twice restores the store. */
  lemma ToggleTwiceRestores(st: Projects, code: string, key: string)
    requires key in StatusesOf(st, code)
    ensures Toggled(Toggled(st, code, key), code, key) == st
  {
    var m := StatusesOf(st, code);
    var m2 := StatusesOf(Toggled(Toggled(st, code, key), code, key), code);
    assert m2 == m;
    assert st[code] == Project(m);
  }

  /** Toggling an absent flag twice leaves it saved as false. */
  lemma ToggleAbsentTwice(st: Projects, code: string, key: string)
    requires key !in StatusesOf(st, code)
    ensures key in StatusesOf(Toggled(Toggled(st, code, key), code, key), code)
    ensures !StatusesOf(Toggled(Toggled(st, code, key), code, key), code)[key]
  {
  }

  /** Overwriting the statuses drops earlier choices: every saved flag is true and exactly the names are saved. */
  lemma WithStatusesForgetsChoices(st: Projects, code: string, names: seq<string>)
    ensures forall k :: k in StatusesOf(WithStatuses(st, code, names), Lower(code)) <==> k in names
    ensures forall k :: k in StatusesOf(WithStatuses(st, code, names), Lower(code)) ==> StatusesOf(WithStatuses(st, code, names), Lower(code))[k]
    ensures SavedCodes(WithStatuses(st, code, names)) == SavedCodes(st) + {Lower(code)}
  {
  }

  /** Deleting a code that was saved removes one project, and nothing else. */
  lemma DeleteRemovesOne(st: Projects, code: string)
    requires Saved(st, code)
    ensures |SavedCodes(Deleted(st, code))| == |SavedCodes(st)| - 1
    ensures forall c :: c != code ==> StatusesOf(Deleted(st, code), c) == StatusesOf(st, c)
  {
  }

  /**
   * Fetching the statuses of a project under any spelling of a code already
   * saved in lower case adds no second project.
   */
  lemma WithStatusesFoldsCase(st: Projects, code: string, names: seq<string>)
    requires Saved(st, Lower(code))
    ensures SavedCodes(WithStatuses(st, code, names)) == SavedCodes(st)
    ensures |SavedCodes(WithStatuses(st, code, names))| == |SavedCodes(st)|
  {
  }

  /**
   * The projects list shows each saved code upper-cased; deleting the shown
   * row lower-cases it again, which names the saved code when that code was
   * saved in lower case.
   */
  lemma DeleteShownRow(st: Projects, code: string)
    requires Saved(st, code) && Lower(code) == code
    ensures !Saved(Deleted(st, Lower(Upper(code))), code)
    ensures SavedCodes(Deleted(st, Lower(Upper(code)))) == SavedCodes(st) - {code}
  {
    LowerOfUpper(code);
  }

  /** A listing in the store's order has one entry per saved project: its code upper-cased. */
  lemma ListingOfSaved(st: Projects, listing: seq<string>)
    requires multiset(listing) == UpperAll(SavedCodes(st))
    ensures |listing| == |SavedCodes(st)|
    ensures forall c :: Saved(st, c) ==> Upper(c) in listing
    ensures forall x :: x in listing ==> exists c :: Saved(st, c) && x == Upper(c)
    ensures |listing| == 0 <==> SavedCodes(st) == {}
  {
    assert |multiset(listing)| == |listing|;
    UpperAllMembers(SavedCodes(st));
    forall c | Saved(st, c)
      ensures Upper(c) in listing
    {
      assert Upper(c) in multiset(listing);
    }
    forall x | x in listing
      ensures exists c :: Saved(st, c) && x == Upper(c)
    {
      assert x in multiset(listing);
    }
  }
}
