/** The JQL query of client.go for a project code. */
module Client {
  import opened Strings

  /** The code that stands for "issues assigned to me" in a query. */
  const AssignedToMe: string := "assigned_to_me"

  const AssigneeQuery: string := "assignee=currentUser()"

  /** `MakeJQL`: the lower-cased code selects the assignee query or a project query. */
  function MakeJQL(rawCode: string): (q: string)
    ensures Lower(rawCode) == AssignedToMe ==> q == AssigneeQuery
    ensures Lower(rawCode) != AssignedToMe ==> q == "project=" + Lower(rawCode)
  {
    var code := Lower(rawCode);
    if code == AssignedToMe then AssigneeQuery else "project=" + code
  }

  /** The query ignores the case of the code. */
  lemma MakeJQLIgnoresCase(a: string, b: string)
    requires Lower(a) == Lower(b)
    ensures MakeJQL(a) == MakeJQL(b)
  {
  }

  /** In particular, the upper-cased codes the projects list shows query the same as their saved keys. */
  lemma MakeJQLOfUpper(code: string)
    ensures MakeJQL(Upper(code)) == MakeJQL(code)
  {
    LowerOfUpper(code);
  }

  /** A project query names the code and holds no upper-case letter and no status predicate. */
  lemma ProjectQueryShape(rawCode: string)
    requires Lower(rawCode) != AssignedToMe
    ensures |MakeJQL(rawCode)| == 8 + |rawCode|
    ensures MakeJQL(rawCode)[..8] == "project="
    ensures forall i :: 8 <= i < |MakeJQL(rawCode)| ==> !('A' <= MakeJQL(rawCode)[i] <= 'Z')
  {
  }

  /** Only codes equal to "assigned_to_me" up to case give the assignee query. */
  lemma AssigneeQueryExactly(rawCode: string)
    ensures MakeJQL(rawCode) == AssigneeQuery <==> Lower(rawCode) == AssignedToMe
  {
    if Lower(rawCode) != AssignedToMe {
      assert MakeJQL(rawCode)[..8] == "project=";
      assert AssigneeQuery[..8] == "assignee";
    }
  }

  /**
   * The default project entry is keyed "assigned_to_me"; the projects list
   * shows it upper-cased, and the query of that row is the assignee query.
   */
  lemma AssignedToMeRowRoundTrip()
    ensures Upper(AssignedToMe) == "ASSIGNED_TO_ME"
    ensures MakeJQL(Upper(AssignedToMe)) == AssigneeQuery
  {
    LowerOfUpper(AssignedToMe);
    assert Lower(AssignedToMe) == AssignedToMe;
  }
}
