/** What an action asks of its dependency, and why a valid action says nothing else. */
module Changes {
  import opened Results
  import opened Schedule
  import opened Rules

  /** The fields a call passes on; whatever is absent it takes from the entity as it is. */
  datatype Change =
    | MoveChange(teamId: Option<string>, workflowStateId: Option<string>)
    | IssueChange(title: Option<string>, description: Option<string>, priority: Option<Priority>, labelIds: Option<seq<string>>)
    | CommentChange(body: Option<string>)
    | ProjectChange(name: Option<string>, summary: Option<string>, statusId: Option<string>)
  {
    predicate IsNone() {
      match this
      case MoveChange(teamId, workflowStateId) => teamId.None? && workflowStateId.None?
      case IssueChange(title, description, priority, labelIds) => title.None? && description.None? && priority.None? && labelIds.None?
      case CommentChange(body) => body.None?
      case ProjectChange(name, summary, statusId) => name.None? && summary.None? && statusId.None?
    }
  }

  function ChangeOf(a: Action): Change {
    match a.kind
    case AssignIssueToTeam => MoveChange(a.teamId, a.workflowStateId)
    case MoveIssue => MoveChange(a.teamId, a.workflowStateId)
    case UpdateIssue => IssueChange(a.title, a.description, a.priority, if a.replaceLabels then Some(a.labelIds) else None)
    case AddComment => CommentChange(a.commentBody)
    case UpdateProject => ProjectChange(a.projectName, a.projectSummary, a.statusId)
  }

  /** The action that asks for a change and says nothing else. */
  function Saying(kind: ActionKind, issueId: Option<string>, projectId: Option<string>, change: Change): Action {
    match change
    case MoveChange(teamId, workflowStateId) =>
      Action(kind, issueId, projectId, teamId, workflowStateId, None, None, None, false, [], None, None, None, None)
    case IssueChange(title, description, priority, labelIds) =>
      Action(kind, issueId, projectId, None, None, title, description, priority, labelIds.Some?,
             if labelIds.Some? then labelIds.value else [], None, None, None, None)
    case CommentChange(body) => Action(kind, issueId, projectId, None, None, None, None, None, false, [], body, None, None, None)
    case ProjectChange(name, summary, statusId) =>
      Action(kind, issueId, projectId, None, None, None, None, None, false, [], None, name, summary, statusId)
  }

  /** Labels are only read where they are to be replaced. */
  predicate IgnoresLabels(a: Action) {
    a.kind.UpdateIssue? && !a.replaceLabels && a.labelIds != []
  }

  /** The target fits the kind, and an assignment names a team and no state. */
  predicate FitsKind(a: Action) {
    && (if a.kind.UpdateProject? then a.issueId.None? else a.projectId.None?)
    && (a.kind.AssignIssueToTeam? ==> a.teamId.Some? && a.workflowStateId.None?)
  }

  /** An action with valid fields is valid if and only if it fits its kind, asks for some change, and says nothing
      else; except that labels may stand where they are not replaced. */
  lemma ValidActionIff(a: Action)
    requires ValidActionFields(a)
    ensures ValidAction(a) <==>
              && FitsKind(a) && !ChangeOf(a).IsNone()
              && (a == Saying(a.kind, a.issueId, a.projectId, ChangeOf(a))
                  || (IgnoresLabels(a) && a.(labelIds := []) == Saying(a.kind, a.issueId, a.projectId, ChangeOf(a))))
  {
    hide ValidActionFields;
  }

  /** So a valid action can be told from the change it asks for exactly if it ignores no labels. */
  lemma NothingIgnoredIff(a: Action)
    requires ValidAction(a)
    ensures (forall b :: ValidAction(b) && b.kind == a.kind && b.issueId == a.issueId && b.projectId == a.projectId && ChangeOf(b) == ChangeOf(a) ==> b == a)
            <==> !a.kind.UpdateIssue? || a.replaceLabels
  {
    var other := a.(labelIds := if a.labelIds == [] then ["label"] else []);
    if a.kind.UpdateIssue? && !a.replaceLabels {
      OtherLabels(a, other.labelIds);
      assert other != a;
    }
    forall b | ValidAction(b) && b.kind == a.kind && b.issueId == a.issueId && b.projectId == a.projectId && ChangeOf(b) == ChangeOf(a)
      ensures b == a || (a.kind.UpdateIssue? && !a.replaceLabels)
    {
      ValidActionIff(a);
      ValidActionIff(b);
    }
  }

  lemma OtherLabels(a: Action, labelIds: seq<string>)
    requires ValidAction(a) && a.kind.UpdateIssue? && (labelIds == [] || labelIds == ["label"])
    ensures ValidAction(a.(labelIds := labelIds))
  {
    hide ValidText;
  }

  /** An update of the title with labels is valid, and the labels go nowhere. */
  lemma LabelsCanBeIgnored() returns (a: Action)
    ensures ValidAction(a) && IgnoresLabels(a) && ChangeOf(a) == ChangeOf(a.(labelIds := []))
  {
    a := Action(UpdateIssue, Some("issue"), None, None, None, Some("t"), None, None, false, ["label"], None, None, None, None);
    assert 't' in "t" && Utf8Length("t") == 1;
  }
}
