/** The rule language: triggers, conditions and actions, and the validators every rule passes through. */
module Rules {
  import opened Results
  import opened Schedule

  datatype EventType =
    | IssueCreated | IssueUpdated | IssueMoved | IssueArchived | CommentAdded
    | ProjectCreated | ProjectUpdated | ProjectArchived

  datatype TriggerKind = OnEvent | OnSchedule

  datatype Trigger = Trigger(
    kind: TriggerKind, eventTypes: seq<EventType>, intervalSeconds: Option<int>, startAt: Option<TimeText>)

  datatype ConditionField =
    | EventTypeField | EntityKindField | TeamIdField | ProjectIdField
    | WorkflowStateIdField | PriorityField | StatusIdField | LabelIdField

  datatype ConditionOperator = Equals | NotEquals | Contains

  datatype Condition = Condition(field: ConditionField, operator: ConditionOperator, value: string)

  datatype ActionKind = AssignIssueToTeam | UpdateIssue | MoveIssue | AddComment | UpdateProject

  datatype Priority = NoPriority | Urgent | High | Medium | Low

  datatype Action = Action(
    kind: ActionKind, issueId: Option<string>, projectId: Option<string>,
    teamId: Option<string>, workflowStateId: Option<string>,
    title: Option<string>, description: Option<string>, priority: Option<Priority>,
    replaceLabels: bool, labelIds: seq<string>, commentBody: Option<string>,
    projectName: Option<string>, projectSummary: Option<string>, statusId: Option<string>)

  const MAX_RULE_ACTIONS := 32
  const MAX_RULE_CONDITIONS := 32

  predicate IsIdByte(c: char) {
    'a' <= c <= 'z' || 'A' <= c <= 'Z' || '0' <= c <= '9' || c in "._-:/"
  }

  predicate ValidId(s: string) {
    0 < |s| <= 256 && forall c :: c in s ==> IsIdByte(c)
  }

  predicate IsWhitespace(c: char) {
    || '\U{9}' <= c <= '\U{D}' || c == ' ' || c == '\U{85}' || c == '\U{A0}' || c == '\U{1680}'
    || '\U{2000}' <= c <= '\U{200A}' || c == '\U{2028}' || c == '\U{2029}' || c == '\U{202F}'
    || c == '\U{205F}' || c == '\U{3000}'
  }

  /** The length of a string in UTF-8 bytes, which is what the bounds count. */
  function Utf8Length(s: string): nat {
    if s == "" then 0
    else Utf8Length(s[..|s| - 1])
         + (var c := s[|s| - 1]; if c < '\U{80}' then 1 else if c < '\U{800}' then 2 else if c < '\U{10000}' then 3 else 4)
  }

  predicate ValidText(s: string, max: nat) {
    (exists c :: c in s && !IsWhitespace(c)) && Utf8Length(s) <= max && '\0' !in s
  }

  predicate ValidOptionalText(s: Option<string>, max: nat) {
    s.Some? ==> ValidText(s.value, max)
  }

  predicate ValidOptionalId(s: Option<string>) {
    s.Some? ==> ValidId(s.value)
  }

  predicate Distinct<T(==)>(s: seq<T>) {
    forall i, j :: 0 <= i < j < |s| ==> s[i] != s[j]
  }

  predicate ValidTrigger(trigger: Trigger) {
    match trigger.kind
    case OnEvent =>
      0 < |trigger.eventTypes| <= 16 && trigger.intervalSeconds.None? && trigger.startAt.None?
    case OnSchedule =>
      && trigger.eventTypes == []
      && trigger.intervalSeconds.Some? && ValidInterval(trigger.intervalSeconds.value)
      && (trigger.startAt.Some? ==> trigger.startAt.value.Instant?)
  }

  predicate ValidConditions(conditions: seq<Condition>) {
    && |conditions| <= MAX_RULE_CONDITIONS
    && forall c :: c in conditions ==> ValidText(c.value, 256) && (c.operator.Contains? ==> c.field.LabelIdField?)
  }

  predicate ProjectUpdateFieldsEmpty(action: Action) {
    action.projectName.None? && action.projectSummary.None? && action.statusId.None?
  }

  predicate IssueUpdateFieldsEmpty(action: Action) {
    && action.title.None? && action.description.None? && action.priority.None?
    && !action.replaceLabels && action.labelIds == [] && action.commentBody.None?
    && ProjectUpdateFieldsEmpty(action)
  }

  predicate ValidActionFields(action: Action) {
    && ValidOptionalId(action.issueId) && ValidOptionalId(action.projectId) && ValidOptionalId(action.teamId)
    && ValidOptionalId(action.workflowStateId) && ValidOptionalId(action.statusId)
    && |action.labelIds| <= 64 && (forall l :: l in action.labelIds ==> ValidId(l)) && Distinct(action.labelIds)
    && ValidOptionalText(action.title, 1_000) && ValidOptionalText(action.description, 20_000)
    && ValidOptionalText(action.commentBody, 20_000) && ValidOptionalText(action.projectName, 300)
    && ValidOptionalText(action.projectSummary, 4_000)
  }

  predicate ValidAction(action: Action) {
    && ValidActionFields(action)
    && match action.kind
       case AssignIssueToTeam =>
         action.teamId.Some? && action.projectId.None? && action.workflowStateId.None? && IssueUpdateFieldsEmpty(action)
       case MoveIssue =>
         (action.teamId.Some? || action.workflowStateId.Some?) && action.projectId.None? && IssueUpdateFieldsEmpty(action)
       case UpdateIssue =>
         && action.teamId.None? && action.workflowStateId.None? && action.projectId.None?
         && (action.title.Some? || action.description.Some? || action.priority.Some? || action.replaceLabels)
         && action.commentBody.None? && ProjectUpdateFieldsEmpty(action)
       case AddComment =>
         && action.commentBody.Some? && action.projectId.None? && action.teamId.None? && action.workflowStateId.None?
         && action.title.None? && action.description.None? && action.priority.None?
         && !action.replaceLabels && action.labelIds == [] && ProjectUpdateFieldsEmpty(action)
       case UpdateProject =>
         && (action.projectName.Some? || action.projectSummary.Some? || action.statusId.Some?)
         && action.issueId.None? && action.teamId.None? && action.workflowStateId.None?
         && action.title.None? && action.description.None? && action.priority.None?
         && !action.replaceLabels && action.labelIds == [] && action.commentBody.None?
  }

  predicate ValidActions(actions: seq<Action>) {
    0 < |actions| <= MAX_RULE_ACTIONS && forall a :: a in actions ==> ValidAction(a)
  }

  predicate HasExplicitTarget(action: Action) {
    if action.kind.UpdateProject? then action.projectId.Some? else action.issueId.Some?
  }

  predicate ValidActionsForTrigger(trigger: Trigger, actions: seq<Action>) {
    ValidActions(actions) && (trigger.kind.OnSchedule? ==> forall a :: a in actions ==> HasExplicitTarget(a))
  }
}
