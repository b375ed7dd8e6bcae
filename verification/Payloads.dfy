/** Trigger payloads as JSON: the condition evaluator and the target resolution that read them. */
module Payloads {
  import opened Results
  import opened Schedule
  import opened Rules
  import opened Text

  /** JSON as far as payloads use it. A timestamp string is kept as the instant it denotes. */
  datatype Json = Null | Str(text: string) | Timestamp(at: Time) | Arr(items: seq<Json>) | Obj(members: map<string, Json>)

  /** `value.get(name)`, absent on everything that is not an object. */
  function Get(value: Json, name: string): Option<Json> {
    if value.Obj? && name in value.members then Some(value.members[name]) else None
  }

  function AsText(value: Option<Json>): Option<string> {
    if value.Some? && value.value.Str? then Some(value.value.text) else None
  }

  function AsTime(value: Option<Json>): Option<Time> {
    if value.Some? && value.value.Timestamp? then Some(value.value.at) else None
  }

  datatype EntityKind = IssueEntity | ProjectEntity

  datatype Event = Event(
    organizationId: string, dedupeKey: string, eventType: EventType, entityKind: EntityKind, entityId: string,
    projectId: Option<string>, teamId: Option<string>, workflowStateId: Option<string>,
    priority: Option<Priority>, statusId: Option<string>, labelIds: seq<string>, occurredAt: Time)

  function EventTypeName(t: EventType): string {
    match t
    case IssueCreated => "issue_created"
    case IssueUpdated => "issue_updated"
    case IssueMoved => "issue_moved"
    case IssueArchived => "issue_archived"
    case CommentAdded => "comment_added"
    case ProjectCreated => "project_created"
    case ProjectUpdated => "project_updated"
    case ProjectArchived => "project_archived"
  }

  function PriorityName(p: Priority): string {
    match p
    case NoPriority => "none"
    case Urgent => "urgent"
    case High => "high"
    case Medium => "medium"
    case Low => "low"
  }

  function EntityKindName(k: EntityKind): string {
    if k.IssueEntity? then "issue" else "project"
  }

  function FieldName(f: ConditionField): string {
    match f
    case EventTypeField => "event_type"
    case EntityKindField => "entity_kind"
    case TeamIdField => "team_id"
    case ProjectIdField => "project_id"
    case WorkflowStateIdField => "workflow_state_id"
    case PriorityField => "priority"
    case StatusIdField => "status_id"
    case LabelIdField => "label_id"
  }

  function OperatorName(o: ConditionOperator): string {
    match o
    case Equals => "equals"
    case NotEquals => "not_equals"
    case Contains => "contains"
  }

  function Nullable(text: Option<string>): Json {
    match text
    case None => Null
    case Some(t) => Str(t)
  }

  /** What serde writes for an event; an absent option becomes `null`. */
  function EventJson(event: Event): Json {
    Obj(map[
      "organization_id" := Str(event.organizationId),
      "dedupe_key" := Str(event.dedupeKey),
      "event_type" := Str(EventTypeName(event.eventType)),
      "entity_kind" := Str(EntityKindName(event.entityKind)),
      "entity_id" := Str(event.entityId),
      "project_id" := Nullable(event.projectId),
      "team_id" := Nullable(event.teamId),
      "workflow_state_id" := Nullable(event.workflowStateId),
      "priority" := if event.priority.Some? then Str(PriorityName(event.priority.value)) else Null,
      "status_id" := Nullable(event.statusId),
      "label_ids" := Arr(seq(|event.labelIds|, i requires 0 <= i < |event.labelIds| => Str(event.labelIds[i]))),
      "occurred_at" := Timestamp(event.occurredAt)])
  }

  function ConditionJson(c: Condition): Json {
    Obj(map["field" := Str(FieldName(c.field)), "operator" := Str(OperatorName(c.operator)), "value" := Str(c.value)])
  }

  function ConditionsJson(conditions: seq<Condition>): Json {
    Arr(seq(|conditions|, i requires 0 <= i < |conditions| => ConditionJson(conditions[i])))
  }

  predicate ConditionMatches(condition: Json, event: Json) {
    var field, operator, expected := AsText(Get(condition, "field")), AsText(Get(condition, "operator")), AsText(Get(condition, "value"));
    && field.Some? && operator.Some? && expected.Some?
    && var matches :=
         if field.value == "label_id" then
           var labels := Get(event, "label_ids");
           labels.Some? && labels.value.Arr? && exists l :: l in labels.value.items && AsText(Some(l)) == expected
         else AsText(Get(event, field.value)) == expected;
       if operator.value == "equals" || operator.value == "contains" then matches
       else operator.value == "not_equals" && !matches
  }

  predicate ConditionsMatch(conditions: Json, event: Json) {
    conditions.Arr? && forall c :: c in conditions.items ==> ConditionMatches(c, event)
  }

  /** The value of a field other than the labels, absent when the event does not carry it. */
  function FieldValue(field: ConditionField, event: Event): Option<string>
    requires !field.LabelIdField?
  {
    match field
    case EventTypeField => Some(EventTypeName(event.eventType))
    case EntityKindField => Some(EntityKindName(event.entityKind))
    case TeamIdField => event.teamId
    case ProjectIdField => event.projectId
    case WorkflowStateIdField => event.workflowStateId
    case PriorityField => if event.priority.Some? then Some(PriorityName(event.priority.value)) else None
    case StatusIdField => event.statusId
  }

  /** The meaning of a condition on a typed event. */
  predicate Holds(c: Condition, event: Event) {
    var same := if c.field.LabelIdField? then c.value in event.labelIds else FieldValue(c.field, event) == Some(c.value);
    if c.operator.NotEquals? then !same else same
  }

  lemma EventMembers(event: Event, f: ConditionField)
    requires !f.LabelIdField?
    ensures AsText(Get(EventJson(event), FieldName(f))) == FieldValue(f, event)
  {
  }

  lemma ConditionAgrees(c: Condition, event: Event)
    ensures ConditionMatches(ConditionJson(c), EventJson(event)) <==> Holds(c, event)
  {
    var json := ConditionJson(c);
    assert AsText(Get(json, "field")) == Some(FieldName(c.field));
    assert AsText(Get(json, "operator")) == Some(OperatorName(c.operator));
    assert AsText(Get(json, "value")) == Some(c.value);
    if c.field.LabelIdField? {
      var labels := Get(EventJson(event), "label_ids").value.items;
      assert forall i :: 0 <= i < |event.labelIds| ==> labels[i] == Str(event.labelIds[i]);
      if c.value in event.labelIds {
        var i :| 0 <= i < |event.labelIds| && event.labelIds[i] == c.value;
        assert labels[i] in labels;
      }
    } else {
      EventMembers(event, c.field);
    }
  }

  /** The JSON evaluator means what the typed conditions say, on every event. */
  lemma ConditionsAgree(conditions: seq<Condition>, event: Event)
    ensures ConditionsMatch(ConditionsJson(conditions), EventJson(event))
            <==> forall c :: c in conditions ==> Holds(c, event)
  {
    var items := ConditionsJson(conditions).items;
    forall i | 0 <= i < |conditions| ensures items[i] in items && (ConditionMatches(items[i], EventJson(event)) <==> Holds(conditions[i], event)) {
      ConditionAgrees(conditions[i], event);
    }
    if forall c :: c in conditions ==> Holds(c, event) {
      forall c | c in items ensures ConditionMatches(c, EventJson(event)) {
        var i :| 0 <= i < |items| && items[i] == c;
        assert conditions[i] in conditions;
      }
    }
  }
}
