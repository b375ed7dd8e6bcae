/** What an action is applied to, resolved from the action and the payload that triggered it. */
module Targets {
  import opened Results
  import opened Text
  import opened Schedule
  import opened Rules
  import opened Payloads
  import opened Keys

  datatype Payload =
    | EventPayload(event: Event)
    | TimerPayload(organizationId: string, ruleId: string, scheduledFor: Time, dedupeKey: Key)

  function PayloadJson(payload: Payload): Json {
    match payload
    case EventPayload(event) => EventJson(event)
    case TimerPayload(organizationId, ruleId, scheduledFor, dedupeKey) =>
      Obj(map["organization_id" := Str(organizationId), "rule_id" := Str(ruleId),
              "scheduled_for" := Timestamp(scheduledFor), "dedupe_key" := Str(KeyText(dedupeKey))])
  }

  datatype Resolution = Target(organizationId: string, entityId: string) | Refused(detail: string)

  function OrElse<T>(first: Option<T>, second: Option<T>): Option<T> {
    if first.Some? then first else second
  }

  /** The checks `execute_actions` and `execute_action` make before any dependency is called. */
  function Resolve(index: int, action: Action, payload: Json): Resolution {
    if index > I32_MAX then Refused("too_many_actions")
    else
      var organizationId := AsText(Get(payload, "organization_id"));
      var kind := AsText(Get(payload, "entity_kind"));
      var entityKind := if kind.Some? then kind.value else "schedule";
      var eventEntity := AsText(Get(payload, "entity_id"));
      if organizationId.None? then Refused("invalid_trigger_payload")
      else if action.kind.UpdateProject? then
        var project := OrElse(OrElse(action.projectId, if entityKind == "project" then eventEntity else None),
                              AsText(Get(payload, "project_id")));
        if project.None? then Refused("project_target_required") else Target(organizationId.value, project.value)
      else
        var issue := OrElse(action.issueId, if entityKind == "issue" then eventEntity else None);
        if issue.None? then Refused("issue_target_required")
        else if action.kind.AddComment? && action.commentBody.None? then Refused("comment_body_required")
        else Target(organizationId.value, issue.value)
  }

  function ExplicitTarget(action: Action): Option<string> {
    if action.kind.UpdateProject? then action.projectId else action.issueId
  }

  /** The actions of a valid scheduled rule always reach a dependency, on the target they name. */
  lemma ScheduledActionsResolve(trigger: Trigger, actions: seq<Action>, payload: Payload, index: nat)
    requires trigger.kind.OnSchedule? && ValidActionsForTrigger(trigger, actions)
    requires payload.TimerPayload? && index < |actions|
    ensures ExplicitTarget(actions[index]).Some?
    ensures Resolve(index, actions[index], PayloadJson(payload))
            == Target(payload.organizationId, ExplicitTarget(actions[index]).value)
  {
    assert actions[index] in actions;
  }

  /** The entity an event offers to an action of this kind. */
  function EventTarget(kind: ActionKind, event: Event): Option<string> {
    if kind.UpdateProject? then if event.entityKind.ProjectEntity? then Some(event.entityId) else event.projectId
    else if event.entityKind.IssueEntity? then Some(event.entityId) else None
  }

  /** A valid action of an event rule resolves to its own target or else the event's, and is refused
      exactly when neither exists. */
  lemma EventActionsResolve(action: Action, event: Event, index: nat)
    requires ValidAction(action) && index < MAX_RULE_ACTIONS
    ensures var target := OrElse(ExplicitTarget(action), EventTarget(action.kind, event));
            Resolve(index, action, PayloadJson(EventPayload(event)))
            == if target.Some? then Target(event.organizationId, target.value)
               else Refused(if action.kind.UpdateProject? then "project_target_required" else "issue_target_required")
  {
    var json := EventJson(event);
    assert Get(json, "organization_id") == Some(Str(event.organizationId));
    assert Get(json, "entity_kind") == Some(Str(EntityKindName(event.entityKind)));
    assert Get(json, "entity_id") == Some(Str(event.entityId));
    assert Get(json, "project_id") == Some(Nullable(event.projectId));
  }
}
