/** Idempotency keys. Version 5 UUIDs are collision-free here: a key is the name that was hashed. */
module Keys {
  import opened Text
  import opened Schedule

  /** `pa-schedule-` and `pa-action-` followed by the UUID of a name, or a key a caller made up. */
  datatype Key = ScheduleUuid(name: string) | ActionUuid(name: string) | Other(text: string)

  /** The text of a key, with the hashed name standing for its UUID. */
  function KeyText(key: Key): string {
    match key
    case ScheduleUuid(name) => "pa-schedule-" + name
    case ActionUuid(name) => "pa-action-" + name
    case Other(text) => text
  }

  function ScheduleKey(ruleId: string, scheduledFor: Time): Key {
    ScheduleUuid(Joined(ruleId, scheduledFor))
  }

  function ActionKey(executionId: string, index: int): Key {
    ActionUuid(Joined(executionId, index))
  }

  /** Schedule keys and action keys identify what they were made from. */
  lemma KeysAreInjective(a: string, m: int, b: string, n: int)
    ensures ScheduleKey(a, m) == ScheduleKey(b, n) <==> a == b && m == n
    ensures ActionKey(a, m) == ActionKey(b, n) <==> a == b && m == n
  {
    JoinedInjective(a, m, b, n);
  }
}
