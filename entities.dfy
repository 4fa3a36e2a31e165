/**
 * The status part of a simulation entity: the action and activity it is
 * engaged in, and the display names the activity wrapper stores beside
 * them. `update_status` overwrites a field only with a truthy argument and
 * posts an ENTITY_UPDATE message when an argument differs from the field's
 * old value — the test looks at the arguments, not at the new fields.
 */
module Entities {
  import opened Wrappers
  import opened Messages

  /** Python truthiness of an optional string: `None` and the empty string are false. */
  predicate Truthy(s: Option<string>) {
    s.Some? && s.value != []
  }

  /** The status fields of an entity. */
  datatype Status = Status(action: Option<string>, activity: Option<string>,
                           activityName: Option<string>, chineseName: Option<string>)

  const NoStatus := Status(None, None, None, None)

  /** A field after `update_status`: a truthy argument replaces it, any other leaves it. */
  function Overwritten(field: Option<string>, arg: Option<string>): Option<string> {
    if Truthy(arg) then arg else field
  }

  /** The fields after `update_status(action, activity)`. */
  function Updated(s: Status, action: Option<string>, activity: Option<string>): Status {
    s.(action := Overwritten(s.action, action), activity := Overwritten(s.activity, activity))
  }

  /** `update_status`'s change test, on the arguments and the old fields. */
  predicate Reports(s: Status, action: Option<string>, activity: Option<string>) {
    action != s.action || activity != s.activity
  }

  /** The ENTITY_UPDATE message: the fields as they are after the update. */
  function StatusMessage(id: string, name: string, s: Status, clock: int): SimMessage {
    SimMessage(EntityUpdate, EntityState(name, s.action, s.activity, s.activityName, s.chineseName),
               clock, Some(id), 0)
  }

  /** The messages `update_status(action, activity)` posts from status `s`. */
  function StatusMessages(id: string, name: string, s: Status, action: Option<string>,
                          activity: Option<string>, clock: int): seq<SimMessage>
  {
    if Reports(s, action, activity) then [StatusMessage(id, name, Updated(s, action, activity), clock)]
    else []
  }

  /**
   * The update changes `action` and `activity` only, each exactly when its
   * argument is truthy and differs from it, and then to that argument.
   */
  lemma UpdatedFields(s: Status, action: Option<string>, activity: Option<string>)
    ensures var u := Updated(s, action, activity);
      && u.activityName == s.activityName && u.chineseName == s.chineseName
      && (u.action != s.action <==> Truthy(action) && action != s.action)
      && (u.action != s.action ==> u.action == action)
      && (u.activity != s.activity <==> Truthy(activity) && activity != s.activity)
      && (u.activity != s.activity ==> u.activity == activity)
  {
  }

  /** Any change to the fields is reported, with exactly one message. */
  lemma ChangeIsReported(id: string, name: string, s: Status, action: Option<string>,
                         activity: Option<string>, clock: int)
    requires Updated(s, action, activity) != s
    ensures StatusMessages(id, name, s, action, activity, clock)
         == [StatusMessage(id, name, Updated(s, action, activity), clock)]
  {
  }

  /**
   * The converse does not hold: with an action set, starting an activity the
   * entity is already in (`update_status(activity=a)`, action `None`) changes
   * no field yet posts a message, because `None` differs from the old action.
   */
  lemma ReportWithoutChange(id: string, name: string, s: Status, clock: int)
    requires s.action.Some? && Truthy(s.activity)
    ensures Updated(s, None, s.activity) == s
    ensures |StatusMessages(id, name, s, None, s.activity, clock)| == 1
  {
  }

  /** Repeating an update changes no field any more. */
  lemma UpdateIdempotent(s: Status, action: Option<string>, activity: Option<string>)
    ensures Updated(Updated(s, action, activity), action, activity) == Updated(s, action, activity)
  {
  }

  class BaseEntity {
    const id: string
    const name: string
    var currentAction: Option<string>
    var currentActivity: Option<string>
    var currentActivityName: Option<string>
    var currentActivityChineseName: Option<string>

    function Fields(): Status
      reads this
    {
      Status(currentAction, currentActivity, currentActivityName, currentActivityChineseName)
    }

    constructor (id: string, name: string)
      ensures this.id == id && this.name == name && Fields() == NoStatus
    {
      this.id := id;
      this.name := name;
      currentAction, currentActivity := None, None;
      currentActivityName, currentActivityChineseName := None, None;
    }

    /** `update_status`. */
    method UpdateStatus(action: Option<string>, activity: Option<string>,
                        collector: MessageCollector, clock: int)
      requires collector.Valid()
      modifies this, collector
      ensures Fields() == Updated(old(Fields()), action, activity)
      ensures collector.Valid()
      ensures collector.Model()
           == AddAll(old(collector.Model()), StatusMessages(id, name, old(Fields()), action, activity, clock))
    {
      var oldAction, oldActivity := currentAction, currentActivity;
      if Truthy(action) {
        currentAction := action;
      }
      if Truthy(activity) {
        currentActivity := activity;
      }
      if action != oldAction || activity != oldActivity {
        collector.AddMessage(StatusMessage(id, name, Fields(), clock));
      }
    }

    /** The wrapper's direct assignment of the activity display names. */
    method SetActivityNames(activityName: string, chineseName: string)
      modifies this
      ensures Fields() == old(Fields()).(activityName := Some(activityName),
                                         chineseName := Some(chineseName))
    {
      currentActivityName, currentActivityChineseName := Some(activityName), Some(chineseName);
    }
  }
}
