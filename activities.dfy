/**
 * The activity wrapper: the names under which an activity is reported, and
 * the bookkeeping around its body. Before the body runs it writes a start
 * record to the timeline, logs the start, posts ACTIVITY_STARTED and updates
 * the entity's status; when the body returns or raises it writes exactly one
 * end record, logs, and posts ACTIVITY_COMPLETED, and on the error path the
 * exception is raised again.
 *
 * The body is a generator that yields to the simulation kernel, so other
 * activities may run between the two halves; the wrapper is therefore
 * modelled as `BeginActivity` and `FinishActivity`, with a `Frame` holding
 * what the wrapper remembers across the body.
 */
module Activities {
  import opened Wrappers
  import opened PyStr
  import opened Messages
  import opened Timeline
  import opened Entities

  /** The function-name prefix dropped from an activity's name. */
  const Prefix: string := "activity_"

  /** The docstring marker before an activity's display name (`活动：`). */
  const NameMarker: string := "\U{6D3B}\U{52A8}\U{FF1A}"

  /** The display name of an activity whose docstring names none (`未知活动`). */
  const UnknownActivity: string := "\U{672A}\U{77E5}\U{6D3B}\U{52A8}"

  /** The activity name: the function name with every `activity_` removed. */
  function ActivityName(funcName: string): string {
    Replace(funcName, Prefix, "")
  }

  /**
   * The display name: the first line of the stripped docstring, when it
   * starts with the marker, with every marker removed and then stripped.
   */
  function ChineseName(doc: Option<string>): string {
    if !Truthy(doc) then UnknownActivity
    else
      var first := Split(Strip(doc.value), '\n')[0];
      if StartsWith(first, NameMarker) then Strip(Replace(first, NameMarker, "")) else UnknownActivity
  }

  /** An activity function named `activity_` plus a rest free of that prefix is reported as the rest. */
  lemma ActivityNameOfPrefixed(rest: string)
    requires !Occurs(rest, Prefix)
    ensures ActivityName(Prefix + rest) == rest
  {
    var s := Prefix + rest;
    assert s[..|Prefix|] == Prefix && s[|Prefix|..] == rest;
    ReplaceAbsent(rest, Prefix, "");
  }

  /** A function name is its own activity name exactly when `activity_` does not occur in it. */
  lemma ActivityNameUnchanged(funcName: string)
    ensures ActivityName(funcName) == funcName <==> !Occurs(funcName, Prefix)
  {
    DeleteIsIdentityIff(funcName, Prefix);
  }

  lemma StripLeftSpaces(ws: string, t: string)
    requires forall i :: 0 <= i < |ws| ==> IsSpace(ws[i])
    requires t != [] && !IsSpace(t[0])
    ensures StripLeft(ws + t) == t
  {
    var s := ws + t;
    var r := StripLeft(s);
    var d := |s| - |r|;
    assert !IsSpace(s[|ws|]);
    assert d <= |ws|;
    assert r[0] == s[d] && !IsSpace(s[d]);
    assert d >= |ws|;
    assert s[|ws|..] == t;
  }

  /** Stripping the right end of `u` keeps its prefix `q` when `q` ends in a non-space. */
  lemma StripRightKeepsLine(q: string, u: string)
    requires q != [] && !IsSpace(q[|q| - 1]) && |q| <= |u| && u[..|q|] == q
    ensures var t := StripRight(u);
      |q| <= |t| && t[..|q|] == q && (|t| == |q| || t[|q|] == u[|q|])
  {
  }

  /**
   * The first line of a stripped text that is whitespace, a line `q` that
   * neither starts nor ends with whitespace, a line break and anything else,
   * is `q`.
   */
  lemma FirstLineOfStripped(ws: string, q: string, rest: string)
    requires forall i :: 0 <= i < |ws| ==> IsSpace(ws[i])
    requires q != [] && !IsSpace(q[0]) && !IsSpace(q[|q| - 1]) && '\n' !in q
    ensures Split(Strip(ws + q + ['\n'] + rest), '\n')[0] == q
  {
    var u := q + ['\n'] + rest;
    assert Strip(ws + q + ['\n'] + rest) == StripRight(u) by {
      assert ws + q + ['\n'] + rest == ws + u;
      StripLeftSpaces(ws, u);
    }
    assert u[..|q|] == q && u[|q|] == '\n';
    StripRightKeepsLine(q, u);
    SplitHead(StripRight(u), '\n', |q|);
  }

  lemma MarkerChars()
    ensures |NameMarker| == 3
    ensures !IsSpace(NameMarker[0]) && !IsSpace(NameMarker[2]) && '\n' !in NameMarker
  {
  }

  /** A stripped non-empty text ends in a non-space. */
  lemma StrippedEnd(s: string)
    requires s != [] && Strip(s) == s
    ensures !IsSpace(s[|s| - 1])
  {
    assert StripLeft(s) == s by {
      assert |StripLeft(s)| >= |StripRight(StripLeft(s))| == |s|;
    }
  }

  /** The last character of a text that is a prefix followed by a non-empty rest. */
  lemma LastOfConcat(a: string, b: string)
    requires b != []
    ensures (a + b)[|a + b| - 1] == b[|b| - 1]
  {
  }

  /** The marker and a stripped name free of line breaks make a line the first-line lemma accepts. */
  lemma MarkedLine(name: string)
    requires '\n' !in name && Strip(name) == name
    ensures var q := NameMarker + name;
      q != [] && !IsSpace(q[0]) && !IsSpace(q[|q| - 1]) && '\n' !in q
  {
    if name != [] {
      StrippedEnd(name);
    }
    MarkedLineEnds(name);
  }

  /** The marker followed by a name free of line breaks that does not end in a space. */
  lemma MarkedLineEnds(name: string)
    requires '\n' !in name && (name == [] || !IsSpace(name[|name| - 1]))
    ensures var q := NameMarker + name;
      q != [] && !IsSpace(q[0]) && !IsSpace(q[|q| - 1]) && '\n' !in q
  {
    MarkerChars();
    var q := NameMarker + name;
    assert q[0] == NameMarker[0];
    if name != [] {
      LastOfConcat(NameMarker, name);
    } else {
      assert q == NameMarker;
    }
  }

  /** Removing the markers from the marker followed by a marker-free name leaves the name. */
  lemma UnmarkLine(name: string)
    requires !Occurs(name, NameMarker)
    ensures StartsWith(NameMarker + name, NameMarker)
    ensures Replace(NameMarker + name, NameMarker, "") == name
  {
    var q := NameMarker + name;
    assert q[..|NameMarker|] == NameMarker && q[|NameMarker|..] == name;
    ReplaceAbsent(name, NameMarker, "");
  }

  /**
   * The first line of a stripped text that is whitespace followed by a single
   * line `q` that neither starts nor ends with whitespace is `q`.
   */
  lemma FirstLineOfSingle(ws: string, q: string)
    requires forall i :: 0 <= i < |ws| ==> IsSpace(ws[i])
    requires q != [] && !IsSpace(q[0]) && !IsSpace(q[|q| - 1]) && '\n' !in q
    ensures Split(Strip(ws + q), '\n')[0] == q
  {
    StripLeftSpaces(ws, q);
    assert StripRight(q) == q;
  }

  /**
   * The first line of a stripped text that is whitespace, a line `q` that
   * neither starts nor ends with whitespace, then nothing or a line break and
   * anything else, is `q`.
   */
  lemma FirstLineOf(ws: string, q: string, tail: string)
    requires forall i :: 0 <= i < |ws| ==> IsSpace(ws[i])
    requires q != [] && !IsSpace(q[0]) && !IsSpace(q[|q| - 1]) && '\n' !in q
    requires tail == [] || tail[0] == '\n'
    ensures Split(Strip(ws + q + tail), '\n')[0] == q
  {
    if tail == [] {
      assert ws + q + tail == ws + q;
      FirstLineOfSingle(ws, q);
    } else {
      assert tail == ['\n'] + tail[1..];
      ConcatAssoc(ws + q, ['\n'], tail[1..]);
      FirstLineOfStripped(ws, q, tail[1..]);
    }
  }

  /**
   * A docstring that is leading whitespace, then the marker followed by a
   * stripped name free of line breaks and markers, then either nothing or a
   * line break and anything else, yields that name. The one-line docstrings
   * the activities carry are the case with nothing after the name.
   */
  lemma ChineseNameOfDocstring(ws: string, name: string, tail: string)
    requires forall i :: 0 <= i < |ws| ==> IsSpace(ws[i])
    requires '\n' !in name && !Occurs(name, NameMarker) && Strip(name) == name
    requires tail == [] || tail[0] == '\n'
    ensures ChineseName(Some(ws + (NameMarker + name) + tail)) == name
  {
    var q := NameMarker + name;
    var doc := ws + q + tail;
    MarkedLine(name);
    FirstLineOf(ws, q, tail);
    UnmarkLine(name);
    assert Truthy(Some(doc)) by {
      assert doc[|ws|] == q[0];
    }
  }

  /** A missing or empty docstring, or one in which the marker never occurs, names no activity. */
  lemma UnmarkedDocstring(doc: Option<string>)
    requires doc.Some? ==> !Occurs(doc.value, NameMarker)
    ensures ChineseName(doc) == UnknownActivity
  {
    if Truthy(doc) && StartsWith(Split(Strip(doc.value), '\n')[0], NameMarker) {
      FirstLineStartOccurs(doc.value, NameMarker);
      assert false;
    }
  }

  /** What the wrapped body did: returned (its truthy result as text, or `None`) or raised. */
  datatype BodyOutcome = Returned(result: Option<string>) | Raised(error: string)

  /** What the wrapper keeps across the body. */
  datatype Frame = Frame(activity: string, activityName: string, chineseName: string,
                         entityName: string, entityId: string, startTime: real)

  function Info(f: Frame): ActivityInfo {
    ActivityInfo(f.activity, f.activityName, f.chineseName, f.entityName)
  }

  /** The start log line and the ACTIVITY_STARTED message. */
  function StartMessages(f: Frame, clock: int): seq<SimMessage> {
    [ Logged("INFO", ActivityBeginning(f.entityName, f.chineseName, f.startTime), Some(f.entityName),
             LogMessage, clock),
      SimMessage(ActivityStarted, ActivityBegan(Info(f), f.startTime), clock, Some(f.entityId), 0) ]
  }

  /** The end log line and the ACTIVITY_COMPLETED message, on the path the body took. */
  function EndMessages(f: Frame, outcome: BodyOutcome, endTime: real, clock: int): seq<SimMessage> {
    match outcome
    case Returned(result) =>
      [ Logged("INFO", ActivityFinishing(f.entityName, f.chineseName, endTime, endTime - f.startTime),
               Some(f.entityName), LogMessage, clock),
        SimMessage(ActivityCompleted,
                   ActivityEnded(Info(f), f.startTime, endTime, endTime - f.startTime, result),
                   clock, Some(f.entityId), 0) ]
    case Raised(error) =>
      [ Logged("ERROR", ActivityFailing(f.entityName, f.chineseName, error), Some(f.entityName),
               LogMessage, clock),
        SimMessage(ActivityCompleted, ActivityFailed(Info(f), f.startTime, endTime, error),
                   clock, Some(f.entityId), 0) ]
  }

  function StartRecord(f: Frame, clock: int): Record {
    Start(f.activityName, f.entityName, f.entityId, f.startTime, clock)
  }

  /** The end record; on the error path its result is the text `Error: ` and the error. */
  function EndRecord(f: Frame, outcome: BodyOutcome, endTime: real, clock: int): Record {
    End(f.activityName, f.entityName, f.entityId, endTime, f.startTime, endTime - f.startTime, clock,
        match outcome
        case Returned(result) => result
        case Raised(error) => Some("Error: " + error))
  }

  /** Later records never remove a start. */
  lemma StartPersists(records: seq<Record>, more: seq<Record>, name: string)
    requires HasStart(records, name)
    ensures HasStart(records + more, name)
  {
    var i :| 0 <= i < |records| && records[i].Start? && records[i].activityName == name;
    assert (records + more)[i] == records[i];
  }

  /** After its start record, an activity's name has statistics, and no other entry changed. */
  lemma StartRegistersName(records: seq<Record>, f: Frame, clock: int)
    ensures var before := StatsOf(records);
      var after := StatsOf(records + [StartRecord(f, clock)]);
      && Find(after, f.activityName).Some?
      && |before| <= |after| && after[..|before|] == before
  {
    StatsOfSnoc(records, StartRecord(f, clock));
    StatsNames(records + [StartRecord(f, clock)], f.activityName);
    HasStartSnoc(records, StartRecord(f, clock), f.activityName);
  }

  /**
   * The end record of a started activity, on either path, adds exactly one
   * execution to that activity's entry — by its entity, lasting from the
   * start time to the end time — and changes no other entry.
   */
  lemma EndCountsOneExecution(records: seq<Record>, f: Frame, outcome: BodyOutcome, endTime: real,
                              clock: int)
    requires HasStart(records, f.activityName)
    ensures var before := StatsOf(records);
      var after := StatsOf(records + [EndRecord(f, outcome, endTime, clock)]);
      var i := Find(before, f.activityName);
      && i.Some? && |after| == |before|
      && after[i.value].count == before[i.value].count + 1
      && after[i.value].totalDuration == before[i.value].totalDuration + (endTime - f.startTime)
      && after[i.value].executions
         == before[i.value].executions + [Execution(f.entityName, endTime - f.startTime, endTime)]
      && forall j :: 0 <= j < |before| && j != i.value ==> after[j] == before[j]
  {
    StatsOfSnoc(records, EndRecord(f, outcome, endTime, clock));
    StatsNames(records, f.activityName);
  }

  /**
   * The first half of the wrapper, up to the body: the start record, the
   * start log line and ACTIVITY_STARTED, then — for an entity with a status —
   * `update_status(activity=<function name>)` and the display names.
   * `entityName` and `entityId` are what the wrapper reads from the entity,
   * with their defaults; an entity with a status has both attributes, so for
   * one the two are its own name and id.
   */
  method BeginActivity(funcName: string, doc: Option<string>, entity: BaseEntity?,
                       entityName: string, entityId: string, now: real,
                       logger: TimelineLogger, collector: MessageCollector, clock: int)
    returns (f: Frame)
    requires logger.Valid() && Bracketed(logger.records) && collector.Valid()
    requires entity != null ==> entityName == entity.name && entityId == entity.id
    modifies logger, collector, entity
    ensures f == Frame(funcName, ActivityName(funcName), ChineseName(doc), entityName, entityId, now)
    ensures logger.Valid() && Bracketed(logger.records)
    ensures logger.records == old(logger.records) + [StartRecord(f, clock)]
    ensures collector.Valid()
    ensures entity == null ==> collector.Model() == AddAll(old(collector.Model()), StartMessages(f, clock))
    ensures entity != null ==>
      && entity.Fields() == Updated(old(entity.Fields()), None, Some(funcName))
                              .(activityName := Some(f.activityName), chineseName := Some(f.chineseName))
      && collector.Model() == AddAll(old(collector.Model()), StartMessages(f, clock) +
           StatusMessages(entity.id, entity.name, old(entity.Fields()), None, Some(funcName), clock))
  {
    f := Frame(funcName, ActivityName(funcName), ChineseName(doc), entityName, entityId, now);
    BracketedStart(logger.records, StartRecord(f, clock));
    logger.LogActivityStart(f.activityName, entityName, entityId, now, clock);
    ghost var started := collector.Model();
    collector.AddMessages(StartMessages(f, clock));
    if entity != null {
      ghost var fields := entity.Fields();
      ghost var statusPosts := StatusMessages(entity.id, entity.name, fields, None, Some(funcName), clock);
      entity.UpdateStatus(None, Some(funcName), collector, clock);
      entity.SetActivityNames(f.activityName, f.chineseName);
      AddAllConcat(started, StartMessages(f, clock), statusPosts);
    }
  }

  /**
   * The second half of the wrapper, once the body has returned or raised:
   * one end record, the end (or error) log line and ACTIVITY_COMPLETED; the
   * error is handed back to be raised again.
   */
  method FinishActivity(f: Frame, outcome: BodyOutcome, endTime: real,
                        logger: TimelineLogger, collector: MessageCollector, clock: int)
    returns (reraised: Option<string>)
    requires logger.Valid() && Bracketed(logger.records) && HasStart(logger.records, f.activityName)
    requires collector.Valid()
    modifies logger, collector
    ensures logger.Valid() && Bracketed(logger.records)
    ensures logger.records == old(logger.records) + [EndRecord(f, outcome, endTime, clock)]
    ensures collector.Valid()
    ensures collector.Model() == AddAll(old(collector.Model()), EndMessages(f, outcome, endTime, clock))
    ensures outcome.Raised? ==> reraised == Some(outcome.error)
    ensures outcome.Returned? ==> reraised == None
  {
    var result := if outcome.Returned? then outcome.result else Some("Error: " + outcome.error);
    ghost var record := EndRecord(f, outcome, endTime, clock);
    assert record == End(f.activityName, f.entityName, f.entityId, endTime, f.startTime,
                         endTime - f.startTime, clock, result);
    BracketedEnd(logger.records, record);
    logger.LogActivityEnd(f.activityName, f.entityName, f.entityId, endTime, f.startTime,
                          result, clock);
    assert logger.records == old(logger.records) + [record];
    collector.AddMessages(EndMessages(f, outcome, endTime, clock));
    reraised := if outcome.Raised? then Some(outcome.error) else None;
  }
}
