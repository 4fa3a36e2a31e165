/**
 * The message collector: the telemetry sink every part of the simulator posts
 * to. It keeps three groups of bounded drop-oldest buffers (all messages, one
 * per message type, and the log-message buffer that feeds incremental pushes)
 * and numbers log messages with a monotone counter.
 *
 * `Collector` is the collector's state as a value and `Add`, `ClearOld`,
 * `IncrementalLogs` are its operations as functions; the class
 * `MessageCollector` holds the same state in fields that its methods update in
 * place, and each method is proved to agree with the function.
 */
module Messages {
  import opened Wrappers

  function Min(a: int, b: int): int { if a <= b then a else b }
  function Max(a: int, b: int): int { if a >= b then a else b }

  datatype MessageType =
    | StatusUpdate | LogMessage | LogBatch | EntityUpdate | ResourceUpdate
    | GlobalVarUpdate | EventTriggered | ActionStarted | ActionCompleted
    | ActivityStarted | ActivityCompleted | Alert | MetricUpdate
    | SimulationStateChanged | StepCompleted

  /** Every message type, in declaration order. */
  const AllTypes: seq<MessageType> :=
    [ StatusUpdate, LogMessage, LogBatch, EntityUpdate, ResourceUpdate,
      GlobalVarUpdate, EventTriggered, ActionStarted, ActionCompleted,
      ActivityStarted, ActivityCompleted, Alert, MetricUpdate,
      SimulationStateChanged, StepCompleted ]

  lemma AllTypesComplete(t: MessageType)
    ensures t in AllTypes
  {
  }

  /** A suspension-boundary snapshot recorded while the simulation is stepping. */
  datatype StepPoint = StepPoint(
    time: real, entity: string, action: Option<string>, activity: Option<string>,
    activityName: Option<string>, chineseName: Option<string>)

  /** The log lines the simulator's control code emits, identified by what they report. */
  datatype Note =
    | SimulationPaused | SimulationResumed | SwitchedToStepping | SwitchedToRunning
    | SpeedChanged(ratio: real) | SimulationStopped | EnteringStepMode
    | ActivityBeginning(entityName: string, chineseName: string, simTime: real)
    | ActivityFinishing(entityName: string, chineseName: string, simTime: real, duration: real)
    | ActivityFailing(entityName: string, chineseName: string, error: string)
    | EnemyDetectedEvent | MissionCompleteEvent
    | Text(text: string)

  /** The names under which the activity wrapper reports an activity. */
  datatype ActivityInfo = ActivityInfo(
    activity: string, activityName: string, chineseName: string, entityName: string)

  /** The `data` of a message, for the kinds of message the modelled code builds. */
  datatype Payload =
    | LogLine(level: string, note: Note, entity: Option<string>)
    | StateChange(oldState: string, newState: string)
    | StepSummary(stepStart: real, stepEnd: real, points: seq<StepPoint>, nextAvailable: bool)
    | ActivityBegan(info: ActivityInfo, startTime: real)
    | ActivityEnded(info: ActivityInfo, startTime: real, endTime: real, duration: real,
                    result: Option<string>)
    | ActivityFailed(info: ActivityInfo, startTime: real, endTime: real, error: string)
    | EntityState(entityName: string, action: Option<string>, activity: Option<string>,
                  activityName: Option<string>, chineseName: Option<string>)
    | Other

  /** A posted message; `timestamp` is the wall-clock time of its creation. */
  datatype SimMessage = SimMessage(
    kind: MessageType, data: Payload, timestamp: int, entityId: Option<string>, logId: int)

  /** The message `log_and_collect` posts. */
  function Logged(level: string, note: Note, entity: Option<string>, kind: MessageType,
                  clock: int): SimMessage
  {
    SimMessage(kind, LogLine(level, note, entity), clock, entity, 0)
  }

  /** The log-level table, with 1 (INFO) for any name it does not list. */
  function LevelRank(level: string): (r: int)
    ensures 0 <= r <= 4
    ensures r == 0 <==> level == "DEBUG"
    ensures r == 2 <==> level == "WARNING"
    ensures r == 3 <==> level == "ERROR"
    ensures r == 4 <==> level == "CRITICAL"
  {
    if level == "DEBUG" then 0
    else if level == "INFO" then 1
    else if level == "WARNING" then 2
    else if level == "ERROR" then 3
    else if level == "CRITICAL" then 4
    else 1
  }

  /** `msg.data.get('level', 'INFO')`. */
  function LevelOf(m: SimMessage): string {
    if m.data.LogLine? then m.data.level else "INFO"
  }

  const MaxPerType: nat := 100
  const MaxLogBuffer: nat := 500
  const DefaultMaxMessages: nat := 1000

  /**
   * `deque(maxlen=n).append(x)`: when the deque is full its oldest element is
   * dropped, so the result is the newest `n` elements of `q + [x]`.
   */
  function Pushed<T>(q: seq<T>, x: T, maxlen: nat): (r: seq<T>)
    requires |q| <= maxlen
    ensures |r| == Min(|q| + 1, maxlen)
    ensures maxlen > 0 ==> r[|r| - 1] == x
  {
    if |q| < maxlen then q + [x] else (q + [x])[1..]
  }

  /**
   * Entry `i` after a bounded append: `x` at the end, and before it the newest
   * entries of `q` in their old order.
   */
  lemma PushedAt<T>(q: seq<T>, x: T, maxlen: nat, i: int)
    requires |q| <= maxlen && 0 <= i < |Pushed(q, x, maxlen)|
    ensures var r := Pushed(q, x, maxlen);
      r[i] == if i == |r| - 1 then x else q[|q| + 1 - |r| + i]
  {
  }

  datatype Collector = Collector(
    maxMessages: nat,
    messages: seq<SimMessage>,
    byType: map<MessageType, seq<SimMessage>>,
    logBuffer: seq<SimMessage>,
    logIdCounter: int)

  /** Log ids strictly increase along a buffer. */
  predicate IdsIncreasing(q: seq<SimMessage>) {
    forall i, j :: 0 <= i < j < |q| ==> q[i].logId < q[j].logId
  }

  /** Every entry of `q` is of type `t`. */
  predicate AllOfKind(q: seq<SimMessage>, t: MessageType) {
    forall i :: 0 <= i < |q| ==> q[i].kind == t
  }

  /** Every entry of `q` is a log message numbered by a counter now at `counter`. */
  predicate LogsNumbered(q: seq<SimMessage>, counter: int) {
    forall i :: 0 <= i < |q| ==> q[i].kind == LogMessage && 0 < q[i].logId <= counter
  }

  /** One bounded buffer per message type, holding only messages of that type. */
  ghost predicate TypedBuffers(byType: map<MessageType, seq<SimMessage>>) {
    && (forall t :: t in byType)
    && (forall t :: t in byType ==> |byType[t]| <= MaxPerType && AllOfKind(byType[t], t))
  }

  /**
   * What the collector keeps true: each buffer within its bound, one buffer
   * per message type holding only that type, the log buffer holding only log
   * messages whose ids increase strictly and were all issued by the counter.
   */
  ghost predicate Inv(c: Collector) {
    && |c.messages| <= c.maxMessages
    && TypedBuffers(c.byType)
    && |c.logBuffer| <= MaxLogBuffer
    && LogsNumbered(c.logBuffer, c.logIdCounter)
    && IdsIncreasing(c.logBuffer)
    && 0 <= c.logIdCounter
  }

  /** The collector as `MessageCollector(max_messages)` builds it. */
  function Initial(maxMessages: nat): (c: Collector)
    ensures Inv(c)
    ensures c.messages == [] && c.logBuffer == [] && c.logIdCounter == 0
    ensures forall t :: t in c.byType && c.byType[t] == []
  {
    var c := Collector(maxMessages, [], map t | t in AllTypes :: [], [], 0);
    forall t ensures t in c.byType { AllTypesComplete(t); }
    c
  }

  /** The message as stored: a log message gets the next log id. */
  function Stamp(m: SimMessage, counter: int): SimMessage {
    if m.kind == LogMessage then m.(logId := counter + 1) else m
  }

  lemma PushedOfKind(q: seq<SimMessage>, x: SimMessage, n: nat, t: MessageType)
    requires |q| <= n && AllOfKind(q, t) && x.kind == t
    ensures AllOfKind(Pushed(q, x, n), t)
  {
    var r := Pushed(q, x, n);
    forall i | 0 <= i < |r| ensures r[i].kind == t {
      PushedAt(q, x, n, i);
    }
  }

  lemma PushedNumbered(q: seq<SimMessage>, x: SimMessage, n: nat, counter: int)
    requires |q| <= n && LogsNumbered(q, counter) && IdsIncreasing(q) && 0 <= counter
    requires x.kind == LogMessage && x.logId == counter + 1
    ensures LogsNumbered(Pushed(q, x, n), counter + 1) && IdsIncreasing(Pushed(q, x, n))
  {
    var r := Pushed(q, x, n);
    forall i | 0 <= i < |r| ensures r[i].kind == LogMessage && 0 < r[i].logId <= counter + 1 {
      PushedAt(q, x, n, i);
    }
    forall i, j | 0 <= i < j < |r| ensures r[i].logId < r[j].logId {
      PushedAt(q, x, n, i);
      PushedAt(q, x, n, j);
    }
  }

  /** `add_message`. */
  function Add(c: Collector, m: SimMessage): (r: Collector)
    requires Inv(c)
    ensures Inv(r)
  {
    var s := Stamp(m, c.logIdCounter);
    var isLog := m.kind == LogMessage;
    PushedOfKind(c.byType[m.kind], s, MaxPerType, m.kind);
    assert isLog ==> (LogsNumbered(Pushed(c.logBuffer, s, MaxLogBuffer), c.logIdCounter + 1)
                      && IdsIncreasing(Pushed(c.logBuffer, s, MaxLogBuffer))) by {
      if isLog { PushedNumbered(c.logBuffer, s, MaxLogBuffer, c.logIdCounter); }
    }
    Collector(
      c.maxMessages,
      Pushed(c.messages, s, c.maxMessages),
      c.byType[m.kind := Pushed(c.byType[m.kind], s, MaxPerType)],
      if isLog then Pushed(c.logBuffer, s, MaxLogBuffer) else c.logBuffer,
      if isLog then c.logIdCounter + 1 else c.logIdCounter)
  }

  /** Posts `ms` one after the other. */
  function AddAll(c: Collector, ms: seq<SimMessage>): (r: Collector)
    requires Inv(c)
    ensures Inv(r)
    decreases |ms|
  {
    if ms == [] then c else AddAll(Add(c, ms[0]), ms[1..])
  }

  /** Posting two batches in turn is posting their concatenation. */
  lemma {:induction false} AddAllConcat(c: Collector, a: seq<SimMessage>, b: seq<SimMessage>)
    requires Inv(c)
    ensures AddAll(c, a + b) == AddAll(AddAll(c, a), b)
    decreases |a|
  {
    if a == [] {
      assert a + b == b;
    } else {
      assert (a + b)[0] == a[0];
      assert (a + b)[1..] == a[1..] + b;
      AddAllConcat(Add(c, a[0]), a[1..], b);
    }
  }

  /** Posting one more message after a batch. */
  lemma AddAllSnoc(c: Collector, ms: seq<SimMessage>, m: SimMessage)
    requires Inv(c)
    ensures AddAll(c, ms + [m]) == Add(AddAll(c, ms), m)
  {
    AddAllConcat(c, ms, [m]);
    assert [m][1..] == [];
  }

  /**
   * `add_message` gives an id only to a log message, and it is the counter
   * plus one; the counter grows by exactly one per log message and not at
   * all otherwise; the new log message becomes the newest entry of the log
   * buffer, and the newest entry of the all-messages buffer (when that has
   * room for any) and of its type's buffer.
   */
  lemma AddNumbersLogs(c: Collector, m: SimMessage)
    requires Inv(c)
    ensures var r := Add(c, m);
      && (m.kind == LogMessage ==> r.logIdCounter == c.logIdCounter + 1)
      && (m.kind != LogMessage ==> r.logIdCounter == c.logIdCounter && r.logBuffer == c.logBuffer)
      && var s := (if m.kind == LogMessage then m.(logId := c.logIdCounter + 1) else m);
      && r.byType[m.kind][|r.byType[m.kind]| - 1] == s
      && (c.maxMessages > 0 ==> r.messages[|r.messages| - 1] == s)
      && (m.kind == LogMessage ==> r.logBuffer[|r.logBuffer| - 1] == s && s.logId == r.logIdCounter)
      && (forall t :: t != m.kind ==> r.byType[t] == c.byType[t])
  {
  }

  /** Only log messages ever reach the log buffer, and their ids are distinct. */
  lemma LogIdsDistinct(c: Collector, i: int, j: int)
    requires Inv(c)
    requires 0 <= i < |c.logBuffer| && 0 <= j < |c.logBuffer| && i != j
    ensures c.logBuffer[i].logId != c.logBuffer[j].logId
  {
  }

  /** The buffer `get_messages` and `get_messages_since` read. */
  function Source(c: Collector, kind: Option<MessageType>): seq<SimMessage>
    requires Inv(c)
  {
    if kind.Some? then c.byType[kind.value] else c.messages
  }

  /** Messages strictly newer than `since`, in buffer order. */
  function NewerThan(q: seq<SimMessage>, since: int): (r: seq<SimMessage>)
    ensures |r| <= |q|
    ensures forall m :: m in r <==> m in q && m.timestamp > since
    decreases |q|
  {
    if q == [] then []
    else
      var last := q[|q| - 1];
      assert q == q[..|q| - 1] + [last];
      NewerThan(q[..|q| - 1], since) + (if last.timestamp > since then [last] else [])
  }

  /**
   * Filtering keeps buffer order and multiplicity: it distributes over
   * concatenation, and keeps a single entry exactly when it is newer.
   */
  lemma {:induction false} NewerThanConcat(a: seq<SimMessage>, b: seq<SimMessage>, since: int)
    ensures NewerThan(a + b, since) == NewerThan(a, since) + NewerThan(b, since)
    ensures forall m :: NewerThan([m], since) == if m.timestamp > since then [m] else []
    decreases |b|
  {
    forall m ensures NewerThan([m], since) == if m.timestamp > since then [m] else [] {
      NewerThanSnoc([], m, since);
      assert [] + [m] == [m];
    }
    if b == [] {
      assert a + b == a;
    } else {
      var init, last := b[..|b| - 1], b[|b| - 1];
      assert b == init + [last];
      ConcatAssoc(a, init, [last]);
      NewerThanSnoc(a + init, last, since);
      NewerThanSnoc(init, last, since);
      NewerThanConcat(a, init, since);
      ConcatAssoc(NewerThan(a, since), NewerThan(init, since),
                  if last.timestamp > since then [last] else []);
    }
  }

  /** Filtering a buffer with one more entry at the end. */
  lemma NewerThanSnoc(q: seq<SimMessage>, m: SimMessage, since: int)
    ensures NewerThan(q + [m], since) == NewerThan(q, since) + (if m.timestamp > since then [m] else [])
  {
    assert (q + [m])[..|q|] == q;
  }

  /** The log entries `get_incremental_logs` may return. */
  predicate Eligible(m: SimMessage, lastId: int, filter: int) {
    m.logId > lastId && LevelRank(LevelOf(m)) >= filter
  }

  /**
   * `get_incremental_logs`'s result: scanning the log buffer from the oldest
   * entry, eligible entries are taken until the result holds `maxCount` of
   * them; the count is tested only after an entry is taken, so at least one
   * eligible entry is returned when any exists, whatever `maxCount` is.
   */
  function IncrementalLogs(buf: seq<SimMessage>, lastId: int, filter: int, maxCount: int)
    : (r: seq<SimMessage>)
    ensures |r| <= |buf|
    ensures |r| <= Max(maxCount, 1)
    decreases |buf|
  {
    if buf == [] then []
    else if Eligible(buf[0], lastId, filter) then
      if maxCount <= 1 then [buf[0]]
      else [buf[0]] + IncrementalLogs(buf[1..], lastId, filter, maxCount - 1)
    else IncrementalLogs(buf[1..], lastId, filter, maxCount)
  }

  /** Everything returned comes from the buffer and is eligible. */
  lemma {:induction false} IncrementalMembers(
    buf: seq<SimMessage>, lastId: int, filter: int, maxCount: int)
    ensures forall m :: m in IncrementalLogs(buf, lastId, filter, maxCount) ==>
      m in buf && Eligible(m, lastId, filter)
    decreases |buf|
  {
    if buf != [] {
      IncrementalMembers(buf[1..], lastId, filter, maxCount);
      IncrementalMembers(buf[1..], lastId, filter, maxCount - 1);
    }
  }

  /** The eligible entries of a buffer, in order. */
  function EligibleOf(buf: seq<SimMessage>, lastId: int, filter: int): seq<SimMessage>
    decreases |buf|
  {
    if buf == [] then []
    else (if Eligible(buf[0], lastId, filter) then [buf[0]] else [])
         + EligibleOf(buf[1..], lastId, filter)
  }

  /**
   * The incremental result is exactly the first `max(maxCount, 1)` eligible
   * entries: nothing eligible is skipped before the cut.
   */
  lemma {:induction false} IncrementalIsPrefixOfEligible(
    buf: seq<SimMessage>, lastId: int, filter: int, maxCount: int)
    ensures var e := EligibleOf(buf, lastId, filter);
      IncrementalLogs(buf, lastId, filter, maxCount) == e[..Min(Max(maxCount, 1), |e|)]
    decreases |buf|
  {
    if buf != [] {
      var e := EligibleOf(buf, lastId, filter);
      var e' := EligibleOf(buf[1..], lastId, filter);
      if Eligible(buf[0], lastId, filter) {
        assert e == [buf[0]] + e';
        if maxCount > 1 {
          IncrementalIsPrefixOfEligible(buf[1..], lastId, filter, maxCount - 1);
        }
      } else {
        assert e == e';
        IncrementalIsPrefixOfEligible(buf[1..], lastId, filter, maxCount);
      }
    }
  }

  /** The `new_last_id` accumulated over a result: the largest of `lastId` and its ids. */
  function MaxId(lastId: int, r: seq<SimMessage>): (n: int)
    ensures n >= lastId
    decreases |r|
  {
    if r == [] then lastId
    else Max(MaxId(lastId, r[..|r| - 1]), r[|r| - 1].logId)
  }

  lemma MaxIdSnoc(lastId: int, r: seq<SimMessage>, m: SimMessage)
    ensures MaxId(lastId, r + [m]) == Max(MaxId(lastId, r), m.logId)
  {
    assert (r + [m])[..|r|] == r;
  }

  /** Over increasing ids the accumulated id is that of the last entry, when it is larger. */
  lemma {:induction false} MaxIdOfIncreasing(lastId: int, r: seq<SimMessage>)
    requires IdsIncreasing(r) && r != []
    ensures MaxId(lastId, r) == Max(lastId, r[|r| - 1].logId)
    decreases |r|
  {
    var p := r[..|r| - 1];
    if p != [] {
      assert IdsIncreasing(p);
      MaxIdOfIncreasing(lastId, p);
      assert p[|p| - 1] == r[|r| - 2];
    }
  }

  /** A subsequence of a buffer keeps its order of ids. */
  lemma {:induction false} IncrementalIdsIncrease(
    buf: seq<SimMessage>, lastId: int, filter: int, maxCount: int)
    requires IdsIncreasing(buf)
    ensures IdsIncreasing(IncrementalLogs(buf, lastId, filter, maxCount))
    decreases |buf|
  {
    if buf != [] {
      assert IdsIncreasing(buf[1..]);
      IncrementalIdsIncrease(buf[1..], lastId, filter, maxCount - 1);
      IncrementalIdsIncrease(buf[1..], lastId, filter, maxCount);
      var r := IncrementalLogs(buf, lastId, filter, maxCount);
      if Eligible(buf[0], lastId, filter) && maxCount > 1 {
        var rest := IncrementalLogs(buf[1..], lastId, filter, maxCount - 1);
        IncrementalMembers(buf[1..], lastId, filter, maxCount - 1);
        forall j | 0 <= j < |rest| ensures buf[0].logId < rest[j].logId {
          assert rest[j] in buf[1..];
        }
      }
    }
  }

  /**
   * The id returned with the logs: `lastId` when nothing is returned; on a
   * buffer with increasing ids, otherwise the id of the last entry returned,
   * which is greater than `lastId`.
   */
  lemma NewLastId(buf: seq<SimMessage>, lastId: int, filter: int, maxCount: int)
    requires IdsIncreasing(buf)
    ensures var r := IncrementalLogs(buf, lastId, filter, maxCount);
      && (r == [] ==> MaxId(lastId, r) == lastId)
      && (r != [] ==> MaxId(lastId, r) == r[|r| - 1].logId > lastId)
  {
    var r := IncrementalLogs(buf, lastId, filter, maxCount);
    if r != [] {
      IncrementalIdsIncrease(buf, lastId, filter, maxCount);
      IncrementalMembers(buf, lastId, filter, maxCount);
      assert r[|r| - 1] in r;
      MaxIdOfIncreasing(lastId, r);
    }
  }

  /**
   * With a positive `maxCount` the result never exceeds it; with
   * `maxCount <= 0` it is one entry, the first eligible one, whenever any
   * entry is eligible.
   */
  lemma IncrementalCount(buf: seq<SimMessage>, lastId: int, filter: int, maxCount: int)
    ensures var r := IncrementalLogs(buf, lastId, filter, maxCount);
      && (maxCount >= 1 ==> |r| <= maxCount)
      && (maxCount <= 0 ==> |r| == Min(1, |EligibleOf(buf, lastId, filter)|))
  {
    IncrementalIsPrefixOfEligible(buf, lastId, filter, maxCount);
  }

  /**
   * The remainder of `q` after the maximal prefix of entries older than
   * `before`: the head, if any, is not older and the rest is untouched.
   */
  function DropOlder(q: seq<SimMessage>, before: int): (r: seq<SimMessage>)
    ensures |r| <= |q|
    ensures r == [] || r[0].timestamp >= before
    decreases |q|
  {
    if q != [] && q[0].timestamp < before then DropOlder(q[1..], before) else q
  }

  /** What is dropped is a prefix, and all of it is older than `before`. */
  lemma {:induction false} DropOlderIsSuffix(q: seq<SimMessage>, before: int)
    ensures var r := DropOlder(q, before);
      && r == q[|q| - |r|..]
      && forall i :: 0 <= i < |q| - |r| ==> q[i].timestamp < before
    decreases |q|
  {
    if q != [] && q[0].timestamp < before {
      DropOlderIsSuffix(q[1..], before);
    }
  }

  /** Dropping a prefix keeps every property the invariant states entry by entry. */
  lemma DropOlderKeeps(q: seq<SimMessage>, before: int, t: MessageType, counter: int)
    ensures AllOfKind(q, t) ==> AllOfKind(DropOlder(q, before), t)
    ensures LogsNumbered(q, counter) ==> LogsNumbered(DropOlder(q, before), counter)
    ensures IdsIncreasing(q) ==> IdsIncreasing(DropOlder(q, before))
  {
    var r := DropOlder(q, before);
    var k := |q| - |r|;
    DropOlderIsSuffix(q, before);
    assert forall i :: 0 <= i < |r| ==> r[i] == q[k + i];
    if IdsIncreasing(q) {
      forall i, j | 0 <= i < j < |r| ensures r[i].logId < r[j].logId {
        assert r[i] == q[k + i] && r[j] == q[k + j];
      }
    }
  }

  /** `clear_old_messages`: every buffer loses its prefix of entries older than `before`. */
  function ClearOld(c: Collector, before: int): (r: Collector)
    requires Inv(c)
    ensures Inv(r)
  {
    var byType := map t | t in c.byType :: DropOlder(c.byType[t], before);
    assert forall t :: t in byType ==> |byType[t]| <= MaxPerType && AllOfKind(byType[t], t) by {
      forall t | t in byType ensures |byType[t]| <= MaxPerType && AllOfKind(byType[t], t) {
        DropOlderKeeps(c.byType[t], before, t, 0);
      }
    }
    DropOlderKeeps(c.logBuffer, before, LogMessage, c.logIdCounter);
    c.(messages := DropOlder(c.messages, before),
       byType := byType,
       logBuffer := DropOlder(c.logBuffer, before))
  }

  /** Clearing twice with the same bound removes nothing more. */
  lemma {:induction false} DropOlderIdempotent(q: seq<SimMessage>, before: int)
    ensures DropOlder(DropOlder(q, before), before) == DropOlder(q, before)
    decreases |q|
  {
    if q != [] && q[0].timestamp < before {
      DropOlderIdempotent(q[1..], before);
    }
  }

  /**
   * The deque `popleft` loop of `clear_old_messages` for one buffer.
   */
  method PopOlder(q: seq<SimMessage>, before: int) returns (r: seq<SimMessage>)
    ensures r == DropOlder(q, before)
  {
    r := q;
    while r != [] && r[0].timestamp < before
      invariant DropOlder(r, before) == DropOlder(q, before)
      decreases |r|
    {
      r := r[1..];
    }
  }

  /**
   * What the incremental scan has established after looking at the first `i`
   * entries: `result` is what it has taken, and the rest of the answer is the
   * answer for the remaining entries with the remaining room.
   */
  predicate ScanInv(buf: seq<SimMessage>, i: int, lastId: int, filter: int, maxCount: int,
                    result: seq<SimMessage>)
  {
    && 0 <= i <= |buf|
    && (result == [] || |result| < maxCount)
    && IncrementalLogs(buf, lastId, filter, maxCount)
       == result + IncrementalLogs(buf[i..], lastId, filter, maxCount - |result|)
  }

  /** One step of the scan: a skipped entry, a taken entry that fills the page, or one that does not. */
  lemma IncrementalStep(
    buf: seq<SimMessage>, i: int, lastId: int, filter: int, maxCount: int, result: seq<SimMessage>)
    requires i < |buf| && ScanInv(buf, i, lastId, filter, maxCount, result)
    ensures var taken := result + [buf[i]];
      && (!Eligible(buf[i], lastId, filter) ==> ScanInv(buf, i + 1, lastId, filter, maxCount, result))
      && (Eligible(buf[i], lastId, filter) && |taken| >= maxCount ==>
            IncrementalLogs(buf, lastId, filter, maxCount) == taken)
      && (Eligible(buf[i], lastId, filter) && |taken| < maxCount ==>
            ScanInv(buf, i + 1, lastId, filter, maxCount, taken))
  {
    assert buf[i..][0] == buf[i] && buf[i..][1..] == buf[i + 1..];
    if Eligible(buf[i], lastId, filter) {
      var later := IncrementalLogs(buf[i + 1..], lastId, filter, maxCount - |result| - 1);
      ConcatAssoc(result, [buf[i]], later);
    }
  }

  /** The scan's invariant at the end of the buffer: nothing is left to take. */
  lemma ScanDone(buf: seq<SimMessage>, lastId: int, filter: int, maxCount: int, result: seq<SimMessage>)
    requires ScanInv(buf, |buf|, lastId, filter, maxCount, result)
    ensures IncrementalLogs(buf, lastId, filter, maxCount) == result
  {
    assert buf[|buf|..] == [];
    assert result + [] == result;
  }

    /** Concatenation regrouped; stated once so proofs need not rediscover it. */
  lemma ConcatAssoc<T>(x: seq<T>, y: seq<T>, z: seq<T>)
    ensures x + (y + z) == (x + y) + z
  {
  }

  /** The middle loop of `clear_old_messages`: every per-type buffer in turn. */
  method PopOlderEach(byType: map<MessageType, seq<SimMessage>>, before: int)
    returns (r: map<MessageType, seq<SimMessage>>)
    ensures r == map t | t in byType :: DropOlder(byType[t], before)
  {
    r := byType;
    var todo := byType.Keys;
    while todo != {}
      invariant todo <= r.Keys && r.Keys == byType.Keys
      invariant forall t :: t in r ==>
        r[t] == if t in todo then byType[t] else DropOlder(byType[t], before)
      decreases todo
    {
      var t :| t in todo;
      var q := PopOlder(r[t], before);
      r := r[t := q];
      todo := todo - {t};
    }
  }

  /** The scanning loop of `get_incremental_logs`, which stops as soon as the page is full. */
  method ScanIncremental(buf: seq<SimMessage>, lastId: int, filter: int, maxCount: int)
    returns (result: seq<SimMessage>, newLastId: int)
    ensures result == IncrementalLogs(buf, lastId, filter, maxCount)
    ensures newLastId == MaxId(lastId, result)
  {
    result := [];
    newLastId := lastId;
    var i := 0;
    assert buf[0..] == buf;
    while i < |buf|
      invariant ScanInv(buf, i, lastId, filter, maxCount, result)
      invariant newLastId == MaxId(lastId, result)
    {
      var full;
      result, newLastId, full := ScanEntry(buf, i, lastId, filter, maxCount, result, newLastId);
      if full {
        return;
      }
      i := i + 1;
    }
    ScanDone(buf, lastId, filter, maxCount, result);
  }

  /**
   * One pass of that loop over entry `i`: the entry is appended when it is
   * eligible, the highest id is carried along, and `full` says the page is full.
   */
  method ScanEntry(buf: seq<SimMessage>, i: int, lastId: int, filter: int, maxCount: int,
                   result: seq<SimMessage>, newLastId: int)
    returns (result': seq<SimMessage>, newLastId': int, full: bool)
    requires i < |buf| && ScanInv(buf, i, lastId, filter, maxCount, result)
    requires newLastId == MaxId(lastId, result)
    ensures newLastId' == MaxId(lastId, result')
    ensures full ==> result' == IncrementalLogs(buf, lastId, filter, maxCount)
    ensures !full ==> ScanInv(buf, i + 1, lastId, filter, maxCount, result')
  {
    var msg := buf[i];
    IncrementalStep(buf, i, lastId, filter, maxCount, result);
    if Eligible(msg, lastId, filter) {
      MaxIdSnoc(lastId, result, msg);
      result' := result + [msg];
      newLastId' := Max(newLastId, msg.logId);
      full := |result'| >= maxCount;
    } else {
      result', newLastId', full := result, newLastId, false;
    }
  }

  /** The scanning loop of `get_messages_since`. */
  method ScanNewer(q: seq<SimMessage>, since: int) returns (result: seq<SimMessage>)
    ensures result == NewerThan(q, since)
  {
    result := [];
    var i := 0;
    while i < |q|
      invariant 0 <= i <= |q|
      invariant result == NewerThan(q[..i], since)
    {
      assert q[..i + 1][..i] == q[..i];
      if q[i].timestamp > since {
        result := result + [q[i]];
      }
      i := i + 1;
    }
    assert q[..|q|] == q;
  }

  class MessageCollector {
    const maxMessages: nat
    var messages: seq<SimMessage>
    var byType: map<MessageType, seq<SimMessage>>
    var logBuffer: seq<SimMessage>
    var logIdCounter: int

    /** The collector's state as a value. */
    function Model(): Collector
      reads this
    {
      Collector(maxMessages, messages, byType, logBuffer, logIdCounter)
    }

    ghost predicate Valid()
      reads this
    {
      Inv(Model())
    }

    constructor (maxMessages: nat)
      ensures Valid() && Model() == Initial(maxMessages)
    {
      var c := Initial(maxMessages);
      this.maxMessages := maxMessages;
      messages, byType, logBuffer, logIdCounter := c.messages, c.byType, c.logBuffer, 0;
    }

    /** `add_message`: appends to the buffers, numbering a log message. */
    method AddMessage(m: SimMessage)
      requires Valid()
      modifies this
      ensures Model() == Add(old(Model()), m)
    {
      ghost var c := Model();
      assert m.kind in byType && |byType[m.kind]| <= MaxPerType;
      var counter := logIdCounter;
      var stored := m;
      if m.kind == LogMessage {
        counter := counter + 1;
        stored := m.(logId := counter);
      }
      assert stored == Stamp(m, c.logIdCounter);
      var logs := logBuffer;
      if m.kind == LogMessage {
        logs := Pushed(logs, stored, MaxLogBuffer);
      }
      var typed := Pushed(byType[m.kind], stored, MaxPerType);
      messages, byType, logBuffer, logIdCounter :=
        Pushed(messages, stored, maxMessages), byType[m.kind := typed], logs, counter;
    }

    /** Posts several messages in order. */
    method AddMessages(ms: seq<SimMessage>)
      requires Valid()
      modifies this
      ensures Valid() && Model() == AddAll(old(Model()), ms)
    {
      var i := 0;
      while i < |ms|
        invariant 0 <= i <= |ms|
        invariant Valid()
        invariant AddAll(old(Model()), ms) == AddAll(Model(), ms[i..])
      {
        assert ms[i..][1..] == ms[i + 1..];
        AddMessage(ms[i]);
        i := i + 1;
      }
    }

    /**
     * `get_messages`: the slice `[-count:]` of the chosen buffer, which is
     * the newest `count` entries for a positive count, the whole buffer for
     * 0, and the buffer without its first `-count` entries for a negative one.
     */
    function GetMessages(kind: Option<MessageType>, count: int): (r: seq<SimMessage>)
      reads this
      requires Valid()
      ensures var src := Source(Model(), kind);
        && |r| <= |src| && r == src[|src| - |r|..]
        && (count > 0 ==> |r| == Min(count, |src|))
        && (count == 0 ==> r == src)
        && (count < 0 ==> |r| == Max(0, |src| + count))
    {
      var src := Source(Model(), kind);
      var start := -count;
      var from := if start < 0 then Max(0, |src| + start) else Min(start, |src|);
      src[from..]
    }

    /** `get_messages_since`: the entries of the chosen buffer newer than `since`. */
    method GetMessagesSince(since: int, kind: Option<MessageType>) returns (r: seq<SimMessage>)
      requires Valid()
      ensures r == NewerThan(Source(Model(), kind), since)
    {
      var src := if kind.Some? then byType[kind.value] else messages;
      r := ScanNewer(src, since);
    }

    /**
     * `get_incremental_logs`: eligible log entries after `lastId`, and the
     * id to resume from.
     */
    method GetIncrementalLogs(lastId: int, levelFilter: string, maxCount: int)
      returns (r: seq<SimMessage>, newLastId: int)
      requires Valid()
      ensures r == IncrementalLogs(logBuffer, lastId, LevelRank(levelFilter), maxCount)
      ensures newLastId == MaxId(lastId, r)
      ensures r == [] ==> newLastId == lastId
      ensures r != [] ==> newLastId == r[|r| - 1].logId > lastId
    {
      r, newLastId := ScanIncremental(logBuffer, lastId, LevelRank(levelFilter), maxCount);
      NewLastId(logBuffer, lastId, LevelRank(levelFilter), maxCount);
    }

    /** `clear_old_messages`: the three `popleft` loops. */
    method ClearOldMessages(before: int)
      requires Valid()
      modifies this
      ensures Valid() && Model() == ClearOld(old(Model()), before)
    {
      ghost var cleared := ClearOld(Model(), before);
      messages := PopOlder(messages, before);
      byType := PopOlderEach(byType, before);
      logBuffer := PopOlder(logBuffer, before);
      assert Model() == cleared;
    }
  }
}
