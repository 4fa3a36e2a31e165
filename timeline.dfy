/**
 * The activity timeline logger: every start and end of an activity becomes a
 * record, and per activity name it keeps an execution count, the total
 * duration and the list of executions, from which the summary report is
 * built.
 *
 * `StatsOf` computes the statistics from the records, as a value; the class
 * `TimelineLogger` keeps both in fields and updates them in place, and its
 * invariant is that the statistics it keeps are the ones `StatsOf` gives.
 * The statistics are an association list in insertion order, as the
 * logger's dictionary is.
 */
module Timeline {
  import opened Wrappers

  /** A timeline record; `clock` is the wall-clock time it was written. */
  datatype Record =
    | Start(activityName: string, entityName: string, entityId: string, simTime: real, clock: int)
    | End(activityName: string, entityName: string, entityId: string, simTime: real,
          startSimTime: real, duration: real, clock: int, result: Option<string>)

  datatype Execution = Execution(entity: string, duration: real, simTime: real)

  /** The statistics of one activity name. */
  datatype StatEntry = StatEntry(name: string, count: nat, totalDuration: real,
                                 executions: seq<Execution>)

  /** Position of `name` among the statistics, if it has an entry. */
  function Find(stats: seq<StatEntry>, name: string): (r: Option<nat>)
    ensures r.Some? ==> r.value < |stats| && stats[r.value].name == name
    ensures r.None? <==> forall i :: 0 <= i < |stats| ==> stats[i].name != name
    decreases |stats|
  {
    if stats == [] then None
    else if stats[0].name == name then Some(0)
    else
      var r := Find(stats[1..], name);
      if r.Some? then Some(r.value + 1)
      else
        assert forall i :: 1 <= i < |stats| ==> stats[i] == stats[1..][i - 1];
        None
  }

  /** `log_activity_start`'s update: a new name gets an empty entry at the end. */
  function AfterStart(stats: seq<StatEntry>, name: string): seq<StatEntry> {
    if Find(stats, name).Some? then stats else stats + [StatEntry(name, 0, 0.0, [])]
  }

  /** `log_activity_end`'s update: only a name that already has an entry is counted. */
  function AfterEnd(stats: seq<StatEntry>, name: string, entity: string, duration: real,
                    simTime: real): seq<StatEntry>
  {
    match Find(stats, name)
    case None => stats
    case Some(i) =>
      var e := stats[i];
      stats[i := e.(count := e.count + 1, totalDuration := e.totalDuration + duration,
                    executions := e.executions + [Execution(entity, duration, simTime)])]
  }

  function AfterRecord(stats: seq<StatEntry>, r: Record): seq<StatEntry> {
    match r
    case Start(name, _, _, _, _) => AfterStart(stats, name)
    case End(name, entity, _, simTime, _, duration, _, _) =>
      AfterEnd(stats, name, entity, duration, simTime)
  }

  /** The statistics the logger holds after writing `records` in order. */
  function StatsOf(records: seq<Record>): seq<StatEntry>
    decreases |records|
  {
    if records == [] then []
    else AfterRecord(StatsOf(records[..|records| - 1]), records[|records| - 1])
  }

  lemma StatsOfSnoc(records: seq<Record>, r: Record)
    ensures StatsOf(records + [r]) == AfterRecord(StatsOf(records), r)
  {
    assert (records + [r])[..|records|] == records;
  }

  predicate NamesDistinct(stats: seq<StatEntry>) {
    forall i, j :: 0 <= i < j < |stats| ==> stats[i].name != stats[j].name
  }

  function SumDurations(xs: seq<Execution>): real
    decreases |xs|
  {
    if xs == [] then 0.0 else SumDurations(xs[..|xs| - 1]) + xs[|xs| - 1].duration
  }

  /** An entry's count is its number of executions and its total their summed durations. */
  predicate Consistent(e: StatEntry) {
    e.count == |e.executions| && e.totalDuration == SumDurations(e.executions)
  }

  predicate AllConsistent(stats: seq<StatEntry>) {
    forall i :: 0 <= i < |stats| ==> Consistent(stats[i])
  }

  lemma {:induction false} AfterRecordKeeps(stats: seq<StatEntry>, r: Record)
    requires NamesDistinct(stats) && AllConsistent(stats)
    ensures NamesDistinct(AfterRecord(stats, r)) && AllConsistent(AfterRecord(stats, r))
  {
    match r
    case Start(name, _, _, _, _) =>
    case End(name, entity, _, simTime, _, duration, _, _) =>
      var f := Find(stats, name);
      if f.Some? {
        var e := stats[f.value];
        var xs := e.executions + [Execution(entity, duration, simTime)];
        assert xs[..|xs| - 1] == e.executions;
      }
  }

  /**
   * Whatever was written, every name has one entry, and every entry's count
   * and total agree with its list of executions.
   */
  lemma {:induction false} StatsWellFormed(records: seq<Record>)
    ensures NamesDistinct(StatsOf(records)) && AllConsistent(StatsOf(records))
    decreases |records|
  {
    if records != [] {
      StatsWellFormed(records[..|records| - 1]);
      AfterRecordKeeps(StatsOf(records[..|records| - 1]), records[|records| - 1]);
    }
  }

  /** Some record of `records` starts the activity `name`. */
  predicate HasStart(records: seq<Record>, name: string) {
    exists i :: 0 <= i < |records| && records[i].Start? && records[i].activityName == name
  }

  lemma HasStartSnoc(records: seq<Record>, r: Record, name: string)
    ensures HasStart(records + [r], name) <==>
      HasStart(records, name) || (r.Start? && r.activityName == name)
  {
    var rs := records + [r];
    if HasStart(records, name) {
      var i :| 0 <= i < |records| && records[i].Start? && records[i].activityName == name;
      assert rs[i] == records[i];
    }
    if r.Start? && r.activityName == name {
      assert rs[|records|] == r;
    }
    if HasStart(rs, name) {
      var i :| 0 <= i < |rs| && rs[i].Start? && rs[i].activityName == name;
      if i < |records| {
        assert rs[i] == records[i];
      }
    }
  }

  lemma FindAfterRecord(stats: seq<StatEntry>, r: Record, name: string)
    ensures Find(AfterRecord(stats, r), name).Some? <==>
      Find(stats, name).Some? || (r.Start? && r.activityName == name)
  {
    var after := AfterRecord(stats, r);
    if r.Start? && Find(stats, r.activityName).None? {
      assert after[|stats|].name == r.activityName;
      assert forall i :: 0 <= i < |stats| ==> after[i] == stats[i];
    } else if r.End? && Find(stats, r.activityName).Some? {
      assert forall i :: 0 <= i < |stats| ==> after[i].name == stats[i].name;
    }
  }

  /** A name has statistics exactly when a start of that activity has been written. */
  lemma {:induction false} StatsNames(records: seq<Record>, name: string)
    ensures Find(StatsOf(records), name).Some? <==> HasStart(records, name)
    decreases |records|
  {
    if records != [] {
      var init := records[..|records| - 1];
      var r := records[|records| - 1];
      assert records == init + [r];
      StatsNames(init, name);
      HasStartSnoc(init, r, name);
      FindAfterRecord(StatsOf(init), r, name);
    }
  }

  /** Every end record follows a start record of the same activity. */
  predicate Bracketed(records: seq<Record>) {
    forall j :: 0 <= j < |records| && records[j].End? ==>
      HasStart(records[..j], records[j].activityName)
  }

  /** Writing a start keeps every end preceded by its start. */
  lemma BracketedStart(records: seq<Record>, r: Record)
    requires Bracketed(records) && r.Start?
    ensures Bracketed(records + [r])
  {
    var rs := records + [r];
    forall j | 0 <= j < |rs| && rs[j].End? ensures HasStart(rs[..j], rs[j].activityName) {
      assert rs[..j] == records[..j];
    }
  }

  /** Writing the end of an activity that has started keeps every end preceded by its start. */
  lemma BracketedEnd(records: seq<Record>, r: Record)
    requires Bracketed(records) && r.End? && HasStart(records, r.activityName)
    ensures Bracketed(records + [r])
  {
    var rs := records + [r];
    forall j | 0 <= j < |rs| && rs[j].End? ensures HasStart(rs[..j], rs[j].activityName) {
      if j < |records| {
        assert rs[..j] == records[..j];
      } else {
        assert rs[..j] == records;
      }
    }
  }

  function CountEnds(records: seq<Record>): nat
    decreases |records|
  {
    if records == [] then 0
    else CountEnds(records[..|records| - 1]) + (if records[|records| - 1].End? then 1 else 0)
  }

  function TotalCount(stats: seq<StatEntry>): nat
    decreases |stats|
  {
    if stats == [] then 0 else stats[0].count + TotalCount(stats[1..])
  }

  lemma {:induction false} TotalCountAppend(stats: seq<StatEntry>, e: StatEntry)
    ensures TotalCount(stats + [e]) == TotalCount(stats) + e.count
    decreases |stats|
  {
    if stats != [] {
      assert (stats + [e])[1..] == stats[1..] + [e];
      TotalCountAppend(stats[1..], e);
    }
  }

  lemma {:induction false} TotalCountUpdate(stats: seq<StatEntry>, i: nat, e: StatEntry)
    requires i < |stats|
    ensures TotalCount(stats[i := e]) == TotalCount(stats) - stats[i].count + e.count
    decreases i
  {
    if i > 0 {
      assert stats[i := e][1..] == stats[1..][i - 1 := e];
      TotalCountUpdate(stats[1..], i - 1, e);
    }
  }

  /**
   * When every end follows a start of its activity, the executions counted
   * over all names are exactly the end records written.
   */
  lemma {:induction false} EndsCounted(records: seq<Record>)
    requires Bracketed(records)
    ensures TotalCount(StatsOf(records)) == CountEnds(records)
    decreases |records|
  {
    if records != [] {
      var init := records[..|records| - 1];
      var r := records[|records| - 1];
      assert Bracketed(init) by {
        forall j | 0 <= j < |init| && init[j].End? ensures HasStart(init[..j], init[j].activityName) {
          assert init[..j] == records[..j] && init[j] == records[j];
        }
      }
      EndsCounted(init);
      var stats := StatsOf(init);
      if r.Start? {
        if Find(stats, r.activityName).None? {
          TotalCountAppend(stats, StatEntry(r.activityName, 0, 0.0, []));
        }
      } else {
        assert records[..|records| - 1] == init;
        StatsNames(init, r.activityName);
        var i := Find(stats, r.activityName).value;
        var e := stats[i];
        TotalCountUpdate(stats, i, e.(count := e.count + 1, totalDuration := e.totalDuration + r.duration,
          executions := e.executions + [Execution(r.entityName, r.duration, r.simTime)]));
      }
    }
  }

  /** One activity's part of the summary report. */
  datatype Detail = Detail(name: string, executionCount: nat, totalDuration: real,
                           averageDuration: real, executions: seq<Execution>)

  datatype Summary = Summary(totalActivities: nat, totalExecutions: nat, details: seq<Detail>)

  /** At most this many executions of each activity are listed in the summary. */
  const ListedExecutions: nat := 10

  function DetailOf(e: StatEntry): Detail {
    var average := if e.count > 0 then e.totalDuration / (e.count as real) else 0.0;
    var listed := if |e.executions| <= ListedExecutions then |e.executions| else ListedExecutions;
    Detail(e.name, e.count, e.totalDuration, average, e.executions[..listed])
  }

  /** `generate_summary_report`'s content. */
  function SummaryOf(stats: seq<StatEntry>): Summary {
    Summary(|stats|, TotalCount(stats), seq(|stats|, i requires 0 <= i < |stats| => DetailOf(stats[i])))
  }

  /**
   * One activity's detail: its average times its count gives its total (and
   * the average is 0 with no execution), and it lists the first ten executions.
   */
  lemma DetailFacts(e: StatEntry)
    requires Consistent(e)
    ensures var d := DetailOf(e);
      && d.name == e.name && d.executionCount == e.count && d.totalDuration == e.totalDuration
      && (d.executionCount == 0 ==> d.averageDuration == 0.0)
      && (d.executionCount > 0 ==> d.averageDuration * (d.executionCount as real) == d.totalDuration)
      && |d.executions| == (if d.executionCount < ListedExecutions then d.executionCount
                            else ListedExecutions)
      && d.executions == e.executions[..|d.executions|]
  {
  }

  /**
   * The summary of a timeline in which every end follows its start: one
   * detail per activity name, in the order of first start, and as many
   * executions in total as end records.
   */
  lemma SummaryFacts(records: seq<Record>)
    requires Bracketed(records)
    ensures var stats := StatsOf(records);
      var s := SummaryOf(stats);
      && s.totalExecutions == CountEnds(records)
      && s.totalActivities == |stats| && |s.details| == |stats|
      && (forall i :: 0 <= i < |stats| ==> s.details[i] == DetailOf(stats[i]))
      && (forall i :: 0 <= i < |stats| ==> Consistent(stats[i]))
      && NamesDistinct(stats)
  {
    EndsCounted(records);
    StatsWellFormed(records);
  }

  class TimelineLogger {
    var records: seq<Record>
    var stats: seq<StatEntry>

    ghost predicate Valid()
      reads this
    {
      stats == StatsOf(records)
    }

    constructor ()
      ensures Valid() && records == []
    {
      records, stats := [], [];
    }

    /** `log_activity_start`. */
    method LogActivityStart(name: string, entityName: string, entityId: string, simTime: real,
                            clock: int)
      requires Valid()
      modifies this
      ensures Valid() && records == old(records) + [Start(name, entityName, entityId, simTime, clock)]
    {
      var record := Start(name, entityName, entityId, simTime, clock);
      StatsOfSnoc(records, record);
      records := records + [record];
      if Find(stats, name).None? {
        stats := stats + [StatEntry(name, 0, 0.0, [])];
      }
    }

    /** `log_activity_end`: the duration is the end time minus the start time. */
    method LogActivityEnd(name: string, entityName: string, entityId: string, simTime: real,
                          startSimTime: real, result: Option<string>, clock: int)
      requires Valid()
      modifies this
      ensures Valid()
      ensures records == old(records) + [End(name, entityName, entityId, simTime, startSimTime,
                                             simTime - startSimTime, clock, result)]
    {
      var duration := simTime - startSimTime;
      var record := End(name, entityName, entityId, simTime, startSimTime, duration, clock, result);
      StatsOfSnoc(records, record);
      records := records + [record];
      var found := Find(stats, name);
      if found.Some? {
        var e := stats[found.value];
        stats := stats[found.value := e.(count := e.count + 1,
                                         totalDuration := e.totalDuration + duration,
                                         executions := e.executions + [Execution(entityName, duration, simTime)])];
      }
    }

    /** The content `generate_summary_report` writes. */
    function Report(): Summary
      reads this
    {
      SummaryOf(stats)
    }
  }
}
