/**
 * The per-client log settings of the WebSocket server, without the sockets:
 *   - on connection, the query string of the path gives the push interval
 *     (clamped to [0.1, 60] seconds) and the level filter (one of the five
 *     level names, otherwise INFO); a value that does not parse as a float
 *     falls back to 1.0 second and INFO;
 *   - `set_log_config` changes the interval, the level and the number of
 *     logs per push (clamped to [10, 100]) in that order, and stops at the
 *     first value that does not parse;
 *   - `get_log_history` returns up to 200 logs from the start of the log
 *     buffer and moves the client's resume point to the last of them;
 *   - each round of the push task sends the logs after the resume point,
 *     and after five empty rounds in a row grows the interval by half, up
 *     to 5 seconds.
 * Parsing a number is a parameter of the model: `None` stands for the
 * `ValueError` Python raises.
 */
module ClientConfig {
  import opened Wrappers
  import opened PyStr
  import opened Messages

  const DefaultPushInterval: real := 1.0
  const MinPushInterval: real := 0.1
  const MaxPushInterval: real := 60.0
  /** The push interval the backoff grows towards, and the empty rounds it waits for. */
  const BackoffCeiling: real := 5.0
  const BackoffAfter: nat := 5
  const DefaultLevel: string := "INFO"
  const Levels: seq<string> := ["DEBUG", "INFO", "WARNING", "ERROR", "CRITICAL"]
  const DefaultMaxLogs: int := 30
  const MinMaxLogs: int := 10
  const MaxMaxLogs: int := 100
  const DefaultHistoryCount: int := 50
  const MaxHistoryCount: int := 200

  /** `max(0.1, min(60.0, x))`. */
  function ClampInterval(x: real): real {
    var upper := if x < MaxPushInterval then x else MaxPushInterval;
    if MinPushInterval < upper then upper else MinPushInterval
  }

  /** `max(10, min(100, n))`. */
  function ClampMaxLogs(n: int): int {
    Max(MinMaxLogs, Min(MaxMaxLogs, n))
  }

  /** The interval clamp lands in [0.1, 60], keeps values already there, and keeps order. */
  lemma ClampIntervalFacts(x: real, y: real)
    ensures MinPushInterval <= ClampInterval(x) <= MaxPushInterval
    ensures MinPushInterval <= x <= MaxPushInterval ==> ClampInterval(x) == x
    ensures x <= y ==> ClampInterval(x) <= ClampInterval(y)
    ensures ClampInterval(ClampInterval(x)) == ClampInterval(x)
  {
  }

  /** The `max_logs` clamp lands in [10, 100], keeps values already there, and keeps order. */
  lemma ClampMaxLogsFacts(n: int, m: int)
    ensures MinMaxLogs <= ClampMaxLogs(n) <= MaxMaxLogs
    ensures MinMaxLogs <= n <= MaxMaxLogs ==> ClampMaxLogs(n) == n
    ensures n <= m ==> ClampMaxLogs(n) <= ClampMaxLogs(m)
  {
  }

  /** The query string: the text between the first and the second `?` of the path. */
  function QueryString(path: string): Option<string> {
    if '?' in path then
      SplitAtSeparator(path, '?');
      Some(Split(path, '?')[1])
    else None
  }

  /** The parameters of `key=value` parts; a part without `=` is skipped, and a later key wins. */
  function ParamsOf(parts: seq<string>): map<string, string>
    decreases |parts|
  {
    if parts == [] then map[]
    else
      var params := ParamsOf(parts[..|parts| - 1]);
      var part := parts[|parts| - 1];
      if '=' in part then
        var kv := SplitOnce(part, '=');
        params[kv.0 := kv.1]
      else params
  }

  /** The parameters of a connection path. */
  function ParseQuery(path: string): map<string, string> {
    match QueryString(path)
    case None => map[]
    case Some(qs) => ParamsOf(Split(qs, '&'))
  }

  /** The loop of `handle_client` that fills the parameter dictionary. */
  method ParseQueryParams(path: string) returns (params: map<string, string>)
    ensures params == ParseQuery(path)
  {
    params := map[];
    if '?' in path {
      SplitAtSeparator(path, '?');
      var parts := Split(Split(path, '?')[1], '&');
      var i := 0;
      while i < |parts|
        invariant 0 <= i <= |parts|
        invariant params == ParamsOf(parts[..i])
      {
        assert parts[..i + 1][..i] == parts[..i];
        var part := parts[i];
        if '=' in part {
          var kv := SplitOnce(part, '=');
          params := params[kv.0 := kv.1];
        }
        i := i + 1;
      }
      assert parts[..i] == parts;
    }
  }

  /** The text of `key=value` pairs. */
  function EncodePairs(pairs: seq<(string, string)>): seq<string> {
    seq(|pairs|, i requires 0 <= i < |pairs| => pairs[i].0 + "=" + pairs[i].1)
  }

  /** The dictionary that assigning the pairs in order builds. */
  function MapOf(pairs: seq<(string, string)>): map<string, string>
    decreases |pairs|
  {
    if pairs == [] then map[]
    else MapOf(pairs[..|pairs| - 1])[pairs[|pairs| - 1].0 := pairs[|pairs| - 1].1]
  }

  /** Keys free of `=`, `&` and `?`, values free of `&` and `?`: what a query string can carry. */
  predicate Encodable(pairs: seq<(string, string)>) {
    forall i :: 0 <= i < |pairs| ==>
      && '=' !in pairs[i].0 && '&' !in pairs[i].0 && '?' !in pairs[i].0
      && '&' !in pairs[i].1 && '?' !in pairs[i].1
  }

  lemma {:induction false} ParamsOfEncoded(pairs: seq<(string, string)>)
    requires Encodable(pairs)
    ensures ParamsOf(EncodePairs(pairs)) == MapOf(pairs)
    decreases |pairs|
  {
    if pairs != [] {
      var n := |pairs| - 1;
      assert EncodePairs(pairs)[..n] == EncodePairs(pairs[..n]);
      ParamsOfEncoded(pairs[..n]);
      SplitOnceOf(pairs[n].0, pairs[n].1, '=');
      assert EncodePairs(pairs)[n] == pairs[n].0 + ['='] + pairs[n].1;
    }
  }

  /**
   * A path followed by `?` and `&`-joined `key=value` pairs parses back to
   * the dictionary of those pairs, a repeated key taking its last value.
   */
  lemma ParseQueryRoundTrip(base: string, pairs: seq<(string, string)>)
    requires '?' !in base && pairs != [] && Encodable(pairs)
    ensures ParseQuery(base + "?" + Join(EncodePairs(pairs), '&')) == MapOf(pairs)
  {
    var parts := EncodePairs(pairs);
    forall k | 0 <= k < |parts| ensures '&' !in parts[k] && '?' !in parts[k] {
      assert parts[k] == pairs[k].0 + ['='] + pairs[k].1;
    }
    var qs := Join(parts, '&');
    JoinAvoids(parts, '&', '?');
    SplitJoin([base, qs], '?');
    assert Join([base, qs], '?') == base + "?" + qs;
    SplitJoin(parts, '&');
    ParamsOfEncoded(pairs);
  }

  /** `list.get(key)` with the level whitelist: a listed level name, or the fallback. */
  function LevelOr(level: Option<string>, fallback: string): string {
    if level.Some? && level.value in Levels then level.value else fallback
  }

  /**
   * The interval and level `handle_client` settles on for a path; a
   * `log_interval` that does not parse sends both to their defaults.
   */
  function ConnectSettings(path: string, parseFloat: string -> Option<real>): (real, string) {
    var params := ParseQuery(path);
    var raw := if "log_interval" in params then parseFloat(params["log_interval"])
               else Some(DefaultPushInterval);
    if raw.None? then (DefaultPushInterval, DefaultLevel)
    else
      (ClampInterval(raw.value),
       LevelOr(if "log_level" in params then Some(params["log_level"]) else None, DefaultLevel))
  }

  /** A client's settings as they can be read back. */
  datatype Settings = Settings(interval: real, lastLogId: int, level: string, maxLogs: int)

  /** The interval in [0.1, 60], a whitelisted level, and 10 to 100 logs per push. */
  predicate InRange(s: Settings) {
    MinPushInterval <= s.interval <= MaxPushInterval && s.level in Levels
    && MinMaxLogs <= s.maxLogs <= MaxMaxLogs
  }

  /** Whatever the path, a client connects with settings in range and from the first log on. */
  lemma ConnectInRange(path: string, parseFloat: string -> Option<real>)
    ensures var (interval, level) := ConnectSettings(path, parseFloat);
      InRange(Settings(interval, 0, level, DefaultMaxLogs))
  {
  }

  /** A `set_log_config` request; each field is present or absent, numbers as their text. */
  datatype LogConfig = LogConfig(interval: Option<string>, level: Option<string>, maxLogs: Option<string>)

  /** The settings after the request, and whether it completed or raised part way. */
  datatype ConfigResult = Applied(settings: Settings) | Raised(settings: Settings)

  function ApplyConfig(s: Settings, c: LogConfig, parseFloat: string -> Option<real>,
                       parseInt: string -> Option<int>): ConfigResult
  {
    if c.interval.Some? && parseFloat(c.interval.value).None? then Raised(s)
    else
      var s1 := if c.interval.Some? then s.(interval := ClampInterval(parseFloat(c.interval.value).value))
                else s;
      var s2 := s1.(level := LevelOr(c.level, s1.level));
      if c.maxLogs.Some? && parseInt(c.maxLogs.value).None? then Raised(s2)
      else if c.maxLogs.Some? then Applied(s2.(maxLogs := ClampMaxLogs(parseInt(c.maxLogs.value).value)))
      else Applied(s2)
  }

  /**
   * A request keeps the settings in range and never moves the resume point;
   * it raises exactly when a present interval or count does not parse, and
   * a count that does not parse still leaves the interval and the level
   * applied.
   */
  lemma ApplyConfigFacts(s: Settings, c: LogConfig, parseFloat: string -> Option<real>,
                         parseInt: string -> Option<int>)
    requires InRange(s)
    ensures var r := ApplyConfig(s, c, parseFloat, parseInt);
      && InRange(r.settings) && r.settings.lastLogId == s.lastLogId
      && (r.Raised? <==> (c.interval.Some? && parseFloat(c.interval.value).None?)
                         || (c.maxLogs.Some? && parseInt(c.maxLogs.value).None?))
      && (c.interval.Some? && parseFloat(c.interval.value).Some? ==>
            r.settings.interval == ClampInterval(parseFloat(c.interval.value).value))
      && (c.level.Some? && c.level.value in Levels && !(c.interval.Some? && parseFloat(c.interval.value).None?) ==>
            r.settings.level == c.level.value)
  {
    ClampIntervalFacts(if c.interval.Some? && parseFloat(c.interval.value).Some?
                       then parseFloat(c.interval.value).value else 0.0, 0.0);
  }

  /** Sending the same request twice leaves the settings as sending it once. */
  lemma ApplyConfigIdempotent(s: Settings, c: LogConfig, parseFloat: string -> Option<real>,
                              parseInt: string -> Option<int>)
    ensures var r := ApplyConfig(s, c, parseFloat, parseInt);
      ApplyConfig(r.settings, c, parseFloat, parseInt) == r
  {
  }

  /** `min(options.get('count', 50), 200)`. */
  function HistoryCount(count: Option<int>): int {
    Min(count.GetOr(DefaultHistoryCount), MaxHistoryCount)
  }

  /** A history request returns at most 200 logs, and at most 50 when no count is given. */
  lemma HistoryBounded(buf: seq<SimMessage>, filter: int, count: Option<int>)
    ensures |IncrementalLogs(buf, 0, filter, HistoryCount(count))| <= MaxHistoryCount
    ensures count.None? ==> |IncrementalLogs(buf, 0, filter, HistoryCount(count))| <= DefaultHistoryCount
  {
  }

  /** `min(interval * 1.5, 5.0)` once `empty` rounds in a row found nothing and the interval is below 5. */
  function Backoff(interval: real, empty: nat): real {
    if empty >= BackoffAfter && interval < BackoffCeiling then
      if BackoffCeiling < interval * 1.5 then BackoffCeiling else interval * 1.5
    else interval
  }

  /** One round of the push task: the settings after it, the count of empty rounds, and the logs sent. */
  datatype PollResult = PollResult(settings: Settings, emptyRounds: nat, logs: seq<SimMessage>)

  function Poll(s: Settings, emptyRounds: nat, buf: seq<SimMessage>): PollResult {
    var logs := IncrementalLogs(buf, s.lastLogId, LevelRank(s.level), s.maxLogs);
    if logs != [] then PollResult(s.(lastLogId := MaxId(s.lastLogId, logs)), 0, logs)
    else PollResult(s.(interval := Backoff(s.interval, emptyRounds + 1)), emptyRounds + 1, [])
  }

  /**
   * A round keeps the settings in range; it sends only logs after the
   * resume point, in increasing id order, and moves the resume point to the
   * last one sent; an empty round never shortens the interval and grows it
   * only from the fifth empty round on, never beyond the larger of the old
   * interval and 5 seconds.
   */
  lemma PollFacts(s: Settings, emptyRounds: nat, buf: seq<SimMessage>)
    requires InRange(s) && IdsIncreasing(buf)
    ensures var p := Poll(s, emptyRounds, buf);
      && InRange(p.settings)
      && IdsIncreasing(p.logs)
      && (forall m :: m in p.logs ==> m in buf && s.lastLogId < m.logId <= p.settings.lastLogId)
      && (p.logs != [] ==> p.settings.lastLogId == p.logs[|p.logs| - 1].logId)
      && (p.logs == [] ==> p.settings.lastLogId == s.lastLogId)
      && s.interval <= p.settings.interval
      && (p.settings.interval <= s.interval || p.settings.interval <= BackoffCeiling)
      && (p.emptyRounds < BackoffAfter ==> p.settings.interval == s.interval)
  {
    PollSent(s, emptyRounds, buf);
    BackoffFacts(s.interval, emptyRounds + 1);
  }

  /** The logs a round sends lie after the resume point, in order, and the last one becomes the resume point. */
  lemma PollSent(s: Settings, emptyRounds: nat, buf: seq<SimMessage>)
    requires IdsIncreasing(buf)
    ensures var p := Poll(s, emptyRounds, buf);
      && IdsIncreasing(p.logs)
      && (forall m :: m in p.logs ==> m in buf && s.lastLogId < m.logId <= p.settings.lastLogId)
      && (p.logs != [] ==> p.settings.lastLogId == p.logs[|p.logs| - 1].logId)
      && (p.logs == [] ==> p.settings.lastLogId == s.lastLogId)
  {
    var logs := IncrementalLogs(buf, s.lastLogId, LevelRank(s.level), s.maxLogs);
    IncrementalMembers(buf, s.lastLogId, LevelRank(s.level), s.maxLogs);
    IncrementalIdsIncrease(buf, s.lastLogId, LevelRank(s.level), s.maxLogs);
    NewLastId(buf, s.lastLogId, LevelRank(s.level), s.maxLogs);
    if logs != [] {
      forall m | m in logs ensures m.logId <= logs[|logs| - 1].logId {
        var j :| 0 <= j < |logs| && logs[j] == m;
        if j < |logs| - 1 {
          assert IdsIncreasing(logs);
        }
      }
    }
  }

  /** The back-off never shortens an interval, acts only from the fifth empty round, and stops at 5 seconds. */
  lemma BackoffFacts(interval: real, empty: nat)
    requires MinPushInterval <= interval <= MaxPushInterval
    ensures var b := Backoff(interval, empty);
      && interval <= b <= MaxPushInterval
      && (b <= interval || b <= BackoffCeiling)
      && (empty < BackoffAfter ==> b == interval)
  {
  }

  /** Two rounds in a row never send the same log twice: every id of the second is above every id of the first. */
  lemma PollsInOrder(s: Settings, emptyRounds: nat, buf1: seq<SimMessage>, buf2: seq<SimMessage>)
    requires InRange(s) && IdsIncreasing(buf1) && IdsIncreasing(buf2)
    ensures var p1 := Poll(s, emptyRounds, buf1);
      var p2 := Poll(p1.settings, p1.emptyRounds, buf2);
      forall a, b :: a in p1.logs && b in p2.logs ==> a.logId < b.logId
  {
    var p1 := Poll(s, emptyRounds, buf1);
    PollFacts(s, emptyRounds, buf1);
    PollFacts(p1.settings, p1.emptyRounds, buf2);
  }

  /** The push task over a sequence of rounds, each reading the log buffer as it then is. */
  function PollRun(s: Settings, emptyRounds: nat, bufs: seq<seq<SimMessage>>): PollResult
    decreases |bufs|
  {
    if bufs == [] then PollResult(s, emptyRounds, [])
    else
      var p := PollRun(s, emptyRounds, bufs[..|bufs| - 1]);
      var q := Poll(p.settings, p.emptyRounds, bufs[|bufs| - 1]);
      PollResult(q.settings, q.emptyRounds, p.logs + q.logs)
  }

  /**
   * However many rounds run, the interval never shrinks, never exceeds the
   * larger of its first value and 5 seconds, and the settings stay in range.
   */
  lemma {:induction false} PollRunInterval(s: Settings, emptyRounds: nat, bufs: seq<seq<SimMessage>>)
    requires InRange(s)
    requires forall k :: 0 <= k < |bufs| ==> IdsIncreasing(bufs[k])
    ensures var p := PollRun(s, emptyRounds, bufs);
      && InRange(p.settings)
      && s.interval <= p.settings.interval
      && (p.settings.interval == s.interval || p.settings.interval <= BackoffCeiling)
    decreases |bufs|
  {
    if bufs != [] {
      PollRunInterval(s, emptyRounds, bufs[..|bufs| - 1]);
      var p := PollRun(s, emptyRounds, bufs[..|bufs| - 1]);
      PollFacts(p.settings, p.emptyRounds, bufs[|bufs| - 1]);
    }
  }

  /** The part of `ClientInfo` the model keeps: everything except the socket and the push task. */
  class ClientInfo {
    var pushInterval: real
    var lastLogId: int
    var levelFilter: string
    var maxLogsPerPush: int

    function Current(): Settings
      reads this
    {
      Settings(pushInterval, lastLogId, levelFilter, maxLogsPerPush)
    }

    /** `add_client` followed by the level assignment of `handle_client`. */
    constructor (path: string, parseFloat: string -> Option<real>)
      ensures Current() == Settings(ConnectSettings(path, parseFloat).0, 0,
                                    ConnectSettings(path, parseFloat).1, DefaultMaxLogs)
      ensures InRange(Current())
    {
      var params := ParseQueryParams(path);
      var interval := DefaultPushInterval;
      var level := DefaultLevel;
      var raw := if "log_interval" in params then parseFloat(params["log_interval"])
                 else Some(DefaultPushInterval);
      if raw.Some? {
        interval := ClampInterval(raw.value);
        if "log_level" in params && params["log_level"] in Levels {
          level := params["log_level"];
        }
      }
      pushInterval, lastLogId, levelFilter, maxLogsPerPush := interval, 0, level, DefaultMaxLogs;
      ConnectInRange(path, parseFloat);
    }

    /** `set_log_config`; returns false when a value failed to parse and the request raised. */
    method SetLogConfig(c: LogConfig, parseFloat: string -> Option<real>, parseInt: string -> Option<int>)
      returns (completed: bool)
      modifies this
      ensures Current() == ApplyConfig(old(Current()), c, parseFloat, parseInt).settings
      ensures completed <==> ApplyConfig(old(Current()), c, parseFloat, parseInt).Applied?
    {
      if c.interval.Some? {
        var interval := parseFloat(c.interval.value);
        if interval.None? {
          return false;
        }
        pushInterval := ClampInterval(interval.value);
      }
      if c.level.Some? && c.level.value in Levels {
        levelFilter := c.level.value;
      }
      if c.maxLogs.Some? {
        var maxLogs := parseInt(c.maxLogs.value);
        if maxLogs.None? {
          return false;
        }
        maxLogsPerPush := ClampMaxLogs(maxLogs.value);
      }
      completed := true;
    }

    /**
     * `get_log_history`: logs from the start of the buffer at the requested
     * level (default INFO), the resume point moved to the last one returned.
     */
    method GetLogHistory(count: Option<int>, level: Option<string>, collector: MessageCollector)
      returns (logs: seq<SimMessage>, lastId: int)
      requires collector.Valid()
      modifies this
      ensures logs == IncrementalLogs(collector.logBuffer, 0, LevelRank(level.GetOr(DefaultLevel)),
                                      HistoryCount(count))
      ensures lastId == MaxId(0, logs)
      ensures Current() == if logs != [] then old(Current()).(lastLogId := lastId) else old(Current())
    {
      logs, lastId := collector.GetIncrementalLogs(0, level.GetOr(DefaultLevel), HistoryCount(count));
      if logs != [] {
        lastLogId := lastId;
      }
    }

    /** One round of `log_push_task` after its sleep; returns the logs sent and the new count of empty rounds. */
    method PushRound(emptyRounds: nat, collector: MessageCollector)
      returns (logs: seq<SimMessage>, newEmptyRounds: nat)
      requires collector.Valid()
      modifies this
      ensures var p := Poll(old(Current()), emptyRounds, collector.logBuffer);
        Current() == p.settings && newEmptyRounds == p.emptyRounds && logs == p.logs
    {
      var newLastId;
      logs, newLastId := collector.GetIncrementalLogs(lastLogId, levelFilter, maxLogsPerPush);
      if logs != [] {
        lastLogId := newLastId;
        newEmptyRounds := 0;
      } else {
        newEmptyRounds := emptyRounds + 1;
        if newEmptyRounds >= BackoffAfter && pushInterval < BackoffCeiling {
          pushInterval := if BackoffCeiling < pushInterval * 1.5 then BackoffCeiling else pushInterval * 1.5;
        }
      }
    }
  }
}
