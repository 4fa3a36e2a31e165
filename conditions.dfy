/**
 * The event scheduler's condition watcher. Once per simulated second it
 * reads the simulation's global variables and latches each event key into
 * its set of fired events at most once:
 *   - `evt_enemy_detected` when `EnemyDetected` (default false) is truthy;
 *   - `evt_mission_complete` when `DamageAssessment` (default 0.0) is at
 *     least 0.8, and then the command post, if the simulation has one, is
 *     sent the cease-fire order.
 * Each newly fired event is logged with type EVENT_TRIGGERED.
 *
 * `Tick` is one round as a function of the fired set and what the round
 * observes; `Run` folds it over a sequence of rounds; the class
 * `EventScheduler` keeps the fired set in a field and runs the rounds in a
 * loop.
 */
module Conditions {
  import opened Wrappers
  import opened Messages

  /** A global variable as the watcher reads it: the simulation stores flags and numbers. */
  datatype Value = Flag(b: bool) | Num(x: real)

  /** Python truthiness. */
  predicate Truthy(v: Value) {
    match v
    case Flag(b) => b
    case Num(x) => x != 0.0
  }

  /** The value in a numeric comparison: a flag counts as 1 or 0. */
  function AsNumber(v: Value): real {
    match v
    case Flag(b) => if b then 1.0 else 0.0
    case Num(x) => x
  }

  type Globals = map<string, Value>

  /** `dict.get(key, default)`. */
  function Get(g: Globals, key: string, default: Value): Value {
    if key in g then g[key] else default
  }

  const EnemyKey: string := "evt_enemy_detected"
  const MissionKey: string := "evt_mission_complete"
  const DamageThreshold: real := 0.8

  /** The initial global variables of the simulation. */
  const InitialGlobals: Globals :=
    map["EnemyDetected" := Flag(false), "StrikeCompleted" := Flag(false), "DamageAssessment" := Num(0.0)]

  /** What one round of the watcher sees: the globals, whether there is a command post, and the wall clock. */
  datatype Observation = Observation(globals: Globals, hasCommandPost: bool, clock: int)

  predicate EnemySeen(o: Observation) {
    Truthy(Get(o.globals, "EnemyDetected", Flag(false)))
  }

  predicate MissionDone(o: Observation) {
    AsNumber(Get(o.globals, "DamageAssessment", Num(0.0))) >= DamageThreshold
  }

  function EnemyMessage(clock: int): SimMessage {
    Logged("WARNING", EnemyDetectedEvent, None, EventTriggered, clock)
  }

  function MissionMessage(clock: int): SimMessage {
    Logged("INFO", MissionCompleteEvent, None, EventTriggered, clock)
  }

  /** One round: the fired set after it, the messages it logs, and whether it orders a cease-fire. */
  datatype TickResult = TickResult(events: set<string>, posts: seq<SimMessage>, ceaseFire: bool)

  function Tick(events: set<string>, o: Observation): TickResult {
    var enemy := EnemySeen(o) && EnemyKey !in events;
    var afterEnemy := if enemy then events + {EnemyKey} else events;
    var mission := MissionDone(o) && MissionKey !in afterEnemy;
    TickResult(
      if mission then afterEnemy + {MissionKey} else afterEnemy,
      (if enemy then [EnemyMessage(o.clock)] else []) + (if mission then [MissionMessage(o.clock)] else []),
      mission && o.hasCommandPost)
  }

  /** How many of `posts` report the event `note`. */
  function CountNote(posts: seq<SimMessage>, note: Note): nat
    decreases |posts|
  {
    if posts == [] then 0
    else CountNote(posts[..|posts| - 1], note)
         + (if posts[|posts| - 1].data.LogLine? && posts[|posts| - 1].data.note == note then 1 else 0)
  }

  lemma CountNoteConcat(a: seq<SimMessage>, b: seq<SimMessage>, note: Note)
    ensures CountNote(a + b, note) == CountNote(a, note) + CountNote(b, note)
    decreases |b|
  {
    if b == [] {
      assert a + b == a;
    } else {
      assert (a + b)[..|a + b| - 1] == a + b[..|b| - 1];
      CountNoteConcat(a, b[..|b| - 1], note);
    }
  }

  /**
   * One round adds to the fired set only the two keys, each exactly when its
   * condition holds and it was not yet fired; the cease-fire is ordered
   * exactly when the mission key is added and there is a command post.
   */
  lemma TickEvents(events: set<string>, o: Observation)
    ensures var t := Tick(events, o);
      && events <= t.events <= events + {EnemyKey, MissionKey}
      && (EnemyKey in t.events - events <==> EnemySeen(o) && EnemyKey !in events)
      && (MissionKey in t.events - events <==> MissionDone(o) && MissionKey !in events)
      && (t.ceaseFire <==> MissionKey in t.events - events && o.hasCommandPost)
  {
    assert EnemyKey[4] != MissionKey[4];
  }

  lemma CountNoteOne(m: SimMessage, note: Note)
    ensures CountNote([m], note) == if m.data.LogLine? && m.data.note == note then 1 else 0
  {
    assert [m][..0] == [];
  }

  /** One round logs one message for each key it adds, and no other. */
  lemma TickPosts(events: set<string>, o: Observation)
    ensures var t := Tick(events, o);
      && CountNote(t.posts, EnemyDetectedEvent) == (if EnemyKey in t.events - events then 1 else 0)
      && CountNote(t.posts, MissionCompleteEvent) == (if MissionKey in t.events - events then 1 else 0)
  {
    TickEvents(events, o);
    var enemy := EnemySeen(o) && EnemyKey !in events;
    var mission := MissionDone(o) && MissionKey !in events;
    var a: seq<SimMessage> := if enemy then [EnemyMessage(o.clock)] else [];
    var b: seq<SimMessage> := if mission then [MissionMessage(o.clock)] else [];
    assert EnemyKey[4] != MissionKey[4];
    assert Tick(events, o).posts == a + b;
    CountNoteConcat(a, b, EnemyDetectedEvent);
    CountNoteConcat(a, b, MissionCompleteEvent);
    CountNoteOne(EnemyMessage(o.clock), EnemyDetectedEvent);
    CountNoteOne(EnemyMessage(o.clock), MissionCompleteEvent);
    CountNoteOne(MissionMessage(o.clock), EnemyDetectedEvent);
    CountNoteOne(MissionMessage(o.clock), MissionCompleteEvent);
  }

  /** The watcher over several rounds: the final fired set, every message, and the rounds ordering a cease-fire. */
  datatype RunResult = RunResult(events: set<string>, posts: seq<SimMessage>, ceaseFireRounds: seq<nat>)

  function Run(events: set<string>, rounds: seq<Observation>): RunResult
    decreases |rounds|
  {
    if rounds == [] then RunResult(events, [], [])
    else
      var r := Run(events, rounds[..|rounds| - 1]);
      var t := Tick(r.events, rounds[|rounds| - 1]);
      RunResult(t.events, r.posts + t.posts,
                r.ceaseFireRounds + (if t.ceaseFire then [|rounds| - 1] else []))
  }

  /** One more round of a run, with the rounds given as a prefix of a longer schedule. */
  lemma RunStep(events: set<string>, rounds: seq<Observation>, i: nat)
    requires i < |rounds|
    ensures var r := Run(events, rounds[..i]);
      var t := Tick(r.events, rounds[i]);
      Run(events, rounds[..i + 1])
      == RunResult(t.events, r.posts + t.posts, r.ceaseFireRounds + (if t.ceaseFire then [i] else []))
  {
    assert rounds[..i + 1][..i] == rounds[..i] && rounds[..i + 1][i] == rounds[i];
  }

  /** Whether `k` was fired before the run, as 0 or 1. */
  function Fired(events: set<string>, k: string): nat {
    if k in events then 1 else 0
  }

  /** A run only adds the two event keys to the fired set. */
  lemma {:induction false} RunEventsGrow(events: set<string>, rounds: seq<Observation>)
    ensures events <= Run(events, rounds).events <= events + {EnemyKey, MissionKey}
    decreases |rounds|
  {
    if rounds != [] {
      RunEventsGrow(events, rounds[..|rounds| - 1]);
      TickEvents(Run(events, rounds[..|rounds| - 1]).events, rounds[|rounds| - 1]);
    }
  }

  /**
   * Over any run, each event is logged at most once: a key is in the final
   * fired set exactly when it was fired before or logged during the run,
   * never both, and never logged twice.
   */
  lemma {:induction false} RunLogsOnce(events: set<string>, rounds: seq<Observation>)
    ensures var r := Run(events, rounds);
      && Fired(events, EnemyKey) + CountNote(r.posts, EnemyDetectedEvent) == Fired(r.events, EnemyKey)
      && Fired(events, MissionKey) + CountNote(r.posts, MissionCompleteEvent) == Fired(r.events, MissionKey)
    decreases |rounds|
  {
    if rounds != [] {
      var init := rounds[..|rounds| - 1];
      RunLogsOnce(events, init);
      var r := Run(events, init);
      var t := Tick(r.events, rounds[|rounds| - 1]);
      TickEvents(r.events, rounds[|rounds| - 1]);
      TickPosts(r.events, rounds[|rounds| - 1]);
      CountNoteConcat(r.posts, t.posts, EnemyDetectedEvent);
      CountNoteConcat(r.posts, t.posts, MissionCompleteEvent);
    }
  }

  /**
   * The cease-fire is ordered at most once over any run, not at all when the
   * mission had already been fired, and only in a round where the damage
   * reached 0.8 with a command post present.
   */
  lemma {:induction false} RunCeaseFireOnce(events: set<string>, rounds: seq<Observation>)
    ensures var r := Run(events, rounds);
      && Fired(events, MissionKey) + |r.ceaseFireRounds| <= Fired(r.events, MissionKey)
      && forall i :: 0 <= i < |r.ceaseFireRounds| ==>
           r.ceaseFireRounds[i] < |rounds| && MissionDone(rounds[r.ceaseFireRounds[i]])
           && rounds[r.ceaseFireRounds[i]].hasCommandPost
    decreases |rounds|
  {
    if rounds != [] {
      var init := rounds[..|rounds| - 1];
      var o := rounds[|rounds| - 1];
      RunCeaseFireOnce(events, init);
      var r := Run(events, init);
      var t := Tick(r.events, o);
      TickEvents(r.events, o);
      var cf := Run(events, rounds).ceaseFireRounds;
      assert cf == r.ceaseFireRounds + (if t.ceaseFire then [|rounds| - 1] else []);
      forall i | 0 <= i < |cf|
        ensures cf[i] < |rounds| && MissionDone(rounds[cf[i]]) && rounds[cf[i]].hasCommandPost
      {
        if i < |r.ceaseFireRounds| {
          assert cf[i] == r.ceaseFireRounds[i] && rounds[cf[i]] == init[cf[i]];
        }
      }
    }
  }

  class EventScheduler {
    var events: set<string>

    constructor ()
      ensures events == {}
    {
      events := {};
    }

    /** One round of `monitor_conditions`; returns whether it orders the cease-fire. */
    method MonitorTick(o: Observation, collector: MessageCollector) returns (ceaseFire: bool)
      requires collector.Valid()
      modifies this, collector
      ensures events == Tick(old(events), o).events
      ensures ceaseFire == Tick(old(events), o).ceaseFire
      ensures collector.Valid()
      ensures collector.Model() == AddAll(old(collector.Model()), Tick(old(events), o).posts)
    {
      ghost var before := collector.Model();
      ghost var t := Tick(events, o);
      ceaseFire := false;
      ghost var enemyPosts: seq<SimMessage> := [];
      if EnemySeen(o) && EnemyKey !in events {
        events := events + {EnemyKey};
        collector.AddMessage(EnemyMessage(o.clock));
        enemyPosts := [EnemyMessage(o.clock)];
        assert enemyPosts[1..] == [];
      }
      ghost var afterEnemy := collector.Model();
      assert afterEnemy == AddAll(before, enemyPosts);
      ghost var missionPosts: seq<SimMessage> := [];
      if MissionDone(o) && MissionKey !in events {
        events := events + {MissionKey};
        collector.AddMessage(MissionMessage(o.clock));
        missionPosts := [MissionMessage(o.clock)];
        assert missionPosts[1..] == [];
        ceaseFire := o.hasCommandPost;
      }
      assert collector.Model() == AddAll(afterEnemy, missionPosts);
      assert t.posts == enemyPosts + missionPosts;
      AddAllConcat(before, enemyPosts, missionPosts);
    }

    /** `monitor_conditions` over the given rounds; returns the rounds that order the cease-fire. */
    method MonitorConditions(rounds: seq<Observation>, collector: MessageCollector)
      returns (ceaseFireRounds: seq<nat>)
      requires collector.Valid()
      modifies this, collector
      ensures var r := Run(old(events), rounds);
        && events == r.events && ceaseFireRounds == r.ceaseFireRounds
        && collector.Valid() && collector.Model() == AddAll(old(collector.Model()), r.posts)
    {
      ceaseFireRounds := [];
      var i := 0;
      while i < |rounds|
        invariant 0 <= i <= |rounds|
        invariant collector.Valid()
        invariant var r := Run(old(events), rounds[..i]);
          && events == r.events && ceaseFireRounds == r.ceaseFireRounds
          && collector.Model() == AddAll(old(collector.Model()), r.posts)
      {
        ghost var r := Run(old(events), rounds[..i]);
        ghost var t := Tick(r.events, rounds[i]);
        RunStep(old(events), rounds, i);
        var ceaseFire := MonitorTick(rounds[i], collector);
        assert ceaseFire == t.ceaseFire && events == t.events;
        AddAllConcat(old(collector.Model()), r.posts, t.posts);
        if ceaseFire {
          ceaseFireRounds := ceaseFireRounds + [i];
        }
        i := i + 1;
      }
      assert rounds[..i] == rounds;
    }
  }
}
