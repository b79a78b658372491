/** Who retires, and when: the idle time of a player who is never steered, over whole runs. */
module Idle {
  import opened Basics
  import opened Collision
  import opened Tokens
  import opened World
  import opened Activity
  import opened Invariants
  import opened Runs
  import opened Travel

  /** The ticks of a run, from a given idle time on, all end before the retirement time. */
  ghost predicate InTime(idle: real, events: seq<Event>, retirementTime: real)
    decreases |events|
  {
    if events == [] then true
    else if events[0].TickEvent? then
      var later := idle + events[0].input.ms as real / 1000.0;
      later <= retirementTime - EPSILON && InTime(later, events[1..], retirementTime)
    else InTime(idle, events[1..], retirementTime)
  }

  /** After each tick of a run, the idle time is what has passed since its start. */
  lemma {:induction false} InTimeIff(idle: real, events: seq<Event>, retirementTime: real)
    ensures InTime(idle, events, retirementTime) <==>
            forall n :: 0 < n <= |events| && events[n - 1].TickEvent? ==>
              idle + Sum(Times(events[..n])) as real / 1000.0 <= retirementTime - EPSILON
    decreases |events|
  {
    if events != [] {
      var rest, ms := events[1..], if events[0].TickEvent? then events[0].input.ms else 0;
      var later := idle + ms as real / 1000.0;
      InTimeIff(later, rest, retirementTime);
      forall n | 0 < n <= |events|
        ensures Sum(Times(events[..n])) == ms + Sum(Times(rest[..n - 1]))
      {
        assert events[..n][0] == events[0] && events[..n][1..] == rest[..n - 1];
        SumOfTimes(events[..n]);
      }
      if InTime(idle, events, retirementTime) {
        forall n | 0 < n <= |events| && events[n - 1].TickEvent?
          ensures idle + Sum(Times(events[..n])) as real / 1000.0 <= retirementTime - EPSILON
        {
          assert n > 1 ==> rest[n - 2] == events[n - 1];
        }
      }
      if forall n :: 0 < n <= |events| && events[n - 1].TickEvent? ==>
           idle + Sum(Times(events[..n])) as real / 1000.0 <= retirementTime - EPSILON {
        forall n | 0 < n <= |rest| && rest[n - 1].TickEvent?
          ensures later + Sum(Times(rest[..n])) as real / 1000.0 <= retirementTime - EPSILON
        {
          assert events[n] == rest[n - 1];
          assert Sum(Times(events[..n + 1])) == ms + Sum(Times(rest[..n]));
        }
        assert events[0].TickEvent? ==> Sum(Times(events[..1])) == ms;
      }
    }
  }

  lemma SumOfTimes(events: seq<Event>)
    requires events != []
    ensures Sum(Times(events)) == (if events[0].TickEvent? then events[0].input.ms else 0) + Sum(Times(events[1..]))
  {
    if events[0].TickEvent? {
      assert Times(events) == [events[0].input.ms] + Times(events[1..]);
    } else {
      assert Times(events) == Times(events[1..]);
    }
  }

  lemma {:induction false} RetiredStaysOffline(w: World, events: seq<Event>, k: nat)
    requires IsRun(w, events) && k < |w.players| && !w.players[k].online && NeverSteered(w, events, k)
    ensures k < |After(w, events).players| && !After(w, events).players[k].online
    decreases |events|
  {
    hide Apply, TickPossible, DrawsInRange;
    if events != [] {
      OfflineAfterEvent(w, events[0], k);
      RetiredStaysOffline(Apply(w, events[0]), events[1..], k);
    }
  }

  lemma OfflineAfterEvent(w: World, e: Event, k: nat)
    requires Possible(w, e) && !Steers(w, e, k) && k < |w.players| && !w.players[k].online
    ensures k < |Apply(w, e).players| && !Apply(w, e).players[k].online
  {
    hide Tick, TickPossible, StepPlayer, Steers, Join, Act;
    if e.TickEvent? {
      TickMovesLikeStep(w, e.input, k);
      RetiredStep(w.players[k], e.input.ms, w.game.config.retirementTime);
    } else {
      OthersLeaveAlone(w, e, k);
    }
  }

  /** A player who stands and is never steered is online after a run exactly if no tick of it has come within the
      tolerance of the retirement time. */
  lemma {:induction false} IdleRun(w: World, events: seq<Event>, k: nat)
    requires IsRun(w, events) && NeverSteered(w, events, k)
    requires k < |w.players| && w.players[k].online && w.players[k].dog.speed == Coords(0.0, 0.0)
    ensures k < |After(w, events).players|
    ensures var d := w.players[k].dog;
            After(w, events).players[k].online <==>
            InTime(d.clock - d.lastActivity, events, w.game.config.retirementTime)
    decreases |events|
  {
    hide Apply, TickPossible, DrawsInRange;
    if events != [] {
      StandsAfterEvent(w, events[0], k);
      var v := Apply(w, events[0]);
      if v.players[k].online {
        IdleRun(v, events[1..], k);
      } else {
        RetiredStaysOffline(v, events[1..], k);
      }
    }
  }

  lemma StandsAfterEvent(w: World, e: Event, k: nat)
    requires Possible(w, e) && !Steers(w, e, k)
    requires k < |w.players| && w.players[k].online && w.players[k].dog.speed == Coords(0.0, 0.0)
    ensures k < |Apply(w, e).players| && Apply(w, e).game.config == w.game.config
    ensures var p, q := w.players[k], Apply(w, e).players[k];
            var idle := p.dog.clock - p.dog.lastActivity + if e.TickEvent? then e.input.ms as real / 1000.0 else 0.0;
            && q.dog.speed == Coords(0.0, 0.0) && q.dog.clock - q.dog.lastActivity == idle
            && (q.online <==> (e.TickEvent? ==> idle <= w.game.config.retirementTime - EPSILON))
  {
    hide Tick, TickPossible, StepPlayer, Steers, TokenOf, FirstFresh;
    if e.TickEvent? {
      TickMovesLikeStep(w, e.input, k);
      TickAddsToTimer(w, e.input);
      StandingStep(w.players[k], e.input.ms, w.game.config.retirementTime);
    } else {
      OthersLeaveAlone(w, e, k);
    }
  }

  /** A tick adds its time to the timer of the game, in seconds. */
  lemma TickAddsToTimer(w: World, t: TickInput)
    ensures Tick(w, t).game.config == w.game.config && Tick(w, t).tokens == w.tokens
    ensures Tick(w, t).game.timer == w.game.timer + t.ms as real / 1000.0
  {
    hide GenerateLoot, VisitOffices, StepPlayers, NewRecords;
    GenerateKeepsConfig(w.game, t.ms, t.plan);
    GatherKeepsConfig(Gathering(Underway(w, t).game, Underway(w, t).players), Order(t.plan), t.lootEvents);
  }

  lemma {:induction false} GatherKeepsConfig(s: Gathering, order: seq<string>, events: seq<GatheringEvent>)
    ensures Gather(s, order, events).game.config == s.game.config
    ensures Gather(s, order, events).game.timer == s.game.timer
  {
    if events != [] {
      GatherKeepsConfig(s, order, events[..|events| - 1]);
    }
  }

  lemma JoinerStands(w: World, e: Event)
    requires e.JoinEvent? && Possible(w, e) && |Apply(w, e).players| == |w.players| + 1
    ensures Apply(w, e).game.config == w.game.config
    ensures var p := Apply(w, e).players[|w.players|];
            && p.online && p.dog.uuid == e.uuid
            && p.dog.speed == Coords(0.0, 0.0) && p.dog.clock == p.dog.lastActivity == 0.0
  {
    hide FirstFresh, Location;
  }

  /** A player who joins and is never steered is online exactly if at no tick since has the time since the join come
      within the tolerance of the retirement time; and exactly if not, the table of records has one row for the
      player. */
  lemma IdleJoinerRetiresInTime(w: World, e: Event, events: seq<Event>)
    requires Inv(w) && e.JoinEvent? && Possible(w, e) && |Apply(w, e).players| == |w.players| + 1
    requires IsRun(Apply(w, e), events) && NeverSteered(Apply(w, e), events, |w.players|)
    ensures var v := After(Apply(w, e), events);
            && |w.players| < |v.players|
            && (v.players[|w.players|].online <==>
                forall n :: 0 < n <= |events| && events[n - 1].TickEvent? ==>
                  Sum(Times(events[..n])) as real / 1000.0 <= w.game.config.retirementTime - EPSILON)
            && RecordCount(v.records, e.uuid) == if v.players[|w.players|].online then 0 else 1
  {
    hide Inv, Apply, TickPossible, DrawsInRange, DrawsFresh;
    var w1, k := Apply(w, e), |w.players|;
    JoinerStands(w, e);
    IdleRun(w1, events, k);
    InTimeIff(0.0, events, w.game.config.retirementTime);
    StepKeeps(w, e);
    RunKeeps(w1, events);
    RunAddsToClock(w1, events, k);
    RecordsTell(After(w1, events), k);
  }

  lemma RecordsTell(w: World, k: nat)
    requires Inv(w) && k < |w.players|
    ensures RecordCount(w.records, w.players[k].dog.uuid) == if w.players[k].online then 0 else 1
  {
  }
}
