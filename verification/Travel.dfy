/** Finer ticks: cutting a tick into shorter ones never makes a running dog fall short. */
module Travel {
  import opened Basics
  import opened Movement
  import opened Tokens
  import opened World
  import opened Invariants
  import opened Preservation
  import opened Runs

  function Sum(times: seq<int>): int {
    if times == [] then 0 else times[0] + Sum(times[1..])
  }

  /** A player stepped through several ticks, with no turn in between. */
  function Steps(p: PlayerState, times: seq<int>, retirementTime: real): PlayerState
    decreases |times|
  {
    if times == [] then p else Steps(StepPlayer(p, times[0], retirementTime), times[1..], retirementTime)
  }

  lemma {:induction false} StandingStays(p: PlayerState, times: seq<int>, retirementTime: real)
    requires HeadingOf(p.dog.speed) == None
    ensures Steps(p, times, retirementTime).dog.pos == p.dog.pos
    decreases |times|
  {
    if times != [] {
      StandingStays(StepPlayer(p, times[0], retirementTime), times[1..], retirementTime);
    }
  }

  lemma RunningIsActivity(d: DogState)
    requires SpeedOk(d) && HeadingOf(d.speed).Some?
    ensures IsMoving(d.speed)
  {
  }

  /** Each part of the time moves the dog by more than the tolerance. */
  ghost predicate AllSignificant(h: Heading, v: Coords, times: seq<int>) {
    forall t :: t in times ==> Way(h, v, t) > EPSILON
  }

  lemma {:induction false} SumIsSignificant(h: Heading, v: Coords, times: seq<int>)
    requires times != [] && AllSignificant(h, v, times)
    ensures Way(h, v, Sum(times)) > EPSILON
  {
    assert times[0] in times;
    if |times| > 1 {
      SumIsSignificant(h, v, times[1..]);
      WayAdds(h, v, times[0], Sum(times[1..]));
    } else {
      assert Sum(times[1..]) == 0;
    }
  }

  /** The first of several ticks, next to one tick of the whole time. */
  lemma FirstTickFits(p: PlayerState, h: Heading, first: int, rest: int, retirementTime: real)
    requires p.online && SpeedOk(p.dog) && HeadingOf(p.dog.speed) == Some(h) && retirementTime >= EPSILON
    requires Way(h, p.dog.speed, first) > EPSILON && Way(h, p.dog.speed, rest) > EPSILON
    ensures var q := StepPlayer(p, first, retirementTime);
            var whole := Along(h, StepPlayer(p, first + rest, retirementTime).dog.pos);
            if q.dog.speed == p.dog.speed then
              q.online && SpeedOk(q.dog) && whole <= Along(h, StepPlayer(q, rest, retirementTime).dog.pos)
            else
              HeadingOf(q.dog.speed) == None && whole == Along(h, q.dog.pos)
    ensures Along(h, StepPlayer(p, first, retirementTime).dog.pos) <= Along(h, p.dog.pos) + Way(h, p.dog.speed, first)
  {
    var roads, v := p.session.mapInfo.roads, p.dog.speed;
    var half := Move(roads, p.dog.pos, v, first);
    RunningIsActivity(p.dog);
    RunningDogRetiresIff(p, first, retirementTime);
    WayAdds(h, v, first, rest);
    SplitMoveGoesAsFar(h, roads, p.dog.pos, Way(h, v, first), Way(h, v, rest),
                       half, Move(roads, half.pos, v, rest), Move(roads, p.dog.pos, v, first + rest));
    MoveIsBounded(h, roads, p.dog.pos, Way(h, v, first));
  }

  lemma TickIsBounded(p: PlayerState, h: Heading, ms: int, retirementTime: real)
    requires p.online && HeadingOf(p.dog.speed) == Some(h)
    ensures Along(h, StepPlayer(p, ms, retirementTime).dog.pos) <=
            Along(h, p.dog.pos) + Max(0.0, Way(h, p.dog.speed, ms))
  {
    MoveIsBounded(h, p.session.mapInfo.roads, p.dog.pos, Way(h, p.dog.speed, ms));
  }

  /** A dog that runs through several ticks gets at least as far as in one tick of the same total time, and
      never beyond the free displacement. */
  lemma {:induction false} FinerTicksGoAsFar(p: PlayerState, h: Heading, times: seq<int>, retirementTime: real)
    requires p.online && SpeedOk(p.dog) && HeadingOf(p.dog.speed) == Some(h) && retirementTime >= EPSILON
    requires times != [] && AllSignificant(h, p.dog.speed, times)
    ensures var fine := Along(h, Steps(p, times, retirementTime).dog.pos);
            && Along(h, StepPlayer(p, Sum(times), retirementTime).dog.pos) <= fine
            && fine <= Along(h, p.dog.pos) + Way(h, p.dog.speed, Sum(times))
    decreases |times|
  {
    hide StepPlayer, HeadingOf, Along, Way, SpeedOk;
    assert times[0] in times;
    var q := StepPlayer(p, times[0], retirementTime);
    if |times| == 1 {
      assert times[1..] == [] && Sum(times) == times[0];
      assert Steps(p, times, retirementTime) == q;
      TickIsBounded(p, h, times[0], retirementTime);
    } else {
      var rest := Sum(times[1..]);
      SumIsSignificant(h, p.dog.speed, times[1..]);
      FirstTickFits(p, h, times[0], rest, retirementTime);
      WayAdds(h, p.dog.speed, times[0], rest);
      if q.dog.speed == p.dog.speed {
        FinerTicksGoAsFar(q, h, times[1..], retirementTime);
      } else {
        StandingStays(q, times[1..], retirementTime);
      }
    }
  }

  // ---------------------------------------------------------------- the same over runs of the whole game

  /** The action of a given player, if the header is that player's. */
  predicate Steers(w: World, e: Event, k: nat) {
    e.ActionEvent? && TokenOf(e.header).Some? && Find(w.tokens, TokenOf(e.header).value) == Some(k)
  }

  /** No turn of player k in between; others may join and turn. */
  ghost predicate NeverSteered(w: World, events: seq<Event>, k: nat)
    requires IsRun(w, events)
    decreases |events|
  {
    events == [] || (!Steers(w, events[0], k) && NeverSteered(Apply(w, events[0]), events[1..], k))
  }

  function Times(events: seq<Event>): seq<int> {
    if events == [] then []
    else (if events[0].TickEvent? then [events[0].input.ms] else []) + Times(events[1..])
  }

  lemma StepKeepsSameMotion(p: PlayerState, q: PlayerState, ms: int, retirementTime: real)
    requires SameMotion(p, q)
    ensures SameMotion(StepPlayer(p, ms, retirementTime), StepPlayer(q, ms, retirementTime))
  {
  }

  lemma {:induction false} StepsKeepSameMotion(p: PlayerState, q: PlayerState, times: seq<int>, retirementTime: real)
    requires SameMotion(p, q)
    ensures SameMotion(Steps(p, times, retirementTime), Steps(q, times, retirementTime))
    decreases |times|
  {
    if times != [] {
      StepKeepsSameMotion(p, q, times[0], retirementTime);
      StepsKeepSameMotion(StepPlayer(p, times[0], retirementTime), StepPlayer(q, times[0], retirementTime),
                          times[1..], retirementTime);
    }
  }

  /** An event other than a tick or an own turn leaves a player alone. */
  lemma OthersLeaveAlone(w: World, e: Event, k: nat)
    requires Possible(w, e) && !e.TickEvent? && !Steers(w, e, k) && k < |w.players|
    ensures k < |Apply(w, e).players| && Apply(w, e).players[k] == w.players[k]
  {
    hide EnterGame, NewPlayer, FirstFresh, SetDirection, TokenOf;
  }

  lemma {:induction false} RunsMoveLikeSteps(w: World, events: seq<Event>, k: nat)
    requires Inv(w) && IsRun(w, events) && k < |w.players| && NeverSteered(w, events, k)
    ensures k < |After(w, events).players|
    ensures SameMotion(Steps(w.players[k], Times(events), w.game.config.retirementTime), After(w, events).players[k])
    decreases |events|
  {
    hide Inv, Apply, TickPossible, DrawsInRange, SameMotion, Steers;
    if events == [] {
      SameAsItself(w.players[k]);
    } else {
      StepKeeps(w, events[0]);
      if events[0].TickEvent? {
        OneTickMovesLikeStep(w, events, k);
      } else {
        OthersLeaveAlone(w, events[0], k);
        RunsMoveLikeSteps(Apply(w, events[0]), events[1..], k);
        assert Times(events) == Times(events[1..]);
      }
    }
  }

  lemma SameAsItself(p: PlayerState)
    ensures SameMotion(p, p)
  {
  }

  lemma OneTickMovesLikeStep(w: World, events: seq<Event>, k: nat)
    requires Inv(w) && IsRun(w, events) && k < |w.players| && NeverSteered(w, events, k)
    requires events != [] && events[0].TickEvent? && Inv(Apply(w, events[0]))
    requires Apply(w, events[0]).game.config == w.game.config
    ensures k < |After(w, events).players|
    ensures SameMotion(Steps(w.players[k], Times(events), w.game.config.retirementTime), After(w, events).players[k])
    decreases |events|, 0
  {
    var t := events[0].input;
    var next := Tick(w, t);
    hide Inv, Tick, TickPossible, StepPlayer;
    TickMovesLikeStep(w, t, k);
    RunsMoveLikeSteps(next, events[1..], k);
    StepsKeepSameMotion(StepPlayer(w.players[k], t.ms, w.game.config.retirementTime), next.players[k],
                        Times(events[1..]), w.game.config.retirementTime);
    assert Times(events) == [t.ms] + Times(events[1..]);
  }

  /** Two ways to let the same time pass in the same game: in several ticks, between which anybody else may join or
      turn, or in one. The dog of a running player gets at least as far in the first, and in neither beyond its free
      displacement. */
  lemma FinerRunsGoAsFar(w: World, events: seq<Event>, t: TickInput, k: nat, h: Heading)
    requires Inv(w) && k < |w.players| && w.game.config.retirementTime >= EPSILON
    requires w.players[k].online && HeadingOf(w.players[k].dog.speed) == Some(h)
    requires IsRun(w, events) && NeverSteered(w, events, k)
    requires Times(events) != [] && AllSignificant(h, w.players[k].dog.speed, Times(events))
    requires t.ms == Sum(Times(events)) && TickPossible(w, t)
    ensures k < |After(w, events).players| && k < |Tick(w, t).players|
    ensures var fine := Along(h, After(w, events).players[k].dog.pos);
            && Along(h, Tick(w, t).players[k].dog.pos) <= fine
            && fine <= Along(h, w.players[k].dog.pos) + Way(h, w.players[k].dog.speed, t.ms)
  {
    var p := w.players[k];
    assert DogOk(p, w.game.config.retirementTime);
    RunsMoveLikeSteps(w, events, k);
    TickMovesLikeStep(w, t, k);
    FinerTicksGoAsFar(p, h, Times(events), w.game.config.retirementTime);
  }
}
