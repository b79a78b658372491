/** What one step does to the clocks of a player, in numbers. */
module Activity {
  import opened Basics
  import opened World

  /** A standing dog that is online stays online exactly if its idle time has not come within the tolerance of the
      retirement time, and a step does not count as activity. */
  lemma StandingStep(p: PlayerState, ms: int, retirementTime: real)
    requires p.online && p.dog.speed == Coords(0.0, 0.0)
    ensures var q := StepPlayer(p, ms, retirementTime);
            && (q.online <==> p.dog.clock + ms as real / 1000.0 - p.dog.lastActivity <= retirementTime - EPSILON)
            && q.dog.clock == p.dog.clock + ms as real / 1000.0
            && q.dog.lastActivity == p.dog.lastActivity
            && q.dog.speed == Coords(0.0, 0.0)
  {
  }

  /** A running dog is active, and retires only if the retirement time is below the tolerance. */
  lemma RunningStep(p: PlayerState, ms: int, retirementTime: real)
    requires p.online && (p.dog.speed.x - p.dog.speed.y > EPSILON || p.dog.speed.y - p.dog.speed.x > EPSILON)
    ensures var q := StepPlayer(p, ms, retirementTime);
            && (q.online <==> retirementTime >= EPSILON)
            && q.dog.clock == p.dog.clock + ms as real / 1000.0
            && q.dog.lastActivity == p.dog.clock + ms as real / 1000.0
  {
  }

  /** For a retired player only the clock goes on. */
  lemma RetiredStep(p: PlayerState, ms: int, retirementTime: real)
    requires !p.online
    ensures StepPlayer(p, ms, retirementTime) == p.(dog := p.dog.(clock := p.dog.clock + ms as real / 1000.0))
  {
  }
}
