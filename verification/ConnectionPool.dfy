/** The blocking connection pool, as interleaved steps of threads. */
module ConnectionPool {
  import opened Basics

  type Connection = int
  type Thread = int

  /** Where a thread is in GetConnection or ReturnConnection. */
  datatype Phase =
    | Outside
    | Entering                 // about to lock the mutex in GetConnection
    | Inside(woken: bool)      // holds the mutex, about to evaluate the predicate
    | Asleep                   // waits on the condition variable
    | Woken                    // notified or woken spuriously, about to lock again
    | Returning                // in ReturnConnection, about to lock the mutex
    | Storing                  // holds the mutex in ReturnConnection
    | Notifying                // has unlocked, about to notify

  /** Who holds a connection outside the pool: a live wrapper, or a thread that is returning it. */
  datatype Holder = Wrapper(id: int) | InFlight(thread: Thread)

  datatype Pool = Pool(slots: seq<Option<Connection>>, used: nat, mutex: Option<Thread>, threads: map<Thread, Phase>,
                       held: map<Holder, Connection>)

  datatype Step =
    | Call(t: Thread)
    | Lock(t: Thread)
    | Test(t: Thread, wrapper: int)
    | WakeSpuriously(t: Thread)
    | MoveConstruct(to: int, from: int)
    | Destroy(t: Thread, wrapper: int)
    | Store(t: Thread)
    | Notify(t: Thread, sleeper: Thread)

  predicate At(s: Pool, t: Thread, p: Phase) { t in s.threads && s.threads[t] == p }

  predicate CanLock(p: Phase) { p == Entering || p == Woken || p == Returning }

  predicate IsAsleep(s: Pool, t: Thread) { At(s, t, Asleep) }

  function Sleepers(threads: map<Thread, Phase>): set<Thread> { set t | t in threads && threads[t] == Asleep }

  ghost predicate Enabled(s: Pool, step: Step) {
    match step
    case Call(t) => At(s, t, Outside)
    case Lock(t) => t in s.threads && CanLock(s.threads[t]) && s.mutex == None
    case Test(t, wrapper) => t in s.threads && s.threads[t].Inside? && Wrapper(wrapper) !in s.held
    case WakeSpuriously(t) => IsAsleep(s, t)
    case MoveConstruct(to, from) => to != from && Wrapper(to) !in s.held
    case Destroy(t, _) => At(s, t, Outside)
    case Store(t) => At(s, t, Storing)
    case Notify(t, sleeper) => At(s, t, Notifying) && (Sleepers(s.threads) != {} ==> sleeper in Sleepers(s.threads))
  }

  /** The index of the next slot to hand out is the number of used connections. */
  function Available(s: Pool): bool { s.used < |s.slots| }

  function TakeOut(slots: seq<Option<Connection>>, used: nat): seq<Option<Connection>>
    requires used < |slots|
  {
    slots[used := None]
  }

  /** pool_[--used_connections_] = conn. With no used connection the assertion fails, and nothing is stored. */
  function PutBack(slots: seq<Option<Connection>>, used: nat, c: Connection): seq<Option<Connection>> {
    if 0 < used <= |slots| then slots[used - 1 := Some(c)] else slots
  }

  function Move(s: Pool, t: Thread, p: Phase): Pool { s.(threads := s.threads[t := p]) }

  function Next(s: Pool, step: Step): Pool {
    match step
    case Call(t) => Move(s, t, Entering)
    case Lock(t) =>
      if t !in s.threads then s
      else
        Move(s, t, if s.threads[t] == Returning then Storing else Inside(s.threads[t] == Woken)).(mutex := Some(t))
    case Test(t, wrapper) =>
      if Available(s) && s.slots[s.used].Some? then
        Move(s, t, Outside).(mutex := None, used := s.used + 1, slots := TakeOut(s.slots, s.used),
                             held := s.held[Wrapper(wrapper) := s.slots[s.used].value])
      else if Available(s) then Move(s, t, Outside).(mutex := None, used := s.used + 1)
      else Move(s, t, Asleep).(mutex := None)
    case WakeSpuriously(t) => Move(s, t, Woken)
    case MoveConstruct(to, from) =>
      if Wrapper(from) in s.held then
        s.(held := (s.held - {Wrapper(from)})[Wrapper(to) := s.held[Wrapper(from)]])
      else s
    case Destroy(t, wrapper) =>
      if Wrapper(wrapper) in s.held then
        Move(s, t, Returning).(held := (s.held - {Wrapper(wrapper)})[InFlight(t) := s.held[Wrapper(wrapper)]])
      else s
    case Store(t) =>
      if InFlight(t) in s.held then
        Move(s, t, Notifying).(mutex := None, used := if s.used > 0 then s.used - 1 else 0,
                               slots := PutBack(s.slots, s.used, s.held[InFlight(t)]), held := s.held - {InFlight(t)})
      else s
    case Notify(t, sleeper) =>
      if sleeper in Sleepers(s.threads) then Move(Move(s, t, Outside), sleeper, Woken) else Move(s, t, Outside)
  }

  ghost predicate IsRun(s: Pool, steps: seq<Step>)
    decreases |steps|
  {
    steps == [] || (Enabled(s, steps[0]) && IsRun(Next(s, steps[0]), steps[1..]))
  }

  function After(s: Pool, steps: seq<Step>): Pool
    decreases |steps|
  {
    if steps == [] then s else After(Next(s, steps[0]), steps[1..])
  }

  function AllOf(connections: seq<Connection>): set<Connection> { set c | c in connections }

  /** A new pool: every slot full, every thread outside. */
  function NewPool(connections: seq<Connection>, threads: set<Thread>): Pool {
    Pool(seq(|connections|, i requires 0 <= i < |connections| => Some(connections[i])), 0, None,
         map t | t in threads :: Outside, map[])
  }

  // ---------------------------------------------------------------- no lost wakeup

  predicate IsOnTheWay(p: Phase) { p == Notifying || p == Woken || p == Inside(true) }

  /** Pending notifies and waiters that were woken but have not run yet. */
  function OnTheWay(threads: map<Thread, Phase>): set<Thread> { set t | t in threads && IsOnTheWay(threads[t]) }

  function Free(s: Pool): int { |s.slots| - s.used }

  ghost predicate NoLostWakeup(s: Pool) {
    Sleepers(s.threads) != {} ==> Free(s) <= |OnTheWay(s.threads)|
  }

  function One(b: bool): nat { if b then 1 else 0 }

  lemma CountReplace(a: set<Thread>, b: set<Thread>, t: Thread)
    requires a - {t} == b - {t}
    ensures |b| == |a| - One(t in a) + One(t in b)
  {
    assert a == (a - {t}) + (if t in a then {t} else {});
    assert b == (b - {t}) + (if t in b then {t} else {});
  }

  lemma AfterMove(threads: map<Thread, Phase>, t: Thread, p: Phase)
    requires t in threads
    ensures var next := threads[t := p];
            && |OnTheWay(next)| == |OnTheWay(threads)| - One(IsOnTheWay(threads[t])) + One(IsOnTheWay(p))
            && (p != Asleep ==> Sleepers(next) <= Sleepers(threads))
            && forall u :: u != t ==> (u in Sleepers(next) <==> u in Sleepers(threads))
  {
    var next := threads[t := p];
    assert OnTheWay(threads) - {t} == OnTheWay(next) - {t};
    CountReplace(OnTheWay(threads), OnTheWay(next), t);
  }

  /** One step of any thread keeps the wakeup property. */
  lemma StepKeepsWakeups(s: Pool, step: Step)
    requires NoLostWakeup(s) && Enabled(s, step)
    requires s.used <= |s.slots| && (step.Store? ==> s.used > 0)
    ensures NoLostWakeup(Next(s, step))
  {
    match step
    case Call(t) => AfterMove(s.threads, t, Entering);
    case Lock(t) =>
      AfterMove(s.threads, t, if s.threads[t] == Returning then Storing else Inside(s.threads[t] == Woken));
    case Test(t, wrapper) => TestKeepsWakeups(s, t, wrapper);
    case WakeSpuriously(t) => AfterMove(s.threads, t, Woken);
    case MoveConstruct(_, _) =>
    case Destroy(t, _) => AfterMove(s.threads, t, Returning);
    case Store(t) => AfterMove(s.threads, t, Notifying);
    case Notify(t, sleeper) => NotifyKeepsWakeups(s, t, sleeper);
  }

  lemma TestKeepsWakeups(s: Pool, t: Thread, wrapper: int)
    requires NoLostWakeup(s) && Enabled(s, Test(t, wrapper)) && s.used <= |s.slots|
    ensures NoLostWakeup(Next(s, Test(t, wrapper)))
  {
    if Available(s) {
      AfterMove(s.threads, t, Outside);
    }
  }

  lemma NotifyKeepsWakeups(s: Pool, t: Thread, sleeper: Thread)
    requires NoLostWakeup(s) && Enabled(s, Notify(t, sleeper))
    ensures NoLostWakeup(Next(s, Notify(t, sleeper)))
  {
    AfterMove(s.threads, t, Outside);
    if sleeper in Sleepers(s.threads) {
      AfterMove(s.threads[t := Outside], sleeper, Woken);
    }
  }

  // ---------------------------------------------------------------- conservation

  predicate InSlots(slots: seq<Option<Connection>>, c: Connection) {
    exists i :: 0 <= i < |slots| && slots[i] == Some(c)
  }

  predicate InHeld(held: map<Holder, Connection>, c: Connection) {
    exists h :: h in held && held[h] == c
  }

  /** Slots below the used count are empty, the others hold different connections. */
  ghost predicate SlotsOk(slots: seq<Option<Connection>>, used: nat) {
    && used <= |slots|
    && (forall i :: 0 <= i < |slots| ==> (slots[i].None? <==> i < used))
    && (forall i, j :: used <= i < j < |slots| ==> slots[i] != slots[j])
  }

  ghost predicate HeldOnce(held: map<Holder, Connection>) {
    forall h, k :: h in held && k in held && held[h] == held[k] ==> h == k
  }

  ghost predicate Apart(slots: seq<Option<Connection>>, held: map<Holder, Connection>) {
    forall c :: InSlots(slots, c) ==> !InHeld(held, c)
  }

  ghost predicate Complete(slots: seq<Option<Connection>>, held: map<Holder, Connection>, all: set<Connection>) {
    forall c :: c in all <==> InSlots(slots, c) || InHeld(held, c)
  }

  /** No connection is lost, duplicated or in two places, and as many are out as are counted as used. */
  ghost predicate Conserves(s: Pool, all: set<Connection>) {
    && s.used == |s.held|
    && SlotsOk(s.slots, s.used)
    && HeldOnce(s.held)
    && Apart(s.slots, s.held)
    && Complete(s.slots, s.held, all)
  }

  /** The mutex is held by the thread inside a critical section, and exactly the returning threads have a connection
      in flight. */
  ghost predicate ThreadsOk(s: Pool) {
    && (forall t :: t in s.threads ==> ((s.threads[t].Inside? || s.threads[t] == Storing) <==> s.mutex == Some(t)))
    && (s.mutex.Some? ==> s.mutex.value in s.threads)
    && (forall t :: InFlight(t) in s.held <==> t in s.threads && (s.threads[t] == Returning || s.threads[t] == Storing))
  }

  ghost predicate PoolOk(s: Pool, all: set<Connection>) {
    Conserves(s, all) && ThreadsOk(s) && NoLostWakeup(s)
  }

  lemma AfterTakeOut(slots: seq<Option<Connection>>, used: nat)
    requires SlotsOk(slots, used) && used < |slots|
    ensures slots[used].Some?
    ensures SlotsOk(TakeOut(slots, used), used + 1)
    ensures forall c :: InSlots(TakeOut(slots, used), c) <==> InSlots(slots, c) && c != slots[used].value
  {
    var next := TakeOut(slots, used);
    forall c
      ensures InSlots(next, c) <==> InSlots(slots, c) && c != slots[used].value
    {
      if InSlots(slots, c) && c != slots[used].value {
        var i :| 0 <= i < |slots| && slots[i] == Some(c);
        assert next[i] == Some(c);
      }
      if InSlots(next, c) {
        var i :| 0 <= i < |next| && next[i] == Some(c);
        assert slots[i] == Some(c) && i != used;
      }
    }
  }

  lemma AfterPutBack(slots: seq<Option<Connection>>, used: nat, c: Connection)
    requires SlotsOk(slots, used) && 0 < used && !InSlots(slots, c)
    ensures SlotsOk(PutBack(slots, used, c), used - 1)
    ensures forall x :: InSlots(PutBack(slots, used, c), x) <==> InSlots(slots, x) || x == c
  {
    var next := PutBack(slots, used, c);
    assert next[used - 1] == Some(c);
    forall x
      ensures InSlots(next, x) <==> InSlots(slots, x) || x == c
    {
      if InSlots(slots, x) {
        var i :| 0 <= i < |slots| && slots[i] == Some(x);
        assert next[i] == Some(x);
      }
      if InSlots(next, x) {
        var i :| 0 <= i < |next| && next[i] == Some(x);
        assert i != used - 1 ==> slots[i] == Some(x);
      }
    }
  }

  lemma AfterAdd(held: map<Holder, Connection>, h: Holder, c: Connection)
    requires h !in held && HeldOnce(held) && !InHeld(held, c)
    ensures |held[h := c]| == |held| + 1
    ensures HeldOnce(held[h := c])
    ensures forall x :: InHeld(held[h := c], x) <==> InHeld(held, x) || x == c
  {
    var next := held[h := c];
    assert next[h] == c;
    forall x
      ensures InHeld(next, x) <==> InHeld(held, x) || x == c
    {
      if InHeld(held, x) {
        var k :| k in held && held[k] == x;
        assert next[k] == x;
      }
    }
  }

  lemma AfterRemove(held: map<Holder, Connection>, h: Holder)
    requires h in held && HeldOnce(held)
    ensures |held - {h}| == |held| - 1
    ensures HeldOnce(held - {h})
    ensures forall x :: InHeld(held - {h}, x) <==> InHeld(held, x) && x != held[h]
  {
    var next := held - {h};
    assert next.Keys == held.Keys - {h};
    forall x
      ensures InHeld(next, x) <==> InHeld(held, x) && x != held[h]
    {
      if InHeld(held, x) && x != held[h] {
        var k :| k in held && held[k] == x;
        assert next[k] == x;
      }
    }
  }

  lemma TestKeepsConserves(s: Pool, all: set<Connection>, t: Thread, wrapper: int)
    requires Conserves(s, all) && Enabled(s, Test(t, wrapper))
    ensures Conserves(Next(s, Test(t, wrapper)), all)
  {
    if Available(s) {
      AfterTakeOut(s.slots, s.used);
      var c := s.slots[s.used].value;
      assert InSlots(s.slots, c);
      AfterAdd(s.held, Wrapper(wrapper), c);
      hide SlotsOk, HeldOnce, TakeOut, InSlots, InHeld;
    }
  }

  /** A connection changes hands between wrappers, or from a wrapper to a returning thread. */
  lemma HandOverKeepsConserves(s: Pool, next: Pool, all: set<Connection>, to: Holder, from: Holder)
    requires Conserves(s, all) && from in s.held && to !in s.held
    requires next.slots == s.slots && next.used == s.used && next.held == (s.held - {from})[to := s.held[from]]
    ensures Conserves(next, all)
  {
    AfterRemove(s.held, from);
    AfterAdd(s.held - {from}, to, s.held[from]);
    assert InHeld(s.held, s.held[from]);
    hide SlotsOk, HeldOnce, InSlots, InHeld;
  }

  lemma StoreKeepsConserves(s: Pool, all: set<Connection>, t: Thread)
    requires Conserves(s, all) && InFlight(t) in s.held
    ensures s.used > 0
    ensures Conserves(Next(s, Store(t)), all)
  {
    var c := s.held[InFlight(t)];
    assert InHeld(s.held, c);
    AfterRemove(s.held, InFlight(t));
    AfterPutBack(s.slots, s.used, c);
    hide SlotsOk, HeldOnce, PutBack, InSlots, InHeld;
  }

  lemma StepKeepsConserves(s: Pool, all: set<Connection>, step: Step)
    requires Conserves(s, all) && ThreadsOk(s) && Enabled(s, step)
    ensures Conserves(Next(s, step), all)
    ensures step.Store? ==> s.used > 0
  {
    match step
    case Test(t, wrapper) => TestKeepsConserves(s, all, t, wrapper);
    case MoveConstruct(to, from) =>
      if Wrapper(from) in s.held {
        HandOverKeepsConserves(s, Next(s, step), all, Wrapper(to), Wrapper(from));
      }
    case Destroy(t, wrapper) =>
      if Wrapper(wrapper) in s.held {
        HandOverKeepsConserves(s, Next(s, step), all, InFlight(t), Wrapper(wrapper));
      }
    case Store(t) => StoreKeepsConserves(s, all, t);
    case _ =>
  }

  lemma StepKeepsThreadsOk(s: Pool, all: set<Connection>, step: Step)
    requires Conserves(s, all) && ThreadsOk(s) && Enabled(s, step)
    ensures ThreadsOk(Next(s, step))
  {
    match step
    case Test(t, wrapper) =>
      if Available(s) {
        AfterTakeOut(s.slots, s.used);
      }
      PhaseChange(s, Next(s, step), t);
    case MoveConstruct(to, from) => assert forall u :: InFlight(u) in Next(s, step).held <==> InFlight(u) in s.held;
    case Notify(t, sleeper) => NotifyKeepsThreadsOk(s, t, sleeper);
    case _ => PhaseChange(s, Next(s, step), step.t);
  }

  /** A step that changes the phase of one thread, and the mutex and the connection in flight along with it. */
  lemma PhaseChange(s: Pool, next: Pool, t: Thread)
    requires ThreadsOk(s) && t in s.threads && t in next.threads && next.threads == s.threads[t := next.threads[t]]
    requires
      || next.mutex == s.mutex
      || (s.mutex == None && next.mutex == Some(t))
      || (s.mutex == Some(t) && next.mutex == None)
    requires (next.threads[t].Inside? || next.threads[t] == Storing) <==> next.mutex == Some(t)
    requires InFlight(t) in next.held <==> next.threads[t] == Returning || next.threads[t] == Storing
    requires forall u :: u != t ==> (InFlight(u) in next.held <==> InFlight(u) in s.held)
    ensures ThreadsOk(next)
  {
  }

  lemma NotifyKeepsThreadsOk(s: Pool, t: Thread, sleeper: Thread)
    requires ThreadsOk(s) && Enabled(s, Notify(t, sleeper))
    ensures ThreadsOk(Next(s, Notify(t, sleeper)))
  {
    var mid := Move(s, t, Outside);
    PhaseChange(s, mid, t);
    if sleeper in Sleepers(s.threads) {
      PhaseChange(mid, Move(mid, sleeper, Woken), sleeper);
    }
  }

  // ---------------------------------------------------------------- runs

  lemma {:induction false} RunKeepsPoolOk(s: Pool, all: set<Connection>, steps: seq<Step>)
    requires PoolOk(s, all) && IsRun(s, steps)
    ensures PoolOk(After(s, steps), all)
    decreases |steps|
  {
    if steps != [] {
      StepKeepsConserves(s, all, steps[0]);
      StepKeepsThreadsOk(s, all, steps[0]);
      StepKeepsWakeups(s, steps[0]);
      RunKeepsPoolOk(Next(s, steps[0]), all, steps[1..]);
    }
  }

  lemma NewPoolOk(connections: seq<Connection>, threads: set<Thread>)
    requires forall i, j :: 0 <= i < j < |connections| ==> connections[i] != connections[j]
    ensures PoolOk(NewPool(connections, threads), AllOf(connections))
  {
    var s := NewPool(connections, threads);
    forall c
      ensures c in AllOf(connections) <==> InSlots(s.slots, c)
    {
      if c in connections {
        var i :| 0 <= i < |connections| && connections[i] == c;
        assert s.slots[i] == Some(c);
      }
    }
  }

  /** In every reachable state of the pool, whatever the interleaving, barging threads and spurious wakeups included:
      while a thread sleeps, there are no more free connections than notifies pending or waiters on their way. */
  lemma PoolLosesNoWakeup(connections: seq<Connection>, threads: set<Thread>, steps: seq<Step>)
    requires forall i, j :: 0 <= i < j < |connections| ==> connections[i] != connections[j]
    requires IsRun(NewPool(connections, threads), steps)
    ensures var s := After(NewPool(connections, threads), steps);
            Sleepers(s.threads) != {} ==> |s.slots| - s.used <= |OnTheWay(s.threads)|
  {
    NewPoolOk(connections, threads);
    RunKeepsPoolOk(NewPool(connections, threads), AllOf(connections), steps);
  }

  /** In every reachable state the pool and the holders have exactly the original connections, each in one place, and
      a thread about to store a connection finds one counted as used. */
  lemma PoolConservesConnections(connections: seq<Connection>, threads: set<Thread>, steps: seq<Step>)
    requires forall i, j :: 0 <= i < j < |connections| ==> connections[i] != connections[j]
    requires IsRun(NewPool(connections, threads), steps)
    ensures var s := After(NewPool(connections, threads), steps);
            && Conserves(s, AllOf(connections))
            && forall t :: Enabled(s, Store(t)) ==> s.used != 0
  {
    NewPoolOk(connections, threads);
    RunKeepsPoolOk(NewPool(connections, threads), AllOf(connections), steps);
    var s := After(NewPool(connections, threads), steps);
    forall t | Enabled(s, Store(t))
      ensures s.used != 0
    {
      StepKeepsConserves(s, AllOf(connections), Store(t));
    }
  }

  /** While a thread sleeps next to a free connection, somebody on the way can run, or whoever holds the mutex can. */
  lemma SleepersAreServed(s: Pool, all: set<Connection>) returns (step: Step)
    requires PoolOk(s, all) && Sleepers(s.threads) != {} && Free(s) > 0
    ensures Enabled(s, step)
    ensures step.Notify? || step.Lock? || step.Test? || step.Store?
    ensures step.t in OnTheWay(s.threads) || s.mutex == Some(step.t)
  {
    assert OnTheWay(s.threads) != {};
    var t := SomeElement(OnTheWay(s.threads));
    if s.threads[t] == Notifying {
      var sleeper := SomeElement(Sleepers(s.threads));
      return Notify(t, sleeper);
    }
    if s.mutex == None {
      return Lock(t);
    }
    var owner := s.mutex.value;
    if s.threads[owner] == Storing {
      return Store(owner);
    }
    var w := UnusedWrapper(s.held.Keys);
    return Test(owner, w);
  }

  /** The steps of threads that are under way in the pool already. */
  predicate IsInner(step: Step) { step.Lock? || step.Test? || step.Store? || step.Notify? }

  /** The steps run, are steps of threads under way, and the last hands a connection to a new wrapper. */
  ghost predicate HandsOut(s: Pool, steps: seq<Step>) {
    && steps != [] && IsRun(s, steps)
    && (forall step :: step in steps ==> IsInner(step))
    && var last := steps[|steps| - 1];
       last.Test? && Wrapper(last.wrapper) !in s.held && Wrapper(last.wrapper) in After(s, steps).held
  }

  lemma StepKeepsPoolOk(s: Pool, all: set<Connection>, step: Step)
    requires PoolOk(s, all) && Enabled(s, step)
    ensures PoolOk(Next(s, step), all)
  {
    StepKeepsConserves(s, all, step);
    StepKeepsThreadsOk(s, all, step);
    StepKeepsWakeups(s, step);
  }

  /** A step that hands out nothing, before steps that do. */
  lemma HandsOutLater(s: Pool, step: Step, steps: seq<Step>)
    requires Enabled(s, step) && IsInner(step) && HandsOut(Next(s, step), steps)
    requires forall w :: Wrapper(w) in s.held ==> Wrapper(w) in Next(s, step).held
    ensures HandsOut(s, [step] + steps)
  {
    var longer := [step] + steps;
    assert longer[0] == step && longer[1..] == steps;
    assert longer[|longer| - 1] == steps[|steps| - 1];
  }

  lemma InsideHandsOut(s: Pool, all: set<Connection>, t: Thread) returns (steps: seq<Step>)
    requires PoolOk(s, all) && Free(s) > 0 && t in s.threads && s.threads[t].Inside?
    ensures |steps| == 1 && HandsOut(s, steps)
  {
    var w := UnusedWrapper(s.held.Keys);
    steps := [Test(t, w)];
    AfterTakeOut(s.slots, s.used);
    assert steps[1..] == [];
    assert After(s, steps) == After(Next(s, steps[0]), []);
  }

  lemma WokenHandsOut(s: Pool, all: set<Connection>, t: Thread) returns (steps: seq<Step>)
    requires PoolOk(s, all) && Free(s) > 0 && s.mutex == None && At(s, t, Woken)
    ensures |steps| == 2 && HandsOut(s, steps)
  {
    StepKeepsPoolOk(s, all, Lock(t));
    var rest := InsideHandsOut(Next(s, Lock(t)), all, t);
    HandsOutLater(s, Lock(t), rest);
    steps := [Lock(t)] + rest;
  }

  lemma UnlockedHandsOut(s: Pool, all: set<Connection>) returns (steps: seq<Step>)
    requires PoolOk(s, all) && Free(s) > 0 && s.mutex == None && Sleepers(s.threads) != {}
    ensures |steps| <= 3 && HandsOut(s, steps)
  {
    assert OnTheWay(s.threads) != {};
    var t := SomeElement(OnTheWay(s.threads));
    if s.threads[t] == Notifying {
      var sleeper := SomeElement(Sleepers(s.threads));
      var step := Notify(t, sleeper);
      StepKeepsPoolOk(s, all, step);
      var rest := WokenHandsOut(Next(s, step), all, sleeper);
      HandsOutLater(s, step, rest);
      steps := [step] + rest;
    } else {
      steps := WokenHandsOut(s, all, t);
    }
  }

  /** While a thread sleeps next to a free connection, four steps of threads under way are enough to hand one out. */
  lemma ConnectionIsHandedOut(s: Pool, all: set<Connection>) returns (steps: seq<Step>)
    requires PoolOk(s, all) && Sleepers(s.threads) != {} && Free(s) > 0
    ensures |steps| <= 4 && HandsOut(s, steps)
  {
    if s.mutex == None {
      steps := UnlockedHandsOut(s, all);
    } else if s.threads[s.mutex.value] == Storing {
      var step := Store(s.mutex.value);
      StepKeepsPoolOk(s, all, step);
      var sleeper := SomeElement(Sleepers(s.threads));
      assert sleeper in Sleepers(Next(s, step).threads);
      var rest := UnlockedHandsOut(Next(s, step), all);
      HandsOutLater(s, step, rest);
      steps := [step] + rest;
    } else {
      steps := InsideHandsOut(s, all, s.mutex.value);
    }
  }

  /** There is always a name for one more wrapper. */
  lemma {:induction false} UnusedWrapper(used: set<Holder>) returns (w: int)
    ensures forall k :: k >= w ==> Wrapper(k) !in used
    decreases used
  {
    if used == {} {
      return 0;
    }
    var h := SomeElement(used);
    var v := UnusedWrapper(used - {h});
    w := if h.Wrapper? && h.id >= v then h.id + 1 else v;
    forall k | k >= w
      ensures Wrapper(k) !in used
    {
      assert Wrapper(k) !in used - {h};
    }
  }

  // ---------------------------------------------------------------- move assignment

  /** The defaulted move assignment: the connection held by the target, if any, is dropped. */
  function MoveAssign(s: Pool, to: int, from: int): Pool {
    if to == from then s
    else
      var rest := s.held - {Wrapper(to), Wrapper(from)};
      s.(held := if Wrapper(from) in s.held then rest[Wrapper(to) := s.held[Wrapper(from)]] else rest)
  }

  /** Move assignment keeps every connection exactly when the target holds none (or is the source). */
  lemma MoveAssignConservesIff(s: Pool, all: set<Connection>, to: int, from: int)
    requires Conserves(s, all)
    ensures Conserves(MoveAssign(s, to, from), all) <==> to == from || Wrapper(to) !in s.held
  {
    if to != from {
      var next := MoveAssign(s, to, from);
      if Wrapper(to) in s.held {
        var c := s.held[Wrapper(to)];
        assert InHeld(s.held, c);
        assert !InHeld(next.held, c);
      } else if Wrapper(from) in s.held {
        assert s.held - {Wrapper(to), Wrapper(from)} == s.held - {Wrapper(from)};
        HandOverKeepsConserves(s, next, all, Wrapper(to), Wrapper(from));
      } else {
        assert next.held == s.held;
      }
    }
  }

  // ---------------------------------------------------------------- the critical sections

  /** The slots themselves; the methods are what a thread does while it holds the mutex. */
  class Slots {
    const pool: array<Option<Connection>>
    var used: nat

    constructor (connections: seq<Connection>)
      requires forall i, j :: 0 <= i < j < |connections| ==> connections[i] != connections[j]
      ensures Valid() && fresh(pool) && used == 0
      ensures pool[..] == NewPool(connections, {}).slots
    {
      pool := new Option<Connection>[|connections|](i requires 0 <= i < |connections| => Some(connections[i]));
      used := 0;
    }

    ghost predicate Valid()
      reads this, pool
    {
      SlotsOk(pool[..], used)
    }

    /** The predicate of the wait, and what GetConnection does once it holds. */
    method TryGet() returns (c: Option<Connection>)
      requires Valid()
      modifies this, pool
      ensures Valid()
      ensures c.Some? <==> old(used) < pool.Length
      ensures c.Some? ==> InSlots(old(pool[..]), c.value) && !InSlots(pool[..], c.value)
      ensures c.Some? ==> used == old(used) + 1 && pool[..] == TakeOut(old(pool[..]), old(used))
      ensures c.None? ==> used == old(used) && pool[..] == old(pool[..])
    {
      if used >= pool.Length {
        return None;
      }
      AfterTakeOut(pool[..], used);
      c := pool[used];
      assert pool[..][used] == c;
      pool[used] := None;
      used := used + 1;
      assert pool[..] == TakeOut(old(pool[..]), old(used));
    }

    /** The block of ReturnConnection; the requirement is its assertion. */
    method Put(c: Connection)
      requires Valid() && used != 0 && !InSlots(pool[..], c)
      modifies this, pool
      ensures Valid()
      ensures used == old(used) - 1 && pool[..] == PutBack(old(pool[..]), old(used), c)
    {
      AfterPutBack(pool[..], used, c);
      used := used - 1;
      pool[used] := Some(c);
      assert pool[..] == PutBack(old(pool[..]), old(used), c);
    }
  }
}
