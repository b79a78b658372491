/** Every request the server handles is an event of the state machine, so what is proved of runs holds of its objects.
    */
module Serving {
  import opened Tokens
  import opened World
  import opened Invariants
  import opened Runs
  import opened PlayerLists
  import opened Applications

  datatype Request =
    | JoinRequest(name: string, mapId: string, uuid: int, spot: SpotDraw, draws: seq<Draws>)
    | MoveRequest(header: string, direction: string)
    | TickRequest(ms: int, plan: seq<SessionDraw>)

  /** What the environment supplies along with a request: fresh names, and the order of the session map. */
  ghost predicate Supplied(w: World, r: Request) {
    match r
    case JoinRequest(_, _, uuid, _, draws) =>
      DrawsInRange(draws) && DrawsFresh(w.tokens, draws) && forall p :: p in w.players ==> p.dog.uuid != uuid
    case MoveRequest(_, _) => true
    case TickRequest(_, plan) => IsOrder(Order(plan), w.game.sessions.Keys)
  }

  method Handle(app: Application, r: Request) returns (ghost e: Event)
    requires app.Valid() && Inv(app.State()) && Supplied(app.State(), r)
    modifies app`records, app.game, app.game.generator, app.game.loot, app.game.sessions.Values
    modifies app.players, app.players.players, DogsOf(app.players.players), app.tokens
    ensures app.Valid() && Inv(app.State())
    ensures Possible(old(app.State()), e) && app.State() == Apply(old(app.State()), e)
  {
    hide Inv, Application.Valid, Application.State, TickPossible, IsOrder, Join, Act, Tick;
    ghost var before := app.State();
    match r {
      case JoinRequest(name, mapId, uuid, spot, draws) =>
        app.StateShape();
        DrawsByText(app.State().tokens, app.tokens.Table(), draws);
        var token := app.Join(name, mapId, uuid, spot, draws);
        e := JoinEvent(name, mapId, uuid, spot, draws);
      case MoveRequest(header, direction) =>
        var done := app.Act(header, direction);
        e := ActionEvent(header, direction);
      case TickRequest(ms, plan) =>
        app.StateShape();
        var lootEvents, officeEvents := app.Tick(ms, plan);
        e := TickEvent(TickInput(ms, plan, lootEvents, officeEvents));
    }
    StepKeeps(before, e);
  }

  lemma DrawsByText<P, Q>(t: TokenTable<P>, u: TokenTable<Q>, draws: seq<Draws>)
    requires t.owner.Keys == u.owner.Keys
    ensures DrawsFresh(t, draws) <==> DrawsFresh(u, draws)
  {
    forall token
      ensures token in t.owner <==> token in u.owner
    {
      assert token in t.owner.Keys <==> token in u.owner.Keys;
    }
  }
}
