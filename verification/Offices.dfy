/** Who is paid by a tick. A player passing an office is not always paid, and this says exactly who is. */
module Offices {
  import opened Basics
  import opened World
  import opened Prices

  /** Some session has as many dogs as the player's copy of a session had. */
  predicate Matches(p: PlayerState, sessions: map<string, SessionState>, order: seq<string>) {
    exists m :: m in order && m in sessions && sessions[m].dogs == p.session.dogs
  }

  lemma {:induction false} CashInEmptiesIff(p: PlayerState, sessions: map<string, SessionState>, order: seq<string>)
    requires p.dog.bag != []
    ensures CashIn(p, sessions, order).session == p.session
    ensures CashIn(p, sessions, order).dog.bag == if Matches(p, sessions, order) then [] else p.dog.bag
  {
    if order != [] {
      var before, m := order[..|order| - 1], order[|order| - 1];
      CashInEmptiesIff(p, sessions, before);
      assert order == before + [m];
      assert Matches(p, sessions, order) <==>
             Matches(p, sessions, before) || (m in sessions && sessions[m].dogs == p.session.dogs);
    }
  }

  /** The first session, in iteration order, that matches. */
  function FirstMatch(p: PlayerState, sessions: map<string, SessionState>, order: seq<string>): (m: Option<string>)
    ensures m.Some? ==> m.value in sessions
  {
    if order == [] then None
    else
      var earlier, m := FirstMatch(p, sessions, order[..|order| - 1]), order[|order| - 1];
      if earlier.Some? then earlier
      else if m in sessions && sessions[m].dogs == p.session.dogs then Some(m)
      else None
  }

  /** Whatever the value tables are, the bag is paid for once, by the table of the first session that matches. */
  lemma {:induction false} FirstMatchPays(p: PlayerState, sessions: map<string, SessionState>, order: seq<string>)
    ensures var q, m := CashIn(p, sessions, order), FirstMatch(p, sessions, order);
            q == if m.None? then p
                 else p.(score := p.score + BagValue(sessions[m.value].mapInfo.lootValues, p.dog.bag),
                         dog := p.dog.(bag := []))
  {
    if order != [] {
      FirstMatchPays(p, sessions, order[..|order| - 1]);
    }
  }

  /** The n-th session in iteration order is the first with as many dogs as the player's copy of a session had. */
  predicate MatchesFirst(p: PlayerState, sessions: map<string, SessionState>, order: seq<string>, n: nat) {
    && n < |order| && order[n] in sessions && sessions[order[n]].dogs == p.session.dogs
    && forall j :: 0 <= j < n && order[j] in sessions ==> sessions[order[j]].dogs != p.session.dogs
  }

  lemma {:induction false} MatchesFirstIff(p: PlayerState, sessions: map<string, SessionState>, order: seq<string>,
                                           n: nat)
    requires MatchesFirst(p, sessions, order, n)
    ensures FirstMatch(p, sessions, order) == Some(order[n])
  {
    var before := order[..|order| - 1];
    if n < |before| {
      MatchesFirstIff(p, sessions, before, n);
    } else {
      NoneMatches(p, sessions, before);
    }
  }

  lemma {:induction false} NoneMatches(p: PlayerState, sessions: map<string, SessionState>, order: seq<string>)
    requires forall j :: 0 <= j < |order| && order[j] in sessions ==> sessions[order[j]].dogs != p.session.dogs
    ensures FirstMatch(p, sessions, order) == None
  {
    if order != [] {
      NoneMatches(p, sessions, order[..|order| - 1]);
    }
  }

  /** Payment in points: a bag whose types are in the table of the first session that matches is worth the sum of the
      values in that table. */
  lemma FirstMatchPaysPrice(p: PlayerState, sessions: map<string, SessionState>, order: seq<string>, n: nat)
    requires MatchesFirst(p, sessions, order, n)
    requires KindsInRange(p.dog.bag, sessions[order[n]].mapInfo.lootValues)
    ensures CashIn(p, sessions, order) ==
            p.(score := p.score + Price(p.dog.bag, sessions[order[n]].mapInfo.lootValues), dog := p.dog.(bag := []))
  {
    MatchesFirstIff(p, sessions, order, n);
    FirstMatchPays(p, sessions, order);
    BagValueIsPrice(sessions[order[n]].mapInfo.lootValues, p.dog.bag);
  }

  /** The office loop empties the bag of a player exactly if the first event of all is that player's, and some session
      matches the number of dogs seen when the player entered. */
  lemma OfficeEmptiesBagIff(w: World, t: TickInput, k: nat)
    requires IsOrder(Order(t.plan), w.game.sessions.Keys) && k < |w.players| && w.players[k].dog.bag != []
    ensures CashOffices(w, t).players[k].dog.bag == [] <==>
            && t.officeEvents != [] && t.officeEvents[0].gatherer == k
            && Matches(w.players[k], w.game.sessions, Order(t.plan))
  {
    CashInEmptiesIff(w.players[k], w.game.sessions, Order(t.plan));
  }
}
