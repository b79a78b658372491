/** What a save followed by a restore preserves. */
module RoundTrip {
  import opened Basics
  import opened Tokens
  import opened World
  import opened Invariants
  import opened Preservation
  import opened Snapshot

  // ---------------------------------------------------------------- players and sessions

  /** A player as it stands before its dog is restored. */
  ghost predicate Reentered(p: PlayerState, q: PlayerState) {
    && q.id == p.id && q.score == p.score && q.online == p.online
    && q.session.mapInfo == p.session.mapInfo && q.session.dogs == p.session.dogs
    && q.dog.id == p.dog.id && q.dog.bag == []
  }

  ghost predicate SessionsUpTo(w: World, sessions: map<string, SessionState>, n: nat)
    requires n <= |w.players|
  {
    && (forall m :: m in sessions <==> DogCount(w.players[..n], m) > 0)
    && (forall m :: m in sessions ==>
          && m in w.game.sessions
          && sessions[m] == w.game.sessions[m].(dogs := DogCount(w.players[..n], m), loot := {}))
  }

  /** The state after the first n players have re-entered. */
  ghost predicate ReenteredUpTo(w: World, v: World, n: nat)
    requires n <= |w.players|
  {
    && |v.players| == n
    && (forall i :: 0 <= i < n ==> Reentered(w.players[i], v.players[i]))
    && v.game == w.game.(timer := v.game.timer, lootClock := 0, sessions := v.game.sessions)
    && SessionsUpTo(w, v.game.sessions, n)
    && v.tokens == TokenTable([], map[]) && v.records == w.records
  }

  lemma OnePlayerReenters(w: World, v: World, n: nat, d: RestoreDraws)
    requires SessionsOk(w.game, w.players) && n < |w.players| && ReenteredUpTo(w, v, n)
    ensures ReenteredUpTo(w, RestorePlayer(v, SavePlayer(w.players[n]), d), n + 1)
  {
    var p := w.players[n];
    var m := p.session.mapInfo;
    assert MembershipOk(w.game, w.players, n);
    assert SessionOk(w.game, w.players, m.id);
    SessionReenters(w, v, n, m);
    hide SessionsUpTo, DogCount, EnterGame, GetGameSession, FindMap, SessionsOk;
    assert FindMap(v.game.config.maps, m.id) == Some(m);
  }

  lemma SessionReenters(w: World, v: World, n: nat, m: MapInfo)
    requires n < |w.players| && ReenteredUpTo(w, v, n) && w.players[n].session.mapInfo == m
    requires m.id in w.game.sessions && w.game.sessions[m.id].mapInfo == m
    requires SessionOk(w.game, w.players, m.id)
    ensures GetGameSession(v.game, m).sessions[m.id] ==
            w.game.sessions[m.id].(dogs := DogCount(w.players[..n], m.id), loot := {})
    ensures EnterGame(v.game, m) == v.game.(sessions := EnterGame(v.game, m).sessions)
    ensures SessionsUpTo(w, EnterGame(v.game, m).sessions, n + 1)
  {
    hide DogCount;
    assert w.players[..n + 1] == w.players[..n] + [w.players[n]];
    forall k
      ensures DogCount(w.players[..n + 1], k) == DogCount(w.players[..n], k) + if k == m.id then 1 else 0
    {
      DogCountAppend(w.players[..n], w.players[n], k);
    }
  }

  lemma {:induction false} PlayersReenter(w: World, v: World, n: nat, d: RestoreDraws, snaps: seq<PlayerSnapshot>)
    requires SessionsOk(w.game, w.players) && n <= |w.players|
    requires |snaps| == n && forall i :: 0 <= i < n ==> snaps[i] == SavePlayer(w.players[i])
    requires ReenteredUpTo(w, v, 0)
    ensures ReenteredUpTo(w, RestorePlayers(v, snaps, d), n)
  {
    if n > 0 {
      PlayersReenter(w, v, n - 1, d, snaps[..n - 1]);
      OnePlayerReenters(w, RestorePlayers(v, snaps[..n - 1], d), n - 1, d);
    }
  }

  // ---------------------------------------------------------------- session loot

  ghost predicate InRange(g: GameState, ids: seq<int>) {
    forall id :: id in ids ==> 0 <= id < |g.loot|
  }

  /** Only the places of the listed objects may have changed. */
  ghost predicate OnlyMoved(g: GameState, h: GameState, ids: seq<int>) {
    && h == g.(loot := h.loot, sessions := h.sessions)
    && |h.loot| == |g.loot|
    && forall i :: 0 <= i < |g.loot| ==>
         h.loot[i] == g.loot[i].(pos := h.loot[i].pos) && (i !in ids ==> h.loot[i] == g.loot[i])
  }

  /** Without random placement, every session places loot at c, and the listed objects lie there already. */
  ghost predicate PlacedAt(g: GameState, ids: seq<int>, c: Coords) {
    && !g.config.random
    && (forall m :: m in g.sessions ==> AtCell(g.sessions[m].mapInfo.roads[0].start) == c)
    && (forall id :: id in ids && 0 <= id < |g.loot| ==> g.loot[id].pos == c)
  }

  lemma ElementsSplit(ids: seq<int>)
    requires ids != []
    ensures Elements(ids) == Elements(ids[..|ids| - 1]) + {ids[|ids| - 1]}
  {
  }

  lemma {:induction false} AddNewLootsShare(g: GameState, m: string, ids: seq<int>, spots: nat -> SpotDraw)
    requires m in g.sessions && InRange(g, ids)
    ensures var h := AddNewLoots(g, m, ids, spots);
            && |h.loot| == |g.loot|
            && h.sessions == g.sessions[m := g.sessions[m].(loot := g.sessions[m].loot + Elements(ids))]
  {
    if ids == [] {
      assert g.sessions[m].loot + Elements(ids) == g.sessions[m].loot;
    } else {
      var n := |ids| - 1;
      assert forall id :: id in ids[..n] ==> id in ids;
      AddNewLootsShare(g, m, ids[..n], spots);
      ElementsSplit(ids);
      assert ids[n] in ids;
      assert g.sessions[m].loot + Elements(ids[..n]) + {ids[n]} == g.sessions[m].loot + Elements(ids);
    }
  }

  lemma {:induction false} AddNewLootsMove(g: GameState, m: string, ids: seq<int>, spots: nat -> SpotDraw, c: Coords)
    requires m in g.sessions
    ensures var h := AddNewLoots(g, m, ids, spots);
            && OnlyMoved(g, h, ids)
            && h.sessions[m].mapInfo == g.sessions[m].mapInfo
            && (PlacedAt(g, ids, c) ==> h.loot == g.loot)
  {
    if ids != [] {
      var n := |ids| - 1;
      assert forall id :: id in ids[..n] ==> id in ids;
      assert ids[n] in ids;
      AddNewLootsMove(g, m, ids[..n], spots, c);
    }
  }

  predicate Listed(maps: seq<MapInfo>, m: string) {
    exists i :: 0 <= i < |maps| && maps[i].id == m
  }

  /** What a session looks like once it has been told the first saved entry. */
  function Told(s: SessionState, first: SessionSnapshot): SessionState {
    s.(retired := first.retired, loot := s.loot + Elements(first.lootIds))
  }

  lemma {:induction false} RestoreSessionsEffect(
    g: GameState, maps: seq<MapInfo>, saved: seq<SessionSnapshot>, spots: nat -> SpotDraw, c: Coords)
    requires saved != [] && InRange(g, saved[0].lootIds)
    ensures var h := RestoreSessions(g, maps, saved, spots);
            && OnlyMoved(g, h, saved[0].lootIds)
            && (forall m :: m in g.sessions ==>
                  h.sessions[m] == if Listed(maps, m) then Told(g.sessions[m], saved[0]) else g.sessions[m])
            && (PlacedAt(g, saved[0].lootIds, c) ==> h.loot == g.loot)
  {
    hide AddNewLoots, Elements;
    if maps != [] {
      var n := |maps| - 1;
      RestoreSessionsEffect(g, maps[..n], saved, spots, c);
      ListedSplit(maps);
      var h := RestoreSessions(g, maps[..n], saved, spots);
      var m := maps[n].id;
      if m in h.sessions {
        var told := h.(sessions := h.sessions[m := h.sessions[m].(retired := saved[0].retired)]);
        AddNewLootsShare(told, m, saved[0].lootIds, spots);
        AddNewLootsMove(told, m, saved[0].lootIds, spots, c);
        assert g.sessions[m].loot + Elements(saved[0].lootIds) + Elements(saved[0].lootIds)
            == g.sessions[m].loot + Elements(saved[0].lootIds);
        if PlacedAt(g, saved[0].lootIds, c) {
          assert PlacedAt(told, saved[0].lootIds, c);
        }
      }
    }
  }

  lemma ListedSplit(maps: seq<MapInfo>)
    requires maps != []
    ensures forall m :: Listed(maps, m) <==> Listed(maps[..|maps| - 1], m) || m == maps[|maps| - 1].id
  {
    var n := |maps| - 1;
    forall m
      ensures Listed(maps, m) <==> Listed(maps[..n], m) || m == maps[n].id
    {
      if Listed(maps, m) {
        var i :| 0 <= i < |maps| && maps[i].id == m;
        assert i < n ==> maps[..n][i].id == m;
      }
      if Listed(maps[..n], m) {
        var i :| 0 <= i < n && maps[..n][i].id == m;
        assert maps[i].id == m;
      }
    }
  }

  // ---------------------------------------------------------------- dogs

  lemma {:induction false} TakeAllExact(d: DogState, ids: seq<int>, loot: seq<Loot>)
    requires d.bag == [] && (d.capacity < 0 || |ids| <= d.capacity)
    requires forall k :: 0 <= k < |ids| ==> 0 <= ids[k] < |loot|
    ensures var bag := TakeAll(d, ids, loot).bag;
            && TakeAll(d, ids, loot) == d.(bag := bag)
            && |bag| == |ids| && forall k :: 0 <= k < |ids| ==> bag[k] == loot[ids[k]]
  {
    if ids != [] {
      var n := |ids| - 1;
      TakeAllExact(d, ids[..n], loot);
    }
  }

  /** The bag after a restore: the same objects in the same order, as copies made after they were taken. */
  ghost predicate SameBag(bag: seq<Loot>, after: seq<Loot>) {
    |after| == |bag| && forall k :: 0 <= k < |bag| ==> after[k] == bag[k].(visible := false)
  }

  /** A dog after a restore: everything but the velocity, which follows from direction and nominal speed. */
  ghost predicate SameDogAfter(d: DogState, e: DogState) {
    && SameBag(d.bag, e.bag)
    && e == SetDirection(d, d.dir).(bag := e.bag)
  }

  lemma DogRestored(d: DogState, blank: DogState, loot: seq<Loot>)
    requires blank.id == d.id && blank.bag == []
    requires d.capacity < 0 || |d.bag| <= d.capacity
    requires forall k :: 0 <= k < |d.bag| ==>
               0 <= d.bag[k].id < |loot| && loot[d.bag[k].id] == d.bag[k].(visible := false)
    ensures SameDogAfter(d, RestoreDog(blank, SaveDog(d), loot))
  {
    var s := SaveDog(d);
    var placed := SetDirection(blank.(name := s.name, pos := s.pos, start := s.start, nominalSpeed := s.nominalSpeed),
                               s.dir);
    var e := placed.(capacity := s.capacity, lastActivity := s.lastActivity, startTime := s.startTime, clock := s.clock,
                     uuid := s.uuid);
    TakeAllExact(e, s.lootIds, loot);
  }

  // ---------------------------------------------------------------- tokens

  predicate Distinct(s: seq<string>) {
    forall i, j :: 0 <= i < j < |s| ==> s[i] != s[j]
  }

  lemma {:induction false} TokenPlayersCount(t: TokenTable<nat>, n: nat)
    requires Sound(t) && n <= |t.issued|
    ensures |TokenPlayers(t, n)| == n && forall k :: 0 <= k < n ==> TokenPlayers(t, n)[k] == k
  {
    if n > 0 {
      TokenPlayersCount(t, n - 1);
      assert t.issued[n - 1] in t.issued;
    }
  }

  /** The table of the first n tokens. */
  ghost predicate TableUpTo(r: TokenTable<nat>, issued: seq<string>, n: nat)
    requires n <= |issued|
  {
    && r.issued == issued[..n]
    && (forall token :: token in r.owner <==> token in issued[..n])
    && (forall k :: 0 <= k < n ==> issued[k] in r.owner && r.owner[issued[k]] == k)
  }

  lemma IssueExtendsTable(r: TokenTable<nat>, issued: seq<string>, n: nat)
    requires n < |issued| && TableUpTo(r, issued, n)
    requires Distinct(issued)
    ensures TableUpTo(Issue(r, issued[n], n), issued, n + 1)
  {
  }

  lemma EmptyTable(issued: seq<string>)
    ensures TableUpTo(TokenTable([], map[]), issued, 0)
  {
  }

  lemma {:induction false} TokensRestored(issued: seq<string>, owners: seq<int>, n: nat)
    requires Distinct(issued)
    requires |owners| == |issued| && forall k :: 0 <= k < |owners| ==> owners[k] == k
    requires n <= |issued|
    ensures TableUpTo(RestoreTokens(TokenTable([], map[]), issued, owners, n), issued, n)
  {
    hide TableUpTo, Distinct;
    if n == 0 {
      EmptyTable(issued);
    } else {
      TokensRestored(issued, owners, n - 1);
      var before := RestoreTokens(TokenTable([], map[]), issued, owners, n - 1);
      assert owners[n - 1] == n - 1;
      IssueExtendsTable(before, issued, n - 1);
    }
  }

  lemma SameTable(r: TokenTable<nat>, t: TokenTable<nat>)
    requires Sound(t) && r.issued == t.issued
    requires forall token :: token in r.owner <==> token in t.issued
    requires forall k :: 0 <= k < |t.issued| ==> t.issued[k] in r.owner && r.owner[t.issued[k]] == k
    ensures r == t
  {
    forall token | token in t.owner
      ensures r.owner[token] == t.owner[token]
    {
      var k :| 0 <= k < |t.issued| && t.issued[k] == token;
    }
    assert r.owner == t.owner;
  }

  lemma AllTokensRestored(t: TokenTable<nat>)
    requires Sound(t)
    ensures RestoreTokens(TokenTable([], map[]), t.issued, TokenPlayers(t, |t.issued|), |t.issued|) == t
  {
    hide RestoreTokens, TokenPlayers;
    TokenPlayersCount(t, |t.issued|);
    TokensRestored(t.issued, TokenPlayers(t, |t.issued|), |t.issued|);
    assert t.issued[..|t.issued|] == t.issued;
    SameTable(RestoreTokens(TokenTable([], map[]), t.issued, TokenPlayers(t, |t.issued|), |t.issued|), t);
  }

  // ---------------------------------------------------------------- the whole round trip

  /** A player after a restore. */
  ghost predicate SamePlayerAfter(p: PlayerState, q: PlayerState) {
    && q.id == p.id && q.score == p.score && q.online == p.online
    && q.session.mapInfo == p.session.mapInfo && q.session.dogs == p.session.dogs
    && SameDogAfter(p.dog, q.dog)
  }

  function Restored(w: World, listing: seq<seq<int>>, d: RestoreDraws): World
    requires ListsLoot(w.game, listing)
  {
    Restore(Fresh(w), Save(w, listing), d)
  }

  /** The state of a restore before its sessions are told about loot. */
  function Rejoined(w: World, listing: seq<seq<int>>, d: RestoreDraws): World
    requires ListsLoot(w.game, listing)
  {
    var a := Save(w, listing);
    RestorePlayers(Fresh(w).(game := RestoreGame(Fresh(w).game, a)), a.players, d)
  }

  lemma RejoinedExact(w: World, listing: seq<seq<int>>, d: RestoreDraws)
    requires Inv(w) && ListsLoot(w.game, listing)
    ensures ReenteredUpTo(w, Rejoined(w, listing, d), |w.players|)
    ensures Rejoined(w, listing, d).game.sessions.Keys == w.game.sessions.Keys
  {
    hide Sound, RecordsOk;
    var a := Save(w, listing);
    var v := Fresh(w).(game := RestoreGame(Fresh(w).game, a));
    assert w.players[..|w.players|] == w.players && w.players[..0] == [];
    PlayersReenter(w, v, |w.players|, d, a.players);
    hide RestorePlayers;
    assert forall m :: m in w.game.sessions ==> SessionOk(w.game, w.players, m);
    var keys := Rejoined(w, listing, d).game.sessions.Keys;
    assert forall m :: m in keys <==> m in w.game.sessions;
  }

  /** Active maps are exactly the maps with sessions, and without players there is none. */
  lemma ActiveAreSessions(w: World)
    requires Inv(w)
    ensures forall m :: m in Active(w.game) <==> m in w.game.sessions
    ensures forall m :: m in w.game.sessions ==> Listed(w.game.config.maps, m)
  {
    ActiveMapsHaveSessions(w.game.config.maps, w.game.sessions);
    forall m | m in w.game.sessions
      ensures Listed(w.game.config.maps, m)
    {
      assert SessionOk(w.game, w.players, m);
      FindMapById(w.game.config.maps, m);
      var i :| 0 <= i < |w.game.config.maps| && w.game.config.maps[i] == w.game.sessions[m].mapInfo;
      assert w.game.config.maps[i].id == m;
    }
  }

  /** The entry every session reads: that of the first active map. */
  lemma FirstEntry(w: World, listing: seq<seq<int>>)
    requires Inv(w) && ListsLoot(w.game, listing) && Active(w.game) != []
    ensures Active(w.game)[0] in w.game.sessions
    ensures var first := SaveSessions(w.game, listing)[0];
            && first.retired == 0
            && Elements(first.lootIds) == w.game.sessions[Active(w.game)[0]].loot
            && InRange(w.game, first.lootIds)
            && forall id :: id in first.lootIds ==> w.game.loot[id].visible
  {
    ActiveAreSessions(w);
    var m := Active(w.game)[0];
    assert m in Active(w.game);
    assert SessionOk(w.game, w.players, m);
    var first := SaveSessions(w.game, listing)[0];
    assert forall id :: id in Elements(first.lootIds) <==> id in w.game.sessions[m].loot;
    forall id | id in first.lootIds
      ensures 0 <= id < |w.game.loot| && w.game.loot[id].visible
    {
      assert Holds(w.game, m, id);
    }
  }

  /** The loot objects after a restore: only visible ones may lie somewhere else. */
  ghost predicate SameLootButPlaces(g: GameState, h: GameState) {
    && |h.loot| == |g.loot|
    && forall i :: 0 <= i < |g.loot| ==>
         h.loot[i] == g.loot[i].(pos := h.loot[i].pos) && (!g.loot[i].visible ==> h.loot[i] == g.loot[i])
  }

  /** Every session holds what the first one held. */
  ghost predicate AllHoldFirst(g: GameState, h: GameState, first: string) {
    && h.sessions.Keys == g.sessions.Keys
    && first in g.sessions
    && forall m :: m in g.sessions ==> h.sessions[m] == g.sessions[m].(loot := g.sessions[first].loot)
  }

  /** What a game becomes by a save and a restore, for any number of sessions. */
  ghost predicate ComesBackAs(g: GameState, r: GameState) {
    && r == g.(timer := r.timer, lootClock := 0, loot := r.loot, sessions := r.sessions)
    && SameLootButPlaces(g, r)
    && if Active(g) == [] then r.sessions == g.sessions == map[] else AllHoldFirst(g, r, Active(g)[0])
  }

  lemma RestoredGame(w: World, listing: seq<seq<int>>, d: RestoreDraws)
    requires Inv(w) && ListsLoot(w.game, listing)
    ensures Restored(w, listing, d).game ==
            RestoreSessions(Rejoined(w, listing, d).game, w.game.config.maps, SaveSessions(w.game, listing),
                            d.lootSpots)
  {
    hide Inv, RestoreSessions, RestorePlayers, SaveSessions, SessionsUpTo;
    RejoinedExact(w, listing, d);
  }

  lemma GameRestored(w: World, listing: seq<seq<int>>, d: RestoreDraws)
    requires Inv(w) && ListsLoot(w.game, listing)
    ensures ComesBackAs(w.game, Restored(w, listing, d).game)
  {
    hide Inv, RestoreSessions, SessionsUpTo, SaveSessions, ListsLoot;
    var g, v := w.game, Rejoined(w, listing, d);
    RejoinedExact(w, listing, d);
    ActiveAreSessions(w);
    RestoredGame(w, listing, d);
    if Active(g) == [] {
      assert forall m :: m in g.sessions ==> m in Active(g);
      assert g.sessions == map[] && v.game.sessions == map[];
      NoSavedSessions(v.game, g.config.maps, d.lootSpots);
      assert SaveSessions(g, listing) == [];
    } else {
      FirstEntry(w, listing);
      var first := SaveSessions(g, listing)[0];
      RestoreSessionsEffect(v.game, g.config.maps, SaveSessions(g, listing), d.lootSpots, Coords(0.0, 0.0));
      forall m | m in g.sessions
        ensures Told(v.game.sessions[m], first) == g.sessions[m].(loot := g.sessions[Active(g)[0]].loot)
      {
        SessionComesBack(w, v, m, first);
      }
    }
  }

  lemma SessionComesBack(w: World, v: World, m: string, first: SessionSnapshot)
    requires Inv(w) && m in w.game.sessions && ReenteredUpTo(w, v, |w.players|) && first.retired == 0
    ensures m in v.game.sessions
    ensures Told(v.game.sessions[m], first) == w.game.sessions[m].(loot := Elements(first.lootIds))
  {
    assert SessionOk(w.game, w.players, m);
    assert w.players[..|w.players|] == w.players;
    assert {} + Elements(first.lootIds) == Elements(first.lootIds);
  }

  lemma {:induction false} NoSavedSessions(g: GameState, maps: seq<MapInfo>, spots: nat -> SpotDraw)
    ensures RestoreSessions(g, maps, [], spots) == g
  {
    if maps != [] {
      NoSavedSessions(g, maps[..|maps| - 1], spots);
    }
  }

  /** For any number of sessions: players, dogs, bags, clocks and tokens come back. */
  lemma PlayersSurvive(w: World, listing: seq<seq<int>>, d: RestoreDraws)
    requires Inv(w) && ListsLoot(w.game, listing)
    ensures var r := Restored(w, listing, d);
            && |r.players| == |w.players|
            && (forall i :: 0 <= i < |w.players| ==> SamePlayerAfter(w.players[i], r.players[i]))
            && r.tokens == w.tokens
            && r.records == w.records
  {
    var r, v := Restored(w, listing, d), Rejoined(w, listing, d);
    assert r.players == RestoreDogs(v.players, Save(w, listing).dogs, r.game.loot);
    assert r.tokens == RestoreTokens(v.tokens, w.tokens.issued, TokenPlayers(w.tokens, |w.tokens.issued|),
                                     |w.tokens.issued|);
    assert r.records == v.records;
    assert forall i :: 0 <= i < |w.players| ==> Save(w, listing).dogs[i] == SaveDog(w.players[i].dog);
    RejoinedExact(w, listing, d);
    GameRestored(w, listing, d);
    AllTokensRestored(w.tokens);
    hide Restored, Rejoined, Save, RestoreTokens, SaveDog, RestoreDog;
    forall i | 0 <= i < |w.players|
      ensures SamePlayerAfter(w.players[i], r.players[i])
    {
      PlayerSurvives(w, r.game.loot, i, v.players[i]);
    }
  }

  lemma PlayerSurvives(w: World, loot: seq<Loot>, i: nat, q: PlayerState)
    requires Inv(w) && i < |w.players| && Reentered(w.players[i], q)
    requires |loot| == |w.game.loot|
    requires forall k :: 0 <= k < |loot| && !w.game.loot[k].visible ==> loot[k] == w.game.loot[k]
    ensures SamePlayerAfter(w.players[i], q.(dog := RestoreDog(q.dog, SaveDog(w.players[i].dog), loot)))
  {
    var p := w.players[i];
    assert forall k :: 0 <= k < |p.dog.bag| ==> Bagged(w.players, i, k);
    DogRestored(p.dog, q.dog, loot);
  }

  // ---------------------------------------------------------------- when the invariant comes back

  lemma {:induction false} ActiveMapsDiffer(maps: seq<MapInfo>, sessions: map<string, SessionState>)
    requires forall i, j :: 0 <= i < j < |maps| ==> maps[i].id != maps[j].id
    ensures Distinct(ActiveMaps(maps, sessions))
  {
    if maps != [] {
      var n := |maps| - 1;
      ActiveMapsDiffer(maps[..n], sessions);
      ActiveMapsHaveSessions(maps[..n], sessions);
      forall m | m in ActiveMaps(maps[..n], sessions)
        ensures m != maps[n].id
      {
        var i :| 0 <= i < n && maps[..n][i].id == m;
        assert maps[i].id == m;
      }
      AppendKeepsDistinct(ActiveMaps(maps[..n], sessions), maps[n].id);
    }
  }

  lemma AppendKeepsDistinct(s: seq<string>, x: string)
    requires x !in s && Distinct(s)
    ensures Distinct(s + [x])
    ensures s + [] == s
  {
  }

  /** With at most one session, the sessions come back as they were. */
  lemma OneSessionComesBack(w: World, r: GameState)
    requires Inv(w) && ComesBackAs(w.game, r) && |Active(w.game)| <= 1
    ensures r.sessions == w.game.sessions
  {
    hide LootOk, SessionsOk, DogOk, RecordsOk, TokensOk, ConfigOk, Active, SameLootButPlaces;
    var g := w.game;
    ActiveAreSessions(w);
    if Active(g) != [] {
      forall m | m in g.sessions
        ensures r.sessions[m] == g.sessions[m]
      {
        assert m in Active(g);
        assert m == Active(g)[0];
      }
    }
  }

  /** Without random placement, the loot of the only session is put where it was. */
  lemma PlacesComeBack(w: World, listing: seq<seq<int>>, d: RestoreDraws)
    requires Inv(w) && ListsLoot(w.game, listing)
    requires |Active(w.game)| <= 1 && !w.game.config.random
    ensures Restored(w, listing, d).game.loot == w.game.loot
  {
    hide Inv, RestoreSessions;
    var g, v := w.game, Rejoined(w, listing, d).game;
    RejoinedExact(w, listing, d);
    ActiveAreSessions(w);
    if Active(g) == [] {
      NoSavedSessions(v, g.config.maps, d.lootSpots);
      assert SaveSessions(g, listing) == [];
    } else {
      FirstEntry(w, listing);
      var first := SaveSessions(g, listing)[0];
      var c := AtCell(g.sessions[Active(g)[0]].mapInfo.roads[0].start);
      OnlySessionPlacesAt(w, v, first.lootIds, c);
      RestoreSessionsEffect(v, g.config.maps, SaveSessions(g, listing), d.lootSpots, c);
    }
  }

  lemma OnlySessionPlacesAt(w: World, v: GameState, ids: seq<int>, c: Coords)
    requires Inv(w) && |Active(w.game)| == 1 && !w.game.config.random
    requires Active(w.game)[0] in w.game.sessions
    requires c == AtCell(w.game.sessions[Active(w.game)[0]].mapInfo.roads[0].start)
    requires Elements(ids) == w.game.sessions[Active(w.game)[0]].loot
    requires v.config == w.game.config && v.loot == w.game.loot && v.sessions.Keys == w.game.sessions.Keys
    requires forall m :: m in v.sessions ==> v.sessions[m].mapInfo == w.game.sessions[m].mapInfo
    ensures PlacedAt(v, ids, c)
  {
    hide SessionOk, MembershipOk, BagsHoldTaken, BagsAreDisjoint, BagsWithinCapacity, DogOk, RecordsOk,
         TokensOk, ConfigOk, Active;
    var g := w.game;
    ActiveAreSessions(w);
    forall id | id in ids
      ensures 0 <= id < |g.loot| && g.loot[id].pos == c
    {
      assert id in Elements(ids);
      assert Holds(g, Active(g)[0], id) && IsVisible(g, id);
    }
    forall n | n in v.sessions
      ensures n == Active(g)[0]
    {
      assert n in Active(g);
    }
  }

  /** With at most one session and no random placement, the whole game comes back: only the fraction of a second on
      the timer and the generator's clock are lost. */
  lemma LootSurvives(w: World, listing: seq<seq<int>>, d: RestoreDraws)
    requires Inv(w) && ListsLoot(w.game, listing)
    requires |Active(w.game)| <= 1 && !w.game.config.random
    ensures Restored(w, listing, d).game == w.game.(timer := Trunc(w.game.timer) as real, lootClock := 0)
  {
    hide Restored;
    GameRestored(w, listing, d);
    OneSessionComesBack(w, Restored(w, listing, d).game);
    PlacesComeBack(w, listing, d);
    RestoreKeepsTimer(w, listing, d);
  }

  lemma RestoreKeepsTimer(w: World, listing: seq<seq<int>>, d: RestoreDraws)
    requires Inv(w) && ListsLoot(w.game, listing)
    ensures Restored(w, listing, d).game.timer == Trunc(w.game.timer) as real
  {
    var a := Save(w, listing);
    var v := Fresh(w).(game := RestoreGame(Fresh(w).game, a));
    PlayersKeepTimer(v, a.players, d);
    SessionsKeepTimer(Rejoined(w, listing, d).game, w.game.config.maps, a.sessions, d.lootSpots);
    RejoinedExact(w, listing, d);
  }

  lemma {:induction false} PlayersKeepTimer(v: World, snaps: seq<PlayerSnapshot>, d: RestoreDraws)
    ensures RestorePlayers(v, snaps, d).game.timer == v.game.timer
  {
    if snaps != [] {
      PlayersKeepTimer(v, snaps[..|snaps| - 1], d);
    }
  }

  lemma {:induction false} SessionsKeepTimer(g: GameState, maps: seq<MapInfo>, saved: seq<SessionSnapshot>,
                                                spots: nat -> SpotDraw)
    ensures RestoreSessions(g, maps, saved, spots).timer == g.timer
  {
    if maps != [] {
      SessionsKeepTimer(g, maps[..|maps| - 1], saved, spots);
      var h, m := RestoreSessions(g, maps[..|maps| - 1], saved, spots), maps[|maps| - 1].id;
      if m in h.sessions && saved != [] {
        var told := h.(sessions := h.sessions[m := h.sessions[m].(retired := saved[0].retired)]);
        AddNewLootsMove(told, m, saved[0].lootIds, spots, Coords(0.0, 0.0));
      }
    }
  }

  /** No session has loot lying about. */
  ghost predicate NoLootLies(g: GameState) {
    forall m :: m in g.sessions ==> g.sessions[m].loot == {}
  }

  lemma BagsComeBackOk(w: World, r: World)
    requires Inv(w) && |r.players| == |w.players| && SameLootButPlaces(w.game, r.game)
    requires forall i :: 0 <= i < |w.players| ==> SamePlayerAfter(w.players[i], r.players[i])
    ensures BagsHoldTaken(r.game, r.players) && BagsAreDisjoint(r.players) && BagsWithinCapacity(r.players)
  {
    forall i, k | Bagged(r.players, i, k)
      ensures Bagged(w.players, i, k) && r.players[i].dog.bag[k] == w.players[i].dog.bag[k].(visible := false)
    {
      assert SamePlayerAfter(w.players[i], r.players[i]);
    }
    assert forall i :: 0 <= i < |w.players| ==> SamePlayerAfter(w.players[i], r.players[i]);
  }

  lemma SetDirectionOk(d: DogState)
    requires WholeSpeed(d.nominalSpeed)
    ensures SpeedOk(SetDirection(d, d.dir))
  {
  }

  lemma DogsComeBackOk(w: World, r: World)
    requires Inv(w) && |r.players| == |w.players|
    requires forall i :: 0 <= i < |w.players| ==> SamePlayerAfter(w.players[i], r.players[i])
    ensures forall p :: p in r.players ==> DogOk(p, w.game.config.retirementTime)
  {
    forall q | q in r.players
      ensures DogOk(q, w.game.config.retirementTime)
    {
      var i :| 0 <= i < |r.players| && r.players[i] == q;
      assert SamePlayerAfter(w.players[i], q);
      assert DogOk(w.players[i], w.game.config.retirementTime);
      SetDirectionOk(w.players[i].dog);
    }
  }

  lemma {:induction false} SameMapsSameCount(players: seq<PlayerState>, after: seq<PlayerState>, m: string)
    requires |after| == |players|
    requires forall i :: 0 <= i < |players| ==> after[i].session.mapInfo == players[i].session.mapInfo
    ensures DogCount(after, m) == DogCount(players, m)
  {
    if players != [] {
      SameMapsSameCount(players[..|players| - 1], after[..|after| - 1], m);
    }
  }

  /** The sessions come back, unless there are several and loot lies about. */
  lemma SessionsComeBack(w: World, r: GameState)
    requires Inv(w) && ComesBackAs(w.game, r)
    requires |Active(w.game)| <= 1 || NoLootLies(w.game)
    ensures r.sessions == w.game.sessions
  {
    if |Active(w.game)| <= 1 {
      OneSessionComesBack(w, r);
    }
  }

  lemma VisibilityComesBack(g: GameState, r: GameState)
    requires IdsAreIndices(g) && VisibleIffHeldOnce(g)
    requires ComesBackAs(g, r) && r.sessions == g.sessions
    ensures IdsAreIndices(r) && VisibleIffHeldOnce(r)
  {
    assert forall m, id :: Holds(r, m, id) <==> Holds(g, m, id);
    assert forall id :: IsVisible(r, id) <==> IsVisible(g, id);
  }

  lemma SessionsComeBackOk(w: World, r: World)
    requires Inv(w) && |r.players| == |w.players|
    requires forall i :: 0 <= i < |w.players| ==> SamePlayerAfter(w.players[i], r.players[i])
    requires r.game == w.game.(timer := r.game.timer, lootClock := 0, loot := r.game.loot)
    requires !w.game.config.random ==> forall m, id :: Holds(w.game, m, id) && IsVisible(w.game, id) ==>
               IsVisible(r.game, id) && r.game.loot[id] == w.game.loot[id]
    requires forall id :: IsVisible(r.game, id) ==> IsVisible(w.game, id)
    ensures SessionsOk(r.game, r.players)
  {
    assert forall i :: 0 <= i < |w.players| ==> SamePlayerAfter(w.players[i], r.players[i]);
    forall m | m in r.game.sessions
      ensures SessionOk(r.game, r.players, m)
    {
      assert SessionOk(w.game, w.players, m);
      SameMapsSameCount(w.players, r.players, m);
    }
    forall i | 0 <= i < |r.players|
      ensures MembershipOk(r.game, r.players, i)
    {
      assert MembershipOk(w.game, w.players, i);
      SameMapsSameCount(w.players[..i], r.players[..i], w.players[i].session.mapInfo.id);
    }
    forall m, id | !w.game.config.random && Holds(r.game, m, id) && IsVisible(r.game, id)
      ensures r.game.loot[id].pos == AtCell(r.game.sessions[m].mapInfo.roads[0].start)
    {
      assert Holds(w.game, m, id) && IsVisible(w.game, id);
    }
  }

  /** A restored server is in a good state again, and every theorem about runs applies to it, exactly when at most
      one session was active or no loot was lying about. */
  lemma RestoreKeepsInvariantIff(w: World, listing: seq<seq<int>>, d: RestoreDraws)
    requires Inv(w) && ListsLoot(w.game, listing)
    ensures Inv(Restored(w, listing, d)) <==> |Active(w.game)| <= 1 || NoLootLies(w.game)
  {
    hide Restored;
    GameRestored(w, listing, d);
    if |Active(w.game)| <= 1 || NoLootLies(w.game) {
      RestoreKeepsInvariant(w, listing, d);
    } else {
      RestoreBreaksPartition(w, Restored(w, listing, d).game);
    }
  }

  lemma RestoreKeepsInvariant(w: World, listing: seq<seq<int>>, d: RestoreDraws)
    requires Inv(w) && ListsLoot(w.game, listing)
    requires |Active(w.game)| <= 1 || NoLootLies(w.game)
    ensures Inv(Restored(w, listing, d))
  {
    hide Restored, SessionsOk, RecordsOk, Sound;
    var r := Restored(w, listing, d);
    PlayersSurvive(w, listing, d);
    GameRestored(w, listing, d);
    SessionsComeBack(w, r.game);
    VisibilityComesBack(w.game, r.game);
    BagsComeBackOk(w, r);
    DogsComeBackOk(w, r);
    if |Active(w.game)| <= 1 && !w.game.config.random {
      LootSurvives(w, listing, d);
    }
    SessionsComeBackOk(w, r);
    SameIdentitiesKeepRecords(w.players, r.players, w.records);
  }

  /** With two sessions and loot lying about, an object ends up in two sessions, or a visible one in none. */
  lemma RestoreBreaksPartition(w: World, r: GameState)
    requires Inv(w) && ComesBackAs(w.game, r)
    requires |Active(w.game)| >= 2 && !NoLootLies(w.game)
    ensures !VisibleIffHeldOnce(r)
  {
    var g := w.game;
    ActiveAreSessions(w);
    ActiveMapsDiffer(g.config.maps, g.sessions);
    var a, b := Active(g)[0], Active(g)[1];
    assert a in Active(g) && b in Active(g);
    TwoSessionsBreakPartition(g, r, a, b);
  }

  lemma TwoSessionsBreakPartition(g: GameState, r: GameState, a: string, b: string)
    requires VisibleIffHeldOnce(g) && SameLootButPlaces(g, r) && AllHoldFirst(g, r, a)
    requires a in g.sessions && b in g.sessions && a != b && !NoLootLies(g)
    ensures !VisibleIffHeldOnce(r)
  {
    if g.sessions[a].loot != {} {
      var id := SomeElement(g.sessions[a].loot);
      assert Holds(r, a, id) && Holds(r, b, id);
    } else {
      var m :| m in g.sessions && g.sessions[m].loot != {};
      var id := SomeElement(g.sessions[m].loot);
      assert Holds(g, m, id);
      assert IsVisible(r, id);
      assert forall n :: !Holds(r, n, id);
    }
  }
}
