/** What an action does: the header names a token, and the token's player turns. */
module Steering {
  import opened Basics
  import opened Tokens
  import opened World
  import opened Invariants

  /** The header form, written out. */
  predicate Presents(header: string, token: string) {
    header == "Bearer " + token && |token| == 32 && forall c :: c in token ==> c in "0123456789abcdefABCDEF"
  }

  lemma HexChars(c: char)
    ensures IsHexChar(c) <==> c in "0123456789abcdefABCDEF"
  {
    var digits := "0123456789abcdefABCDEF";
    if '0' <= c <= '9' {
      assert digits[c as int - '0' as int] == c;
    } else if 'a' <= c <= 'f' {
      assert digits[10 + c as int - 'a' as int] == c;
    } else if 'A' <= c <= 'F' {
      assert digits[16 + c as int - 'A' as int] == c;
    }
  }

  /** The token of a header is what follows "Bearer ", provided that is 32 hexadecimal digits. */
  lemma TokenOfIff(header: string, token: string)
    ensures TokenOf(header) == Some(token) <==> Presents(header, token)
  {
    forall c: char
      ensures IsHexChar(c) <==> c in "0123456789abcdefABCDEF"
    {
      HexChars(c);
    }
    if Presents(header, token) {
      assert forall i :: 7 <= i < 39 ==> header[i] == token[i - 7];
      TokenOfBearer(token);
    }
    if TokenOf(header) == Some(token) {
      assert header[..7] == BEARER && header[6] == ' ';
      assert forall j :: 0 <= j < 6 ==> header[j] == BEARER[j];
      assert header == header[..7] + header[7..];
      forall c | c in token
        ensures IsHexChar(c)
      {
        var i :| 0 <= i < |token| && token[i] == c;
        assert token[i] == header[i + 7];
      }
    }
  }

  /** The header presents a known token whose player is online. */
  predicate MayAct(w: World, header: string, token: string) {
    && Presents(header, token) && token in w.tokens.owner
    && w.tokens.owner[token] < |w.players| && w.players[w.tokens.owner[token]].online
  }

  /** The dog turns: up is towards smaller and down towards greater y, and any other word is a halt. */
  predicate Turns(d: DogState, e: DogState, direction: string) {
    && e == d.(dir := direction, speed := e.speed)
    && (direction == "L" ==> e.speed == Coords(-d.nominalSpeed, 0.0))
    && (direction == "R" ==> e.speed == Coords(d.nominalSpeed, 0.0))
    && (direction == "U" ==> e.speed == Coords(0.0, -d.nominalSpeed))
    && (direction == "D" ==> e.speed == Coords(0.0, d.nominalSpeed))
    && (direction !in ["L", "R", "U", "D"] ==> e.speed == Coords(0.0, 0.0))
  }

  /** Nothing changes but the dog of one player, which turns. */
  predicate OnlyTurns(w: World, v: World, k: nat, direction: string) {
    && k < |w.players| && k < |v.players|
    && v == w.(players := w.players[k := w.players[k].(dog := v.players[k].dog)])
    && Turns(w.players[k].dog, v.players[k].dog, direction)
  }

  /** An action turns the dog of the player whose token it presents, and without one it does nothing. */
  lemma ActTurns(w: World, header: string, direction: string)
    ensures forall token :: MayAct(w, header, token) ==>
              OnlyTurns(w, Act(w, header, direction), w.tokens.owner[token], direction)
    ensures (forall token :: !MayAct(w, header, token)) ==> Act(w, header, direction) == w
  {
    hide TokenOf;
    forall token | MayAct(w, header, token)
      ensures OnlyTurns(w, Act(w, header, direction), w.tokens.owner[token], direction)
    {
      TokenOfIff(header, token);
    }
    if TokenOf(header).Some? {
      TokenOfIff(header, TokenOf(header).value);
    }
  }

  lemma MayActIff(w: World, header: string)
    ensures (exists token :: MayAct(w, header, token)) <==>
            && TokenOf(header).Some? && Find(w.tokens, TokenOf(header).value).Some?
            && var k := Find(w.tokens, TokenOf(header).value).value; k < |w.players| && w.players[k].online
  {
    hide TokenOf;
    if token :| MayAct(w, header, token) {
      TokenOfIff(header, token);
    }
    if TokenOf(header).Some? {
      var token := TokenOf(header).value;
      TokenOfIff(header, token);
      assert Find(w.tokens, token).Some? <==> token in w.tokens.owner;
      if token in w.tokens.owner {
        var k := w.tokens.owner[token];
        assert MayAct(w, header, token) <==> k < |w.players| && w.players[k].online;
      }
    }
  }

  /** In every state with the invariant, the k-th token steers the k-th player, and no other. */
  lemma KthTokenSteers(w: World, k: nat, direction: string)
    requires Inv(w) && k < |w.players|
    ensures k < |w.tokens.issued|
    ensures var v := Act(w, "Bearer " + w.tokens.issued[k], direction);
            if w.players[k].online then OnlyTurns(w, v, k, direction) else v == w
  {
    hide Act, LootOk, SessionsOk, RecordsOk, DogOk, OnlyTurns;
    var header, token := "Bearer " + w.tokens.issued[k], w.tokens.issued[k];
    AuthenticatesKthPlayer(w.tokens, k);
    TokenOfIff(header, token);
    ActTurns(w, header, direction);
    assert MayAct(w, header, token) <==> w.players[k].online;
    forall other | MayAct(w, header, other)
      ensures other == token
    {
      assert header[7..] == other && header[7..] == token;
    }
  }
}
