/** Authorization tokens: their text, the header check, and the table of the players they belong to. */
module Tokens {
  import opened Basics

  const WORD: nat := 0x1_0000_0000_0000_0000

  function HexDigit(d: nat): char
    requires d < 16
  {
    "0123456789abcdef"[d]
  }

  /** What `stream << std::hex << n` writes: lower case and no leading zeros. */
  function Hex(n: nat): (s: string)
    ensures |s| > 0
    ensures forall c :: c in s ==> IsHexChar(c)
  {
    if n < 16 then [HexDigit(n)] else Hex(n / 16) + [HexDigit(n % 16)]
  }

  function Power16(k: nat): nat { if k == 0 then 1 else 16 * Power16(k - 1) }

  lemma {:induction false} HexLength(n: nat, k: nat)
    requires k > 0 && n < Power16(k)
    ensures |Hex(n)| <= k
  {
    if n >= 16 {
      HexLength(n / 16, k - 1);
    }
  }

  lemma HexOfWord(n: nat)
    requires n < WORD
    ensures |Hex(n)| <= 16
  {
    assert Power16(4) == 65536;
    assert Power16(8) == 65536 * Power16(4);
    assert Power16(12) == 65536 * Power16(8);
    assert Power16(16) == 65536 * Power16(12);
    HexLength(n, 16);
  }

  function Zeros(n: nat): (s: string)
    ensures |s| == n
    ensures forall c :: c in s ==> c == '0'
  {
    seq(n, _ => '0')
  }

  /** The token made of two generator draws. */
  function TokenText(first: nat, second: nat): string {
    var digits := Hex(first) + Hex(second);
    if |digits| < 32 then digits + Zeros(32 - |digits|) else digits
  }

  /** std::isdigit, or a letter whose lower case is one of the first six. */
  predicate IsHexChar(c: char) {
    '0' <= c <= '9' || 'a' <= c <= 'f' || 'A' <= c <= 'F'
  }

  predicate IsToken(t: string) {
    |t| == 32 && forall c :: c in t ==> IsHexChar(c)
  }

  const BEARER := "Bearer "

  /** The header form of section 2.1 of RFC 6750, restricted to 32 hexadecimal digits. */
  predicate ValidToken(header: string) {
    |header| == 39 && header[..7] == BEARER && forall i :: 7 <= i < 39 ==> IsHexChar(header[i])
  }

  /** The number that a string of hexadecimal digits spells. */
  function DigitValue(c: char): int {
    if '0' <= c <= '9' then c as int - '0' as int
    else if 'a' <= c <= 'f' then c as int - 'a' as int + 10
    else 0
  }

  function HexValue(s: string): int {
    if s == "" then 0 else 16 * HexValue(s[..|s| - 1]) + DigitValue(s[|s| - 1])
  }

  lemma DigitSpells(d: nat)
    requires d < 16
    ensures DigitValue(HexDigit(d)) == d && (HexDigit(d) == '0' <==> d == 0)
  {
  }

  /** Writing a number and reading it back; only zero starts with a zero. */
  lemma {:induction false} HexSpells(n: nat)
    ensures HexValue(Hex(n)) == n
    ensures Hex(n)[0] == '0' <==> n == 0
    ensures n == 0 ==> Hex(n) == "0"
  {
    hide DigitValue, HexDigit;
    DigitSpells(0);
    DigitSpells(n % 16);
    if n >= 16 {
      HexSpells(n / 16);
      assert Hex(n)[..|Hex(n)| - 1] == Hex(n / 16);
    }
  }

  /** A token spells its two draws one after the other, and ends in zeros. */
  lemma TokenSpellsDraws(first: nat, second: nat) returns (i: nat, j: nat)
    requires first < WORD && second < WORD
    ensures var t := TokenText(first, second);
            && |t| == 32 && 0 < i < j <= 32
            && HexValue(t[..i]) == first && HexValue(t[i..j]) == second
            && (t[0] == '0' <==> i == 1 && first == 0) && (t[i] == '0' <==> j == i + 1 && second == 0)
            && forall k :: j <= k < 32 ==> t[k] == '0'
  {
    HexOfWord(first);
    HexOfWord(second);
    HexSpells(first);
    HexSpells(second);
    i, j := |Hex(first)|, |Hex(first)| + |Hex(second)|;
    var t := TokenText(first, second);
    assert t[..i] == Hex(first) && t[i..j] == Hex(second);
  }

  lemma TokenIsValid(first: nat, second: nat)
    requires first < WORD && second < WORD
    ensures IsToken(TokenText(first, second))
    ensures ValidToken(BEARER + TokenText(first, second))
  {
    HexOfWord(first);
    HexOfWord(second);
    var t := TokenText(first, second);
    assert (BEARER + t)[..7] == BEARER;
    forall i | 7 <= i < 39
      ensures IsHexChar((BEARER + t)[i])
    {
      assert t[i - 7] in t;
    }
  }

  method CheckToken(token: string) returns (valid: bool)
    ensures valid == ValidToken(token)
  {
    if |token| != 39 {
      return false;
    }
    if token[..7] != BEARER {
      return false;
    }
    var digits := token[7..];
    for i := 0 to |digits|
      invariant forall j :: 7 <= j < 7 + i ==> IsHexChar(token[j])
    {
      if !IsHexChar(digits[i]) {
        assert !IsHexChar(token[7 + i]);
        return false;
      }
    }
    return true;
  }

  /** The token of an Authorization header: what follows its first space. */
  function TokenOf(header: string): Option<string> {
    var start := FirstSpace(header);
    if start >= |header| || !ValidToken(header) then None else Some(header[start + 1..])
  }

  function FirstSpace(s: string): (k: nat)
    ensures k <= |s|
    ensures k < |s| ==> s[k] == ' '
    ensures forall j :: 0 <= j < k ==> s[j] != ' '
  {
    if s == "" || s[0] == ' ' then 0 else 1 + FirstSpace(s[1..])
  }

  lemma TokenOfBearer(token: string)
    requires ValidToken(BEARER + token)
    ensures TokenOf(BEARER + token) == Some(token)
  {
    var header := BEARER + token;
    assert header[6] == ' ';
    assert forall j :: 0 <= j < 6 ==> header[j] != ' ';
    assert header[7..] == token;
  }

  /** The issued tokens in order, and the player of each. */
  datatype TokenTable<P> = TokenTable(issued: seq<string>, owner: map<string, P>)

  function Issue<P>(t: TokenTable<P>, token: string, player: P): TokenTable<P> {
    TokenTable(t.issued + [token], t.owner[token := player])
  }

  function Find<P>(t: TokenTable<P>, token: string): Option<P> {
    if token in t.owner then Some(t.owner[token]) else None
  }

  datatype Draws = Draws(first: nat, second: nat)

  predicate DrawsFresh<P>(t: TokenTable<P>, draws: seq<Draws>) {
    exists i :: 0 <= i < |draws| && TokenText(draws[i].first, draws[i].second) !in t.owner
  }

  predicate DrawsInRange(draws: seq<Draws>) {
    forall d :: d in draws ==> d.first < WORD && d.second < WORD
  }

  /** The retry loop: the first token of the stream that is not taken yet. */
  function FirstFresh<P>(t: TokenTable<P>, draws: seq<Draws>): (token: string)
    requires DrawsFresh(t, draws)
    ensures token !in t.owner
    ensures DrawsInRange(draws) ==> IsToken(token)
    decreases |draws|
  {
    var token := TokenText(draws[0].first, draws[0].second);
    if token !in t.owner then
      if DrawsInRange(draws) then
        assert draws[0] in draws;
        TokenIsValid(draws[0].first, draws[0].second);
        token
      else token
    else
      var i :| 0 <= i < |draws| && TokenText(draws[i].first, draws[i].second) !in t.owner;
      assert draws[1..][i - 1] == draws[i];
      FirstFresh(t, draws[1..])
  }

  /** The token of the n-th draw is issued if it is the first that is not taken. */
  lemma {:induction false} FirstFreeIsIssued(t: TokenTable<nat>, draws: seq<Draws>, n: nat)
    requires n < |draws| && TokenText(draws[n].first, draws[n].second) !in t.owner
    requires forall i :: 0 <= i < n ==> TokenText(draws[i].first, draws[i].second) in t.owner
    ensures FirstFresh(t, draws) == TokenText(draws[n].first, draws[n].second)
  {
    if n > 0 {
      assert draws[1..][n - 1] == draws[n];
      FirstFreeIsIssued(t, draws[1..], n - 1);
    }
  }

  /** Nobody has two tokens, no token has two players, and the table and the list agree. */
  ghost predicate Sound(t: TokenTable<nat>) {
    && (forall i, j :: 0 <= i < j < |t.issued| ==> t.issued[i] != t.issued[j])
    && (forall token :: token in t.owner <==> token in t.issued)
    && (forall k :: 0 <= k < |t.issued| ==> IsToken(t.issued[k]))
    && (forall k :: 0 <= k < |t.issued| ==> t.owner[t.issued[k]] == k)
  }

  lemma IssueKeepsSound(t: TokenTable<nat>, token: string)
    requires Sound(t) && token !in t.owner && IsToken(token)
    ensures Sound(Issue(t, token, |t.issued|))
  {
    var u := Issue(t, token, |t.issued|);
    assert forall k :: 0 <= k < |t.issued| ==> t.issued[k] in t.owner;
    assert u.issued[|t.issued|] == token;
    forall other
      ensures other in u.owner <==> other in u.issued
    {
    }
  }

  /** Presenting the k-th issued token, in the header form, finds the k-th player. */
  lemma AuthenticatesKthPlayer(t: TokenTable<nat>, k: nat)
    requires Sound(t) && k < |t.issued|
    ensures TokenOf(BEARER + t.issued[k]) == Some(t.issued[k])
    ensures Find(t, t.issued[k]) == Some(k)
  {
    var token := t.issued[k];
    var header := BEARER + token;
    assert header[..7] == BEARER;
    forall i | 7 <= i < 39
      ensures IsHexChar(header[i])
    {
      assert header[i] == token[i - 7];
    }
    TokenOfBearer(token);
  }

  class PlayerTokens<P> {
    var issued: seq<string>
    var owner: map<string, P>

    constructor ()
      ensures Table() == TokenTable([], map[])
    {
      issued, owner := [], map[];
    }

    function Table(): TokenTable<P>
      reads this
    {
      TokenTable(issued, owner)
    }

    /** Draws tokens until one is new. */
    method AddPlayer(player: P, draws: seq<Draws>) returns (token: string)
      requires DrawsFresh(Table(), draws)
      modifies this
      ensures token == FirstFresh(old(Table()), draws)
      ensures Table() == Issue(old(Table()), token, player)
    {
      var i := 0;
      token := GenerateToken(draws[0]);
      while token in owner
        invariant 0 <= i < |draws|
        invariant Table() == old(Table())
        invariant token == TokenText(draws[i].first, draws[i].second)
        invariant DrawsFresh(Table(), draws[i..])
        invariant FirstFresh(Table(), draws) == FirstFresh(Table(), draws[i..])
        decreases |draws| - i
      {
        assert draws[i..][0] == draws[i] && draws[i..][1..] == draws[i + 1..];
        i := i + 1;
        token := GenerateToken(draws[i]);
      }
      assert draws[i..][0] == draws[i];
      owner := owner[token := player];
      issued := issued + [token];
    }

    method AddPlayerWithToken(token: string, player: P)
      modifies this
      ensures Table() == Issue(old(Table()), token, player)
    {
      issued := issued + [token];
      owner := owner[token := player];
    }
  }

  /** Two hexadecimal numbers, then zeros up to 32 characters. */
  method GenerateToken(draw: Draws) returns (text: string)
    ensures text == TokenText(draw.first, draw.second)
  {
    text := Hex(draw.first) + Hex(draw.second);
    ghost var digits := text;
    while |text| < 32
      invariant |digits| <= |text| && (|text| <= 32 || text == digits)
      invariant text == digits + Zeros(|text| - |digits|)
    {
      text := text + "0";
    }
  }
}
