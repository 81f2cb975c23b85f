/** Single-use tokens: read, check, then a conditional UPDATE that only one caller can win.
    Tap tokens are bound to a cart hash, resume tokens to a session; the two tables work
    alike. */
module Tokens {
  import opened Wrappers
  import opened Sums
  import M = Money

  const TAP_TOKEN_TTL: int := 300
  const RESUME_TOKEN_TTL: int := 1800

  datatype Kind = Tap | Resume

  function TermOf(kind: Kind): int { if kind == Tap then TAP_TOKEN_TTL else RESUME_TOKEN_TTL }

  /** `boundTo` is the cart hash or the session; `rendered` what the page showed, if anything. */
  datatype Token = Token(orderId: string, boundTo: string, rendered: string, expiresAt: int, spent: bool)

  datatype Ask = Ask(token: string, presents: string, rendered: string, now: int)

  datatype Refusal = Unknown | Used | Late | ForAnother | Changed

  /** The checks on the row as it was read. */
  function Checked(read: Option<Token>, a: Ask): Option<Refusal> {
    match read
    case None => Some(Unknown)
    case Some(t) =>
      if t.spent then Some(Used)
      else if a.now > t.expiresAt then Some(Late)
      else if t.boundTo != a.presents then Some(ForAnother)
      else if t.rendered != "" && a.rendered != "" && t.rendered != a.rendered then Some(Changed)
      else None
  }

  function Read(tokens: map<string, Token>, token: string): Option<Token> {
    if token in tokens then Some(tokens[token]) else None
  }

  /** `UPDATE ... SET spent = true WHERE token = t AND spent = false`. */
  function Marked(tokens: map<string, Token>, token: string): map<string, Token> {
    if token in tokens then tokens[token := tokens[token].(spent := true)] else tokens
  }

  /** A spend nobody interrupts. */
  function Spend(tokens: map<string, Token>, a: Ask): (map<string, Token>, Option<Refusal>) {
    match Checked(Read(tokens, a.token), a)
    case Some(why) => (tokens, Some(why))
    case None => (Marked(tokens, a.token), None)
  }

  class TokenStore {
    var tokens: map<string, Token>

    constructor ()
      ensures tokens == map[]
    {
      tokens := map[];
    }

    /** Insert a row for a token drawn just now; one already there is refused by its key. */
    method Issue(kind: Kind, token: string, orderId: string, boundTo: string, rendered: string, now: int) returns (inserted: bool)
      modifies this
      ensures inserted == (token !in old(tokens))
      ensures tokens == if inserted then old(tokens)[token := Token(orderId, boundTo, rendered, now + TermOf(kind), false)] else old(tokens)
    {
      if token in tokens { return false; }
      tokens := tokens[token := Token(orderId, boundTo, rendered, now + TermOf(kind), false)];
      return true;
    }

    /** How many rows the conditional UPDATE hit. */
    method MarkSpent(token: string) returns (rows: nat)
      modifies this
      ensures rows == (if token in old(tokens) && !old(tokens)[token].spent then 1 else 0)
      ensures tokens == Marked(old(tokens), token)
    {
      if token in tokens && !tokens[token].spent {
        tokens := tokens[token := tokens[token].(spent := true)];
        return 1;
      }
      assert tokens == Marked(tokens, token);
      return 0;
    }

    method SpendToken(a: Ask) returns (refusal: Option<Refusal>)
      modifies this
      ensures (tokens, refusal) == Spend(old(tokens), a)
    {
      refusal := Checked(Read(tokens, a.token), a);
      if refusal.Some? { return; }
      var rows := MarkSpent(a.token);
      if rows == 0 { return Some(Used); }
      return None;
    }
  }

  // ----- any interleaving -----

  datatype Phase = Arrived | Passed | Spent | Refused(why: Refusal)

  datatype Attempt = Attempt(ask: Ask, phase: Phase)

  datatype World = World(tokens: map<string, Token>, attempts: seq<Attempt>)

  /** One statement of attempt `i`, or a token issued meanwhile. */
  datatype Turn = Statement(i: nat) | Issued(token: string, row: Token)

  function Next(w: World, turn: Turn): World {
    match turn
    case Issued(token, row) =>
      if token in w.tokens then w else w.(tokens := w.tokens[token := row.(spent := false)])
    case Statement(i) =>
      if i >= |w.attempts| then w
      else
        var t := w.attempts[i];
        match t.phase
        case Arrived =>
          (match Checked(Read(w.tokens, t.ask.token), t.ask)
           case Some(why) => w.(attempts := w.attempts[i := t.(phase := Refused(why))])
           case None => w.(attempts := w.attempts[i := t.(phase := Passed)]))
        case Passed =>
          if t.ask.token in w.tokens && !w.tokens[t.ask.token].spent then
            World(Marked(w.tokens, t.ask.token), w.attempts[i := t.(phase := Spent)])
          else w.(attempts := w.attempts[i := t.(phase := Refused(Used))])
        case _ => w
  }

  function Played(w: World, turns: seq<Turn>): World {
    if turns == [] then w else Next(Played(w, turns[..|turns| - 1]), turns[|turns| - 1])
  }

  function SpentOn(token: string): Attempt -> int {
    (t: Attempt) => if t.phase == Spent && t.ask.token == token then 1 else 0
  }

  function Flag(tokens: map<string, Token>, token: string): int {
    if token in tokens && tokens[token].spent then 1 else 0
  }

  /** What no turn changes about a token that is there. */
  predicate SameTerms(before: map<string, Token>, after: map<string, Token>) {
    forall k :: k in before ==> k in after && after[k] == before[k].(spent := after[k].spent)
  }

  /** An attempt past its checks passed them against the terms the token still has. */
  predicate Justified(tokens: map<string, Token>, t: Attempt) {
    t.phase in {Passed, Spent} ==>
      && t.ask.token in tokens
      && Checked(Some(tokens[t.ask.token].(spent := false)), t.ask) == None
  }

  lemma {:induction false} TermsStay(w: World, turn: Turn)
    ensures SameTerms(w.tokens, Next(w, turn).tokens)
  {
  }

  lemma {:induction false} JustifiedStays(w: World, turn: Turn)
    requires forall t :: t in w.attempts ==> Justified(w.tokens, t)
    ensures forall t :: t in Next(w, turn).attempts ==> Justified(Next(w, turn).tokens, t)
  {
    var after := Next(w, turn);
    TermsStay(w, turn);
    forall t | t in after.attempts ensures Justified(after.tokens, t) {
      var j :| 0 <= j < |after.attempts| && after.attempts[j] == t;
      assert w.attempts[j] in w.attempts;
    }
  }

  /** A token's flag turns once for each attempt that spends it. */
  lemma {:induction false} FlagMoves(w: World, turn: Turn, token: string)
    requires forall t :: t in w.attempts ==> Justified(w.tokens, t)
    ensures Flag(Next(w, turn).tokens, token) - Flag(w.tokens, token)
      == SumBy(Next(w, turn).attempts, SpentOn(token)) - SumBy(w.attempts, SpentOn(token))
  {
    var after := Next(w, turn);
    if turn.Statement? && turn.i < |w.attempts| {
      assert w.attempts[turn.i] in w.attempts;
      assert after.attempts == w.attempts[turn.i := after.attempts[turn.i]];
      SumUpdate(w.attempts, turn.i, after.attempts[turn.i], SpentOn(token));
    }
  }

  lemma {:induction false} TurnsKeep(w: World, turns: seq<Turn>, token: string)
    requires forall t :: t in w.attempts ==> Justified(w.tokens, t)
    ensures forall t :: t in Played(w, turns).attempts ==> Justified(Played(w, turns).tokens, t)
    ensures SameTerms(w.tokens, Played(w, turns).tokens)
    ensures Flag(Played(w, turns).tokens, token) - Flag(w.tokens, token)
      == SumBy(Played(w, turns).attempts, SpentOn(token)) - SumBy(w.attempts, SpentOn(token))
  {
    if turns != [] {
      TurnsKeep(w, turns[..|turns| - 1], token);
      var before := Played(w, turns[..|turns| - 1]);
      TermsStay(before, turns[|turns| - 1]);
      JustifiedStays(before, turns[|turns| - 1]);
      FlagMoves(before, turns[|turns| - 1], token);
    }
  }

  lemma {:induction false} TwoSpendsCount(attempts: seq<Attempt>, token: string, i: nat, j: nat)
    requires i < j < |attempts| && SpentOn(token)(attempts[i]) == 1 && SpentOn(token)(attempts[j]) == 1
    ensures SumBy(attempts, SpentOn(token)) >= 2
  {
    assert attempts == attempts[..j] + attempts[j..];
    SumConcat(attempts[..j], attempts[j..], SpentOn(token));
    SpendCounts(attempts[..j], token, i);
    SpendCounts(attempts[j..], token, 0);
  }

  lemma {:induction false} SpendCounts(attempts: seq<Attempt>, token: string, i: nat)
    requires i < |attempts| && SpentOn(token)(attempts[i]) == 1
    ensures SumBy(attempts, SpentOn(token)) >= 1
  {
    SumNonNegative(attempts[1..], SpentOn(token));
    if i > 0 { SpendCounts(attempts[1..], token, i - 1); }
  }

  /** Single use under any interleaving of any number of attempts: a token is spent exactly
      when one attempt spent it, never by two; and the one that did presented what the token
      is bound to and read it unexpired. */
  lemma {:induction false} SingleUse(tokens: map<string, Token>, asks: seq<Ask>, turns: seq<Turn>, token: string)
    ensures var w := Played(World(tokens, Map(asks, Arriving())), turns);
      && (Flag(w.tokens, token) == 1 <==> Flag(tokens, token) == 1 || SomebodySpent(w.attempts, token))
      && (forall i, j :: 0 <= i < j < |w.attempts| ==> SpentOn(token)(w.attempts[i]) + SpentOn(token)(w.attempts[j]) <= 1)
      && (Flag(tokens, token) == 1 ==> forall i :: 0 <= i < |w.attempts| ==> SpentOn(token)(w.attempts[i]) == 0)
      && (forall i :: 0 <= i < |w.attempts| && SpentOn(token)(w.attempts[i]) == 1 ==>
            && token in w.tokens
            && w.attempts[i].ask.presents == w.tokens[token].boundTo
            && w.attempts[i].ask.now <= w.tokens[token].expiresAt
            && (w.tokens[token].rendered == "" || w.attempts[i].ask.rendered == "" || w.tokens[token].rendered == w.attempts[i].ask.rendered))
  {
    var start := World(tokens, Map(asks, Arriving()));
    var w := Played(start, turns);
    TurnsKeep(start, turns, token);
    NobodyYet(asks, token);
    forall i | 0 <= i < |w.attempts| && SpentOn(token)(w.attempts[i]) == 1
      ensures SumBy(w.attempts, SpentOn(token)) >= 1 && Justified(w.tokens, w.attempts[i])
    {
      SpendCounts(w.attempts, token, i);
      assert w.attempts[i] in w.attempts;
    }
    forall i, j | 0 <= i < j < |w.attempts|
      ensures SpentOn(token)(w.attempts[i]) + SpentOn(token)(w.attempts[j]) <= 1
    {
      if SpentOn(token)(w.attempts[i]) == 1 && SpentOn(token)(w.attempts[j]) == 1 {
        TwoSpendsCount(w.attempts, token, i, j);
      }
    }
    SumShows(w.attempts, token);
  }

  function Arriving(): Ask -> Attempt { (a: Ask) => Attempt(a, Arrived) }

  lemma {:induction false} NobodyYet(asks: seq<Ask>, token: string)
    ensures SumBy(Map(asks, Arriving()), SpentOn(token)) == 0
  {
    if asks != [] {
      NobodyYet(asks[1..], token);
      assert Map(asks, Arriving())[1..] == Map(asks[1..], Arriving());
    }
  }

  ghost predicate SomebodySpent(attempts: seq<Attempt>, token: string) {
    exists i :: 0 <= i < |attempts| && SpentOn(token)(attempts[i]) == 1
  }

  lemma {:induction false} SumShows(attempts: seq<Attempt>, token: string)
    ensures SumBy(attempts, SpentOn(token)) >= 1 <==> SomebodySpent(attempts, token)
    ensures SumBy(attempts, SpentOn(token)) >= 0
  {
    if attempts != [] {
      SumShows(attempts[1..], token);
      if SomebodySpent(attempts[1..], token) {
        var i :| 0 <= i < |attempts[1..]| && SpentOn(token)(attempts[1..][i]) == 1;
        assert attempts[i + 1] == attempts[1..][i];
      }
      if i :| 0 <= i < |attempts| && SpentOn(token)(attempts[i]) == 1 {
        SpendCounts(attempts, token, i);
      }
    }
  }

  /** The money path's token is this one: a tap over the cart the token was issued for passes
      there exactly when it passes here, and spends it alike. */
  lemma {:induction false} TheTapIsThisSpend(tokens: map<string, Token>, a: Ask, o: M.Order)
    requires a.token in tokens && a.rendered == ""
    requires var t := tokens[a.token]; t.boundTo == a.presents && t.spent == o.spent && t.expiresAt == o.tokenExpiresAt
    ensures var (after, refusal) := Spend(tokens, a);
      M.Perform(o, M.SpendToken(a.now)) == (o.(spent := after[a.token].spent), refusal == None)
  {
  }

  /** An uninterrupted spend succeeds if and only if the token is there, unspent and in time, bound
      to what is presented, and shown on the page it was rendered for, where both say; it spends
      that token and no other. Otherwise nothing moves, and the first of these that fails is told. */
  lemma {:induction false} SpendsExactly(tokens: map<string, Token>, a: Ask)
    ensures var (after, refusal) := Spend(tokens, a);
      && (refusal == None <==>
            && a.token in tokens && !tokens[a.token].spent && a.now <= tokens[a.token].expiresAt
            && tokens[a.token].boundTo == a.presents
            && (tokens[a.token].rendered == "" || a.rendered == "" || tokens[a.token].rendered == a.rendered))
      && (refusal == None ==> after == tokens[a.token := tokens[a.token].(spent := true)])
      && (refusal.Some? ==> after == tokens)
      && (refusal == Some(Unknown) <==> a.token !in tokens)
      && (refusal == Some(Used) <==> a.token in tokens && tokens[a.token].spent)
      && (refusal == Some(Late) <==> a.token in tokens && !tokens[a.token].spent && a.now > tokens[a.token].expiresAt)
      && (refusal == Some(ForAnother) ==> tokens[a.token].boundTo != a.presents)
      && (refusal == Some(Changed) ==> tokens[a.token].boundTo == a.presents && tokens[a.token].rendered != a.rendered)
  {
  }
}
