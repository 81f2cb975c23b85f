/** The two replay guards: the trait's HMAC verifier with its pruned nonce map, and the
    signed-request verifier with its nonce cache (signature parameters, section 2.3 of
    RFC 9421). */
module ReplayGuards {
  import opened Wrappers
  import opened Sums
  import opened Text

  const WINDOW: int := 60
  const SKEW: int := 5

  /** The HMAC guard remembers the timestamp that was signed, the other one the moment of
      acceptance. */
  datatype Rule = HmacRule | SignatureRule

  predicate Stale(rule: Rule, now: int, at: int) {
    match rule
    case HmacRule => now - at > WINDOW || at - now > WINDOW
    case SignatureRule => now - at > WINDOW
  }

  function Pruned(rule: Rule, seen: map<string, int>, now: int): map<string, int> {
    map n | n in seen && !Stale(rule, now, seen[n]) :: seen[n]
  }

  /** A request as the memory sees it: `sound` when every check before the nonce passed. */
  datatype Call = Call(nonce: string, stamp: int, now: int, sound: bool)

  function Remember(rule: Rule, seen: map<string, int>, c: Call): (map<string, int>, bool) {
    if !c.sound then (seen, false)
    else
      var kept := Pruned(rule, seen, c.now);
      if c.nonce in kept then (kept, false) else (kept[c.nonce := c.stamp], true)
  }

  /** What a sound request's stamp can be. */
  predicate Fits(rule: Rule, c: Call) {
    c.sound ==> match rule
      case HmacRule => !Stale(HmacRule, c.now, c.stamp)
      case SignatureRule => c.stamp == c.now
  }

  /** After a prune nothing is remembered for longer than the window. */
  lemma {:induction false} RemembersOnlyTheWindow(rule: Rule, seen: map<string, int>, c: Call)
    requires Fits(rule, c) && c.sound
    ensures forall n :: n in Remember(rule, seen, c).0 ==> !Stale(rule, c.now, Remember(rule, seen, c).0[n])
  {
  }

  // ----- the HMAC verifier -----

  datatype Verdict = Accepted | Unparseable | OutsideWindow | BadSignature | NoNonce | Replayed
    | BodyChanged | FromTheFuture | Expired | WindowTooLong | NoKey

  function Preimage(path: string, timestamp: int, nonce: string, body: string): string {
    path + "\n" + Signed(timestamp) + "\n" + nonce + "\n" + body
  }

  /** `timestamp` is what the header parses to. */
  datatype HmacRequest = HmacRequest(path: string, timestamp: Option<int>, nonce: string, body: string, signature: string)

  class HmacGuard {
    const mac: string -> string
    var seen: map<string, int>

    constructor (mac: string -> string)
      ensures seen == map[] && this.mac == mac
    {
      this.mac := mac;
      seen := map[];
    }

    method Verify(r: HmacRequest, now: int) returns (verdict: Verdict)
      modifies this
      ensures (seen, verdict == Accepted) == Remember(HmacRule, old(seen), HmacCall(r, now, mac))
      ensures verdict == Replayed <==> HmacCall(r, now, mac).sound && r.nonce in Pruned(HmacRule, old(seen), now)
      ensures verdict == Unparseable <==> r.timestamp == None
      ensures verdict == OutsideWindow <==> r.timestamp.Some? && !(-60 <= now - r.timestamp.value <= 60)
      ensures verdict == BadSignature <==>
        && r.timestamp.Some? && -60 <= now - r.timestamp.value <= 60
        && mac(Preimage(r.path, r.timestamp.value, r.nonce, r.body)) != r.signature
    {
      if r.timestamp == None { return Unparseable; }
      var ts := r.timestamp.value;
      if now - ts > WINDOW || ts - now > WINDOW { return OutsideWindow; }
      if mac(Preimage(r.path, ts, r.nonce, r.body)) != r.signature { return BadSignature; }
      var todo := seen.Keys;
      while todo != {}
        invariant todo <= seen.Keys
        invariant Pruned(HmacRule, seen, now) == Pruned(HmacRule, old(seen), now)
        invariant forall n :: n in seen && n !in todo ==> !Stale(HmacRule, now, seen[n])
        decreases |todo|
      {
        var n :| n in todo;
        todo := todo - {n};
        if Stale(HmacRule, now, seen[n]) {
          ghost var before := seen;
          seen := seen - {n};
          assert Pruned(HmacRule, seen, now) == Pruned(HmacRule, before, now);
        }
      }
      assert seen == Pruned(HmacRule, seen, now);
      if r.nonce in seen { return Replayed; }
      seen := seen[r.nonce := ts];
      return Accepted;
    }
  }

  function HmacCall(r: HmacRequest, now: int, mac: string -> string): (c: Call)
    ensures Fits(HmacRule, c)
  {
    var ts := r.timestamp.GetOr(0);
    Call(r.nonce, ts, now,
      r.timestamp.Some? && !Stale(HmacRule, now, ts) && mac(Preimage(r.path, ts, r.nonce, r.body)) == r.signature)
  }

  /** Path and timestamp read off the front of a signed text in one way. */
  lemma {:induction false} FrontSplits(path: string, ts: int, rest: string, path': string, ts': int, rest': string)
    requires '\n' !in path && '\n' !in path'
    requires path + ['\n'] + (Signed(ts) + ['\n'] + rest) == path' + ['\n'] + (Signed(ts') + ['\n'] + rest')
    ensures path == path' && ts == ts' && rest == rest'
  {
    FirstSplit(path, Signed(ts) + ['\n'] + rest, path', Signed(ts') + ['\n'] + rest', '\n');
    FirstSplit(Signed(ts), rest, Signed(ts'), rest', '\n');
    SignedIsInjective(ts, ts');
  }

  lemma {:induction false} PreimageParts(path: string, ts: int, nonce: string, body: string)
    ensures Preimage(path, ts, nonce, body) == path + ['\n'] + (Signed(ts) + ['\n'] + (nonce + ['\n'] + body))
  {
    var a, b := path + "\n" + Signed(ts) + "\n", nonce + "\n" + body;
    assert Preimage(path, ts, nonce, body) == a + b;
    assert a + b == path + ['\n'] + (Signed(ts) + ['\n'] + b);
    assert b == nonce + ['\n'] + body;
  }

  lemma {:induction false} PreimageSplits(p: HmacRequest, q: HmacRequest, s: int, t: int)
    requires '\n' !in p.path && '\n' !in p.nonce && '\n' !in q.path && '\n' !in q.nonce
    requires Preimage(p.path, s, p.nonce, p.body) == Preimage(q.path, t, q.nonce, q.body)
    ensures p.path == q.path && s == t && p.nonce == q.nonce && p.body == q.body
  {
    PreimageParts(p.path, s, p.nonce, p.body);
    PreimageParts(q.path, t, q.nonce, q.body);
    FrontSplits(p.path, s, p.nonce + ['\n'] + p.body, q.path, t, q.nonce + ['\n'] + q.body);
    FirstSplit(p.nonce, p.body, q.nonce, q.body, '\n');
  }

  predicate MacCollision(mac: string -> string, a: string, b: string) { a != b && mac(a) == mac(b) }

  /** The framing is unambiguous when neither path nor nonce holds a line break: a signature
      good for two requests is good for one, or the MAC maps two different texts to one value. */
  lemma {:induction false} OneSignatureOneRequest(p: HmacRequest, q: HmacRequest, s: int, t: int, mac: string -> string)
    requires '\n' !in p.path && '\n' !in p.nonce && '\n' !in q.path && '\n' !in q.nonce
    requires mac(Preimage(p.path, s, p.nonce, p.body)) == mac(Preimage(q.path, t, q.nonce, q.body))
    ensures || (p.path == q.path && s == t && p.nonce == q.nonce && p.body == q.body)
            || MacCollision(mac, Preimage(p.path, s, p.nonce, p.body), Preimage(q.path, t, q.nonce, q.body))
  {
    if Preimage(p.path, s, p.nonce, p.body) == Preimage(q.path, t, q.nonce, q.body) {
      PreimageSplits(p, q, s, t);
    }
  }

  /** Another request, under a path without a line break, that signs the same text. */
  predicate SecondReading(r: HmacRequest, ts: int, path: string, ts': int, nonce: string, body: string) {
    && '\n' !in path
    && Preimage(path, ts', nonce, body) == Preimage(r.path, ts, r.nonce, r.body)
    && (path, ts', nonce, body) != (r.path, ts, r.nonce, r.body)
  }

  /** One break can only be read as the border it is. */
  lemma {:induction false} OneBorder(nonce: string, body: string, nonce': string, body': string)
    requires nonce + ['\n'] + body == nonce' + ['\n'] + body'
    requires '\n' !in nonce && '\n' !in body
    ensures nonce' == nonce && body' == body
  {
    var s, t := nonce + ['\n'] + body, nonce' + ['\n'] + body';
    assert t[|nonce'|] == '\n' && forall k :: 0 <= k < |s| && s[k] == '\n' ==> k == |nonce|;
    assert nonce == s[..|nonce|] && nonce' == t[..|nonce'|] && body == s[|nonce| + 1..] && body' == t[|nonce'| + 1..];
  }

  lemma {:induction false} ReadingsShareTheFront(r: HmacRequest, ts: int, path: string, ts': int, nonce: string, body: string)
    requires '\n' !in r.path && SecondReading(r, ts, path, ts', nonce, body)
    ensures path == r.path && ts' == ts && nonce + ['\n'] + body == r.nonce + ['\n'] + r.body
  {
    PreimageParts(path, ts', nonce, body);
    PreimageParts(r.path, ts, r.nonce, r.body);
    FrontSplits(path, ts', nonce + ['\n'] + body, r.path, ts, r.nonce + ['\n'] + r.body);
  }

  /** The border moved to another break. */
  lemma {:induction false} MovedBorder(r: HmacRequest, ts: int, nonce: string, body: string)
    requires '\n' !in r.path && nonce + ['\n'] + body == r.nonce + ['\n'] + r.body && nonce != r.nonce
    ensures SecondReading(r, ts, r.path, ts, nonce, body)
  {
    PreimageParts(r.path, ts, nonce, body);
    PreimageParts(r.path, ts, r.nonce, r.body);
  }

  lemma {:induction false} BreakInNonce(r: HmacRequest, ts: int, i: nat)
    requires '\n' !in r.path && i < |r.nonce| && r.nonce[i] == '\n'
    ensures SecondReading(r, ts, r.path, ts, r.nonce[..i], r.nonce[i + 1..] + ['\n'] + r.body)
  {
    var a, b := r.nonce[..i], r.nonce[i + 1..];
    assert r.nonce == a + ['\n'] + b;
    assert a + ['\n'] + (b + ['\n'] + r.body) == r.nonce + ['\n'] + r.body;
    MovedBorder(r, ts, a, b + ['\n'] + r.body);
  }

  lemma {:induction false} BreakInBody(r: HmacRequest, ts: int, i: nat)
    requires '\n' !in r.path && i < |r.body| && r.body[i] == '\n'
    ensures SecondReading(r, ts, r.path, ts, r.nonce + ['\n'] + r.body[..i], r.body[i + 1..])
  {
    var a, b := r.body[..i], r.body[i + 1..];
    assert r.body == a + ['\n'] + b;
    assert (r.nonce + ['\n'] + a) + ['\n'] + b == r.nonce + ['\n'] + r.body;
    MovedBorder(r, ts, r.nonce + ['\n'] + a, b);
  }

  /** Exactly when a signed text has a second reading: when its nonce or its body holds a line
      feed. A body may; a nonce is a header value and cannot. */
  lemma {:induction false} SecondReadingExactly(r: HmacRequest, ts: int)
    requires '\n' !in r.path
    ensures (exists path, ts', nonce, body :: SecondReading(r, ts, path, ts', nonce, body)) <==> '\n' in r.nonce || '\n' in r.body
  {
    if i :| 0 <= i < |r.nonce| && r.nonce[i] == '\n' { BreakInNonce(r, ts, i); }
    if i :| 0 <= i < |r.body| && r.body[i] == '\n' { BreakInBody(r, ts, i); }
    if '\n' !in r.nonce && '\n' !in r.body {
      forall path, ts', nonce, body ensures !SecondReading(r, ts, path, ts', nonce, body) {
        if SecondReading(r, ts, path, ts', nonce, body) {
          ReadingsShareTheFront(r, ts, path, ts', nonce, body);
          OneBorder(r.nonce, r.body, nonce, body);
        }
      }
    }
  }

  /** So of two requests that sign one text, one has a nonce no header can carry. */
  lemma {:induction false} SecondReadingsAreUndeliverable(r: HmacRequest, ts: int, path: string, ts': int, nonce: string, body: string)
    requires '\n' !in r.path && SecondReading(r, ts, path, ts', nonce, body)
    ensures '\n' in r.nonce || '\n' in nonce
  {
    ReadingsShareTheFront(r, ts, path, ts', nonce, body);
    if '\n' !in r.nonce && '\n' !in nonce { FirstSplit(nonce, body, r.nonce, r.body, '\n'); }
  }

  // ----- the signed-request verifier -----

  /** `digestMatches`, `keyFound` and `genuine` are what hashing the body, looking up the
      pinned key and checking the signature over the whole base said. */
  datatype SignedRequest = SignedRequest(
    created: int, expires: int, nonce: string, digestMatches: bool, keyFound: bool, genuine: bool)

  predicate InWindow(r: SignedRequest, now: int) {
    r.created <= now + SKEW && now <= r.expires && r.expires - r.created <= WINDOW
  }

  function SignedCall(r: SignedRequest, now: int): (c: Call)
    ensures Fits(SignatureRule, c)
  {
    Call(r.nonce, now, now, r.digestMatches && InWindow(r, now) && r.keyFound && r.genuine && r.nonce != "")
  }

  class SignatureGuard {
    var seen: map<string, int>

    constructor ()
      ensures seen == map[]
    {
      seen := map[];
    }

    method Verify(r: SignedRequest, now: int) returns (verdict: Verdict)
      modifies this
      ensures (seen, verdict == Accepted) == Remember(SignatureRule, old(seen), SignedCall(r, now))
      ensures verdict == BodyChanged <==> !r.digestMatches
      ensures verdict == FromTheFuture <==> r.digestMatches && r.created > now + 5
      ensures verdict == Expired <==> r.digestMatches && r.created <= now + 5 && now > r.expires
      ensures verdict == WindowTooLong <==> r.digestMatches && r.created <= now + 5 && now <= r.expires && r.expires - r.created > 60
      ensures verdict in {NoKey, BadSignature, NoNonce, Replayed, Accepted} ==>
        r.digestMatches && r.created <= now + 5 && now <= r.expires && r.expires - r.created <= 60
      ensures verdict == NoKey ==> !r.keyFound
      ensures verdict in {BadSignature, NoNonce, Replayed, Accepted} ==> r.keyFound
      ensures verdict == BadSignature ==> !r.genuine
      ensures verdict in {NoNonce, Replayed, Accepted} ==> r.genuine && (verdict == NoNonce <==> r.nonce == "")
    {
      if !r.digestMatches { return BodyChanged; }
      if r.created > now + SKEW { return FromTheFuture; }
      if now > r.expires { return Expired; }
      if r.expires - r.created > WINDOW { return WindowTooLong; }
      if !r.keyFound { return NoKey; }
      if !r.genuine { return BadSignature; }
      verdict := CheckAndRemember(r.nonce, now);
    }

    method CheckAndRemember(nonce: string, now: int) returns (verdict: Verdict)
      modifies this
      ensures (seen, verdict == Accepted) == Remember(SignatureRule, old(seen), Call(nonce, now, now, nonce != ""))
      ensures verdict in {NoNonce, Replayed, Accepted} && (verdict == NoNonce <==> nonce == "")
    {
      if nonce == "" { return NoNonce; }
      seen := Pruned(SignatureRule, seen, now);
      if nonce in seen { return Replayed; }
      seen := seen[nonce := now];
      return Accepted;
    }
  }

  // ----- every run -----

  function Seen(rule: Rule, calls: seq<Call>): map<string, int> {
    if calls == [] then map[] else Remember(rule, Seen(rule, calls[..|calls| - 1]), calls[|calls| - 1]).0
  }

  predicate Admitted(rule: Rule, calls: seq<Call>, i: nat)
    requires i < |calls|
  {
    Remember(rule, Seen(rule, calls[..i]), calls[i]).1
  }

  ghost predicate Ticking(calls: seq<Call>) {
    forall i, j :: 0 <= i < j < |calls| ==> calls[i].now <= calls[j].now
  }

  ghost predicate AllFit(rule: Rule, calls: seq<Call>) {
    forall i :: 0 <= i < |calls| ==> Fits(rule, calls[i])
  }

  /** Some call was accepted with this nonce and this stamp. */
  ghost predicate CameFrom(rule: Rule, calls: seq<Call>, nonce: string, stamp: int) {
    exists i :: 0 <= i < |calls| && Admitted(rule, calls, i) && calls[i].nonce == nonce && calls[i].stamp == stamp
  }

  lemma {:induction false} CameFromLonger(rule: Rule, calls: seq<Call>, k: nat, nonce: string, stamp: int)
    requires k <= |calls| && CameFrom(rule, calls[..k], nonce, stamp)
    ensures CameFrom(rule, calls, nonce, stamp)
  {
    var i :| 0 <= i < k && Admitted(rule, calls[..k], i) && calls[..k][i].nonce == nonce && calls[..k][i].stamp == stamp;
    assert calls[..k][..i] == calls[..i];
    assert Admitted(rule, calls, i);
  }

  /** What is remembered was accepted. */
  lemma {:induction false} RememberedWasAccepted(rule: Rule, calls: seq<Call>, nonce: string)
    requires nonce in Seen(rule, calls)
    ensures CameFrom(rule, calls, nonce, Seen(rule, calls)[nonce])
  {
    var k := |calls| - 1;
    var had, c := Seen(rule, calls[..k]), calls[k];
    if Remember(rule, had, c).1 && nonce == c.nonce {
      assert Admitted(rule, calls, k);
    } else {
      RememberedWasAccepted(rule, calls[..k], nonce);
      CameFromLonger(rule, calls, k, nonce, had[nonce]);
    }
  }

  /** What was accepted is remembered until it is too old to be accepted again. */
  lemma {:induction false} AcceptedIsRemembered(rule: Rule, calls: seq<Call>, i: nat)
    requires Ticking(calls) && AllFit(rule, calls) && i < |calls| && Admitted(rule, calls, i)
    ensures || calls[|calls| - 1].now > calls[i].stamp + WINDOW
            || (calls[i].nonce in Seen(rule, calls) && Seen(rule, calls)[calls[i].nonce] == calls[i].stamp)
  {
    var k := |calls| - 1;
    if i < k {
      assert calls[..k][..i] == calls[..i];
      AcceptedIsRemembered(rule, calls[..k], i);
      assert calls[i].now <= calls[k].now && calls[k - 1].now <= calls[k].now && Fits(rule, calls[i]);
    }
  }

  /** The guard over every run with a clock that never goes back: a request whose other checks
      pass is accepted exactly when every earlier acceptance of its nonce has left the window. */
  lemma {:induction false} GuardRefinesHistory(rule: Rule, calls: seq<Call>, c: Call)
    requires Ticking(calls + [c]) && AllFit(rule, calls + [c]) && c.sound
    ensures Remember(rule, Seen(rule, calls), c).1 <==>
      forall i :: 0 <= i < |calls| && Admitted(rule, calls, i) && calls[i].nonce == c.nonce ==> c.now > calls[i].stamp + WINDOW
  {
    Shorter(rule, calls, c);
    if c.nonce in Pruned(rule, Seen(rule, calls), c.now) {
      RememberedWasAccepted(rule, calls, c.nonce);
    }
    forall i | 0 <= i < |calls| && Admitted(rule, calls, i) && calls[i].nonce == c.nonce
      ensures c.nonce in Pruned(rule, Seen(rule, calls), c.now) || c.now > calls[i].stamp + WINDOW
    {
      AcceptedIsRemembered(rule, calls, i);
      assert Fits(rule, calls[i]);
    }
  }

  lemma {:induction false} Shorter(rule: Rule, calls: seq<Call>, c: Call)
    requires Ticking(calls + [c]) && AllFit(rule, calls + [c])
    ensures Ticking(calls) && AllFit(rule, calls) && forall i :: 0 <= i < |calls| ==> calls[i].now <= c.now
  {
    var all := calls + [c];
    forall i, j | 0 <= i < j < |calls| ensures calls[i].now <= calls[j].now { assert all[i] == calls[i] && all[j] == calls[j]; }
    forall i | 0 <= i < |calls| ensures Fits(rule, calls[i]) && calls[i].now <= c.now { assert all[i] == calls[i] && all[|calls|] == c; }
  }

  lemma {:induction false} PrefixRuns(rule: Rule, calls: seq<Call>, j: nat)
    requires Ticking(calls) && AllFit(rule, calls) && j < |calls|
    ensures Ticking(calls[..j] + [calls[j]]) && AllFit(rule, calls[..j] + [calls[j]])
    ensures forall i :: 0 <= i < j ==> Admitted(rule, calls[..j], i) == Admitted(rule, calls, i)
  {
    assert calls[..j] + [calls[j]] == calls[..j + 1];
    assert forall i :: 0 <= i < j ==> calls[..j][..i] == calls[..i];
  }

  datatype HmacAttempt = HmacAttempt(request: HmacRequest, now: int)

  function HmacCallOf(mac: string -> string): HmacAttempt -> Call { (a: HmacAttempt) => HmacCall(a.request, a.now, mac) }

  /** The HMAC verifier never accepts the same nonce over the same timestamp twice, pruning
      or not; so never the same path, timestamp, nonce and body. */
  lemma {:induction false} HmacNeverAcceptsTwice(attempts: seq<HmacAttempt>, mac: string -> string, i: nat, j: nat)
    requires i < j < |attempts| && forall a, b :: 0 <= a < b < |attempts| ==> attempts[a].now <= attempts[b].now
    requires attempts[i].request.nonce == attempts[j].request.nonce
    requires attempts[i].request.timestamp == attempts[j].request.timestamp
    ensures var calls := Map(attempts, HmacCallOf(mac));
      !(Admitted(HmacRule, calls, i) && Admitted(HmacRule, calls, j))
  {
    var calls := Map(attempts, HmacCallOf(mac));
    PrefixRuns(HmacRule, calls, j);
    if Admitted(HmacRule, calls, i) && Admitted(HmacRule, calls, j) {
      assert Admitted(HmacRule, calls[..j], i) && calls[..j][i] == calls[i];
      GuardRefinesHistory(HmacRule, calls[..j], calls[j]);
    }
  }

  datatype SignedAttempt = SignedAttempt(request: SignedRequest, now: int)

  function SignedCallOf(): SignedAttempt -> Call { (a: SignedAttempt) => SignedCall(a.request, a.now) }

  /** Over every run, a signed request accepted a second time was good for longer than its
      nonce was remembered, and so was created after the moment it was first accepted. */
  lemma {:induction false} SignedTwiceOnlyFromTheFuture(attempts: seq<SignedAttempt>, i: nat, j: nat)
    requires i < j < |attempts| && forall a, b :: 0 <= a < b < |attempts| ==> attempts[a].now <= attempts[b].now
    requires attempts[i].request == attempts[j].request
    requires var calls := Map(attempts, SignedCallOf());
      Admitted(SignatureRule, calls, i) && Admitted(SignatureRule, calls, j)
    ensures attempts[i].request.expires > attempts[i].now + WINDOW
    ensures attempts[i].request.created > attempts[i].now
  {
    var calls := Map(attempts, SignedCallOf());
    PrefixRuns(SignatureRule, calls, j);
    GuardRefinesHistory(SignatureRule, calls[..j], calls[j]);
    assert Admitted(SignatureRule, calls[..j], i) && calls[..j][i] == calls[i];
  }

  /** Whether a request accepted at `first` is accepted again at `again`, asked next. */
  predicate AcceptedAgain(seen: map<string, int>, r: SignedRequest, first: int, again: int) {
    var (after, _) := Remember(SignatureRule, seen, SignedCall(r, first));
    first <= again && Remember(SignatureRule, after, SignedCall(r, again)).1
  }

  /** The five seconds of skew are exactly the gap: a request once accepted can be accepted
      again if and only if it outlives the memory of its nonce. */
  lemma {:induction false} ReplayableExactly(seen: map<string, int>, r: SignedRequest, first: int)
    requires Remember(SignatureRule, seen, SignedCall(r, first)).1
    ensures r.expires > first + WINDOW <==> exists again :: AcceptedAgain(seen, r, first, again)
    ensures r.expires > first + WINDOW ==> r.created > first
  {
    if r.expires > first + WINDOW {
      assert AcceptedAgain(seen, r, first, first + WINDOW + 1);
    }
  }

  /** One such request: created five seconds ahead, alive for sixty, accepted at 0 and at 61. */
  lemma {:induction false} AcceptedAtZeroAndSixtyOne()
    ensures var r := SignedRequest(5, 65, "n", true, true, true);
      Remember(SignatureRule, map[], SignedCall(r, 0)).1 && AcceptedAgain(map[], r, 0, 61)
  {
    var r := SignedRequest(5, 65, "n", true, true, true);
    assert SignedCall(r, 0).sound && SignedCall(r, 61).sound;
  }

  // ----- acceptance, from outside -----

  /** The HMAC verifier over every run: a request is accepted if and only if its timestamp is within
      a minute of now, its signature is the MAC of its own path, timestamp, nonce and body, and
      every request accepted before it with its nonce was signed more than a minute ago. */
  lemma {:induction false} HmacAcceptsExactly(attempts: seq<HmacAttempt>, mac: string -> string, i: nat)
    requires i < |attempts| && forall a, b :: 0 <= a < b < |attempts| ==> attempts[a].now <= attempts[b].now
    ensures var calls, r, now := Map(attempts, HmacCallOf(mac)), attempts[i].request, attempts[i].now;
      Admitted(HmacRule, calls, i) <==>
        && r.timestamp.Some? && -60 <= now - r.timestamp.value <= 60
        && r.signature == mac(Preimage(r.path, r.timestamp.value, r.nonce, r.body))
        && forall j :: 0 <= j < i && Admitted(HmacRule, calls, j) && attempts[j].request.nonce == r.nonce ==>
             attempts[j].request.timestamp.Some? && now > attempts[j].request.timestamp.value + 60
  {
    var calls := Map(attempts, HmacCallOf(mac));
    PrefixRuns(HmacRule, calls, i);
    if calls[i].sound { GuardRefinesHistory(HmacRule, calls[..i], calls[i]); }
    forall j | 0 <= j < i && Admitted(HmacRule, calls, j)
      ensures attempts[j].request.timestamp.Some? && calls[j].stamp == attempts[j].request.timestamp.value
    {
      assert calls[j].sound;
    }
    assert forall j :: 0 <= j < i ==> calls[..i][j] == calls[j];
  }

  /** The signed-request verifier over every run: accepted if and only if the body is the one
      digested, the request is not from more than five seconds ahead, not expired, not good for
      more than a minute, signed by a known key over the whole base, with a nonce that every
      request accepted with it before used more than a minute ago. */
  lemma {:induction false} SignedAcceptsExactly(attempts: seq<SignedAttempt>, i: nat)
    requires i < |attempts| && forall a, b :: 0 <= a < b < |attempts| ==> attempts[a].now <= attempts[b].now
    ensures var calls, r, now := Map(attempts, SignedCallOf()), attempts[i].request, attempts[i].now;
      Admitted(SignatureRule, calls, i) <==>
        && r.digestMatches && r.keyFound && r.genuine && r.nonce != ""
        && r.created <= now + 5 && now <= r.expires && r.expires - r.created <= 60
        && forall j :: 0 <= j < i && Admitted(SignatureRule, calls, j) && attempts[j].request.nonce == r.nonce ==>
             now > attempts[j].now + 60
  {
    var calls := Map(attempts, SignedCallOf());
    PrefixRuns(SignatureRule, calls, i);
    if calls[i].sound { GuardRefinesHistory(SignatureRule, calls[..i], calls[i]); }
    assert forall j :: 0 <= j < i ==> calls[..i][j] == calls[j];
  }
}
