/**
 The HMS access-token cache (internal/provider/hms/hms.go). The mutex covers the look-up, the
 store and the eviction, but not the token request between them, so any number of callers may
 request at once and store in any order. Credentials stand for their SHA-256 keys. Times are
 nanoseconds, lifetimes (expires_in, section 5.1 of RFC 6749) seconds.
 */
module HmsTokens {
  import opened Prelude

  type Credential = string

  const SECOND: int := 1_000_000_000
  const MARGIN: int := 60

  datatype Cached = Cached(token: string, expiresAt: int)

  function ExpiryOf(storedAt: int, lifetime: int): int {
    storedAt + (lifetime - MARGIN) * SECOND
  }

  function Hit(tokens: map<Credential, Cached>, c: Credential, now: int): Option<string> {
    if c in tokens && now < tokens[c].expiresAt then Some(tokens[c].token) else None
  }

  datatype SendStatus = Sent | InvalidToken | TransientError

  const SUCCESS: string := "80000000"
  const SOME_TOKENS_ILLEGAL: string := "80100000"
  const OAUTH_AUTH_ERROR: string := "80200001"
  const OAUTH_TOKEN_EXPIRED: string := "80200003"
  const ALL_TOKENS_UNREGISTERED: string := "80300007"

  predicate EvictsToken(code: string) {
    code == OAUTH_AUTH_ERROR || code == OAUTH_TOKEN_EXPIRED
  }

  // ----- any number of callers -----

  /** A token the endpoint granted to a request begun at `begun`: good until begun + lifetime. */
  datatype Grant = Grant(credential: Credential, token: string, begun: int, lifetime: int)

  datatype Caller =
    | Looking(credential: Credential)
    | Missed(credential: Credential)
    | Requesting(credential: Credential, begun: int)
    | Granted(grant: Grant)

  /** A token handed out from the cache; `stamp` is the store it came from. */
  datatype Served = Served(credential: Credential, token: string, at: int, stamp: nat)

  /**
   Bookkeeping beside the cache: `stores` numbers the stores, `stamps` and `evicted` give the
   number of the current entry and the number of stores before the last eviction.
   */
  datatype State = State(
    now: int, tokens: map<Credential, Cached>, callers: map<nat, Caller>,
    grants: set<Grant>, served: seq<Served>,
    stores: nat, stamps: map<Credential, nat>, evicted: map<Credential, nat>)

  datatype Step =
    | Tick(dt: nat)
    | Enter(id: nat, credential: Credential)
    | Look(id: nat)
    | Request(id: nat)
    | Answer(id: nat, token: string, lifetime: int)
    | Fail(id: nat)
    | Store(id: nat)
    | Evict(credential: Credential)

  predicate Enabled(s: State, step: Step) {
    match step
    case Tick(_) => true
    case Enter(i, _) => i !in s.callers
    case Look(i) => i in s.callers && s.callers[i].Looking?
    case Request(i) => i in s.callers && s.callers[i].Missed?
    case Answer(i, _, _) => i in s.callers && s.callers[i].Requesting?
    case Fail(i) => i in s.callers && s.callers[i].Requesting?
    case Store(i) => i in s.callers && s.callers[i].Granted?
    case Evict(_) => true
  }

  function Apply(s: State, step: Step): State
    requires Enabled(s, step)
  {
    match step
    case Tick(dt) => s.(now := s.now + dt)
    case Enter(i, c) => s.(callers := s.callers[i := Looking(c)])
    case Look(i) =>
      var c := s.callers[i].credential;
      var hit := Hit(s.tokens, c, s.now);
      if hit.Some?
      then s.(callers := s.callers - {i},
              served := s.served + [Served(c, hit.value, s.now, if c in s.stamps then s.stamps[c] else 0)])
      else s.(callers := s.callers[i := Missed(c)])
    case Request(i) => s.(callers := s.callers[i := Requesting(s.callers[i].credential, s.now)])
    case Answer(i, token, lifetime) =>
      var g := Grant(s.callers[i].credential, token, s.callers[i].begun, lifetime);
      s.(callers := s.callers[i := Granted(g)], grants := s.grants + {g})
    case Fail(i) => s.(callers := s.callers - {i})
    case Store(i) =>
      var g := s.callers[i].grant;
      s.(callers := s.callers - {i},
         tokens := s.tokens[g.credential := Cached(g.token, ExpiryOf(s.now, g.lifetime))],
         stores := s.stores + 1, stamps := s.stamps[g.credential := s.stores + 1])
    case Evict(c) => s.(tokens := s.tokens - {c}, evicted := s.evicted[c := s.stores])
  }

  /** At most `limit` passes between starting a request and storing its answer. */
  predicate Prompt(s: State, step: Step, limit: int)
    requires Enabled(s, step)
  {
    step.Store? ==> s.now - s.callers[step.id].grant.begun <= limit
  }

  predicate Valid(s: State, steps: seq<Step>)
    decreases steps
  {
    steps == [] || (Enabled(s, steps[0]) && Valid(Apply(s, steps[0]), steps[1..]))
  }

  predicate AllPrompt(s: State, steps: seq<Step>, limit: int)
    requires Valid(s, steps)
    decreases steps
  {
    steps == [] || (Prompt(s, steps[0], limit) && AllPrompt(Apply(s, steps[0]), steps[1..], limit))
  }

  function Run(s: State, steps: seq<Step>): State
    requires Valid(s, steps)
    decreases steps
  {
    if steps == [] then s else Run(Apply(s, steps[0]), steps[1..])
  }

  function Start(now: int): State {
    State(now, map[], map[], {}, [], 0, map[], map[])
  }

  // ----- freshness -----

  function GoodUntil(g: Grant): int {
    g.begun + g.lifetime * SECOND
  }

  /** Some grant for this credential and token is good at every instant before `until`. */
  ghost predicate Vouched(grants: set<Grant>, c: Credential, token: string, until: int) {
    exists g :: g in grants && g.credential == c && g.token == token && until <= GoodUntil(g)
  }

  ghost predicate Fresh(s: State) {
    && (forall i :: i in s.callers && s.callers[i].Granted? ==> s.callers[i].grant in s.grants)
    && (forall c :: c in s.tokens ==> Vouched(s.grants, c, s.tokens[c].token, s.tokens[c].expiresAt))
    && (forall x :: x in s.served ==> Vouched(s.grants, x.credential, x.token, x.at + 1))
  }

  lemma StillVouched(grants: set<Grant>, more: set<Grant>, c: Credential, token: string, until: int)
    requires Vouched(grants, c, token, until) && grants <= more
    ensures Vouched(more, c, token, until)
  {
    var g :| g in grants && g.credential == c && g.token == token && until <= GoodUntil(g);
    assert g in more;
  }

  lemma StepFresh(s: State, step: Step)
    requires Fresh(s) && Enabled(s, step) && Prompt(s, step, MARGIN * SECOND)
    ensures Fresh(Apply(s, step))
  {
    var s' := Apply(s, step);
    forall c | c in s'.tokens ensures Vouched(s'.grants, c, s'.tokens[c].token, s'.tokens[c].expiresAt) {
      if step.Store? && c == s.callers[step.id].grant.credential {
        assert s.callers[step.id].grant in s'.grants;
      } else {
        StillVouched(s.grants, s'.grants, c, s.tokens[c].token, s.tokens[c].expiresAt);
      }
    }
    forall x | x in s'.served ensures Vouched(s'.grants, x.credential, x.token, x.at + 1) {
      if x in s.served {
        StillVouched(s.grants, s'.grants, x.credential, x.token, x.at + 1);
      } else {
        var g :| g in s.grants && g.credential == x.credential && g.token == x.token
                 && s.tokens[x.credential].expiresAt <= GoodUntil(g);
      }
    }
  }

  lemma {:induction false} RunFresh(s: State, steps: seq<Step>)
    requires Fresh(s) && Valid(s, steps) && AllPrompt(s, steps, MARGIN * SECOND)
    ensures Fresh(Run(s, steps))
    decreases |steps|
  {
    if steps != [] {
      StepFresh(s, steps[0]);
      RunFresh(Apply(s, steps[0]), steps[1..]);
    }
  }

  /** The token was granted for the same credential and is still good when it is served. */
  ghost predicate ServedGood(grants: set<Grant>, x: Served) {
    exists g :: g in grants && g.credential == x.credential && g.token == x.token && x.at < GoodUntil(g)
  }

  lemma ServedIsGood(s: State, x: Served)
    requires Fresh(s) && x in s.served
    ensures ServedGood(s.grants, x)
  {
    var g :| g in s.grants && g.credential == x.credential && g.token == x.token && x.at + 1 <= GoodUntil(g);
  }

  /**
   With any number of concurrent callers, a token served from the cache was granted for the same
   credential and is still good, if stores are prompt.
   */
  lemma ServedTokensAreGood(now: int, steps: seq<Step>, x: Served)
    requires Valid(Start(now), steps) && AllPrompt(Start(now), steps, MARGIN * SECOND)
    requires x in Run(Start(now), steps).served
    ensures ServedGood(Run(Start(now), steps).grants, x)
  {
    RunFresh(Start(now), steps);
    ServedIsGood(Run(Start(now), steps), x);
  }

  /** However many callers, stores within `limit` of their requests keep stale tokens from being served. */
  ghost predicate LimitSuffices(now: int, limit: int) {
    forall steps, x ::
      Valid(Start(now), steps) && AllPrompt(Start(now), steps, limit) && x in Run(Start(now), steps).served ==>
        ServedGood(Run(Start(now), steps).grants, x)
  }

  /** The state after one request that took `delay`. */
  function Stored(now: int, delay: nat): State {
    var g := Grant("c", "t", now, MARGIN + 1);
    State(now + delay, map["c" := Cached("t", now + delay + SECOND)], map[], {g}, [], 1, map["c" := 1], map[])
  }

  lemma {:induction false} RunSplits(s: State, a: seq<Step>, b: seq<Step>, limit: int)
    requires Valid(s, a) && Valid(Run(s, a), b)
    ensures Valid(s, a + b) && Run(s, a + b) == Run(Run(s, a), b)
    ensures AllPrompt(s, a, limit) && AllPrompt(Run(s, a), b, limit) ==> AllPrompt(s, a + b, limit)
    decreases |a|
  {
    if a == [] {
      assert a + b == b;
    } else {
      assert (a + b)[0] == a[0] && (a + b)[1..] == a[1..] + b;
      RunSplits(Apply(s, a[0]), a[1..], b, limit);
    }
  }

  lemma OneStep(s: State, step: Step, limit: int)
    requires Enabled(s, step) && Prompt(s, step, limit)
    ensures Valid(s, [step]) && Run(s, [step]) == Apply(s, step) && AllPrompt(s, [step], limit)
  {
    assert [step][1..] == [];
  }

  lemma Then(s: State, a: seq<Step>, step: Step, limit: int)
    requires Valid(s, a) && AllPrompt(s, a, limit) && Enabled(Run(s, a), step) && Prompt(Run(s, a), step, limit)
    ensures Valid(s, a + [step]) && AllPrompt(s, a + [step], limit)
    ensures Run(s, a + [step]) == Apply(Run(s, a), step)
  {
    OneStep(Run(s, a), step, limit);
    RunSplits(s, a, [step], limit);
  }

  lemma SlowStore(now: int, delay: nat) returns (steps: seq<Step>)
    ensures Valid(Start(now), steps) && AllPrompt(Start(now), steps, delay)
    ensures Run(Start(now), steps) == Stored(now, delay)
  {
    steps := [];
    Then(Start(now), steps, Enter(0, "c"), delay);
    steps := steps + [Enter(0, "c")];
    Then(Start(now), steps, Look(0), delay);
    steps := steps + [Look(0)];
    Then(Start(now), steps, Request(0), delay);
    steps := steps + [Request(0)];
    Then(Start(now), steps, Tick(delay), delay);
    steps := steps + [Tick(delay)];
    Then(Start(now), steps, Answer(0, "t", MARGIN + 1), delay);
    steps := steps + [Answer(0, "t", MARGIN + 1)];
    Then(Start(now), steps, Store(0), delay);
    steps := steps + [Store(0)];
    assert Run(Start(now), steps).callers == map[];
  }

  /** A request that takes more than 60 seconds can have its token served when it has run out. */
  lemma SlowStoreServesStale(now: int, delay: nat) returns (steps: seq<Step>, x: Served)
    requires delay > MARGIN * SECOND
    ensures Valid(Start(now), steps) && AllPrompt(Start(now), steps, delay)
    ensures x in Run(Start(now), steps).served && !ServedGood(Run(Start(now), steps).grants, x)
  {
    var wait := if delay < (MARGIN + 1) * SECOND then (MARGIN + 1) * SECOND - delay else 0;
    steps := SlowStore(now, delay);
    Then(Start(now), steps, Tick(wait), delay);
    steps := steps + [Tick(wait)];
    Then(Start(now), steps, Enter(1, "c"), delay);
    steps := steps + [Enter(1, "c")];
    Then(Start(now), steps, Look(1), delay);
    steps := steps + [Look(1)];
    x := Served("c", "t", now + delay + wait, 1);
  }

  lemma {:induction false} StillPrompt(s: State, steps: seq<Step>, limit: int, larger: int)
    requires Valid(s, steps) && AllPrompt(s, steps, limit) && limit <= larger
    ensures AllPrompt(s, steps, larger)
    decreases |steps|
  {
    if steps != [] {
      StillPrompt(Apply(s, steps[0]), steps[1..], limit, larger);
    }
  }

  /** The margin is exact: no stale token is ever served if and only if requests take at most 60 seconds. */
  lemma SixtySecondsAreExact(now: int, limit: nat)
    ensures LimitSuffices(now, limit) <==> limit <= MARGIN * SECOND
  {
    if limit <= MARGIN * SECOND {
      forall steps, x |
        Valid(Start(now), steps) && AllPrompt(Start(now), steps, limit) && x in Run(Start(now), steps).served
        ensures ServedGood(Run(Start(now), steps).grants, x)
      {
        StillPrompt(Start(now), steps, limit, MARGIN * SECOND);
        ServedTokensAreGood(now, steps, x);
      }
    } else {
      var steps, x := SlowStoreServesStale(now, limit);
    }
  }

  // ----- evictions -----

  ghost predicate EvictionsHold(s: State) {
    && s.tokens.Keys <= s.stamps.Keys
    && (forall c :: c in s.evicted ==> s.evicted[c] <= s.stores)
    && (forall c :: c in s.tokens && c in s.evicted ==> s.stamps[c] > s.evicted[c])
  }

  lemma StepKeepsEvictions(s: State, step: Step)
    requires EvictionsHold(s) && Enabled(s, step)
    ensures EvictionsHold(Apply(s, step))
  {
  }

  lemma {:induction false} RunKeepsEvictions(s: State, steps: seq<Step>)
    requires EvictionsHold(s) && Valid(s, steps)
    ensures EvictionsHold(Run(s, steps))
    decreases |steps|
  {
    if steps != [] {
      StepKeepsEvictions(s, steps[0]);
      RunKeepsEvictions(Apply(s, steps[0]), steps[1..]);
    }
  }

  /** A look-up after an eviction never serves an entry stored before it. */
  lemma EvictedTokensStayOut(now: int, steps: seq<Step>, i: nat)
    requires Valid(Start(now), steps)
    requires var s := Run(Start(now), steps);
             Enabled(s, Look(i)) && |Apply(s, Look(i)).served| > |s.served|
    ensures var s := Run(Start(now), steps);
            var x := Apply(s, Look(i)).served[|s.served|];
            x.credential in s.evicted ==> x.stamp > s.evicted[x.credential]
  {
    RunKeepsEvictions(Start(now), steps);
  }

  /** A token stored at `stored` is served at a time if and only if that is before its lifetime less 60 seconds. */
  lemma ServedUntil(now: int, stored: int, c: Credential, token: string, lifetime: int, tokens: map<Credential, Cached>)
    ensures Hit(tokens[c := Cached(token, ExpiryOf(stored, lifetime))], c, now)
         == if now < stored + (lifetime - 60) * 1_000_000_000 then Some(token) else None
  {
  }

  // ----- the adapter's own methods -----

  /**
   One call of accessTokenFor with nobody else about, as steps of the machine: caller `i` enters
   and looks; if it misses, it requests, `delay` passes, and it stores or fails.
   */
  function CallAlone(s: State, i: nat, c: Credential, delay: nat, reply: Option<(string, int)>): seq<Step> {
    [Enter(i, c), Look(i)] + if Hit(s.tokens, c, s.now).Some? then [] else AfterMiss(i, delay, reply)
  }

  /** What the call returns: the token it was served, or else the one it was granted. */
  function TokenOf(s: State, c: Credential, reply: Option<(string, int)>): Option<string> {
    if Hit(s.tokens, c, s.now).Some? then Hit(s.tokens, c, s.now)
    else if reply.Some? then Some(reply.value.0) else None
  }

  lemma LookAlone(s: State, i: nat, c: Credential, limit: int) returns (s': State)
    requires i !in s.callers
    ensures Valid(s, [Enter(i, c), Look(i)]) && AllPrompt(s, [Enter(i, c), Look(i)], limit)
    ensures s' == Run(s, [Enter(i, c), Look(i)])
    ensures s' == s.(served := s'.served, callers := s'.callers)
    ensures s'.callers == if Hit(s.tokens, c, s.now).Some? then s.callers else s.callers[i := Missed(c)]
  {
    OneStep(s, Enter(i, c), limit);
    Then(s, [Enter(i, c)], Look(i), limit);
    assert [Enter(i, c)] + [Look(i)] == [Enter(i, c), Look(i)];
    s' := Run(s, [Enter(i, c), Look(i)]);
    assert s.callers[i := Looking(c)] - {i} == s.callers;
  }

  function AfterMiss(i: nat, delay: nat, reply: Option<(string, int)>): seq<Step> {
    [Request(i), Tick(delay)] + if reply.None? then [Fail(i)] else [Answer(i, reply.value.0, reply.value.1), Store(i)]
  }

  lemma RequestAlone(s: State, i: nat, c: Credential, delay: nat)
    requires i in s.callers && s.callers[i] == Missed(c)
    ensures var steps := [Request(i), Tick(delay)];
      && Valid(s, steps) && AllPrompt(s, steps, delay)
      && Run(s, steps) == s.(callers := s.callers[i := Requesting(c, s.now)], now := s.now + delay)
  {
    OneStep(s, Request(i), delay);
    Then(s, [Request(i)], Tick(delay), delay);
    assert [Request(i)] + [Tick(delay)] == [Request(i), Tick(delay)];
  }

  lemma MissAlone(s: State, i: nat, c: Credential, delay: nat, reply: Option<(string, int)>)
    requires i in s.callers && s.callers[i] == Missed(c)
    ensures Valid(s, AfterMiss(i, delay, reply)) && AllPrompt(s, AfterMiss(i, delay, reply), delay)
    ensures var s' := Run(s, AfterMiss(i, delay, reply));
      && s'.callers == s.callers - {i}
      && s'.tokens == if reply.None? then s.tokens
                      else s.tokens[c := Cached(reply.value.0, ExpiryOf(s.now + delay, reply.value.1))]
  {
    var steps := [Request(i), Tick(delay)];
    RequestAlone(s, i, c, delay);
    if reply.None? {
      Then(s, steps, Fail(i), delay);
      assert steps + [Fail(i)] == AfterMiss(i, delay, reply);
    } else {
      var answer := Answer(i, reply.value.0, reply.value.1);
      Then(s, steps, answer, delay);
      Then(s, steps + [answer], Store(i), delay);
      assert steps + [answer] + [Store(i)] == AfterMiss(i, delay, reply);
    }
  }

  /** The call's steps are a run of the machine, prompt if the request was. */
  lemma CallAloneIsRun(s: State, i: nat, c: Credential, delay: nat, reply: Option<(string, int)>)
    requires i !in s.callers
    ensures Valid(s, CallAlone(s, i, c, delay, reply)) && AllPrompt(s, CallAlone(s, i, c, delay, reply), delay)
    ensures var s' := Run(s, CallAlone(s, i, c, delay, reply));
      && s'.callers == s.callers
      && s'.tokens == if Hit(s.tokens, c, s.now).Some? || reply.None? then s.tokens
                      else s.tokens[c := Cached(reply.value.0, ExpiryOf(s.now + delay, reply.value.1))]
  {
    var look := [Enter(i, c), Look(i)];
    var s' := LookAlone(s, i, c, delay);
    if Hit(s.tokens, c, s.now).Some? {
      assert look + [] == look;
    } else {
      MissAlone(s', i, c, delay, reply);
      RunSplits(s, look, AfterMiss(i, delay, reply), delay);
      assert s'.callers - {i} == s.callers;
    }
  }

  lemma CallKeepsFresh(s: State, i: nat, c: Credential, delay: nat, reply: Option<(string, int)>)
    requires i !in s.callers && Fresh(s) && delay <= MARGIN * SECOND
    ensures Valid(s, CallAlone(s, i, c, delay, reply)) && Fresh(Run(s, CallAlone(s, i, c, delay, reply)))
  {
    CallAloneIsRun(s, i, c, delay, reply);
    StillPrompt(s, CallAlone(s, i, c, delay, reply), delay, MARGIN * SECOND);
    RunFresh(s, CallAlone(s, i, c, delay, reply));
  }

  class Adapter {
    var tokens: map<Credential, Cached>

    /**
     `s` is the machine's state as the call begins, with this cache, and `i` a caller not in it;
     `reply` is the token endpoint's answer.
     */
    method AccessTokenFor(c: Credential, now: int, reply: Option<(string, int)>, later: int, ghost s: State, ghost i: nat)
      returns (token: Option<string>)
      requires s.tokens == tokens && s.now == now <= later && i !in s.callers
      modifies this
      ensures var steps := CallAlone(s, i, c, later - now, reply);
        && Valid(s, steps) && tokens == Run(s, steps).tokens && Run(s, steps).callers == s.callers
      ensures token == TokenOf(s, c, reply)
      // a live entry is served and kept
      ensures c in s.tokens && now < s.tokens[c].expiresAt ==> token == Some(s.tokens[c].token) && tokens == s.tokens
      // otherwise the token granted is the one returned and the one stored, for its lifetime less 60 seconds
      ensures !(c in s.tokens && now < s.tokens[c].expiresAt) && reply.Some? ==>
                && token == Some(reply.value.0)
                && tokens == s.tokens[c := Cached(reply.value.0, later + (reply.value.1 - 60) * 1_000_000_000)]
      // and without a grant nothing is
      ensures !(c in s.tokens && now < s.tokens[c].expiresAt) && reply.None? ==> token.None? && tokens == s.tokens
      ensures Fresh(s) && later - now <= MARGIN * SECOND ==> Fresh(Run(s, CallAlone(s, i, c, later - now, reply)))
    {
      CallAloneIsRun(s, i, c, later - now, reply);
      if Fresh(s) && later - now <= MARGIN * SECOND {
        CallKeepsFresh(s, i, c, later - now, reply);
      }
      if c in tokens && now < tokens[c].expiresAt {
        return Some(tokens[c].token);
      }
      if reply.None? {
        return None;
      }
      tokens := tokens[c := Cached(reply.value.0, later + (reply.value.1 - 60) * SECOND)];
      return Some(reply.value.0);
    }

    method InvalidateToken(c: Credential, ghost s: State)
      requires s.tokens == tokens
      modifies this
      ensures tokens == Apply(s, Evict(c)).tokens
      ensures c !in tokens
      ensures forall d :: d != c ==> (d in tokens <==> d in s.tokens) && (d in tokens ==> tokens[d] == s.tokens[d])
    {
      tokens := tokens - {c};
    }

    /** classify: only the two authorization codes evict the token, and they are retried. */
    method Classify(c: Credential, code: string, ghost s: State) returns (status: SendStatus)
      requires s.tokens == tokens
      modifies this
      ensures tokens == if EvictsToken(code) then Apply(s, Evict(c)).tokens else s.tokens
      ensures c !in tokens <==> c !in s.tokens || code == "80200001" || code == "80200003"
      ensures status == Sent <==> code == "80000000"
      ensures status == InvalidToken <==> code == "80300007" || code == "80100000"
    {
      if code == SUCCESS {
        status := Sent;
      } else if code == ALL_TOKENS_UNREGISTERED || code == SOME_TOKENS_ILLEGAL {
        status := InvalidToken;
      } else if code == OAUTH_AUTH_ERROR || code == OAUTH_TOKEN_EXPIRED {
        InvalidateToken(c, s);
        status := TransientError;
      } else {
        status := TransientError;
      }
    }
  }
}
