/**
 The unary interceptor stack (internal/transport/interceptor.go, dial.go:49-61): auth, timeout and
 idempotency set things once per logical call, retry repeats the attempt inside them. The token
 source, key generator, clock, server, timers and random source are a `World` that answers as it
 likes and keeps its own log of what was asked of it; contracts speak of that log.
 */
module Interceptors {
  import opened Prelude
  import opened ErrorChains
  import opened RetryDelay

  const AUTHORIZATION := "Authorization"
  const IDEMPOTENCY := "X-Idempotency-Key"
  const RETRYABLE := "x-retryable"

  datatype RetryConfig = RetryConfig(maxAttempts: int, initialDelay: int, maxDelay: int)

  datatype Config = Config(timeout: int, retryEnabled: bool, retry: RetryConfig, autoIdempotency: bool)

  datatype Interceptor = Auth | Timeout(d: int) | Idempotency | Retry(cfg: RetryConfig)

  datatype Ctx = Ctx(deadline: Option<int>)

  datatype Outcome = Response(body: string) | Failed(err: GoError)

  datatype TokenResult = Token(value: string) | NoToken(err: GoError)

  /** What the server sees of one attempt. */
  datatype Attempt = Attempt(headers: map<string, string>, deadline: Option<int>)

  /** What was asked of the world, and what it answered, in order. */
  datatype CallLog = CallLog(
    attempts: seq<Attempt>, outcomes: seq<Outcome>, tokens: seq<TokenResult>, minted: seq<string>,
    clock: seq<int>, rngs: seq<real>, timers: seq<int>)

  const NOTHING := CallLog([], [], [], [], [], [], [])

  function Joined(a: CallLog, b: CallLog): CallLog {
    CallLog(a.attempts + b.attempts, a.outcomes + b.outcomes, a.tokens + b.tokens, a.minted + b.minted,
            a.clock + b.clock, a.rngs + b.rngs, a.timers + b.timers)
  }

  class World {
    ghost var log: CallLog

    constructor ()
      ensures log == NOTHING
    {
      log := NOTHING;
    }

    method AskToken() returns (tok: TokenResult)
      modifies this
      ensures log == old(log).(tokens := old(log).tokens + [tok])
    {
      tok := *;
      log := log.(tokens := log.tokens + [tok]);
    }

    method ReadClock() returns (now: int)
      modifies this
      ensures log == old(log).(clock := old(log).clock + [now])
    {
      now := *;
      log := log.(clock := log.clock + [now]);
    }

    method MintKey() returns (key: string)
      modifies this
      ensures log == old(log).(minted := old(log).minted + [key])
    {
      key := *;
      log := log.(minted := log.minted + [key]);
    }

    /** One attempt on the wire, answered by the server as it likes. */
    method Send(ctx: Ctx, headers: map<string, string>) returns (o: Outcome)
      modifies this
      ensures log == old(log).(attempts := old(log).attempts + [Attempt(headers, ctx.deadline)],
                               outcomes := old(log).outcomes + [o])
    {
      o := *;
      log := log.(attempts := log.attempts + [Attempt(headers, ctx.deadline)], outcomes := log.outcomes + [o]);
    }

    /** rng: some real in [0, 1). */
    method Random() returns (r: real)
      modifies this
      ensures Unit(r) && log == old(log).(rngs := old(log).rngs + [r])
    {
      r :| 0.0 <= r < 1.0;
      log := log.(rngs := log.rngs + [r]);
    }

    /** A timer of duration d against the context (interceptor.go:111-117): the context's error if it is done first. */
    method Sleep(ctx: Ctx, d: int) returns (ctxErr: Option<GoError>)
      modifies this
      ensures log == old(log).(timers := old(log).timers + [d])
      ensures ctxErr == None || ctxErr == Some(Canceled) || (ctxErr == Some(DeadlineExceeded) && ctx.deadline.Some?)
    {
      var cancelled: bool, expired: bool := *, *;
      ctxErr := if cancelled then Some(Canceled)
                else if expired && ctx.deadline.Some? then Some(DeadlineExceeded) else None;
      log := log.(timers := log.timers + [d]);
    }
  }

  class Request {
    const mutating: bool   // the procedure is in the mutating set
    var headers: map<string, string>

    constructor (mutating: bool)
      ensures this.mutating == mutating && headers == map[]
    {
      this.mutating := mutating;
      headers := map[];
    }
  }

  /** serverRetryable (interceptor.go:125-131): the first Connect error of the chain says so. */
  predicate ServerRetryable(err: GoError) {
    match FindConnect(err)
    case Some(Connect(_, _, meta, _)) => Get(meta, RETRYABLE) == "true"
    case _ => false
  }

  /** That is the server's mark on the first Connect error in the tree. */
  lemma {:induction false} RetryableIsMarked(err: GoError)
    ensures ServerRetryable(err) <==> Marked(err)
  {
    FoundInOrder(err, Canceled);
    if FindConnect(err).Some? {
      FoundConnect(err);
    }
  }

  /** The loop retries a failure exactly when the error the caller would get for it says it is retryable. */
  lemma {:induction false} RetryableAgrees(err: GoError)
    requires FirstApi(Nodes(err)).None?
    ensures ServerRetryable(err)
            <==> AsError(Some(err)).value.Api? && AsError(Some(err)).value.e.retryable
  {
    FoundInOrder(err, Canceled);
    RetryableIsMarked(err);
    if FirstConnect(Nodes(err)).Some? {
      ConnectClassified(err, ErrNotFound);
    }
  }

  // ----- the order Dial gives -----

  function Rank(i: Interceptor): nat {
    match i
    case Auth => 0
    case Timeout(_) => 1
    case Idempotency => 2
    case Retry(_) => 3
  }

  /** Outer to inner: auth, timeout, idempotency, retry, each at most once. */
  predicate Stacked(chain: seq<Interceptor>) {
    forall i, j :: 0 <= i < j < |chain| ==> Rank(chain[i]) < Rank(chain[j])
  }

  predicate HasAuth(chain: seq<Interceptor>) {
    chain != [] && (chain[0].Auth? || HasAuth(chain[1..]))
  }

  predicate HasIdempotency(chain: seq<Interceptor>) {
    chain != [] && (chain[0].Idempotency? || HasIdempotency(chain[1..]))
  }

  function TimeoutOf(chain: seq<Interceptor>): Option<int> {
    if chain == [] then None
    else if chain[0].Timeout? then Some(chain[0].d)
    else TimeoutOf(chain[1..])
  }

  function RetryOf(chain: seq<Interceptor>): Option<RetryConfig> {
    if chain == [] then None
    else if chain[0].Retry? then Some(chain[0].cfg)
    else RetryOf(chain[1..])
  }

  /** Attempts one call may make. */
  function MaxAttempts(chain: seq<Interceptor>): int {
    match RetryOf(chain)
    case None => 1
    case Some(cfg) => if cfg.maxAttempts < 1 then 1 else cfg.maxAttempts
  }

  /** Dial's conditional appends (dial.go:52-61). */
  method Dial(cfg: Config) returns (chain: seq<Interceptor>)
    ensures Stacked(chain) && HasAuth(chain)
    ensures TimeoutOf(chain) == if cfg.timeout > 0 then Some(cfg.timeout) else None
    ensures HasIdempotency(chain) == cfg.autoIdempotency
    ensures RetryOf(chain) == if cfg.retryEnabled then Some(cfg.retry) else None
  {
    chain := [Auth];
    if cfg.timeout > 0 {
      chain := chain + [Timeout(cfg.timeout)];
    }
    if cfg.autoIdempotency {
      chain := chain + [Idempotency];
    }
    if cfg.retryEnabled {
      chain := chain + [Retry(cfg.retry)];
    }
    ChainFacts(cfg, chain);
  }

  lemma {:induction false} ChainFacts(cfg: Config, chain: seq<Interceptor>)
    requires chain == [Auth] + (if cfg.timeout > 0 then [Timeout(cfg.timeout)] else [])
                      + (if cfg.autoIdempotency then [Idempotency] else [])
                      + (if cfg.retryEnabled then [Retry(cfg.retry)] else [])
    ensures Stacked(chain) && HasAuth(chain)
    ensures TimeoutOf(chain) == if cfg.timeout > 0 then Some(cfg.timeout) else None
    ensures HasIdempotency(chain) == cfg.autoIdempotency
    ensures RetryOf(chain) == if cfg.retryEnabled then Some(cfg.retry) else None
  {
    var r: seq<Interceptor> := if cfg.retryEnabled then [Retry(cfg.retry)] else [];
    var i: seq<Interceptor> := (if cfg.autoIdempotency then [Idempotency] else []) + r;
    var t: seq<Interceptor> := (if cfg.timeout > 0 then [Timeout(cfg.timeout)] else []) + i;
    assert chain == [Auth] + t && chain[1..] == t;
    RetryPart(cfg, r);
    IdempotencyPart(cfg.autoIdempotency, r, i);
    TimeoutPart(cfg.timeout, i, t);
  }

  lemma {:induction false} RetryPart(cfg: Config, r: seq<Interceptor>)
    requires r == if cfg.retryEnabled then [Retry(cfg.retry)] else []
    ensures TimeoutOf(r).None? && !HasIdempotency(r)
    ensures RetryOf(r) == if cfg.retryEnabled then Some(cfg.retry) else None
  {
    if cfg.retryEnabled {
      assert r[1..] == [];
    }
  }

  lemma {:induction false} IdempotencyPart(on: bool, r: seq<Interceptor>, i: seq<Interceptor>)
    requires i == (if on then [Idempotency] else []) + r
    requires TimeoutOf(r).None? && !HasIdempotency(r)
    ensures TimeoutOf(i).None? && HasIdempotency(i) == on && RetryOf(i) == RetryOf(r)
  {
    if on {
      assert i[1..] == r;
    } else {
      assert i == r;
    }
  }

  lemma {:induction false} TimeoutPart(d: int, i: seq<Interceptor>, t: seq<Interceptor>)
    requires t == (if d > 0 then [Timeout(d)] else []) + i
    requires TimeoutOf(i).None?
    ensures TimeoutOf(t) == if d > 0 then Some(d) else None
    ensures HasIdempotency(t) == HasIdempotency(i) && RetryOf(t) == RetryOf(i)
  {
    if d > 0 {
      assert t[1..] == i;
    } else {
      assert t == i;
    }
  }

  // ----- what a call keeps -----

  /** All attempts of the call are the same request: same headers, same deadline. */
  predicate Uniform(log: CallLog, headers: map<string, string>) {
    && |log.attempts| == |log.outcomes|
    && (forall k :: 0 <= k < |log.attempts| ==> log.attempts[k].headers == headers)
    && (forall k :: 0 <= k < |log.attempts| ==> log.attempts[k].deadline == log.attempts[0].deadline)
  }

  /** The deadline of the attempts: the caller's, or the clock's one reading plus the configured timeout. */
  predicate DeadlineOk(chain: seq<Interceptor>, ctx: Ctx, log: CallLog) {
    log.attempts != [] ==>
      if ctx.deadline.Some? || TimeoutOf(chain).None? then log.clock == [] && log.attempts[0].deadline == ctx.deadline
      else |log.clock| == 1 && log.attempts[0].deadline == Some(log.clock[0] + TimeoutOf(chain).value)
  }

  /** The request's headers with the call's token and idempotency key set. */
  function Stamped(before: map<string, string>, tokens: seq<TokenResult>, minted: seq<string>): map<string, string> {
    var h := if tokens != [] && tokens[0].Token? then before[AUTHORIZATION := "Bearer " + tokens[0].value] else before;
    if minted != [] then h[IDEMPOTENCY := minted[0]] else h
  }

  /** One token per call; without one there is no attempt and the call is unauthenticated. */
  predicate TokenOk(chain: seq<Interceptor>, log: CallLog, o: Outcome) {
    if !HasAuth(chain) then log.tokens == [] && log.attempts != []
    else
      |log.tokens| == 1 &&
      match log.tokens[0]
      case Token(_) => log.attempts != []
      case NoToken(err) => log.attempts == [] && o == Failed(Connect(CodeUnauthenticated, Text(err), map[], Some(err)))
  }

  /** At most one key per call: minted exactly for a mutating request that has none and reaches the server. */
  predicate KeyOk(chain: seq<Interceptor>, mutating: bool, before: map<string, string>, log: CallLog) {
    |log.minted| ==
    if HasIdempotency(chain) && mutating && Get(before, IDEMPOTENCY) == "" && log.attempts != [] then 1 else 0
  }

  function LastOutcome(log: CallLog): Outcome
    requires log.outcomes != []
  {
    log.outcomes[|log.outcomes| - 1]
  }

  predicate RetryableOutcome(o: Outcome) {
    o.Failed? && Marked(o.err)
  }

  /** The context's own error; only a context with a deadline can exceed one. */
  predicate ContextEnded(log: CallLog, o: Outcome) {
    || o == Failed(Canceled)
    || (o == Failed(DeadlineExceeded) && log.attempts != [] && log.attempts[0].deadline.Some?)
  }

  /**
   The retry loop: every attempt but the last failed retryably; the call ends with the last outcome, a
   success, a final failure or a retryable one with no attempt left, or with the context's error while
   it waited after a retryable failure with attempts left.
   */
  predicate AttemptsOk(max: int, log: CallLog, o: Outcome) {
    && 1 <= |log.outcomes| <= max
    && (forall k :: 0 <= k < |log.outcomes| - 1 ==> RetryableOutcome(log.outcomes[k]))
    && ((o == LastOutcome(log) && (RetryableOutcome(o) ==> |log.outcomes| == max) && |log.rngs| == |log.outcomes| - 1)
        || (ContextEnded(log, o) && RetryableOutcome(LastOutcome(log))
            && |log.outcomes| < max && |log.rngs| == |log.outcomes|))
  }

  /** One timer of the jittered delay for each attempt that was followed by a wait. */
  predicate WaitsOk(chain: seq<Interceptor>, log: CallLog) {
    && |log.timers| == |log.rngs| <= |log.attempts|
    && (forall k :: 0 <= k < |log.rngs| ==> Unit(log.rngs[k]))
    && match RetryOf(chain)
       case None => log.rngs == []
       case Some(cfg) => TimersOk(cfg, log)
  }

  predicate TimersOk(cfg: RetryConfig, log: CallLog) {
    && |log.timers| == |log.rngs|
    && forall k :: 0 <= k < |log.timers| ==> log.timers[k] == Wait(cfg.initialDelay, cfg.maxDelay, k, log.rngs[k])
  }

  predicate CallOk(chain: seq<Interceptor>, ctx: Ctx, mutating: bool,
                   before: map<string, string>, after: map<string, string>, log: CallLog, o: Outcome) {
    && Uniform(log, after)
    && DeadlineOk(chain, ctx, log)
    && after == Stamped(before, log.tokens, log.minted)
    && TokenOk(chain, log, o)
    && KeyOk(chain, mutating, before, log)
    && (log.attempts != [] ==> AttemptsOk(MaxAttempts(chain), log, o))
    && WaitsOk(chain, log)
  }

  // ----- the interceptors -----

  /** One logical call through the chain, outermost first; `log` is its part of the world's log. */
  method Invoke(w: World, chain: seq<Interceptor>, ctx: Ctx, req: Request) returns (o: Outcome, ghost log: CallLog)
    requires Stacked(chain)
    modifies w, req`headers
    ensures w.log == Joined(old(w.log), log)
    ensures CallOk(chain, ctx, req.mutating, old(req.headers), req.headers, log, o)
    decreases |chain|, 1
  {
    if chain == [] {
      o := w.Send(ctx, req.headers);
      log := NOTHING.(attempts := [Attempt(req.headers, ctx.deadline)], outcomes := [o]);
    } else {
      match chain[0] {
        case Auth => o, log := WrapAuth(w, chain, ctx, req);
        case Timeout(d) => o, log := WrapTimeout(w, chain, d, ctx, req);
        case Idempotency => o, log := WrapIdempotency(w, chain, ctx, req);
        case Retry(cfg) => o, log := WrapRetry(w, chain, cfg, ctx, req);
      }
    }
  }

  /** authInterceptor.WrapUnary (interceptor.go:36-45). */
  method WrapAuth(w: World, chain: seq<Interceptor>, ctx: Ctx, req: Request) returns (o: Outcome, ghost log: CallLog)
    requires Stacked(chain) && chain != [] && chain[0].Auth?
    modifies w, req`headers
    ensures w.log == Joined(old(w.log), log)
    ensures CallOk(chain, ctx, req.mutating, old(req.headers), req.headers, log, o)
    decreases |chain|, 0
  {
    StackedTail(chain);
    var tok := w.AskToken();
    match tok {
      case NoToken(err) =>
        o := Failed(Connect(CodeUnauthenticated, Text(err), map[], Some(err)));
        log := NOTHING.(tokens := [tok]);
      case Token(value) =>
        req.headers := req.headers[AUTHORIZATION := "Bearer " + value];
        o, log := Invoke(w, chain[1..], ctx, req);
        log := log.(tokens := [tok]);
    }
  }

  /** timeoutInterceptor (interceptor.go:65-76). */
  method WrapTimeout(w: World, chain: seq<Interceptor>, d: int, ctx: Ctx, req: Request)
    returns (o: Outcome, ghost log: CallLog)
    requires Stacked(chain) && chain != [] && chain[0] == Timeout(d)
    modifies w, req`headers
    ensures w.log == Joined(old(w.log), log)
    ensures CallOk(chain, ctx, req.mutating, old(req.headers), req.headers, log, o)
    decreases |chain|, 0
  {
    StackedTail(chain);
    if ctx.deadline.None? {
      var now := w.ReadClock();
      o, log := Invoke(w, chain[1..], Ctx(Some(now + d)), req);
      log := log.(clock := [now]);
    } else {
      o, log := Invoke(w, chain[1..], ctx, req);
    }
  }

  /** idempotencyInterceptor (interceptor.go:80-91). */
  method WrapIdempotency(w: World, chain: seq<Interceptor>, ctx: Ctx, req: Request)
    returns (o: Outcome, ghost log: CallLog)
    requires Stacked(chain) && chain != [] && chain[0].Idempotency?
    modifies w, req`headers
    ensures w.log == Joined(old(w.log), log)
    ensures CallOk(chain, ctx, req.mutating, old(req.headers), req.headers, log, o)
    decreases |chain|, 0
  {
    StackedTail(chain);
    if req.mutating && Get(req.headers, IDEMPOTENCY) == "" {
      var key := w.MintKey();
      req.headers := req.headers[IDEMPOTENCY := key];
      o, log := Invoke(w, chain[1..], ctx, req);
      log := log.(minted := [key]);
    } else {
      o, log := Invoke(w, chain[1..], ctx, req);
    }
  }

  /** What the retry loop has behind it before attempt `n`. */
  predicate Retrying(cfg: RetryConfig, ctx: Ctx, headers: map<string, string>, n: nat, log: CallLog) {
    && |log.attempts| == |log.outcomes| == |log.rngs| == n
    && (forall k :: 0 <= k < n ==> log.attempts[k] == Attempt(headers, ctx.deadline))
    && (forall k :: 0 <= k < n ==> RetryableOutcome(log.outcomes[k]))
    && (forall k :: 0 <= k < n ==> Unit(log.rngs[k]))
    && TimersOk(cfg, log)
    && log.tokens == [] && log.minted == [] && log.clock == []
  }

  /** One more attempt added to a log. */
  function Attempted(log: CallLog, one: CallLog): CallLog {
    log.(attempts := log.attempts + one.attempts, outcomes := log.outcomes + one.outcomes)
  }

  /** One more wait added to a log. */
  function Waited(log: CallLog, rng: real, d: int): CallLog {
    log.(rngs := log.rngs + [rng], timers := log.timers + [d])
  }

  /** The innermost chain: the retry loop around the wire. */
  predicate RetryOnly(chain: seq<Interceptor>, cfg: RetryConfig) {
    && RetryOf(chain) == Some(cfg)
    && !HasAuth(chain) && !HasIdempotency(chain) && TimeoutOf(chain).None?
  }

  /** The call ends with attempt `n`'s outcome. */
  lemma {:induction false} EndsWithOutcome(chain: seq<Interceptor>, cfg: RetryConfig, ctx: Ctx, mutating: bool,
                        headers: map<string, string>, n: nat, log: CallLog, one: CallLog, o: Outcome)
    requires RetryOnly(chain, cfg) && Retrying(cfg, ctx, headers, n, log)
    requires CallOk([], ctx, mutating, headers, headers, one, o)
    requires n < MaxAttempts(chain) && (RetryableOutcome(o) ==> n == MaxAttempts(chain) - 1)
    ensures CallOk(chain, ctx, mutating, headers, headers, Attempted(log, one), o)
  {
    assert |one.outcomes| == 1 && one.outcomes[0] == o;
    assert one.attempts[0] == Attempt(headers, ctx.deadline);
  }

  /** Attempt `n` failed retryably and its wait is drawn. */
  lemma {:induction false} WaitsAgain(chain: seq<Interceptor>, cfg: RetryConfig, ctx: Ctx, mutating: bool,
                   headers: map<string, string>, n: nat, log: CallLog, one: CallLog, o: Outcome, rng: real)
    requires RetryOnly(chain, cfg) && Retrying(cfg, ctx, headers, n, log)
    requires CallOk([], ctx, mutating, headers, headers, one, o)
    requires RetryableOutcome(o) && Unit(rng)
    ensures Retrying(cfg, ctx, headers, n + 1,
                     Waited(Attempted(log, one), rng, Wait(cfg.initialDelay, cfg.maxDelay, n, rng)))
  {
    assert |one.outcomes| == 1 && one.outcomes[0] == o;
    assert one.attempts[0] == Attempt(headers, ctx.deadline);
  }

  /** The context ends the call during a wait. */
  lemma {:induction false} EndsWaiting(chain: seq<Interceptor>, cfg: RetryConfig, ctx: Ctx, mutating: bool,
                    headers: map<string, string>, n: nat, log: CallLog, o: Outcome)
    requires RetryOnly(chain, cfg) && Retrying(cfg, ctx, headers, n, log)
    requires 1 <= n < MaxAttempts(chain)
    requires o == Failed(Canceled) || (o == Failed(DeadlineExceeded) && ctx.deadline.Some?)
    ensures CallOk(chain, ctx, mutating, headers, headers, log, o)
  {
    assert log.attempts[0] == Attempt(headers, ctx.deadline);
  }

  /** A bare attempt leaves only itself in the log. */
  lemma {:induction false} JoinsAttempt(before: CallLog, log: CallLog, one: CallLog)
    requires one.tokens == [] && one.minted == [] && one.clock == [] && one.rngs == [] && one.timers == []
    ensures Joined(Joined(before, log), one) == Joined(before, Attempted(log, one))
  {
    Regroup(before.attempts, log.attempts, one.attempts);
    Regroup(before.outcomes, log.outcomes, one.outcomes);
    var all := Joined(before, log);
    assert all.tokens + [] == all.tokens && all.minted + [] == all.minted && all.clock + [] == all.clock;
    assert all.rngs + [] == all.rngs && all.timers + [] == all.timers;
  }

  lemma {:induction false} JoinsWait(before: CallLog, log: CallLog, rng: real, d: int)
    ensures var all := Joined(before, log);
            all.(rngs := all.rngs + [rng], timers := all.timers + [d]) == Joined(before, Waited(log, rng, d))
  {
    Regroup(before.rngs, log.rngs, [rng]);
    Regroup(before.timers, log.timers, [d]);
  }

  lemma {:induction false} JoinsNothing(log: CallLog)
    ensures Joined(log, NOTHING) == log
  {
    assert log.attempts + [] == log.attempts && log.outcomes + [] == log.outcomes && log.tokens + [] == log.tokens;
    assert log.minted + [] == log.minted && log.clock + [] == log.clock;
    assert log.rngs + [] == log.rngs && log.timers + [] == log.timers;
  }

  /** retryInterceptor (interceptor.go:95-122); the chain has nothing inside it but the wire. */
  method WrapRetry(w: World, chain: seq<Interceptor>, cfg: RetryConfig, ctx: Ctx, req: Request)
    returns (o: Outcome, ghost log: CallLog)
    requires Stacked(chain) && chain != [] && chain[0] == Retry(cfg)
    modifies w, req`headers
    ensures w.log == Joined(old(w.log), log)
    ensures CallOk(chain, ctx, req.mutating, old(req.headers), req.headers, log, o)
    decreases |chain|, 0
  {
    StackedTail(chain);
    var max := if cfg.maxAttempts < 1 then 1 else cfg.maxAttempts;
    var attempt := 0;
    ghost var h, before := req.headers, w.log;
    log := NOTHING;
    JoinsNothing(before);
    while attempt < max
      invariant 0 <= attempt < max
      invariant req.headers == h && w.log == Joined(before, log)
      invariant Retrying(cfg, ctx, h, attempt, log)
      decreases max - attempt
    {
      ghost var one;
      o, one := Invoke(w, chain[1..], ctx, req);
      JoinsAttempt(before, log, one);
      if o.Failed? {
        RetryableIsMarked(o.err);
      }
      if o.Response? || attempt == max - 1 || !ServerRetryable(o.err) {
        EndsWithOutcome(chain, cfg, ctx, req.mutating, h, attempt, log, one, o);
        log := Attempted(log, one);
        return;
      }
      var rng := w.Random();
      var d := Wait(cfg.initialDelay, cfg.maxDelay, attempt, rng);
      var ctxErr := w.Sleep(ctx, d);
      WaitsAgain(chain, cfg, ctx, req.mutating, h, attempt, log, one, o, rng);
      JoinsWait(before, Attempted(log, one), rng, d);
      log := Waited(Attempted(log, one), rng, d);
      if ctxErr.Some? {
        o := Failed(ctxErr.value);
        EndsWaiting(chain, cfg, ctx, req.mutating, h, attempt + 1, log, o);
        return;
      }
      attempt := attempt + 1;
    }
    // the last attempt always returns from inside the loop
    assert false;
  }

  /** What the order of the chain says about what is left after its head. */
  lemma {:induction false} StackedTail(chain: seq<Interceptor>)
    requires Stacked(chain) && chain != []
    ensures Stacked(chain[1..])
    ensures chain[0].Auth? ==> !HasAuth(chain[1..])
    ensures chain[0].Timeout? ==> !HasAuth(chain[1..]) && TimeoutOf(chain[1..]).None?
    ensures chain[0].Idempotency? ==> !HasAuth(chain[1..]) && TimeoutOf(chain[1..]).None? && !HasIdempotency(chain[1..])
    ensures chain[0].Retry? ==> chain[1..] == [] && RetryOnly(chain, chain[0].cfg)
  {
    var rest := chain[1..];
    assert forall i :: 0 <= i < |rest| ==> rest[i] == chain[i + 1];
    RankAbove(rest, Rank(chain[0]));
    assert |chain| >= 2 ==> Rank(chain[0]) < Rank(chain[1]);
    if chain[0].Retry? {
      RankAbove(chain, 2);
    }
  }

  lemma {:induction false} RankAbove(chain: seq<Interceptor>, r: nat)
    requires forall i :: 0 <= i < |chain| ==> Rank(chain[i]) > r
    ensures !HasAuth(chain)
    ensures r >= 1 ==> TimeoutOf(chain).None?
    ensures r >= 2 ==> !HasIdempotency(chain)
  {
    if chain != [] {
      assert Rank(chain[0]) > r;
      RankAbove(chain[1..], r);
    }
  }

  // ----- one whole call -----

  /** What the configuration allows one call. */
  function AttemptLimit(cfg: Config): int {
    if cfg.retryEnabled && cfg.retry.maxAttempts > 1 then cfg.retry.maxAttempts else 1
  }

  function Header(headers: map<string, string>, key: string): Option<string> {
    if key in headers then Some(headers[key]) else None
  }

  /** One token, presented by every attempt; without it nothing reaches the server. */
  predicate Authenticated(log: CallLog, o: Outcome) {
    && |log.tokens| == 1
    && match log.tokens[0]
       case NoToken(err) => log.attempts == [] && o == Failed(Connect(CodeUnauthenticated, Text(err), map[], Some(err)))
       case Token(value) =>
         && 1 <= |log.attempts|
         && forall k :: 0 <= k < |log.attempts| ==>
              Header(log.attempts[k].headers, "Authorization") == Some("Bearer " + value)
  }

  /** A mutating call presents one key on every attempt: the caller's, or else the only one minted. */
  predicate OneKey(cfg: Config, mutating: bool, before: map<string, string>, log: CallLog) {
    var preset := Header(before, "X-Idempotency-Key");
    var mints := cfg.autoIdempotency && mutating && preset.GetOr("") == "" && log.attempts != [];
    && |log.minted| == (if mints then 1 else 0)
    && forall k :: 0 <= k < |log.attempts| ==>
         Header(log.attempts[k].headers, "X-Idempotency-Key") == if mints then Some(log.minted[0]) else preset
  }

  /** No other header is touched. */
  ghost predicate OthersKept(before: map<string, string>, log: CallLog) {
    forall k, key :: 0 <= k < |log.attempts| && key != "Authorization" && key != "X-Idempotency-Key" ==>
      Header(log.attempts[k].headers, key) == Header(before, key)
  }

  /** One deadline bounds all attempts, fixed before the first. */
  predicate OneDeadline(cfg: Config, ctx: Ctx, log: CallLog) {
    forall k :: 0 <= k < |log.attempts| ==>
      if ctx.deadline.Some? || cfg.timeout <= 0 then log.attempts[k].deadline == ctx.deadline
      else |log.clock| == 1 && log.attempts[k].deadline == Some(log.clock[0] + cfg.timeout)
  }

  /** The waits of a call stay below one cap per retry, and below the geometric sum of a positive initial delay. */
  predicate WaitsBounded(cfg: Config, log: CallLog) {
    var (n, waited) := (|log.timers|, Sum(log.timers));
    var (initial, cap) := (cfg.retry.initialDelay, cfg.retry.maxDelay);
    && n <= AttemptLimit(cfg) - 1
    && (if 0 <= cap then 0 <= waited <= n * cap else n * cap <= waited <= 0)
    && (0 < initial < TWO_63 && 0 <= cap < TWO_63 ==> waited <= initial * (Pow2(n) - 1))
  }

  function Sum(xs: seq<int>): int {
    if xs == [] then 0 else Sum(xs[..|xs| - 1]) + xs[|xs| - 1]
  }

  /**
   With settings whose product is at most 2^64 each wait is the drawn part of the promised delay, to the
   nanosecond.
   */
  predicate WaitsPromised(cfg: Config, log: CallLog) {
    var (initial, cap) := (cfg.retry.initialDelay, cfg.retry.maxDelay);
    0 < initial < TWO_63 && 0 <= cap < TWO_63 && initial * cap <= TWO_64 && |log.timers| == |log.rngs| ==>
      forall k :: 0 <= k < |log.timers| ==> log.timers[k] == Drawn(Min(initial * Pow2(k), cap), log.rngs[k])
  }

  function Drawn(d: int, rng: real): int {
    (rng * d as real).Floor
  }

  /** What a caller of the client is promised about one unary call, for any server and environment. */
  ghost predicate CallPromise(cfg: Config, ctx: Ctx, mutating: bool, before: map<string, string>, log: CallLog,
                              o: Outcome) {
    && Authenticated(log, o)
    && OneKey(cfg, mutating, before, log)
    && OneDeadline(cfg, ctx, log)
    && (forall j, k :: 0 <= j < |log.attempts| && 0 <= k < |log.attempts| ==> log.attempts[j] == log.attempts[k])
    && (log.attempts != [] ==> |log.attempts| == |log.outcomes| && AttemptsOk(AttemptLimit(cfg), log, o))
    && OthersKept(before, log)
    && |log.timers| == |log.rngs| && WaitsBounded(cfg, log) && WaitsPromised(cfg, log)
  }

  lemma {:induction false} TimersSum(cfg: RetryConfig, timers: seq<int>, rngs: seq<real>)
    requires |timers| == |rngs|
    requires forall k :: 0 <= k < |timers| ==> timers[k] == Wait(cfg.initialDelay, cfg.maxDelay, k, rngs[k])
    ensures Sum(timers) == TotalWait(cfg.initialDelay, cfg.maxDelay, rngs)
  {
    if timers != [] {
      var n := |timers| - 1;
      assert timers[n] == Wait(cfg.initialDelay, cfg.maxDelay, n, rngs[n]);
      TimersSum(cfg, timers[..n], rngs[..n]);
    }
  }

  lemma {:induction false} TimersPromised(cfg: Config, log: CallLog)
    requires TimersOk(cfg.retry, log)
    ensures WaitsPromised(cfg, log)
  {
    var (initial, cap) := (cfg.retry.initialDelay, cfg.retry.maxDelay);
    if 0 < initial < TWO_63 && 0 <= cap < TWO_63 && initial * cap <= TWO_64 {
      forall k | 0 <= k < |log.timers|
        ensures log.timers[k] == Drawn(Min(initial * Pow2(k), cap), log.rngs[k])
      {
        var promised := Min(initial * Pow2(k), cap);
        ExactForModestSettings(initial, cap, k);
        SignOfProduct(initial, Pow2(k));
        WaitIs(initial, cap, k, log.rngs[k], promised);
      }
    }
  }

  /** The contract of the chain Dial builds is that promise. */
  lemma {:induction false} DialedCall(cfg: Config, chain: seq<Interceptor>, ctx: Ctx, mutating: bool,
                   before: map<string, string>, after: map<string, string>, log: CallLog, o: Outcome)
    requires HasAuth(chain) && HasIdempotency(chain) == cfg.autoIdempotency
    requires TimeoutOf(chain) == if cfg.timeout > 0 then Some(cfg.timeout) else None
    requires RetryOf(chain) == if cfg.retryEnabled then Some(cfg.retry) else None
    requires CallOk(chain, ctx, mutating, before, after, log, o)
    ensures CallPromise(cfg, ctx, mutating, before, log, o)
  {
    assert MaxAttempts(chain) == AttemptLimit(cfg);
    assert log.attempts != [] ==> |log.rngs| < AttemptLimit(cfg);
    if cfg.retryEnabled {
      TimersSum(cfg.retry, log.timers, log.rngs);
      TotalWaitBound(cfg.retry.initialDelay, cfg.retry.maxDelay, log.rngs);
      TimersPromised(cfg, log);
    }
  }

  /** One unary call of the client: the chain Dial builds, around one request. */
  method Call(w: World, cfg: Config, ctx: Ctx, req: Request) returns (o: Outcome, ghost log: CallLog)
    modifies w, req`headers
    ensures w.log == Joined(old(w.log), log)
    ensures CallPromise(cfg, ctx, req.mutating, old(req.headers), log, o)
  {
    var chain := Dial(cfg);
    o, log := Invoke(w, chain, ctx, req);
    DialedCall(cfg, chain, ctx, req.mutating, old(req.headers), req.headers, log, o);
  }
}
