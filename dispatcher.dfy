/**
 * The action dispatcher: a per-bot token bucket that admits at most
 * MAX_ACTIONS_PER_SECOND actions per second, then a fixed chain of checks
 * (rate limit, bot known, bot spawned, game client present, handler
 * registered) in front of the handler. The first failing check decides
 * the failure message; a handler's result passes through unchanged and a
 * handler's exception becomes a failure carrying its message.
 *
 * Time is a parameter in milliseconds and tokens are exact rationals.
 */
module Dispatcher {
  import opened Common
  import opened Constants
  import opened Model
  import opened Registry

  // ---------------------------------------------------------------------------
  // Token bucket
  // ---------------------------------------------------------------------------

  datatype Bucket = Bucket(tokens: real, lastRefill: int)

  /** The bucket a bot gets on its first action. */
  function FreshBucket(now: int): Bucket {
    Bucket(MAX_ACTIONS_PER_SECOND as real, now)
  }

  /** Tokens after refilling at `now`: the elapsed seconds times the rate, capped at the bucket size. */
  function Refilled(b: Bucket, now: int): (t: real)
    ensures t <= MAX_ACTIONS_PER_SECOND as real
    ensures now >= b.lastRefill ==> t >= b.tokens || t == MAX_ACTIONS_PER_SECOND as real
  {
    var elapsed := (now - b.lastRefill) as real / 1000.0;
    var t := b.tokens + elapsed * MAX_ACTIONS_PER_SECOND as real;
    if MAX_ACTIONS_PER_SECOND as real <= t then MAX_ACTIONS_PER_SECOND as real else t
  }

  datatype Admission = Admission(allowed: bool, after: Bucket)

  /** One rate-limit check of a bot whose bucket is `b` (absent for a new bot). */
  function RateLimitStep(b: Option<Bucket>, now: int): Admission {
    var start := if b.None? then FreshBucket(now) else b.value;
    var t := Refilled(start, now);
    if t < 1.0 then Admission(false, Bucket(t, now)) else Admission(true, Bucket(t - 1.0, now))
  }

  /** The per-bot buckets, kept across calls. */
  class RateLimiter {
    var buckets: map<string, Bucket>

    constructor()
      ensures buckets == map[]
    {
      buckets := map[];
    }

    /** Refills the bot's bucket to `now`, then takes a token if one is there. */
    method CheckRateLimit(botId: string, now: int) returns (allowed: bool)
      modifies this
      ensures allowed == RateLimitStep(OptionOf(old(buckets), botId), now).allowed
      ensures buckets == old(buckets)[botId := RateLimitStep(OptionOf(old(buckets), botId), now).after]
    {
      var bucket: Bucket;
      if botId in buckets {
        bucket := buckets[botId];
      } else {
        bucket := FreshBucket(now);
        buckets := buckets[botId := bucket];
      }
      var elapsed := (now - bucket.lastRefill) as real / 1000.0;
      var tokens := bucket.tokens + elapsed * MAX_ACTIONS_PER_SECOND as real;
      if MAX_ACTIONS_PER_SECOND as real <= tokens {
        tokens := MAX_ACTIONS_PER_SECOND as real;
      }
      bucket := Bucket(tokens, now);
      buckets := buckets[botId := bucket];
      if bucket.tokens < 1.0 {
        return false;
      }
      bucket := bucket.(tokens := bucket.tokens - 1.0);
      buckets := buckets[botId := bucket];
      return true;
    }
  }

  /** A bot seen for the first time starts from a full bucket stamped `now` and is admitted. */
  lemma FirstActionAdmitted(now: int)
    ensures RateLimitStep(None, now) == Admission(true, Bucket(MAX_ACTIONS_PER_SECOND as real - 1.0, now))
  {
  }

  predicate BucketInRange(b: Bucket) {
    0.0 <= b.tokens <= MAX_ACTIONS_PER_SECOND as real
  }

  /**
   * With a clock that does not run backwards, every check leaves the bucket
   * stamped `now` with between 0 and MAX_ACTIONS_PER_SECOND tokens; an
   * admitted check leaves exactly one token less than the refill gave, and
   * a refused one leaves the refill untouched.
   */
  lemma RateLimitStepBounds(b: Option<Bucket>, now: int)
    requires b.Some? ==> BucketInRange(b.value) && b.value.lastRefill <= now
    ensures var s := RateLimitStep(b, now);
      var t := Refilled(if b.None? then FreshBucket(now) else b.value, now);
      && BucketInRange(s.after) && s.after.lastRefill == now
      && (s.allowed <==> t >= 1.0)
      && (s.allowed ==> s.after.tokens == t - 1.0)
      && (!s.allowed ==> s.after.tokens == t)
  {
  }

  /** The outcomes of `n` checks of one bot at the same instant, starting from bucket `b`. */
  function Burst(b: Bucket, now: int, n: nat): (r: seq<bool>)
    ensures |r| == n
    decreases n
  {
    if n == 0 then []
    else
      var s := RateLimitStep(Some(b), now);
      [s.allowed] + Burst(s.after, now, n - 1)
  }

  /**
   * Checks at the instant of the last refill admit exactly as many actions
   * as there are whole tokens: the i-th check (from 0) passes exactly when
   * at least i + 1 tokens were there.
   */
  lemma {:induction false} BurstAdmitsWholeTokens(b: Bucket, n: nat)
    requires BucketInRange(b)
    ensures forall i :: 0 <= i < n ==> (Burst(b, b.lastRefill, n)[i] <==> (i + 1) as real <= b.tokens)
    decreases n
  {
    if n > 0 {
      var s := RateLimitStep(Some(b), b.lastRefill);
      assert Refilled(b, b.lastRefill) == b.tokens;
      var rest := Burst(s.after, b.lastRefill, n - 1);
      assert Burst(b, b.lastRefill, n) == [s.allowed] + rest;
      BurstAdmitsWholeTokens(s.after, n - 1);
      forall i | 0 <= i < n
        ensures Burst(b, b.lastRefill, n)[i] <==> (i + 1) as real <= b.tokens
      {
        if i > 0 {
          assert Burst(b, b.lastRefill, n)[i] == rest[i - 1];
          if !s.allowed {
            assert s.after == b;
          }
        }
      }
    }
  }

  /**
   * A new bot acting repeatedly at one instant gets exactly
   * MAX_ACTIONS_PER_SECOND admissions; the next check is refused.
   */
  lemma FreshBotBurst(now: int)
    ensures var first := RateLimitStep(None, now);
      var rest := Burst(first.after, now, MAX_ACTIONS_PER_SECOND);
      && first.allowed
      && (forall i :: 0 <= i < MAX_ACTIONS_PER_SECOND - 1 ==> rest[i])
      && !rest[MAX_ACTIONS_PER_SECOND - 1]
  {
    var first := RateLimitStep(None, now);
    BurstAdmitsWholeTokens(first.after, MAX_ACTIONS_PER_SECOND);
  }

  /** An empty bucket regains one token every 1000 / MAX_ACTIONS_PER_SECOND milliseconds. */
  lemma RefillFromEmpty(b: Bucket, now: int)
    requires b.tokens == 0.0 && b.lastRefill <= now
    ensures var waited := now - b.lastRefill;
      RateLimitStep(Some(b), now).allowed <==> waited >= 1000 / MAX_ACTIONS_PER_SECOND
  {
  }

  // ---------------------------------------------------------------------------
  // Dispatch
  // ---------------------------------------------------------------------------

  /** What running a handler gives: the result it returned, or the message of what it threw. */
  datatype HandlerOutcome = Returned(result: ActionResult) | Threw(message: string)

  /** A failure for `a`; the duration runs from `start` to `finish`. */
  function FailResult(a: BotAction, message: string, start: int, finish: int): (r: ActionResult)
    ensures r.botId == a.botId && r.actionType == Tag(TypeOf(a))
    ensures r.status == Failure && r.message == message
    ensures r.durationMs == finish - start && r.completedAt == finish
  {
    ActionResult(a.botId, Tag(TypeOf(a)), Failure, message, finish - start, finish)
  }

  function RateLimitMessage(): string {
    "Rate limit exceeded " + "\U{2014} too many actions per second"
  }

  predicate IsBotCheck(v: Verdict) {
    v.BotNotFound? || v.NotSpawned? || v.NoClient?
  }

  /** The text after the quoted id in a message about the bot. */
  function BotDetail(v: Verdict): string
    requires IsBotCheck(v)
  {
    match v
    case BotNotFound => "not found"
    case NotSpawned(s) => NotSpawnedLead() + StatusName(s) + ")"
    case NoClient => "has no active mineflayer instance"
  }

  function NotSpawnedLead(): string {
    "is not spawned (current status: "
  }

  /** `Bot "<id>" <what>`: the shape of the three messages about the bot itself. */
  function BotMessage(botId: string, what: string): string {
    "Bot \"" + botId + "\" " + what
  }

  function NotFoundMessage(botId: string): string {
    BotMessage(botId, BotDetail(BotNotFound))
  }

  function NotSpawnedMessage(botId: string, s: BotStatus): string {
    BotMessage(botId, BotDetail(NotSpawned(s)))
  }

  function NoClientMessage(botId: string): string {
    BotMessage(botId, BotDetail(NoClient))
  }

  function NoHandlerMessage(t: ActionType): string {
    "No handler registered for action type \"" + Tag(t) + "\""
  }

  /** Which check stops an action, if any. */
  datatype Verdict =
    | RateLimited
    | BotNotFound
    | NotSpawned(status: BotStatus)
    | NoClient
    | NoHandler
    | Run(handler: Handler)

  /** The checks in their order; `allowed` is the rate limiter's answer. */
  function Check(allowed: bool, bots: Bots, handlers: map<ActionType, Handler>, a: BotAction): (v: Verdict)
    ensures v.RateLimited? <==> !allowed
    ensures v.BotNotFound? <==> allowed && a.botId !in bots
    ensures v.NotSpawned? <==> allowed && a.botId in bots && bots[a.botId].status != Spawned
    ensures v.NotSpawned? ==> v.status == bots[a.botId].status
    ensures v.NoClient? <==> (allowed && a.botId in bots && bots[a.botId].status == Spawned
                              && !bots[a.botId].hasMineflayerBot)
    ensures v.NoHandler? <==> (allowed && a.botId in bots && bots[a.botId].status == Spawned
                               && bots[a.botId].hasMineflayerBot && TypeOf(a) !in handlers)
    ensures v.Run? ==> TypeOf(a) in handlers && v.handler == handlers[TypeOf(a)]
  {
    if !allowed then RateLimited
    else if a.botId !in bots then BotNotFound
    else if bots[a.botId].status != Spawned then NotSpawned(bots[a.botId].status)
    else if !bots[a.botId].hasMineflayerBot then NoClient
    else if TypeOf(a) !in handlers then NoHandler
    else Run(handlers[TypeOf(a)])
  }

  /** The failure message of a check that stops `a`. */
  function CheckMessage(v: Verdict, a: BotAction): string
    requires !v.Run?
  {
    match v
    case RateLimited => RateLimitMessage()
    case BotNotFound => NotFoundMessage(a.botId)
    case NotSpawned(s) => NotSpawnedMessage(a.botId, s)
    case NoClient => NoClientMessage(a.botId)
    case NoHandler => NoHandlerMessage(TypeOf(a))
  }

  /** The result of dispatching `a` once the verdict is known. */
  function Outcome(v: Verdict, execute: (Handler, BotAction) -> HandlerOutcome, a: BotAction, start: int, finish: int): ActionResult {
    if v.Run? then
      match execute(v.handler, a)
      case Returned(res) => res
      case Threw(msg) => FailResult(a, msg, start, finish)
    else
      FailResult(a, CheckMessage(v, a), start, finish)
  }

  /**
   * Runs one action: rate limit, bot lookup, status, game client, handler
   * lookup, then the handler. `start` is when the call begins (the rate
   * limiter's clock too) and `finish` when a failure result is stamped.
   * The call always produces a result.
   */
  method DispatchAction(
    limiter: RateLimiter, registry: ActionRegistry, bots: Bots,
    execute: (Handler, BotAction) -> HandlerOutcome,
    a: BotAction, start: int, finish: int)
    returns (r: ActionResult)
    modifies limiter
    ensures limiter.buckets ==
      old(limiter.buckets)[a.botId := RateLimitStep(OptionOf(old(limiter.buckets), a.botId), start).after]
    ensures r == Outcome(
      Check(RateLimitStep(OptionOf(old(limiter.buckets), a.botId), start).allowed, bots, registry.handlers, a),
      execute, a, start, finish)
  {
    var allowed := limiter.CheckRateLimit(a.botId, start);
    r := RunChecks(allowed, registry, bots, execute, a, start, finish);
  }

  /** The checks after the rate limiter has answered `allowed`, then the handler. */
  method RunChecks(
    allowed: bool, registry: ActionRegistry, bots: Bots,
    execute: (Handler, BotAction) -> HandlerOutcome,
    a: BotAction, start: int, finish: int)
    returns (r: ActionResult)
    ensures r == Outcome(Check(allowed, bots, registry.handlers, a), execute, a, start, finish)
  {
    if !allowed {
      return FailResult(a, RateLimitMessage(), start, finish);
    }
    if a.botId !in bots {
      return FailResult(a, NotFoundMessage(a.botId), start, finish);
    }
    var instance := bots[a.botId];
    if instance.status != Spawned {
      return FailResult(a, NotSpawnedMessage(a.botId, instance.status), start, finish);
    }
    if !instance.hasMineflayerBot {
      return FailResult(a, NoClientMessage(a.botId), start, finish);
    }
    r := RunHandler(registry, execute, a, start, finish);
  }

  /** The verdict of the handler lookup alone. */
  function HandlerVerdict(handlers: map<ActionType, Handler>, t: ActionType): Verdict {
    if t in handlers then Run(handlers[t]) else NoHandler
  }

  /** The handler stage: look the handler up, run it, and turn what it throws into a failure. */
  method RunHandler(
    registry: ActionRegistry, execute: (Handler, BotAction) -> HandlerOutcome,
    a: BotAction, start: int, finish: int)
    returns (r: ActionResult)
    ensures r == Outcome(HandlerVerdict(registry.handlers, TypeOf(a)), execute, a, start, finish)
  {
    var handler := registry.Get(TypeOf(a));
    if handler.None? {
      return FailResult(a, NoHandlerMessage(TypeOf(a)), start, finish);
    }
    var outcome := execute(handler.value, a);
    match outcome
    case Returned(res) =>
      return res;
    case Threw(msg) =>
      return FailResult(a, msg, start, finish);
  }

  /**
   * Every result the dispatcher makes itself, rather than one a handler
   * returned, is a failure that names the action's bot and type.
   */
  lemma DispatcherFailuresEcho(v: Verdict, execute: (Handler, BotAction) -> HandlerOutcome, a: BotAction, start: int, finish: int)
    requires !(v.Run? && execute(v.handler, a).Returned?)
    ensures var r := Outcome(v, execute, a, start, finish);
      r.status == Failure && r.botId == a.botId && r.actionType == Tag(TypeOf(a))
  {
  }

  /** A success can only be a registered handler's own result for a spawned bot with a client. */
  lemma SuccessOnlyFromHandler(allowed: bool, bots: Bots, handlers: map<ActionType, Handler>,
                               execute: (Handler, BotAction) -> HandlerOutcome, a: BotAction, start: int, finish: int)
    requires Outcome(Check(allowed, bots, handlers, a), execute, a, start, finish).status != Failure
    ensures allowed && a.botId in bots && bots[a.botId].status == Spawned && bots[a.botId].hasMineflayerBot
    ensures TypeOf(a) in handlers
    ensures execute(handlers[TypeOf(a)], a) == Returned(Outcome(Check(allowed, bots, handlers, a), execute, a, start, finish))
  {
  }

  /** A later check never matters once an earlier one fails: a refused token decides alone ... */
  lemma RateLimitDecidesFirst(bots: Bots, bots': Bots, handlers: map<ActionType, Handler>, handlers': map<ActionType, Handler>,
                              execute: (Handler, BotAction) -> HandlerOutcome, a: BotAction, start: int, finish: int)
    ensures Outcome(Check(false, bots, handlers, a), execute, a, start, finish)
         == Outcome(Check(false, bots', handlers', a), execute, a, start, finish)
    ensures Outcome(Check(false, bots, handlers, a), execute, a, start, finish).message == RateLimitMessage()
  {
  }

  /** ... and a bot that is unknown, not spawned or without a client fails whatever handlers exist. */
  lemma BotChecksPrecedeHandlers(bots: Bots, handlers: map<ActionType, Handler>, handlers': map<ActionType, Handler>,
                                 execute: (Handler, BotAction) -> HandlerOutcome, a: BotAction, start: int, finish: int)
    requires !(a.botId in bots && bots[a.botId].status == Spawned && bots[a.botId].hasMineflayerBot)
    ensures Outcome(Check(true, bots, handlers, a), execute, a, start, finish)
         == Outcome(Check(true, bots, handlers', a), execute, a, start, finish)
    ensures var m := Outcome(Check(true, bots, handlers, a), execute, a, start, finish).message;
      && (a.botId !in bots ==> m == NotFoundMessage(a.botId))
      && (a.botId in bots && bots[a.botId].status != Spawned ==> m == NotSpawnedMessage(a.botId, bots[a.botId].status))
      && (a.botId in bots && bots[a.botId].status == Spawned ==> m == NoClientMessage(a.botId))
  {
  }

  /** A handler's returned result is passed on unchanged; a thrown message becomes the failure's message. */
  lemma HandlerOutcomePassesThrough(bots: Bots, handlers: map<ActionType, Handler>,
                                    execute: (Handler, BotAction) -> HandlerOutcome, a: BotAction, start: int, finish: int)
    requires a.botId in bots && bots[a.botId].status == Spawned && bots[a.botId].hasMineflayerBot
    requires TypeOf(a) in handlers
    ensures var r := Outcome(Check(true, bots, handlers, a), execute, a, start, finish);
      match execute(handlers[TypeOf(a)], a)
      case Returned(res) => r == res
      case Threw(msg) => r == FailResult(a, msg, start, finish)
  {
  }

  /**
   * The token is spent before the bot is looked up: the first action for
   * an unknown bot fails as not found and still leaves that bot's bucket
   * one token short.
   */
  lemma UnknownBotSpendsToken(limiterBefore: map<string, Bucket>, bots: Bots, handlers: map<ActionType, Handler>,
                              execute: (Handler, BotAction) -> HandlerOutcome, a: BotAction, start: int, finish: int)
    requires a.botId !in limiterBefore && a.botId !in bots
    ensures var s := RateLimitStep(OptionOf(limiterBefore, a.botId), start);
      && Outcome(Check(s.allowed, bots, handlers, a), execute, a, start, finish).message == NotFoundMessage(a.botId)
      && s.after.tokens == MAX_ACTIONS_PER_SECOND as real - 1.0
  {
  }

  /**
   * Different failing checks give different messages, and a not-spawned
   * message names the status, so the message tells which check stopped
   * the action.
   */
  lemma CheckMessageInjective(v: Verdict, w: Verdict, a: BotAction)
    requires !v.Run? && !w.Run?
    requires CheckMessage(v, a) == CheckMessage(w, a)
    ensures v == w
  {
    MessageHeads(v, a);
    MessageHeads(w, a);
    if IsBotCheck(v) && IsBotCheck(w) {
      var k := |a.botId| + 7;
      BotMessageParts(a.botId, BotDetail(v));
      BotMessageParts(a.botId, BotDetail(w));
      assert BotDetail(v) == CheckMessage(v, a)[k..];
      DetailInjective(v, w);
    }
  }

  /** The first character separates rate limit, missing handler and the checks about the bot. */
  lemma MessageHeads(v: Verdict, a: BotAction)
    requires !v.Run?
    ensures |CheckMessage(v, a)| > 0
    ensures CheckMessage(v, a)[0] == (if v.RateLimited? then 'R' else if v.NoHandler? then 'N' else 'B')
    ensures IsBotCheck(v) ==> CheckMessage(v, a) == BotMessage(a.botId, BotDetail(v))
  {
    if IsBotCheck(v) {
      BotMessageParts(a.botId, BotDetail(v));
    }
  }

  lemma DetailInjective(v: Verdict, w: Verdict)
    requires IsBotCheck(v) && IsBotCheck(w)
    requires BotDetail(v) == BotDetail(w)
    ensures v == w
  {
    var d := BotDetail(v);
    assert d[0] == (if v.BotNotFound? then 'n' else if v.NoClient? then 'h' else 'i');
    assert d[0] == (if w.BotNotFound? then 'n' else if w.NoClient? then 'h' else 'i');
    if v.NotSpawned? && w.NotSpawned? {
      var n := |NotSpawnedLead()|;
      assert StatusName(v.status) == d[n..|d| - 1];
      assert StatusName(w.status) == d[n..|d| - 1];
      StatusRoundTrip(v.status);
      StatusRoundTrip(w.status);
    }
  }

  /** A bot message starts with `B` and has the text after the quoted id from offset `|botId| + 7`. */
  lemma BotMessageParts(botId: string, what: string)
    ensures var m := BotMessage(botId, what);
      |m| == |botId| + 7 + |what| && m[0] == 'B' && m[|botId| + 7..] == what
  {
  }
}
