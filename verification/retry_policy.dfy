/**
  The retry loop around a provider: which failures are retried, how long each back-off lasts and
  what one logical call can cost in attempts and sleep. Delays are exact reals.
 */
module RetryPolicy {
  import opened Outcomes

  datatype Config = Config(maxRetries: nat, baseDelay: real, maximumDelay: real, jitter: real)
  {
    /** What the constructor insists on. */
    predicate Valid() {
      && maxRetries <= 3
      && 0.0 <= baseDelay <= maximumDelay && 0.0 < maximumDelay
      && 0.0 <= jitter <= 1.0
    }

    /** The longest possible back-off. */
    function Ceiling(): real {
      maximumDelay * (1.0 + jitter)
    }
  }

  /** The retry_after_seconds entry of the error metadata; Text carries what its number parses to. */
  datatype Hint = Absent | Flag(b: bool) | Number(seconds: real) | Text(parsed: Option<real>) | Unreadable

  datatype ErrorKind = RateLimited | TimedOut | Unavailable | Permanent

  datatype Attempt = Success | Failure(kind: ErrorKind, hint: Hint)

  predicate Retryable(a: Attempt) {
    a.Failure? && a.kind != Permanent
  }

  function Max(a: real, b: real): real {
    if a < b then b else a
  }

  function Min(a: real, b: real): real {
    if a < b then a else b
  }

  /** Numbers and numeric text are used, clamped at zero; flags, other text and anything else are not. */
  function RetryAfterSeconds(h: Hint): (r: Option<real>)
    ensures r.Some? <==> h.Number? || (h.Text? && h.parsed.Some?)
    ensures r.Some? ==>
              var given := if h.Number? then h.seconds else h.parsed.value;
              r.value >= 0.0 && r.value >= given && (r.value == given || r.value == 0.0)
  {
    match h
    case Number(s) => Some(Max(0.0, s))
    case Text(Some(s)) => Some(Max(0.0, s))
    case _ => None
  }

  /** base * 2^retry. */
  function Exponential(base: real, retry: nat): real {
    if retry == 0 then base else 2.0 * Exponential(base, retry - 1)
  }

  /** The server's hint, or else the exponential schedule, capped; before jitter. */
  function BoundedDelay(cfg: Config, retry: nat, h: Hint): (d: real)
    requires cfg.Valid()
    ensures 0.0 <= d <= cfg.maximumDelay
  {
    var hinted := RetryAfterSeconds(h);
    var wanted := if hinted.Some? then hinted.value else Exponential(cfg.baseDelay, retry);
    Min(Max(0.0, wanted), cfg.maximumDelay)
  }

  /** Symmetric multiplicative jitter; the random value is clamped to [0, 1]. */
  function WithJitter(bounded: real, jitter: real, random: real): (d: real)
    requires 0.0 <= bounded && 0.0 <= jitter <= 1.0
    ensures 0.0 <= bounded * (1.0 - jitter) <= d <= bounded * (1.0 + jitter)
  {
    var x := Min(Max(random, 0.0), 1.0);
    Jittered(bounded, jitter, x);
    if bounded == 0.0 || jitter == 0.0 then bounded else bounded * (1.0 - jitter + 2.0 * (jitter * x))
  }

  lemma Jittered(b: real, j: real, x: real)
    requires 0.0 <= b && 0.0 <= j <= 1.0 && 0.0 <= x <= 1.0
    ensures 0.0 <= b * (1.0 - j) <= b * (1.0 - j + 2.0 * (j * x)) <= b * (1.0 + j)
    ensures b * (1.0 - j) <= b <= b * (1.0 + j)
  {
    Scaled(j, 0.0, x);
    Scaled(j, x, 1.0);
    assert j * x <= j * 1.0;
    var m := 1.0 - j + 2.0 * (j * x);
    Scaled(b, 0.0, 1.0 - j);
    Scaled(b, 1.0 - j, m);
    Scaled(b, m, 1.0 + j);
    Scaled(b, 0.0, j);
  }

  /** The number of times the base delay is doubled, as a factor. */
  function PowerOfTwo(n: nat): (p: nat)
    ensures p > 0
  {
    if n == 0 then 1 else 2 * PowerOfTwo(n - 1)
  }

  lemma {:induction false} ExponentialIsPower(base: real, retry: nat)
    ensures Exponential(base, retry) == base * PowerOfTwo(retry) as real
  {
    if retry > 0 {
      var p := PowerOfTwo(retry - 1);
      ExponentialIsPower(base, retry - 1);
      assert PowerOfTwo(retry) as real == 2.0 * p as real;
      assert 2.0 * (base * p as real) == base * (2.0 * p as real);
    }
  }

  function RetryDelay(cfg: Config, retry: nat, h: Hint, random: real): real
    requires cfg.Valid()
  {
    WithJitter(BoundedDelay(cfg, retry, h), cfg.jitter, random)
  }

  // ----- The delay in plain terms -----

  /** What the server asks for, if it is a number or numeric text and not negative. */
  function Asked(h: Hint): Option<real> {
    match h
    case Number(s) => Some(if s < 0.0 then 0.0 else s)
    case Text(Some(s)) => Some(if s < 0.0 then 0.0 else s)
    case _ => None
  }

  /** The server's wish, or the base delay times two to the number of retries so far; at most the maximum. */
  function Scheduled(cfg: Config, retry: nat, h: Hint): real {
    var wanted := if Asked(h).Some? then Asked(h).value else cfg.baseDelay * PowerOfTwo(retry) as real;
    if wanted <= cfg.maximumDelay then wanted else cfg.maximumDelay
  }

  /** The random value as a share between minus one and one. */
  function Share(random: real): real {
    if random < 0.0 then -1.0 else if random > 1.0 then 1.0 else 2.0 * random - 1.0
  }

  lemma BoundedDelayMeaning(cfg: Config, retry: nat, h: Hint)
    requires cfg.Valid()
    ensures BoundedDelay(cfg, retry, h) == Scheduled(cfg, retry, h)
  {
    ExponentialIsPower(cfg.baseDelay, retry);
    assert cfg.baseDelay * PowerOfTwo(retry) as real >= 0.0;
  }

  lemma JitterMeaning(bounded: real, jitter: real, random: real)
    requires 0.0 <= bounded && 0.0 <= jitter <= 1.0
    ensures WithJitter(bounded, jitter, random) == bounded + bounded * (jitter * Share(random))
  {
    var x := Min(Max(random, 0.0), 1.0);
    assert 1.0 - jitter + 2.0 * (jitter * x) == 1.0 + jitter * Share(random);
    assert bounded * (1.0 + jitter * Share(random)) == bounded + bounded * (jitter * Share(random));
  }

  /** The schedule, shifted by a share of itself between minus and plus the jitter ratio. */
  function BackOff(cfg: Config, retry: nat, h: Hint, random: real): real {
    var d := Scheduled(cfg, retry, h);
    d + d * (cfg.jitter * Share(random))
  }

  lemma DelayMeaning(cfg: Config, retry: nat, h: Hint, random: real)
    requires cfg.Valid()
    ensures RetryDelay(cfg, retry, h, random) == BackOff(cfg, retry, h, random)
  {
    BoundedDelayMeaning(cfg, retry, h);
    JitterMeaning(BoundedDelay(cfg, retry, h), cfg.jitter, random);
  }

  /** Whatever the random source returns, the delay never exceeds the ceiling. */
  lemma DelayBelowCeiling(cfg: Config, retry: nat, h: Hint, random: real)
    requires cfg.Valid()
    ensures 0.0 <= RetryDelay(cfg, retry, h, random) <= cfg.Ceiling()
  {
    Scaled(1.0 + cfg.jitter, BoundedDelay(cfg, retry, h), cfg.maximumDelay);
  }

  lemma Scaled(k: real, a: real, b: real)
    requires 0.0 <= k && a <= b
    ensures k * a <= k * b
  {
    assert k * (b - a) >= 0.0;
  }

  function Total(sleeps: seq<real>): real {
    if sleeps == [] then 0.0 else Total(sleeps[..|sleeps| - 1]) + sleeps[|sleeps| - 1]
  }

  /** n times x, as a repeated sum. */
  function Times(n: nat, x: real): real {
    if n == 0 then 0.0 else Times(n - 1, x) + x
  }

  lemma {:induction false} TimesIsProduct(n: nat, x: real)
    ensures Times(n, x) == n as real * x
  {
    if n > 0 {
      TimesIsProduct(n - 1, x);
      var m := (n - 1) as real;
      assert n as real == m + 1.0 && (m + 1.0) * x == m * x + x;
    }
  }

  lemma {:induction false} TotalWithin(sleeps: seq<real>, each: real, most: nat)
    requires forall i :: 0 <= i < |sleeps| ==> 0.0 <= sleeps[i] <= each
    requires 0.0 <= each && |sleeps| <= most
    ensures 0.0 <= Total(sleeps) <= Times(most, each)
  {
    if sleeps != [] {
      TotalWithin(sleeps[..|sleeps| - 1], each, most - 1);
    } else if most > 0 {
      TotalWithin(sleeps, each, most - 1);
    }
  }

  /** Back-off i follows failed attempt i. */
  predicate Follows(cfg: Config, attempts: nat -> Attempt, random: nat -> real, sleeps: seq<real>)
    requires cfg.Valid()
  {
    forall i :: 0 <= i < |sleeps| ==>
      Retryable(attempts(i)) && sleeps[i] == RetryDelay(cfg, i, attempts(i).hint, random(i))
  }

  lemma FollowingSleepIsBounded(cfg: Config, attempts: nat -> Attempt, random: nat -> real, sleeps: seq<real>)
    requires cfg.Valid() && Follows(cfg, attempts, random, sleeps) && |sleeps| <= cfg.maxRetries
    ensures 0.0 <= Total(sleeps) <= Times(cfg.maxRetries, cfg.Ceiling())
  {
    var each := cfg.Ceiling();
    forall i | 0 <= i < |sleeps|
      ensures 0.0 <= sleeps[i] <= each
    {
      DelayBelowCeiling(cfg, i, attempts(i).hint, random(i));
    }
    DelayBelowCeiling(cfg, 0, Absent, 0.0);
    TotalWithin(sleeps, each, cfg.maxRetries);
  }

  /** The failures worth another attempt: rate limits, timeouts and outages. */
  predicate Transient(a: Attempt) {
    a.Failure? && a.kind in {RateLimited, TimedOut, Unavailable}
  }

  /** Back-off i follows a transient failure and lasts as scheduled, give or take its jitter. */
  predicate BacksOffAsScheduled(cfg: Config, attempts: nat -> Attempt, random: nat -> real, sleeps: seq<real>) {
    forall i :: 0 <= i < |sleeps| ==>
      Transient(attempts(i)) && sleeps[i] == BackOff(cfg, i, attempts(i).hint, random(i))
  }

  lemma FollowingIsScheduled(cfg: Config, attempts: nat -> Attempt, random: nat -> real, sleeps: seq<real>)
    requires cfg.Valid() && Follows(cfg, attempts, random, sleeps)
    ensures BacksOffAsScheduled(cfg, attempts, random, sleeps)
  {
    forall i | 0 <= i < |sleeps|
      ensures Transient(attempts(i)) && sleeps[i] == BackOff(cfg, i, attempts(i).hint, random(i))
    {
      DelayMeaning(cfg, i, attempts(i).hint, random(i));
    }
  }

  /**
    One logical call. The i-th attempt yields attempts(i) and the i-th back-off draws random(i).
    The call ends at the first attempt that is no transient failure or at attempt maxRetries + 1, with
    that attempt's outcome; it sleeps as scheduled before each further attempt, never longer in all than
    maxRetries times the ceiling.
   */
  method Execute(cfg: Config, attempts: nat -> Attempt, random: nat -> real)
    returns (result: Attempt, made: nat, sleeps: seq<real>)
    requires cfg.Valid()
    ensures 1 <= made <= cfg.maxRetries + 1 && result == attempts(made - 1)
    ensures forall i :: 0 <= i < made - 1 ==>
              attempts(i).Failure? && attempts(i).kind in {RateLimited, TimedOut, Unavailable}
    ensures result == Success || result.kind == Permanent || made == cfg.maxRetries + 1
    ensures |sleeps| == made - 1 && BacksOffAsScheduled(cfg, attempts, random, sleeps)
    ensures 0.0 <= Total(sleeps) <= Times(cfg.maxRetries, cfg.Ceiling())
  {
    var retry := 0;
    sleeps := [];
    while true
      invariant |sleeps| == retry <= cfg.maxRetries
      invariant Follows(cfg, attempts, random, sleeps)
      decreases cfg.maxRetries - retry
    {
      var outcome := attempts(retry);
      if !Retryable(outcome) || retry >= cfg.maxRetries {
        FollowingSleepIsBounded(cfg, attempts, random, sleeps);
        FollowingIsScheduled(cfg, attempts, random, sleeps);
        return outcome, retry + 1, sleeps;
      }
      sleeps := sleeps + [RetryDelay(cfg, retry, outcome.hint, random(retry))];
      retry := retry + 1;
    }
  }
}
