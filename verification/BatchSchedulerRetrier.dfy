/** A wrapper around a batch scheduler that schedules a task again while the scheduler is unavailable. */
module BatchSchedulerRetriers {
  import opened Common

  datatype Options = Options(maxTimeMicros: int, retryDelayMicros: int)

  predicate ValidOptions(o: Options) {
    o.maxTimeMicros >= 0 && o.retryDelayMicros >= 0
  }

  method Create(o: Options) returns (status: Status)
    ensures status.OK? <==> o.maxTimeMicros >= 0 && o.retryDelayMicros >= 0
    ensures status.Error? ==> status.code == InvalidArgument
  {
    if o.maxTimeMicros < 0 {
      return Error(InvalidArgument, "max_time_micros must be non-negative");
    }
    if o.retryDelayMicros < 0 {
      return Error(InvalidArgument, "retry_delay_micros must be non-negative");
    }
    return OK;
  }

  predicate IsUnavailable(status: Status) {
    status.Error? && status.code == Unavailable
  }

  /** What each pause takes at least: the delay, and some time even if that is zero. */
  function Pause(o: Options): int {
    if o.retryDelayMicros > 0 then o.retryDelayMicros else 1
  }

  /** `now(k)` is the time after the `k`-th attempt; between two attempts there is a pause. */
  ghost predicate IsClock(o: Options, start: nat, now: nat -> nat) {
    start <= now(0) && forall k: nat :: now(k) + Pause(o) <= now(k + 1)
  }

  /** After the `k`-th attempt there is time for another delay. */
  predicate HasRoom(o: Options, start: nat, now: nat -> nat, k: nat) {
    now(k) + o.retryDelayMicros - start < o.maxTimeMicros
  }

  /** The number of attempts that the budget allows. */
  function MaxAttempts(o: Options): int
    requires ValidOptions(o)
  {
    if o.maxTimeMicros == 0 then 1
    else if o.retryDelayMicros == 0 then o.maxTimeMicros + 1
    else (o.maxTimeMicros + o.retryDelayMicros - 1) / o.retryDelayMicros
  }

  lemma {:induction false} TimePasses(o: Options, start: nat, now: nat -> nat, k: nat)
    requires IsClock(o, start, now)
    ensures start + k * Pause(o) <= now(k)
  {
    if k > 0 {
      TimePasses(o, start, now, k - 1);
      assert now(k - 1) + Pause(o) <= now(k - 1 + 1);
      assert k * Pause(o) == (k - 1) * Pause(o) + Pause(o);
    }
  }

  /** Room after the `k`-th attempt leaves `k + 2` attempts within the bound. */
  lemma RoomIsBounded(o: Options, start: nat, now: nat -> nat, k: nat)
    requires ValidOptions(o) && IsClock(o, start, now) && HasRoom(o, start, now, k)
    ensures k + 2 <= MaxAttempts(o)
  {
    TimePasses(o, start, now, k);
    var d, t := o.retryDelayMicros, o.maxTimeMicros;
    if d > 0 {
      assert (k + 1) * d == k * d + d;
      QuotientAtLeast(t + d - 1, d, k + 2);
    }
  }

  /**
    The bound is attained: there is a clock by which every attempt within it but the last leaves room, and by
    which the last one leaves none.
   */
  lemma MaxAttemptsIsTight(o: Options, start: nat) returns (now: nat -> nat)
    requires ValidOptions(o)
    ensures IsClock(o, start, now)
    ensures forall k: nat :: now(k) - start + o.retryDelayMicros < o.maxTimeMicros <==> k < MaxAttempts(o) - 1
  {
    var pause := Pause(o);
    now := k => start + k * pause;
    forall k: nat ensures now(k) + pause <= now(k + 1) {
      Multiple(k, pause);
    }
    forall k: nat ensures now(k) - start + o.retryDelayMicros < o.maxTimeMicros <==> k < MaxAttempts(o) - 1 {
      assert now(k) - start == k * Pause(o);
      AttemptsFit(o, k);
    }
  }

  lemma Multiple(k: nat, d: nat)
    ensures (k + 1) * d == k * d + d && k * d >= 0
  {}

  lemma AttemptsFit(o: Options, k: nat)
    requires ValidOptions(o)
    ensures k * Pause(o) + o.retryDelayMicros < o.maxTimeMicros <==> k < MaxAttempts(o) - 1
  {
    var d, t := o.retryDelayMicros, o.maxTimeMicros;
    Multiple(k, Pause(o));
    if d > 0 && t > 0 {
      Multiple(k + 1, d);
      QuotientIff(t + d - 1, d, k + 2);
    }
  }

  /** The quotient reaches `q` exactly if `q` multiples fit. */
  lemma QuotientIff(n: nat, d: nat, q: nat)
    requires d > 0
    ensures q <= n / d <==> q * d <= n
  {
    if q * d <= n {
      QuotientAtLeast(n, d, q);
    } else {
      OrderedMultiples(n / d, q, d);
    }
  }

  lemma QuotientAtLeast(n: int, d: int, q: int)
    requires d > 0 && q * d <= n
    ensures q <= n / d
  {
    OrderedMultiples(q, n / d + 1, d);
  }

  /**
    Returns the first status other than UNAVAILABLE, within the number of attempts that the budget
    allows; UNAVAILABLE only once the budget leaves no room for another delay.
   */
  method Schedule(o: Options, wrapped: nat -> Status, start: nat, now: nat -> nat)
    returns (status: Status, attempts: nat)
    requires ValidOptions(o) && IsClock(o, start, now)
    ensures 1 <= attempts <= MaxAttempts(o) && status == wrapped(attempts - 1)
    ensures forall k :: 0 <= k < attempts - 1 ==>
      && wrapped(k).Error? && wrapped(k).code == Unavailable
      && now(k) - start + o.retryDelayMicros < o.maxTimeMicros
    ensures status.Error? && status.code == Unavailable ==>
      now(attempts - 1) - start + o.retryDelayMicros >= o.maxTimeMicros
  {
    var k := 0;
    while true
      invariant forall h :: 0 <= h < k ==> IsUnavailable(wrapped(h)) && HasRoom(o, start, now, h)
      decreases start + o.maxTimeMicros - now(k)
    {
      status := wrapped(k);
      attempts := k + 1;
      if k > 0 {
        RoomIsBounded(o, start, now, k - 1);
      } else {
        FirstAttempt(o);
      }
      if !IsUnavailable(status) {
        return;
      }
      if now(k) + o.retryDelayMicros - start >= o.maxTimeMicros {
        return;
      }
      assert now(k) + Pause(o) <= now(k + 1);
      k := k + 1;
    }
  }

  lemma FirstAttempt(o: Options)
    requires ValidOptions(o)
    ensures MaxAttempts(o) >= 1
  {
    if o.maxTimeMicros > 0 && o.retryDelayMicros > 0 {
      QuotientAtLeast(o.maxTimeMicros + o.retryDelayMicros - 1, o.retryDelayMicros, 1);
    }
  }
}
