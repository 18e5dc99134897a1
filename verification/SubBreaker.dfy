/** internal/cli/breaker/subbreaker.go: the breaker of one endpoint. */
module SubBreakers {
  import W = Window
  import Spec = SubBreakerSpec
  import opened SubBreakerSpec
  import opened Counters

  class SubBreaker {
    ghost var Repr: set<object>

    var state: Phase
    var openUntil: int
    var halfOpenSince: int
    var probeUsed: int
    var probeSuccess: int
    var lastTick: int
    const settings: Settings
    var windowCounter: Counter

    ghost predicate Valid()
      reads this, Repr
      ensures Valid() ==> this in Repr
    {
      && this in Repr && windowCounter in Repr && windowCounter.Repr <= Repr && this !in windowCounter.Repr
      && windowCounter.Valid()
      && 0 < settings.interval
      && windowCounter.Capacity() == settings.capacity
    }

    ghost function View(): State
      reads this, windowCounter
    {
      State(state, openUntil, halfOpenSince, probeUsed, probeSuccess, lastTick, windowCounter.View)
    }

    constructor (opts: Options, now: int)
      requires 1 <= opts.windowCapacity
      ensures Valid() && fresh(Repr)
      ensures settings == NewSettings(opts) && View() == Fresh(now)
    {
      state, openUntil, halfOpenSince := Closed, ZERO_TIME, ZERO_TIME;
      probeUsed, probeSuccess, lastTick := 0, 0, now;
      settings := NewSettings(opts);
      windowCounter := new Counter(opts.windowCapacity);
      new;
      Repr := {this} + windowCounter.Repr;
    }

    method PushEmpty(n: nat)
      requires Valid()
      modifies Repr
      ensures Valid() && fresh(Repr - old(Repr)) && windowCounter == old(windowCounter)
      ensures View() == old(View()).(window := PushEmpties(settings.capacity, old(View()).window, n))
    {
      var i := 0;
      while i < n
        invariant 0 <= i <= n
        invariant Valid() && fresh(Repr - old(Repr)) && windowCounter == old(windowCounter)
        invariant View() == old(View()).(window := PushEmpties(settings.capacity, old(View()).window, i))
      {
        windowCounter.PushEmpty();
        Repr := Repr + windowCounter.Repr;
        i := i + 1;
      }
    }

    method Flush()
      requires Valid()
      modifies Repr
      ensures Valid() && fresh(Repr - old(Repr))
      ensures View() == old(View()).(window := W.Apply(settings.capacity, old(View()).window, W.Flush))
    {
      windowCounter.Flush();
      Repr := Repr + windowCounter.Repr;
    }

    method BucketCount(sub: int) returns (bucketCount: nat)
      requires 0 < settings.interval <= sub
      ensures 1 <= bucketCount == Spans(sub, settings.interval)
    {
      SpansIsQuotient(sub, settings.interval);
      bucketCount := sub / settings.interval;
    }

    method Advance(now: int)
      requires Valid()
      modifies Repr
      ensures Valid() && fresh(Repr - old(Repr))
      ensures View() == Spec.Advance(settings, old(View()), now)
    {
      hide Counter.Valid, Spans, PushEmpties, W.Apply;
      var sub := now - lastTick;
      if sub < settings.interval {
        return;
      }
      var bucketCount := BucketCount(sub);
      PushEmpty(bucketCount - 1);
      Flush();
      lastTick := now;
    }

    method Allowed(now: int) returns (ok: bool)
      requires Valid()
      modifies Repr
      ensures Valid() && fresh(Repr - old(Repr))
      ensures View() == Step(settings, old(View()), Allow(now)) && ok == Admits(settings, old(View()), Allow(now))
    {
      Advance(now);
      ok := Decide(now);
    }

    /** Whether the window holds enough results and too many of them are failures. */
    method FailureRateExceeded() returns (exceeded: bool)
      requires Valid()
      ensures var r := W.Summary(windowCounter.View);
              exceeded <==> |r| >= settings.minRequestCount && RateExceeded(settings, r)
    {
      var summary := windowCounter.Summary();
      if summary.Total < settings.minRequestCount {
        return false;
      }
      if summary.Total != 0 {
        var failureRate := (summary.NetworkFailure + summary.Timeout) as real / summary.Total as real;
        return failureRate > settings.failureRateThreshold;
      }
      return false;
    }

    method Decide(now: int) returns (ok: bool)
      requires Valid()
      modifies this
      ensures Valid() && Repr == old(Repr)
      ensures (View(), ok) == Spec.Decide(settings, old(View()), now)
    {
      hide Counter.Valid, RateExceeded, W.Summary;
      if state == Closed {
        var exceeded := FailureRateExceeded();
        if exceeded {
          state := Open;
          openUntil := now + settings.openDuration;
          return false;
        }
      } else {
        if state == Open {
          if now <= openUntil {
            return false;
          }
          state := HalfOpen;
          halfOpenSince := now;
          probeUsed := 0;
          probeSuccess := 0;
        }
        if now - halfOpenSince > settings.halfOpenMaxDuration {
          state := Open;
          openUntil := now + settings.openDuration;
          return false;
        }
        if probeUsed >= settings.halfOpenAllowed {
          return false;
        }
        probeUsed := probeUsed + 1;
      }
      return true;
    }

    method Record(now: int, result: W.Metric)
      requires Valid()
      modifies Repr
      ensures Valid() && fresh(Repr - old(Repr))
      ensures View() == Step(settings, old(View()), Result(now, result))
    {
      Advance(now);
      Book(now, result);
    }

    method Tally(result: W.Metric)
      requires Valid()
      modifies Repr
      ensures Valid() && Repr == old(Repr)
      ensures View() == old(View()).(window := W.Apply(settings.capacity, old(View()).window, W.Record(result)))
    {
      match result {
        case SUCCESS => windowCounter.RecordSuccess();
        case BUSINESS_FAILURE => windowCounter.RecordBusinessFailure();
        case NETWORK_FAILURE => windowCounter.RecordNetworkFailure();
        case TIMEOUT => windowCounter.RecordTimeout();
      }
    }

    method Close()
      requires Valid()
      modifies Repr
      ensures Valid() && fresh(Repr - old(Repr))
      ensures View() == old(View()).(phase := Closed, window := W.FRESH)
    {
      state := Closed;
      windowCounter.Reset();
      Repr := Repr + windowCounter.Repr;
    }

    method Book(now: int, result: W.Metric)
      requires Valid()
      modifies Repr
      ensures Valid() && fresh(Repr - old(Repr))
      ensures View() == Spec.Book(settings, old(View()), now, result)
    {
      hide Counter.Valid, W.Apply;
      Tally(result);
      ghost var recorded := View();
      if state == HalfOpen {
        match result {
          case NETWORK_FAILURE =>
            state := Open;
            openUntil := now + settings.openDuration;
          case TIMEOUT =>
            state := Open;
            openUntil := now + settings.openDuration;
          case SUCCESS =>
            probeSuccess := probeSuccess + 1;
          case BUSINESS_FAILURE =>
        }
        assert View() == Judge(settings, recorded, now, result);
        if probeSuccess >= settings.halfOpenAllowed {
          Close();
        }
      }
    }
  }
}
