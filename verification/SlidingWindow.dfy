/** Limits over a sliding window: a count of recent times, checked under a lock before each is added, bounds every
    window, in whatever order the times come. */
module SlidingWindow {

  /** The ids whose time is in the window `(from, from + length]`. */
  function Within(times: map<nat, int>, from: int, length: nat): set<nat> {
    set id | id in times && from < times[id] <= from + length
  }

  /** The ids whose time is after `from`, even in the future of the clock that asks. */
  function After(times: map<nat, int>, from: int): set<nat> {
    set id | id in times && from < times[id]
  }

  /** No window of length `window` holds more than `most`. */
  ghost predicate Bounded(times: map<nat, int>, window: nat, most: nat) {
    forall from :: |Within(times, from, window)| <= most
  }

  lemma SmallerSet(a: set<nat>, b: set<nat>)
    requires a <= b
    ensures |a| <= |b|
  {
    assert b == a + (b - a);
  }

  /** Adding a time when fewer than `most` are after its window's start keeps every window within `most`. */
  lemma AddKeepsBound(times: map<nat, int>, id: nat, now: int, window: nat, most: nat)
    requires Bounded(times, window, most) && id !in times
    requires |After(times, now - window)| < most
    ensures Bounded(times[id := now], window, most)
  {
    var after := times[id := now];
    forall from
      ensures |Within(after, from, window)| <= most
    {
      WindowAfterAdding(times, id, now, from, window);
      if from < now <= from + window {
        SmallerSet(Within(times, from, window), After(times, now - window));
      }
    }
  }

  lemma WindowAfterAdding(times: map<nat, int>, id: nat, now: int, from: int, length: nat)
    requires id !in times
    ensures Within(times[id := now], from, length)
            == Within(times, from, length) + if from < now <= from + length then {id} else {}
  {
  }

  /** Exactly when adding a time keeps the bound: every window it falls in has room. */
  lemma AddKeepsBoundIff(times: map<nat, int>, id: nat, now: int, window: nat, most: nat)
    requires Bounded(times, window, most) && id !in times
    ensures Bounded(times[id := now], window, most)
            <==> forall from :: from < now <= from + window ==> |Within(times, from, window)| < most
  {
    var after := times[id := now];
    forall from
      ensures |Within(after, from, window)|
              == |Within(times, from, window)| + if from < now <= from + window then 1 else 0
    {
      WindowAfterAdding(times, id, now, from, window);
    }
    if Bounded(after, window, most) {
      forall from | from < now <= from + window
        ensures |Within(times, from, window)| < most
      {
        assert |Within(after, from, window)| <= most;
      }
    }
  }

  /** Dropping times keeps the bound. */
  lemma FewerKeepBound(times: map<nat, int>, fewer: map<nat, int>, window: nat, most: nat)
    requires Bounded(times, window, most)
    requires forall id :: id in fewer ==> id in times && times[id] == fewer[id]
    ensures Bounded(fewer, window, most)
  {
    forall from
      ensures |Within(fewer, from, window)| <= most
    {
      SmallerSet(Within(fewer, from, window), Within(times, from, window));
    }
  }

  /** In how many seconds to try again: the least whole number, at least one, after which the oldest time counted now
      has left the window. */
  ghost predicate IsRetry(seconds: int, times: map<nat, int>, window: nat, now: int) {
    1 <= seconds
    && exists oldest ::
         && oldest in After(times, now - window)
         && (forall id :: id in After(times, now - window) ==> times[oldest] <= times[id])
         && times[oldest] <= now + 1000 * seconds - window
         && (seconds > 1 ==> now + 1000 * (seconds - 1) - window < times[oldest])
  }

  method RetryAfter(times: map<nat, int>, window: nat, now: int) returns (seconds: int)
    requires After(times, now - window) != {}
    ensures IsRetry(seconds, times, window, now)
  {
    var counted := After(times, now - window);
    var oldest := Oldest(times, counted);
    var wait := times[oldest] + window - now;
    seconds := (wait + 999) / 1000;
    if seconds < 1 {
      seconds := 1;
    }
  }

  method Oldest(times: map<nat, int>, ids: set<nat>) returns (oldest: nat)
    requires ids != {} && ids <= times.Keys
    ensures oldest in ids && forall id :: id in ids ==> times[oldest] <= times[id]
  {
    oldest :| oldest in ids;
    var rest := ids - {oldest};
    while rest != {}
      invariant rest <= ids && oldest in ids
      invariant forall id :: id in ids - rest ==> times[oldest] <= times[id]
      decreases |rest|
    {
      var id :| id in rest;
      if times[id] < times[oldest] {
        oldest := id;
      }
      rest := rest - {id};
    }
  }
}
