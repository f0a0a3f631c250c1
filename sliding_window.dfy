/** The sliding-window rule both rate limiters apply to one client's list of
    request times: keep only the times after `now - window`; refuse when that
    many already reach the limit; otherwise record `now`. Times are integer
    clock ticks. */
module SlidingWindow {

  /** `[t for t in ts if t > start]`. */
  function Recent(ts: seq<int>, start: int): (r: seq<int>)
    ensures |r| <= |ts|
    ensures forall i :: 0 <= i < |r| ==> r[i] > start
    decreases |ts|
  {
    if |ts| == 0 then []
    else
      Recent(ts[..|ts| - 1], start) + (if ts[|ts| - 1] > start then [ts[|ts| - 1]] else [])
  }

  /** Pruning keeps every time after `start`, as often as it occurs, and no other. */
  lemma {:induction false} RecentCounts(ts: seq<int>, start: int)
    ensures forall t :: multiset(Recent(ts, start))[t] == if t > start then multiset(ts)[t] else 0
    decreases |ts|
  {
    if |ts| > 0 {
      var last := ts[|ts| - 1];
      assert ts == ts[..|ts| - 1] + [last];
      RecentCounts(ts[..|ts| - 1], start);
    }
  }

  /** One request at time `now`: whether it is admitted, and the client's list
      afterwards (pruned in both cases, with `now` added only when admitted). */
  function Admit(ts: seq<int>, now: int, limit: int, window: int): (r: (bool, seq<int>))
    ensures r.0 <==> |Recent(ts, now - window)| < limit
    ensures !r.0 ==> r.1 == Recent(ts, now - window)
    ensures r.0 ==> r.1 == Recent(ts, now - window) + [now]
  {
    var recent := Recent(ts, now - window);
    if |recent| >= limit then (false, recent) else (true, recent + [now])
  }

  /** After a request, every stored time lies inside the window ending now,
      and the list holds at most `limit` times if it did before. */
  lemma AdmitBounds(ts: seq<int>, now: int, limit: int, window: int)
    requires window > 0
    ensures var (_, kept) := Admit(ts, now, limit, window);
      && (forall i :: 0 <= i < |kept| ==> now - window < kept[i])
      && (|ts| <= limit ==> |kept| <= limit)
      && |kept| <= |ts| + 1
  {
  }

  lemma {:induction false} RecentConcat(a: seq<int>, b: seq<int>, start: int)
    ensures Recent(a + b, start) == Recent(a, start) + Recent(b, start)
    decreases |b|
  {
    if |b| == 0 {
      assert a + b == a;
    } else {
      var b' := b[..|b| - 1];
      assert (a + b)[..|a + b| - 1] == a + b';
      RecentConcat(a, b', start);
    }
  }

  /** Pruning with a later start after an earlier one is pruning once with the later start. */
  lemma {:induction false} RecentTwice(ts: seq<int>, s1: int, s2: int)
    requires s1 <= s2
    ensures Recent(Recent(ts, s1), s2) == Recent(ts, s2)
    decreases |ts|
  {
    if |ts| > 0 {
      var init, last := ts[..|ts| - 1], ts[|ts| - 1];
      RecentTwice(init, s1, s2);
      var tail := if last > s1 then [last] else [];
      RecentConcat(Recent(init, s1), tail, s2);
      if last > s1 {
        assert tail[..0] == [];
      }
    }
  }

  // ---------------------------------------------------------------------------
  // A client's whole history

  ghost predicate NonDecreasing(times: seq<int>) {
    forall i, j :: 0 <= i < j < |times| ==> times[i] <= times[j]
  }

  /** Feeding one client's requests, in order, to the limiter from an empty
      list: the stored list at the end and the times that were admitted. */
  function Replay(times: seq<int>, limit: int, window: int): (r: (seq<int>, seq<int>))
    decreases |times|
  {
    if |times| == 0 then ([], [])
    else
      var (stored, admitted) := Replay(times[..|times| - 1], limit, window);
      var now := times[|times| - 1];
      var (ok, kept) := Admit(stored, now, limit, window);
      (kept, if ok then admitted + [now] else admitted)
  }

  /** One request of a replay: if the stored list was the admitted times
      inside the window ending at the previous request, it is afterwards the
      admitted times inside the window ending at this one. */
  lemma ReplayStep(stored: seq<int>, admitted: seq<int>, prev: int, now: int, limit: int, window: int)
    requires stored == Recent(admitted, prev - window) && |stored| <= limit && prev <= now && window > 0
    ensures var (ok, kept) := Admit(stored, now, limit, window);
      && kept == Recent(if ok then admitted + [now] else admitted, now - window)
      && |kept| <= limit
  {
    var recent := Recent(stored, now - window);
    RecentTwice(admitted, prev - window, now - window);
    assert recent == Recent(admitted, now - window);
    if |recent| < limit {
      RecentConcat(admitted, [now], now - window);
      assert [now][..0] == [];
      assert Recent([now], now - window) == [now];
    }
  }

  /** The stored list is exactly the admitted times inside the window ending
      at the latest request, and never longer than the limit. */
  lemma {:induction false} ReplayStored(times: seq<int>, limit: int, window: int)
    requires |times| > 0 && NonDecreasing(times) && window > 0 && limit >= 0
    ensures Replay(times, limit, window).0 == Recent(Replay(times, limit, window).1, times[|times| - 1] - window)
    ensures |Replay(times, limit, window).0| <= limit
    decreases |times|
  {
    var init := times[..|times| - 1];
    var now := times[|times| - 1];
    var prev := Replay(init, limit, window);
    if |init| == 0 {
      assert prev == ([], []);
      ReplayStep(prev.0, prev.1, now, now, limit, window);
    } else {
      assert NonDecreasing(init) by {
        forall i, j | 0 <= i < j < |init| ensures init[i] <= init[j] {
          assert init[i] == times[i] && init[j] == times[j];
        }
      }
      ReplayStored(init, limit, window);
      assert init[|init| - 1] <= now by {
        assert init[|init| - 1] == times[|times| - 2];
      }
      ReplayStep(prev.0, prev.1, init[|init| - 1], now, limit, window);
    }
  }

  /** The guarantee of a sliding-window limiter: however a client's requests
      are spread out, no window of `window` ticks ending at its latest request,
      or at any later time, contains more than `limit` admitted ones. (A
      window ending at an earlier request is the same statement for the
      history up to that request.) */
  lemma WindowNeverOverfull(times: seq<int>, limit: int, window: int, end: int)
    requires |times| > 0 && NonDecreasing(times) && window > 0 && limit >= 0
    requires times[|times| - 1] <= end
    ensures |Recent(Replay(times, limit, window).1, times[|times| - 1] - window)| <= limit
    ensures |Recent(Replay(times, limit, window).1, end - window)| <= limit
  {
    var admitted := Replay(times, limit, window).1;
    ReplayStored(times, limit, window);
    RecentTwice(admitted, times[|times| - 1] - window, end - window);
  }
}
