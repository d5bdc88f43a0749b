/** The Redis rate-limit script: a window counter that expires and a block key.  Time is read
    in whole seconds; a key with an expiry at `t` exists until just before `t`. */
module RateLimiter {
  import opened Common

  /** The settings; nothing in the service keeps them positive. */
  datatype Limits = Limits(limit: int, window: int, block: int)

  datatype Window = Window(count: nat, until: int)

  /** The two keys of one user. */
  datatype Slot = Slot(window: Option<Window>, blocked: Option<int>)

  const EmptySlot := Slot(None, None)

  /** `Failed` when the script is aborted by an error of one of its commands. */
  datatype Decision = Decision(allowed: bool, retryAfter: int) | Failed

  /** What `TTL` answers for a key that does not exist. */
  const NO_KEY := -2

  predicate Live(w: Option<Window>, now: int) { w.Some? && now < w.value.until }

  /** `INCR`, and `EXPIRE` for a new key: an expiry that is not positive deletes the key. */
  function Counted(c: Limits, w: Option<Window>, now: int): (nat, Option<Window>) {
    if Live(w, now) then (w.value.count + 1, Some(Window(w.value.count + 1, w.value.until)))
    else (1, if c.window > 0 then Some(Window(1, now + c.window)) else None)
  }

  /** One evaluation of the script.  `SET` refuses an expiry that is not positive, and Redis
      does not undo what an aborted script has done so far. */
  function Script(c: Limits, s: Slot, now: int): (Slot, Decision) {
    if s.blocked.Some? && now < s.blocked.value then (s, Decision(false, s.blocked.value - now))
    else
      var (count, w) := Counted(c, s.window, now);
      if count <= c.limit then (s.(window := w), Decision(true, if w.Some? then w.value.until - now else NO_KEY))
      else if c.block <= 0 then (s.(window := w), Failed)
      else (Slot(None, Some(now + c.block)), Decision(false, c.block))
  }

  /** The answer handed to the caller: a wait of at least one second, or the error. */
  function Reported(d: Decision): (r: Decision)
    ensures d.Decision? ==> r.Decision? && r.allowed == d.allowed && r.retryAfter >= 1
    ensures d.Decision? && d.retryAfter >= 1 ==> r == d
  {
    match d
    case Decision(allowed, retryAfter) => Decision(allowed, Max(retryAfter, 1))
    case Failed => Failed
  }

  /** The limiter as an object over the Redis keys of all users. */
  class RedisRateLimiter {
    const limits: Limits
    var windows: map<nat, Window>
    var blocks: map<nat, int>

    ghost function SlotOf(user: nat): Slot
      reads this
    {
      Slot(if user in windows then Some(windows[user]) else None, if user in blocks then Some(blocks[user]) else None)
    }

    constructor (limits: Limits)
      ensures this.limits == limits && forall u :: SlotOf(u) == EmptySlot
    {
      this.limits := limits;
      windows, blocks := map[], map[];
    }

    method Check(user: nat, now: int) returns (decision: Decision)
      modifies this`windows, this`blocks
      ensures (SlotOf(user), decision) ==
                var (slot, d) := Script(limits, old(SlotOf(user)), now); (slot, Reported(d))
      ensures forall u :: u != user ==> SlotOf(u) == old(SlotOf(u))
    {
      if user in blocks && blocks[user] - now > 0 {
        return Decision(false, Max(blocks[user] - now, 1));
      }
      var count: nat, ttl := 1, NO_KEY;
      if user in windows && now < windows[user].until {
        count, ttl := windows[user].count + 1, windows[user].until - now;
        windows := windows[user := Window(count, windows[user].until)];
      } else {
        windows := windows - {user};
        if limits.window > 0 {
          ttl := limits.window;
          windows := windows[user := Window(count, now + limits.window)];
        }
      }
      if count > limits.limit {
        if limits.block <= 0 { return Failed; }
        blocks := blocks[user := now + limits.block];
        windows := windows - {user};
        return Decision(false, Max(limits.block, 1));
      }
      return Decision(true, Max(ttl, 1));
    }
  }

  // ----- Runs of one user's requests ------------------------------------------------------------

  ghost predicate Ordered(times: seq<int>) {
    forall i, j :: 0 <= i <= j < |times| ==> times[i] <= times[j]
  }

  /** The keys after the requests `times`, and the times of those that were let through. */
  function Serve(c: Limits, times: seq<int>): (Slot, seq<int>)
    decreases |times|
  {
    if times == [] then (EmptySlot, [])
    else
      var (s, accepted) := Serve(c, times[..|times| - 1]);
      var now := times[|times| - 1];
      var (s', d) := Script(c, s, now);
      (s', if Allowed(d) then accepted + [now] else accepted)
  }

  predicate Allowed(d: Decision) { d.Decision? && d.allowed }

  /** How many of `times` lie in the interval from `x` (included) to `y` (excluded). */
  function CountIn(times: seq<int>, x: int, y: int): nat
    decreases |times|
  {
    if times == [] then 0
    else CountIn(times[..|times| - 1], x, y) + (if x <= times[|times| - 1] < y then 1 else 0)
  }

  /** `k + 1` times the limit, less one: `k` windows' worth of time meets `k + 1` window keys, and
      the first of them has used up a request before. */
  function Budget(c: Limits, k: nat): nat {
    if c.limit <= 0 then 0 else (k + 1) * c.limit - 1
  }

  /** No more than the budget is let through in the `k` windows' worth of time from `x`. */
  predicate Within(c: Limits, times: seq<int>, x: int, k: nat) {
    CountIn(Serve(c, times).1, x, x + k * c.window) <= Budget(c, k)
  }

  /** The promise of a limit per window, over every interval and every run. */
  ghost predicate SlidingBound(c: Limits) {
    forall times, x, k: nat :: Ordered(times) ==> Within(c, times, x, k)
  }

  // ----- When window keys start a window apart, the promise holds ------------------------------------

  /** A full window is not cut short: by an error it stays, by a block it is outlasted. */
  predicate Spaced(c: Limits) { c.window > 0 && c.limit > 0 && (c.block <= 0 || c.block >= c.window) }

  /** The requests let through by one window key. */
  datatype Group = Group(start: int, times: seq<int>)

  ghost predicate GroupOk(c: Limits, g: Group) {
    && 0 < |g.times| <= c.limit && g.times[0] == g.start
    && forall i :: 0 <= i < |g.times| ==> g.start <= g.times[i] < g.start + c.window
  }

  ghost predicate GroupsOk(c: Limits, gs: seq<Group>) {
    && (forall i :: 0 <= i < |gs| ==> GroupOk(c, gs[i]))
    && (forall i :: 0 < i < |gs| ==> gs[i - 1].start + c.window <= gs[i].start)
  }

  function GroupCount(gs: seq<Group>, x: int, y: int): nat
    decreases |gs|
  {
    if gs == [] then 0 else GroupCount(gs[..|gs| - 1], x, y) + CountIn(gs[|gs| - 1].times, x, y)
  }

  function Last<T>(xs: seq<T>): T
    requires xs != []
  {
    xs[|xs| - 1]
  }

  /** The keys remember the last group: its window key, or the block that ended it early. */
  ghost predicate Remembers(c: Limits, s: Slot, gs: seq<Group>) {
    && (s.window.Some? ==> gs != [] && s.window.value.until == Last(gs).start + c.window
                           && (s.window.value.count <= c.limit ==> s.window.value.count == |Last(gs).times|))
    && (s.window.None? && gs != [] ==> s.blocked.Some? && s.blocked.value >= Last(gs).start + c.window)
  }

  lemma CountBack(times: seq<int>, t: int, x: int, y: int)
    ensures CountIn(times + [t], x, y) == CountIn(times, x, y) + (if x <= t < y then 1 else 0)
  {
    assert (times + [t])[..|times|] == times;
  }

  lemma GroupCountBack(gs: seq<Group>, g: Group, x: int, y: int)
    ensures GroupCount(gs + [g], x, y) == GroupCount(gs, x, y) + CountIn(g.times, x, y)
  {
    assert (gs + [g])[..|gs|] == gs;
  }

  ghost predicate SameCounts(accepted: seq<int>, gs: seq<Group>) {
    forall x, y :: CountIn(accepted, x, y) == GroupCount(gs, x, y)
  }

  lemma NewGroup(accepted: seq<int>, gs: seq<Group>, now: int)
    requires SameCounts(accepted, gs)
    ensures SameCounts(accepted + [now], gs + [Group(now, [now])])
  {
    forall x, y ensures CountIn(accepted + [now], x, y) == GroupCount(gs + [Group(now, [now])], x, y) {
      CountBack(accepted, now, x, y);
      CountBack([], now, x, y);
      assert [] + [now] == [now];
      GroupCountBack(gs, Group(now, [now]), x, y);
    }
  }

  lemma GrowGroup(accepted: seq<int>, gs: seq<Group>, now: int)
    requires SameCounts(accepted, gs) && gs != []
    ensures var g := Last(gs);
            SameCounts(accepted + [now], gs[..|gs| - 1] + [g.(times := g.times + [now])])
  {
    var g := Last(gs);
    var g' := g.(times := g.times + [now]);
    forall x, y ensures CountIn(accepted + [now], x, y) == GroupCount(gs[..|gs| - 1] + [g'], x, y) {
      CountBack(accepted, now, x, y);
      CountBack(g.times, now, x, y);
      GroupCountBack(gs[..|gs| - 1], g', x, y);
    }
  }

  /** One accepted request extends the groups; a refused one leaves them. */
  lemma ScriptKeepsGroups(c: Limits, s: Slot, accepted: seq<int>, gs: seq<Group>, now: int) returns (gs': seq<Group>)
    requires Spaced(c)
    requires GroupsOk(c, gs) && Remembers(c, s, gs) && SameCounts(accepted, gs)
    requires gs != [] ==> Last(gs).start <= now
    ensures var (s', d) := Script(c, s, now);
            && GroupsOk(c, gs') && Remembers(c, s', gs') && (gs' != [] ==> Last(gs').start <= now)
            && SameCounts(if Allowed(d) then accepted + [now] else accepted, gs')
  {
    hide SameCounts;
    var (s', d) := Script(c, s, now);
    if !Allowed(d) {
      gs' := gs;
    } else if Live(s.window, now) {
      var g := Last(gs);
      gs' := gs[..|gs| - 1] + [g.(times := g.times + [now])];
      GrowGroup(accepted, gs, now);
    } else {
      gs' := gs + [Group(now, [now])];
      NewGroup(accepted, gs, now);
    }
  }

  lemma {:induction false} ServeInGroups(c: Limits, times: seq<int>) returns (gs: seq<Group>)
    requires Spaced(c) && Ordered(times)
    ensures GroupsOk(c, gs) && Remembers(c, Serve(c, times).0, gs) && SameCounts(Serve(c, times).1, gs)
    ensures gs != [] ==> times != [] && Last(gs).start <= Last(times)
    decreases |times|
  {
    if times == [] {
      gs := [];
    } else {
      var front := ServeInGroups(c, times[..|times| - 1]);
      gs := ScriptKeepsGroups(c, Serve(c, times[..|times| - 1]).0, Serve(c, times[..|times| - 1]).1, front, times[|times| - 1]);
      hide SameCounts, GroupsOk, Remembers;
    }
  }

  lemma {:induction false} FewInGroup(times: seq<int>, x: int, y: int)
    ensures CountIn(times, x, y) <= |times|
    ensures (forall i :: 0 <= i < |times| ==> !(x <= times[i] < y)) ==> CountIn(times, x, y) == 0
    decreases |times|
  {
    if times != [] { FewInGroup(times[..|times| - 1], x, y); }
  }

  /** A request before the interval is not counted in it. */
  lemma {:induction false} FirstBefore(times: seq<int>, x: int, y: int)
    requires times != [] && times[0] < x
    ensures CountIn(times, x, y) <= |times| - 1
    decreases |times|
  {
    if |times| == 1 {
      assert times[..0] == [] && CountIn(times[..0], x, y) == 0;
    } else {
      FirstBefore(times[..|times| - 1], x, y);
    }
  }

  /** What one group adds: nothing if it lies outside the interval, one less than the limit if it
      starts before it, never more than the limit. */
  lemma GroupAdds(c: Limits, gs: seq<Group>, x: int, y: int)
    requires GroupsOk(c, gs) && gs != []
    ensures GroupsOk(c, gs[..|gs| - 1])
    ensures GroupCount(gs, x, y) <= GroupCount(gs[..|gs| - 1], x, y) + c.limit - (if Last(gs).start < x then 1 else 0)
    ensures Last(gs).start >= y || Last(gs).start + c.window <= x ==> GroupCount(gs, x, y) == GroupCount(gs[..|gs| - 1], x, y)
  {
    assert GroupOk(c, Last(gs));
    FewInGroup(Last(gs).times, x, y);
    if Last(gs).start < x { FirstBefore(Last(gs).times, x, y); }
  }

  lemma PriorGroup(c: Limits, gs: seq<Group>)
    requires GroupsOk(c, gs) && |gs| > 1
    ensures Last(gs[..|gs| - 1]).start + c.window <= Last(gs).start
  {
    assert gs[(|gs| - 1) - 1].start + c.window <= gs[|gs| - 1].start;
  }

  lemma {:induction false} PastGroups(c: Limits, gs: seq<Group>, x: int, y: int)
    requires c.window > 0 && GroupsOk(c, gs) && (gs != [] ==> Last(gs).start + c.window <= x)
    ensures GroupCount(gs, x, y) == 0
    decreases |gs|
  {
    if gs != [] {
      GroupAdds(c, gs, x, y);
      if |gs| > 1 { PriorGroup(c, gs); }
      hide GroupsOk;
      PastGroups(c, gs[..|gs| - 1], x, y);
    }
  }

  /** Starts a window apart: at most `m + 1` of the groups begun before `x + m * window` reach `x`,
      and if it is that many, the first of them began before `x`. */
  lemma {:induction false} EarlyGroups(c: Limits, gs: seq<Group>, x: int, y: int, m: nat)
    requires Spaced(c) && GroupsOk(c, gs) && (gs != [] ==> Last(gs).start < x + m * c.window)
    ensures GroupCount(gs, x, y) <= (m + 1) * c.limit - 1
    decreases |gs|
  {
    assert (m + 1) * c.limit == m * c.limit + c.limit && m * c.limit >= 0;
    if gs != [] {
      hide GroupCount, GroupsOk;
      GroupAdds(c, gs, x, y);
      if |gs| > 1 { PriorGroup(c, gs); }
      if m == 0 {
        PastGroups(c, gs[..|gs| - 1], x, y);
      } else {
        assert m * c.window == (m - 1) * c.window + c.window;
        EarlyGroups(c, gs[..|gs| - 1], x, y, m - 1);
      }
    }
  }

  lemma {:induction false} FewGroups(c: Limits, gs: seq<Group>, x: int, k: nat)
    requires Spaced(c) && GroupsOk(c, gs)
    ensures GroupCount(gs, x, x + k * c.window) <= Budget(c, k)
    decreases |gs|
  {
    var y := x + k * c.window;
    if gs == [] || Last(gs).start < y {
      EarlyGroups(c, gs, x, y, k);
    } else {
      GroupAdds(c, gs, x, y);
      FewGroups(c, gs[..|gs| - 1], x, k);
    }
  }

  lemma BoundHolds(c: Limits, times: seq<int>, x: int, k: nat)
    requires Spaced(c) && Ordered(times)
    ensures Within(c, times, x, k)
  {
    hide Serve, Script, GroupsOk, CountIn, GroupCount, Budget;
    var gs := ServeInGroups(c, times);
    FewGroups(c, gs, x, k);
  }

  // ----- Bursts of requests ----------------------------------------------------------------------

  function Burst(times: seq<int>, t: int, n: nat): seq<int> {
    if n == 0 then times else Burst(times, t, n - 1) + [t]
  }

  lemma ServeBack(c: Limits, times: seq<int>, t: int)
    ensures var (s, accepted) := Serve(c, times);
            var (s', d) := Script(c, s, t);
            Serve(c, times + [t]) == (s', if Allowed(d) then accepted + [t] else accepted)
  {
    assert (times + [t])[..|times|] == times;
  }

  lemma OrderedBack(times: seq<int>, t: int)
    requires Ordered(times) && (times != [] ==> Last(times) <= t)
    ensures Ordered(times + [t])
  {
    forall i, j | 0 <= i <= j < |times + [t]| ensures (times + [t])[i] <= (times + [t])[j] {
      if j == |times| && i < j { assert times[i] <= times[|times| - 1]; }
    }
  }

  /** At `t` nobody is blocked and the window key, which ends at `until`, has counted `n`; for
      `n == 0` it is still to be made. */
  predicate Counting(c: Limits, s: Slot, t: int, n: nat, until: int) {
    && (s.blocked.Some? ==> s.blocked.value <= t)
    && (if n == 0 then !Live(s.window, t) && until == t + c.window else s.window == Some(Window(n, until)) && t < until)
  }

  lemma BurstStep(c: Limits, s: Slot, t: int, n: nat, until: int)
    requires c.window > 0 && Counting(c, s, t, n, until) && n < c.limit
    ensures Script(c, s, t) == (s.(window := Some(Window(n + 1, until))), Decision(true, until - t))
  {
  }

  lemma {:induction false} BurstServed(c: Limits, times: seq<int>, t: int, i: nat, n: nat, until: int, x: int, y: int)
    requires c.window > 0 && Counting(c, Serve(c, times).0, t, i, until) && i + n <= c.limit && x <= t < y
    ensures Serve(c, Burst(times, t, n)).0.blocked == Serve(c, times).0.blocked
    ensures Counting(c, Serve(c, Burst(times, t, n)).0, t, i + n, until)
    ensures CountIn(Serve(c, Burst(times, t, n)).1, x, y) == CountIn(Serve(c, times).1, x, y) + n
  {
    hide Serve, CountIn, Script;
    if n == 0 {
      assert Burst(times, t, n) == times;
    } else {
      var before := Burst(times, t, n - 1);
      BurstServed(c, times, t, i, n - 1, until, x, y);
      BurstStep(c, Serve(c, before).0, t, i + n - 1, until);
      ServeBack(c, before, t);
      assert Serve(c, before + [t]).1 == Serve(c, before).1 + [t];
      CountBack(Serve(c, before).1, t, x, y);
      assert Burst(times, t, n) == before + [t];
    }
  }

  lemma {:induction false} BurstOrdered(times: seq<int>, t: int, n: nat)
    requires Ordered(times) && (times != [] ==> Last(times) <= t)
    ensures Ordered(Burst(times, t, n)) && (Burst(times, t, n) != [] ==> Last(Burst(times, t, n)) <= t)
  {
    if n > 0 {
      BurstOrdered(times, t, n - 1);
      OrderedBack(Burst(times, t, n - 1), t);
    }
  }

  // ----- The budget is used up --------------------------------------------------------------------

  /** One request just before 0, the rest of its window at 0, then a full window each time the
      last one has just run out. */
  function Steady(c: Limits, k: nat): seq<int>
    requires c.limit > 0
  {
    if k == 0 then Burst([-1], 0, c.limit - 1) else Burst(Steady(c, k - 1), k * c.window - 1, c.limit)
  }

  lemma FirstServed(c: Limits, times: seq<int>)
    requires |times| == 1 && c.limit > 0 && c.window > 0
    ensures Serve(c, times) == (Slot(Some(Window(1, times[0] + c.window)), None), times)
  {
    hide CountIn;
    ServeBack(c, [], times[0]);
    assert times == [] + [times[0]];
    assert Serve(c, []) == (EmptySlot, []);
  }

  lemma SingletonFacts(times: seq<int>)
    requires |times| == 1
    ensures Ordered(times) && Last(times) == times[0]
  {
  }

  /** What the steady run leaves behind: no block, and a full window key. */
  predicate Full(c: Limits, s: Slot, until: int) {
    s.blocked.None? && s.window.Some? && s.window.value.count == c.limit && s.window.value.until == until
  }

  lemma SteadyStart(c: Limits, y: int)
    requires c.limit > 0 && c.window > 1 && y > 0
    ensures Ordered(Steady(c, 0)) && Steady(c, 0) != [] && Last(Steady(c, 0)) <= 0
    ensures Full(c, Serve(c, Steady(c, 0)).0, c.window - 1)
    ensures CountIn(Serve(c, Steady(c, 0)).1, 0, y) == c.limit - 1
  {
    hide Serve, CountIn, Burst, Ordered, Full, Last;
    var times := [-1];
    FirstServed(c, times);
    SingletonFacts(times);
    FirstBefore(times, 0, y);
    RestOfWindow(c, times, y);
  }

  lemma RestOfWindow(c: Limits, times: seq<int>, y: int)
    requires c.limit > 0 && c.window > 1 && y > 0 && Ordered(times) && times != [] && Last(times) <= 0
    requires Serve(c, times).0 == Slot(Some(Window(1, c.window - 1)), None)
    ensures var times' := Burst(times, 0, c.limit - 1);
            && Ordered(times') && times' != [] && Last(times') <= 0
            && Full(c, Serve(c, times').0, c.window - 1)
            && CountIn(Serve(c, times').1, 0, y) == CountIn(Serve(c, times).1, 0, y) + c.limit - 1
  {
    hide Serve, CountIn, Burst, Ordered;
    BurstServed(c, times, 0, 1, c.limit - 1, c.window - 1, 0, y);
    BurstOrdered(times, 0, c.limit - 1);
    NotEmpty(times, 0, c.limit - 1);
  }

  lemma NotEmpty(times: seq<int>, t: int, n: nat)
    requires times != [] || n > 0
    ensures Burst(times, t, n) != []
  {
  }

  lemma SteadyNext(c: Limits, times: seq<int>, t: int, y: int)
    requires c.limit > 0 && c.window > 1 && 0 <= t < y
    requires Ordered(times) && times != [] && Last(times) <= t && Full(c, Serve(c, times).0, t)
    ensures var times' := Burst(times, t, c.limit);
            && Ordered(times') && times' != [] && Last(times') <= t
            && Full(c, Serve(c, times').0, t + c.window)
            && CountIn(Serve(c, times').1, 0, y) == CountIn(Serve(c, times).1, 0, y) + c.limit
  {
    hide Serve, CountIn, Burst, Ordered;
    BurstServed(c, times, t, 0, c.limit, t + c.window, 0, y);
    BurstOrdered(times, t, c.limit);
    NotEmpty(times, t, c.limit);
  }

  lemma {:induction false} SteadyServed(c: Limits, k: nat, y: int)
    requires c.limit > 0 && c.window > 1 && y > 0 && y >= k * c.window
    ensures Ordered(Steady(c, k)) && Steady(c, k) != [] && Last(Steady(c, k)) <= Max(0, k * c.window - 1)
    ensures Full(c, Serve(c, Steady(c, k)).0, (k + 1) * c.window - 1)
    ensures CountIn(Serve(c, Steady(c, k)).1, 0, y) == (k + 1) * c.limit - 1
  {
    hide Serve, CountIn, Ordered, Burst, Full;
    if k == 0 {
      SteadyStart(c, y);
    } else {
      var t := k * c.window - 1;
      assert (k + 1) * c.window - 1 == t + c.window && (k - 1) * c.window == t + 1 - c.window;
      assert (k + 1) * c.limit == k * c.limit + c.limit;
      assert (k - 1) * c.window >= 0;
      SteadyServed(c, k - 1, y);
      SteadyNext(c, Steady(c, k - 1), t, y);
    }
  }

  /** No smaller number would do: for any number of windows of two seconds or more some run uses
      the budget up. */
  lemma BudgetIsReached(c: Limits, k: nat)
    requires c.limit > 0 && c.window > 1 && k > 0
    ensures Ordered(Steady(c, k)) && CountIn(Serve(c, Steady(c, k)).1, 0, k * c.window) == Budget(c, k)
  {
    hide Serve, CountIn, Ordered, Steady;
    assert k * c.window >= c.window;
    SteadyServed(c, k, k * c.window);
  }

  // ----- A block shorter than the window breaks the bound -----------------------------------------------

  predicate ShortBlock(c: Limits) { 0 < c.block < c.window && c.limit > 0 }

  /** One request more than the limit, again each time the block has just run out. */
  function Bursts(c: Limits, n: nat): seq<int>
    requires c.limit > 0
  {
    if n == 0 then [] else Burst(Bursts(c, n - 1), (n - 1) * c.block, c.limit + 1)
  }

  /** The request after a full window is refused, and trades the window key for a block. */
  lemma BurstBlocks(c: Limits, times: seq<int>, t: int, x: int, y: int)
    requires ShortBlock(c) && Counting(c, Serve(c, times).0, t, 0, t + c.window) && x <= t < y
    ensures Serve(c, Burst(times, t, c.limit + 1)).0 == Slot(None, Some(t + c.block))
    ensures CountIn(Serve(c, Burst(times, t, c.limit + 1)).1, x, y) == CountIn(Serve(c, times).1, x, y) + c.limit
  {
    hide Serve, CountIn;
    BurstServed(c, times, t, 0, c.limit, t + c.window, x, y);
    ServeBack(c, Burst(times, t, c.limit), t);
  }

  lemma {:induction false} BurstsServed(c: Limits, n: nat, y: int)
    requires ShortBlock(c) && n * c.block < y + c.block
    ensures Ordered(Bursts(c, n)) && (Bursts(c, n) != [] ==> Last(Bursts(c, n)) <= (n - 1) * c.block)
    ensures Counting(c, Serve(c, Bursts(c, n)).0, n * c.block, 0, n * c.block + c.window)
    ensures CountIn(Serve(c, Bursts(c, n)).1, 0, y) == n * c.limit
  {
    if n > 0 {
      hide Serve, CountIn, Ordered, Burst;
      var t := (n - 1) * c.block;
      assert n * c.block == t + c.block && n * c.limit == (n - 1) * c.limit + c.limit;
      assert n >= 2 ==> (n - 2) * c.block == t - c.block;
      assert t >= 0;
      BurstsServed(c, n - 1, y);
      BurstBlocks(c, Bursts(c, n - 1), t, 0, y);
      BurstOrdered(Bursts(c, n - 1), t, c.limit + 1);
    }
  }

  /** `block + 3` bursts fit into `block + 1` windows. */
  lemma ShortBlockBreaksBound(c: Limits)
    requires ShortBlock(c)
    ensures Ordered(Bursts(c, c.block + 3))
    ensures CountIn(Serve(c, Bursts(c, c.block + 3)).1, 0, (c.block + 1) * c.window) > ((c.block + 1) + 1) * c.limit
    ensures !Within(c, Bursts(c, c.block + 3), 0, c.block + 1)
  {
    hide Serve, CountIn, Ordered, Bursts;
    var k, n := c.block + 1, c.block + 3;
    Squeeze(c.block, c.window);
    BurstsServed(c, n, k * c.window);
    assert n * c.limit == (k + 1) * c.limit + c.limit;
    assert 0 + k * c.window == k * c.window;
  }

  lemma Squeeze(block: nat, window: nat)
    requires block < window
    ensures (block + 3) * block < (block + 1) * window + block
  {
    assert (block + 1) * (block + 1) <= (block + 1) * window;
  }

  /** One request long before 0, the rest of its window at 0, a burst at 1 that trips the block,
      and a full window when that is over. */
  function Straddling(c: Limits): seq<int>
    requires c.limit > 0
  {
    Burst(Burst(Burst([1 - c.window], 0, c.limit - 1), 1, c.limit + 1), 1 + c.block, c.limit)
  }

  /** A single window is enough to see it, and half a window of blocking does not prevent it: a
      block two seconds shorter than the window lets three limits, less one, into one window. */
  lemma SingleWindowBreaks(c: Limits)
    requires c.limit > 1 && 0 < c.block && c.block + 2 <= c.window
    ensures Ordered(Straddling(c))
    ensures CountIn(Serve(c, Straddling(c)).1, 0, c.window) == 3 * c.limit - 1 > 2 * c.limit
  {
    hide Serve, CountIn, Burst, Ordered, Last;
    var w := c.window;
    var first := [1 - w];
    FirstServed(c, first);
    SingletonFacts(first);
    FirstBefore(first, 0, w);
    var second := Burst(first, 0, c.limit - 1);
    BurstServed(c, first, 0, 1, c.limit - 1, 1, 0, w);
    BurstOrdered(first, 0, c.limit - 1);
    var third := Burst(second, 1, c.limit + 1);
    BurstBlocks(c, second, 1, 0, w);
    BurstOrdered(second, 1, c.limit + 1);
    BurstServed(c, third, 1 + c.block, 0, c.limit, 1 + c.block + w, 0, w);
    BurstOrdered(third, 1 + c.block, c.limit);
  }

  // ----- What each request is answered --------------------------------------------------------------

  /** The keys as request `i` finds them, and its answer. */
  function Before(c: Limits, times: seq<int>, i: nat): Slot
    requires i < |times|
  {
    Serve(c, times[..i]).0
  }

  function AnswerTo(c: Limits, times: seq<int>, i: nat): Decision
    requires i < |times|
  {
    Script(c, Before(c, times, i), times[i]).1
  }

  /** Request `i` finds neither a block nor a window: it opens one. */
  predicate Opens(c: Limits, times: seq<int>, i: nat)
    requires i < |times|
  {
    var s := Before(c, times, i);
    (s.blocked.Some? ==> s.blocked.value <= times[i]) && !Live(s.window, times[i])
  }

  /** Request `i` is refused although no block stands. */
  predicate Trips(c: Limits, times: seq<int>, i: nat)
    requires i < |times|
  {
    var s := Before(c, times, i);
    (s.blocked.Some? ==> s.blocked.value <= times[i]) && !Allowed(AnswerTo(c, times, i))
  }

  lemma BeforeNext(c: Limits, times: seq<int>, i: nat)
    requires i + 1 < |times|
    ensures Before(c, times, i + 1) == Script(c, Before(c, times, i), times[i]).0
  {
    hide Script;
    ServeBack(c, times[..i], times[i]);
    assert times[..i + 1] == times[..i] + [times[i]];
  }

  lemma FirstRequestOpens(c: Limits, times: seq<int>)
    requires times != []
    ensures Opens(c, times, 0)
  {
    assert times[..0] == [];
  }

  /** While a window is open, request after request is counted. */
  lemma {:induction false} WindowFills(c: Limits, times: seq<int>, i: nat, n: nat)
    requires c.window > 0 && Ordered(times) && i + n < |times| && times[i + n] < times[i] + c.window
    requires Opens(c, times, i) && 0 < n && (n <= c.limit || c.block <= 0)
    ensures Before(c, times, i + n).window == Some(Window(n, times[i] + c.window))
    ensures var b := Before(c, times, i + n).blocked; b.Some? ==> b.value <= times[i + n]
    decreases n
  {
    hide Ordered, Serve;
    BeforeNext(c, times, i + n - 1);
    OrderedAt(times, i + n - 1, i + n);
    if n > 1 { WindowFills(c, times, i, n - 1); }
  }

  lemma OrderedAt(times: seq<int>, i: nat, j: nat)
    requires Ordered(times) && i <= j < |times|
    ensures times[i] <= times[j]
  {
  }

  /** The requests in a window: as many as the limit are let through and told when the window
      ends; the next one is refused and told how long the block lasts, or aborts the script if
      `SET` refuses the block. */
  lemma WindowAnswers(c: Limits, times: seq<int>, i: nat, n: nat)
    requires c.window > 0 && Ordered(times) && i + n < |times| && times[i + n] < times[i] + c.window
    requires Opens(c, times, i) && (n <= Max(c.limit, 0) || c.block <= 0)
    ensures AnswerTo(c, times, i + n) ==
            if n < c.limit then Decision(true, times[i] + c.window - times[i + n])
            else if c.block > 0 then Decision(false, c.block)
            else Failed
    ensures n >= c.limit ==> Trips(c, times, i + n)
  {
    hide Ordered, Serve;
    if n > 0 { WindowFills(c, times, i, n); }
  }

  /** A window that no block cut short ends when its time is over. */
  lemma WindowEnds(c: Limits, times: seq<int>, i: nat, n: nat)
    requires c.window > 0 && Ordered(times) && i + n < |times| && Opens(c, times, i)
    requires 0 < n && (n <= c.limit || c.block <= 0)
    requires times[i + n - 1] < times[i] + c.window <= times[i + n]
    ensures Opens(c, times, i + n)
  {
    hide Ordered, Serve;
    BeforeNext(c, times, i + n - 1);
    OrderedAt(times, i + n - 1, i + n);
    if n > 1 { WindowFills(c, times, i, n - 1); }
  }

  lemma {:induction false} BlockStands(c: Limits, times: seq<int>, i: nat, j: nat)
    requires c.block > 0 && i < j < |times| && Trips(c, times, i)
    requires forall m :: i < m < j ==> times[m] < times[i] + c.block
    ensures Before(c, times, j) == Slot(None, Some(times[i] + c.block))
    decreases j
  {
    hide Serve;
    BeforeNext(c, times, j - 1);
    if i < j - 1 { BlockStands(c, times, i, j - 1); }
  }

  /** Who trips the limit is blocked for the whole block, and not a second longer, whatever is
      asked meanwhile: each request within it is told exactly how much of it is left. */
  lemma BlockIsExact(c: Limits, times: seq<int>, i: nat, j: nat)
    requires c.block > 0 && Ordered(times) && i < j < |times| && Trips(c, times, i)
    ensures times[j] < times[i] + c.block ==>
              AnswerTo(c, times, j) == Decision(false, times[i] + c.block - times[j])
    ensures times[j] < times[i] + c.block ==> Reported(AnswerTo(c, times, j)).retryAfter == Max(times[i] + c.block - times[j], 1)
    ensures times[j] >= times[i] + c.block && (forall m :: i < m < j ==> times[m] < times[i] + c.block) ==>
              Opens(c, times, j) && (Allowed(AnswerTo(c, times, j)) <==> c.limit > 0)
  {
    hide Serve;
    if times[j] < times[i] + c.block || forall m :: i < m < j ==> times[m] < times[i] + c.block {
      forall m | i < m < j ensures times[m] < times[i] + c.block { OrderedAt(times, m, j); }
      hide Ordered;
      BlockStands(c, times, i, j);
    }
  }

  /** A window of no length is no limit: each request finds its key deleted. */
  lemma {:induction false} NoWindowNoLimit(c: Limits, times: seq<int>)
    requires c.window <= 0 && c.limit > 0
    ensures Serve(c, times) == (EmptySlot, times)
    decreases |times|
  {
    if times != [] {
      NoWindowNoLimit(c, times[..|times| - 1]);
      assert times == times[..|times| - 1] + [times[|times| - 1]];
    }
  }

  // ----- Exactly when ---------------------------------------------------------------------------------

  lemma {:induction false} NoLimitRefusesAll(c: Limits, times: seq<int>)
    requires c.limit <= 0
    ensures Serve(c, times).1 == []
    decreases |times|
  {
    if times != [] { NoLimitRefusesAll(c, times[..|times| - 1]); }
  }

  lemma {:induction false} NothingInEmptyInterval(times: seq<int>, x: int, y: int)
    requires y <= x
    ensures CountIn(times, x, y) == 0
    decreases |times|
  {
    if times != [] { NothingInEmptyInterval(times[..|times| - 1], x, y); }
  }

  lemma TrivialBound(c: Limits, times: seq<int>, x: int, k: nat)
    requires c.limit <= 0 || c.window <= 0
    ensures Within(c, times, x, k)
  {
    if c.limit <= 0 {
      NoLimitRefusesAll(c, times);
    } else {
      assert k * c.window <= 0;
      NothingInEmptyInterval(Serve(c, times).1, x, x + k * c.window);
    }
  }

  /** The sliding bound is met by every run exactly when no block is shorter than the window it
      cuts short: a block that `SET` refuses, a limit that lets nobody through and a window of no
      length do no harm. */
  lemma SlidingBoundExactlyWhen(c: Limits)
    ensures SlidingBound(c) <==> !ShortBlock(c)
  {
    hide Within, Ordered;
    if ShortBlock(c) {
      ShortBlockBreaksBound(c);
    } else {
      forall times, x, k: nat | Ordered(times) ensures Within(c, times, x, k) {
        if Spaced(c) { BoundHolds(c, times, x, k); } else { TrivialBound(c, times, x, k); }
      }
    }
  }
}
