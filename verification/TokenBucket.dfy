/** transport/weighted_rate_limit.go: the FIFO token bucket. Times are nanoseconds on the monotonic
    clock, token amounts are reals. */
module TokenBucket {
  import opened Sequences
  import opened Wrappers

  const HOUR: int := 3_600_000_000_000
  const MILLISECOND: int := 1_000_000

  // One call of Wait in the queue; `id` is its identity as an object.
  datatype Waiter = Waiter(id: nat, weight: nat)

  datatype WaitError = WeightExceedsCapacity

  // One admission: when, and how much.
  datatype Grant = Grant(time: int, weight: nat)

  // ---------- Refilling ----------

  function Min(a: real, b: real): real {
    if a <= b then a else b
  }

  // What flows back in `elapsed` nanoseconds at `rate` tokens per nanosecond.
  function Inflow(rate: real, elapsed: int): real {
    elapsed as real * rate
  }

  function Refilled(budget: nat, rate: real, tokens: real, elapsed: int): real {
    if budget == 0 || elapsed <= 0 then tokens else Min(budget as real, tokens + Inflow(rate, elapsed))
  }

  lemma InflowAdds(rate: real, a: int, b: int)
    ensures Inflow(rate, a + b) == Inflow(rate, a) + Inflow(rate, b)
    ensures 0 <= b && 0.0 <= rate ==> 0.0 <= Inflow(rate, b)
  {}

  // Looking at the clock in between does not change what the bucket holds later.
  lemma RefillInTwoSteps(budget: nat, rate: real, tokens: real, a: nat, b: nat)
    requires tokens <= budget as real && 0.0 <= rate
    ensures Refilled(budget, rate, Refilled(budget, rate, tokens, a), b) == Refilled(budget, rate, tokens, a + b)
  {
    InflowAdds(rate, a, b);
  }

  // ---------- The admission bound ----------

  function Weigh(grants: seq<Grant>): nat {
    if grants == [] then 0 else Weigh(grants[..|grants| - 1]) + grants[|grants| - 1].weight
  }

  function WeighWithin(grants: seq<Grant>, from: int, to: int): nat {
    if grants == [] then 0
    else
      var last := grants[|grants| - 1];
      WeighWithin(grants[..|grants| - 1], from, to) + if from <= last.time <= to then last.weight else 0
  }

  ghost predicate InOrder(grants: seq<Grant>) {
    forall i, j | 0 <= i < j < |grants| :: grants[i].time <= grants[j].time
  }

  // From admission `i` on, what was admitted plus what is left is covered by a full bucket and the inflow since.
  ghost predicate Covered(grants: seq<Grant>, budget: nat, rate: real, tokens: real, now: int, i: nat)
    requires i < |grants|
  {
    Weigh(grants[i..]) as real + tokens <= budget as real + Inflow(rate, now - grants[i].time)
  }

  // The admissions from `i` up to `j` are covered by a full bucket and the inflow between the first and the last.
  ghost predicate RunCovered(grants: seq<Grant>, budget: nat, rate: real, i: nat, j: nat)
    requires i < j <= |grants|
  {
    Weigh(grants[i..j]) as real <= budget as real + Inflow(rate, grants[j - 1].time - grants[i].time)
  }

  // Everything the limiter has ever done, as far as its bound is concerned.
  ghost predicate Bounded(grants: seq<Grant>, budget: nat, rate: real, tokens: real, updated: int) {
    && tokens <= budget as real
    && InOrder(grants)
    && (forall i | 0 <= i < |grants| :: grants[i].time <= updated)
    && (forall i | 0 <= i < |grants| :: Covered(grants, budget, rate, tokens, updated, i))
    && (forall i, j | 0 <= i < j <= |grants| :: RunCovered(grants, budget, rate, i, j))
  }

  lemma RefillKeepsBound(grants: seq<Grant>, budget: nat, rate: real, tokens: real, updated: int, now: int)
    requires Bounded(grants, budget, rate, tokens, updated) && updated <= now && 0.0 <= rate
    ensures Bounded(grants, budget, rate, Refilled(budget, rate, tokens, now - updated), now)
  {
    var refilled := Refilled(budget, rate, tokens, now - updated);
    forall i | 0 <= i < |grants| ensures Covered(grants, budget, rate, refilled, now, i) {
      assert Covered(grants, budget, rate, tokens, updated, i);
      InflowAdds(rate, updated - grants[i].time, now - updated);
    }
  }

  lemma ChargeKeepsBound(grants: seq<Grant>, budget: nat, rate: real, tokens: real, updated: int, weight: nat)
    requires Bounded(grants, budget, rate, tokens, updated)
    ensures Bounded(grants, budget, rate, tokens - weight as real, updated)
  {
    var left := tokens - weight as real;
    forall i | 0 <= i < |grants| ensures Covered(grants, budget, rate, left, updated, i) {
      assert Covered(grants, budget, rate, tokens, updated, i);
    }
  }

  lemma WeighAppended(grants: seq<Grant>, grant: Grant, i: nat)
    requires i <= |grants|
    ensures Weigh((grants + [grant])[i..]) == Weigh(grants[i..]) + grant.weight
  {
    var tail := (grants + [grant])[i..];
    assert tail[..|tail| - 1] == grants[i..];
  }

  lemma AdmissionKeepsBound(grants: seq<Grant>, budget: nat, rate: real, tokens: real, updated: int, weight: nat)
    requires Bounded(grants, budget, rate, tokens, updated) && weight as real <= tokens
    ensures Bounded(grants + [Grant(updated, weight)], budget, rate, tokens - weight as real, updated)
  {
    var grant := Grant(updated, weight);
    var after := grants + [grant];
    var left := tokens - weight as real;
    forall i | 0 <= i < |after| ensures Covered(after, budget, rate, left, updated, i) {
      WeighAppended(grants, grant, i);
      if i < |grants| {
        assert Covered(grants, budget, rate, tokens, updated, i);
      } else {
        assert Inflow(rate, 0) == 0.0;
      }
    }
    forall i, j | 0 <= i < j <= |after| ensures RunCovered(after, budget, rate, i, j) {
      if j <= |grants| {
        assert after[i..j] == grants[i..j];
        assert RunCovered(grants, budget, rate, i, j);
      } else {
        assert after[i..j] == after[i..];
        assert Covered(after, budget, rate, left, updated, i);
      }
    }
  }

  // [first, last) is where the admissions of the closed interval stand, and what they weigh together.
  ghost predicate IsRun(grants: seq<Grant>, from: int, to: int, first: nat, last: nat) {
    && first <= last <= |grants|
    && WeighWithin(grants, from, to) == Weigh(grants[first..last])
    && (forall i | 0 <= i < |grants| :: from <= grants[i].time <= to <==> first <= i < last)
  }

  lemma RunWithout(grants: seq<Grant>, from: int, to: int, first: nat, last: nat)
    requires grants != [] && IsRun(grants[..|grants| - 1], from, to, first, last)
    requires !(from <= grants[|grants| - 1].time <= to)
    ensures IsRun(grants, from, to, first, last)
  {
    var front := grants[..|grants| - 1];
    assert front[first..last] == grants[first..last];
    assert forall i | 0 <= i < |front| :: front[i] == grants[i];
  }

  lemma RunWith(grants: seq<Grant>, from: int, to: int, first: nat)
    requires grants != [] && IsRun(grants[..|grants| - 1], from, to, first, |grants| - 1)
    requires from <= grants[|grants| - 1].time <= to
    ensures IsRun(grants, from, to, first, |grants|)
  {
    var front := grants[..|grants| - 1];
    assert grants[first..][..|front| - first] == front[first..];
    assert front[first..|front|] == front[first..] && grants[first..|grants|] == grants[first..];
    assert forall i | 0 <= i < |front| :: front[i] == grants[i];
  }

  // The admissions of a closed interval are a contiguous run of the history.
  lemma {:induction false} IntervalIsARun(grants: seq<Grant>, from: int, to: int) returns (first: nat, last: nat)
    requires InOrder(grants)
    ensures IsRun(grants, from, to, first, last)
  {
    if grants == [] {
      return 0, 0;
    }
    var front, end := grants[..|grants| - 1], grants[|grants| - 1].time;
    first, last := IntervalIsARun(front, from, to);
    if !(from <= end <= to) {
      RunWithout(grants, from, to, first, last);
    } else {
      if first == last {
        first := |front|;
        assert front[first..] == [];
      }
      last := |grants|;
      RunWith(grants, from, to, first);
    }
  }

  // Between any two instants the admitted weight is at most a full bucket plus what flows in between them.
  lemma AdmittedWeightIsBounded(grants: seq<Grant>, budget: nat, rate: real, tokens: real, updated: int,
                                from: int, to: int)
    requires Bounded(grants, budget, rate, tokens, updated) && from <= to && 0.0 <= rate
    ensures WeighWithin(grants, from, to) as real <= budget as real + (to - from) as real * rate
  {
    AdmittedIsCovered(grants, budget, rate, tokens, updated, from, to);
  }

  lemma AdmittedIsCovered(grants: seq<Grant>, budget: nat, rate: real, tokens: real, updated: int, from: int, to: int)
    requires Bounded(grants, budget, rate, tokens, updated) && from <= to && 0.0 <= rate
    ensures WeighWithin(grants, from, to) as real <= budget as real + Inflow(rate, to - from)
  {
    var first, last := IntervalIsARun(grants, from, to);
    if first < last {
      assert RunCovered(grants, budget, rate, first, last);
      var span := grants[last - 1].time - grants[first].time;
      InflowAdds(rate, span, to - from - span);
    } else {
      InflowAdds(rate, 0, to - from);
    }
  }

  // ---------- Progress ----------

  function Ceil(x: real): int {
    if x.Floor as real == x then x.Floor else x.Floor + 1
  }

  // How long the head of the queue sleeps before it looks again.
  function Delay(budget: nat, window: nat, tokens: real, weight: nat): int {
    if budget == 0 || window == 0 then HOUR
    else
      var missing := weight as real - tokens;
      if missing <= 0.0 then MILLISECOND
      else
        var delay := Ceil(missing / budget as real * window as real);
        if delay <= 0 then 1 else delay
  }

  lemma ScaledQuotient(missing: real, budget: real, window: real)
    requires 0.0 < budget && 0.0 < window
    ensures missing / budget * window * (budget / window) == missing
  {
    var share, rate := missing / budget, budget / window;
    calc {
      share * window * rate;
    == { Associates(share, window, rate); }
      share * (window * rate);
    == { assert window * rate == budget; }
      share * budget;
    == missing;
    }
  }

  lemma Associates(a: real, b: real, c: real)
    ensures a * b * c == a * (b * c)
  {}

  // Without a charge in between, the head finds its tokens there once its delay has passed.
  lemma HeadIsAdmissibleAfterDelay(budget: nat, window: nat, tokens: real, weight: nat, elapsed: int)
    requires 0 < window && 0 < weight <= budget
    requires elapsed >= Delay(budget, window, tokens, weight)
    ensures Refilled(budget, budget as real / window as real, tokens, elapsed) >= weight as real
  {
    var rate := budget as real / window as real;
    var missing := weight as real - tokens;
    RateIsPositive(budget, window);
    if missing > 0.0 {
      var exact := missing / budget as real * window as real;
      CeilCovers(exact, elapsed);
      calc {
        Inflow(rate, elapsed);
      >= { InflowCovers(rate, elapsed, exact); }
        exact * rate;
      == { ScaledQuotient(missing, budget as real, window as real); }
        missing;
      }
    } else {
      InflowCovers(rate, elapsed, 0.0);
    }
  }

  lemma RateIsPositive(budget: nat, window: nat)
    requires 0 < budget && 0 < window
    ensures budget as real / window as real > 0.0
  {}

  lemma CeilCovers(exact: real, elapsed: int)
    requires elapsed >= Ceil(exact)
    ensures elapsed as real >= exact
  {}

  lemma InflowCovers(rate: real, elapsed: int, least: real)
    requires elapsed as real >= least && rate >= 0.0
    ensures Inflow(rate, elapsed) >= least * rate
  {}

  // And no earlier.
  lemma HeadIsShortBeforeDelay(budget: nat, window: nat, tokens: real, weight: nat, elapsed: int)
    requires 0 < window && 0 < weight <= budget && tokens < weight as real
    requires 0 <= elapsed < Delay(budget, window, tokens, weight)
    ensures Refilled(budget, budget as real / window as real, tokens, elapsed) < weight as real
  {
    var rate := budget as real / window as real;
    var missing := weight as real - tokens;
    var exact := missing / budget as real * window as real;
    RateIsPositive(budget, window);
    ExactIsPositive(missing, budget as real, window as real);
    BelowCeil(exact, elapsed);
    calc {
      Inflow(rate, elapsed);
    < { InflowFallsShort(rate, elapsed, exact); }
      exact * rate;
    == { ScaledQuotient(missing, budget as real, window as real); }
      missing;
    }
  }

  lemma ExactIsPositive(missing: real, budget: real, window: real)
    requires 0.0 < missing && 0.0 < budget && 0.0 < window
    ensures missing / budget * window > 0.0
  {
    assert missing / budget > 0.0;
  }

  lemma BelowCeil(exact: real, elapsed: int)
    requires elapsed < Ceil(exact)
    ensures (elapsed as real) < exact
  {}

  lemma InflowFallsShort(rate: real, elapsed: int, bound: real)
    requires (elapsed as real) < bound && rate > 0.0
    ensures Inflow(rate, elapsed) < bound * rate
  {}

  // The first instant at which a refill covers the weight.
  ghost predicate FirstCovered(budget: nat, rate: real, tokens: real, weight: nat, delay: int) {
    && 0 <= delay && Refilled(budget, rate, tokens, delay) >= weight as real
    && forall elapsed | 0 <= elapsed < delay :: Refilled(budget, rate, tokens, elapsed) < weight as real
  }

  lemma DelayIsExact(budget: nat, window: nat, tokens: real, weight: nat)
    requires 0 < window && 0 < weight <= budget && tokens < weight as real
    ensures FirstCovered(budget, budget as real / window as real, tokens, weight, Delay(budget, window, tokens, weight))
  {
    var delay, rate := Delay(budget, window, tokens, weight), budget as real / window as real;
    HeadIsAdmissibleAfterDelay(budget, window, tokens, weight, delay);
    forall elapsed | 0 <= elapsed < delay ensures Refilled(budget, rate, tokens, elapsed) < weight as real
    {
      HeadIsShortBeforeDelay(budget, window, tokens, weight, elapsed);
    }
  }

  // ---------- Sleeping ----------

  // A call asleep in Wait: which generation of the broadcast channel it watches, and when its timer fires, if it has
  // one.
  datatype Sleep = Sleep(watched: nat, wake: Option<int>)

  // A refill at `wake`, or at once when that has passed, finds the weight there.
  ghost predicate Funded(budget: nat, rate: real, tokens: real, updated: int, weight: nat, wake: int) {
    Refilled(budget, rate, tokens, if updated <= wake then wake - updated else 0) >= weight as real
  }

  // Whoever is asleep at the head of the queue and has not been called by the broadcast has a timer, and when that
  // fires its tokens are there.
  ghost predicate HeadIsWoken(queue: seq<Waiter>, asleep: map<Waiter, Sleep>, changed: nat,
                              budget: nat, rate: real, tokens: real, updated: int) {
    queue != [] && queue[0] in asleep && asleep[queue[0]].watched == changed ==>
      && asleep[queue[0]].wake.Some?
      && Funded(budget, rate, tokens, updated, queue[0].weight, asleep[queue[0]].wake.value)
  }

  // The timer of the head has fired, and nothing has been broadcast since it was set.
  predicate Called(waiter: Waiter, queue: seq<Waiter>, asleep: map<Waiter, Sleep>, changed: nat, now: int) {
    && queue != [] && queue[0] == waiter
    && waiter in asleep && asleep[waiter].watched == changed
    && asleep[waiter].wake.Some? && asleep[waiter].wake.value <= now
  }

  lemma RefillKeepsFunded(budget: nat, rate: real, tokens: real, updated: int, weight: nat, wake: int, now: int)
    requires Funded(budget, rate, tokens, updated, weight, wake) && updated <= now
    requires tokens <= budget as real && 0.0 <= rate
    ensures Funded(budget, rate, Refilled(budget, rate, tokens, now - updated), now, weight, wake)
  {
    if now <= wake {
      RefillInTwoSteps(budget, rate, tokens, now - updated, wake - now);
    } else if updated <= wake {
      RefillGrows(budget, rate, tokens, wake - updated, now - updated);
    } else {
      RefillGrows(budget, rate, tokens, 0, now - updated);
    }
  }

  lemma RefillGrows(budget: nat, rate: real, tokens: real, a: nat, b: nat)
    requires a <= b && tokens <= budget as real && 0.0 <= rate
    ensures Refilled(budget, rate, tokens, a) <= Refilled(budget, rate, tokens, b)
  {
    InflowAdds(rate, a, b - a);
    InflowAdds(rate, 0, a);
  }

  lemma DelayFunds(budget: nat, window: nat, tokens: real, updated: int, weight: nat)
    requires 0 < window && 0 < weight <= budget
    ensures Funded(budget, budget as real / window as real, tokens, updated, weight,
                   updated + Delay(budget, window, tokens, weight))
  {
    HeadIsAdmissibleAfterDelay(budget, window, tokens, weight, Delay(budget, window, tokens, weight));
  }

  // ---------- Arrival order ----------

  // Waiters in arrival order, the cancelled ones taken out.
  function Served(arrived: seq<Waiter>, cancelled: set<nat>): seq<Waiter> {
    if arrived == [] then []
    else
      var last := arrived[|arrived| - 1];
      Served(arrived[..|arrived| - 1], cancelled) + if last.id in cancelled then [] else [last]
  }

  // Identities are given out in arrival order.
  ghost predicate Numbered(arrived: seq<Waiter>) {
    forall i | 0 <= i < |arrived| :: arrived[i].id == i
  }

  // Admissions follow arrival order with the cancelled waiters taken out, and the rest is queued.
  ghost predicate OrderKept(arrived: seq<Waiter>, cancelled: set<nat>, admitted: seq<Waiter>, queue: seq<Waiter>,
                            budget: nat) {
    && Numbered(arrived)
    && (forall i | 0 <= i < |arrived| :: 0 < arrived[i].weight <= budget)
    && (forall id | id in cancelled :: id < |arrived|)
    && Served(arrived, cancelled) == admitted + queue
  }

  ghost predicate Ascending(queue: seq<Waiter>) {
    forall i, j | 0 <= i < j < |queue| :: queue[i].id < queue[j].id
  }

  lemma {:induction false} ServedAscends(arrived: seq<Waiter>, cancelled: set<nat>)
    requires Numbered(arrived)
    ensures Ascending(Served(arrived, cancelled))
    ensures forall waiter | waiter in Served(arrived, cancelled) ::
        waiter in arrived && waiter.id < |arrived| && waiter.id !in cancelled
  {
    if arrived != [] {
      ServedAscends(arrived[..|arrived| - 1], cancelled);
    }
  }

  lemma {:induction false} NobodyIsForgotten(arrived: seq<Waiter>, cancelled: set<nat>, i: nat)
    requires Numbered(arrived) && i < |arrived| && i !in cancelled
    ensures arrived[i] in Served(arrived, cancelled)
  {
    if i < |arrived| - 1 {
      NobodyIsForgotten(arrived[..|arrived| - 1], cancelled, i);
    }
  }

  // Whoever has been admitted, everyone who came before and did not give up was admitted too.
  lemma NoOvertaking(arrived: seq<Waiter>, cancelled: set<nat>, admitted: seq<Waiter>, queue: seq<Waiter>,
                     i: nat, j: nat)
    requires Numbered(arrived) && Served(arrived, cancelled) == admitted + queue
    requires j < i < |arrived| && arrived[i] in admitted && j !in cancelled
    ensures arrived[j] in admitted && arrived[j] !in queue
  {
    NobodyIsForgotten(arrived, cancelled, j);
    ServedAscends(arrived, cancelled);
    var served := admitted + queue;
    var p :| 0 <= p < |admitted| && admitted[p] == arrived[i];
    forall q | 0 <= q < |queue| ensures queue[q] != arrived[j] {
      assert served[p].id < served[|admitted| + q].id;
    }
  }

  // Taking one more waiter out removes just its place in the order.
  lemma {:induction false} CancelOne(arrived: seq<Waiter>, cancelled: set<nat>, k: nat)
    requires Numbered(arrived) && k < |Served(arrived, cancelled)|
    ensures Served(arrived, cancelled + {Served(arrived, cancelled)[k].id}) == Without(Served(arrived, cancelled), k)
  {
    var front, last := arrived[..|arrived| - 1], arrived[|arrived| - 1];
    var before := Served(front, cancelled);
    if k < |before| {
      CancelOne(front, cancelled, k);
      ServedAscends(front, cancelled);
      CancelEarlier(front, last, cancelled, k, before[k].id);
      assert arrived == front + [last];
    } else {
      CancelStranger(front, cancelled, last.id);
    }
  }

  lemma ServedWithLast(front: seq<Waiter>, last: Waiter, cancelled: set<nat>)
    ensures Served(front + [last], cancelled) ==
            Served(front, cancelled) + if last.id in cancelled then [] else [last]
  {
    assert (front + [last])[..|front|] == front;
  }

  // The last to arrive is not concerned.
  lemma CancelEarlier(front: seq<Waiter>, last: Waiter, cancelled: set<nat>, k: nat, id: nat)
    requires k < |Served(front, cancelled)| && Served(front, cancelled)[k].id == id && id != last.id
    requires Served(front, cancelled + {id}) == Without(Served(front, cancelled), k)
    ensures k < |Served(front + [last], cancelled)| && Served(front + [last], cancelled)[k].id == id
    ensures Served(front + [last], cancelled + {id}) == Without(Served(front + [last], cancelled), k)
  {
    ServedWithLast(front, last, cancelled);
    ServedWithLast(front, last, cancelled + {id});
    WithoutThenLast(Served(front, cancelled), k, last);
  }

  lemma WithoutThenLast<T>(s: seq<T>, k: nat, last: T)
    requires k < |s|
    ensures Without(s + [last], k) == Without(s, k) + [last]
  {}

  lemma {:induction false} CancelStranger(arrived: seq<Waiter>, cancelled: set<nat>, id: nat)
    requires Numbered(arrived) && |arrived| <= id
    ensures Served(arrived, cancelled + {id}) == Served(arrived, cancelled)
  {
    if arrived != [] {
      CancelStranger(arrived[..|arrived| - 1], cancelled, id);
    }
  }

  // ---------- The limiter ----------

  class WeightedRateLimiter {
    const budget: nat
    const window: nat
    const rate: real
    var tokens: real
    var updated: int
    var queue: seq<Waiter>
    var nextId: nat
    // The generation of the broadcast channel: closing it calls everybody who watches it.
    var changed: nat
    // History: who is asleep in Wait, and every admission, every waiter that ever queued, those admitted, those
    // cancelled.
    ghost var asleep: map<Waiter, Sleep>
    ghost var grants: seq<Grant>
    ghost var arrived: seq<Waiter>
    ghost var admitted: seq<Waiter>
    ghost var cancelled: set<nat>

    // Admissions keep to the bound and to the order of arrival, and the head of the queue never oversleeps.
    ghost predicate Valid()
      reads this
    {
      && 0 < window && rate == budget as real / window as real
      && Bounded(grants, budget, rate, tokens, updated)
      && nextId == |arrived| && OrderKept(arrived, cancelled, admitted, queue, budget)
      && (forall waiter | waiter in asleep :: asleep[waiter].watched <= changed)
      && HeadIsWoken(queue, asleep, changed, budget, rate, tokens, updated)
    }

    constructor (budget: nat, window: nat, now: int)
      requires 0 < window
      ensures Valid() && this.budget == budget && this.window == window
      ensures tokens == budget as real && updated == now && queue == [] && grants == [] && arrived == []
      ensures asleep == map[]
    {
      this.budget, this.window, this.rate := budget, window, budget as real / window as real;
      tokens, updated, queue, nextId, changed, asleep := budget as real, now, [], 0, 0, map[];
      grants, arrived, admitted, cancelled := [], [], [], {};
    }

    method Refill(now: int)
      requires Valid() && updated <= now
      modifies this`tokens, this`updated
      ensures Valid()
      ensures tokens == Refilled(budget, rate, old(tokens), now - old(updated))
      ensures updated == if budget == 0 then old(updated) else now
    {
      if budget == 0 || now - updated <= 0 {
        return;
      }
      RefillKeepsBound(grants, budget, rate, tokens, updated, now);
      if queue != [] && queue[0] in asleep && asleep[queue[0]].watched == changed {
        RefillKeepsFunded(budget, rate, tokens, updated, queue[0].weight, asleep[queue[0]].wake.value, now);
      }
      tokens := Min(budget as real, tokens + Inflow(rate, now - updated));
      updated := now;
    }

    // The head of Wait: joins the queue, unless the request is free or can never fit.
    method Enqueue(weight: nat) returns (result: Result<Option<Waiter>, WaitError>)
      requires Valid()
      modifies this`queue, this`nextId, this`changed, this`arrived
      ensures Valid()
      ensures changed == if 0 < weight <= budget then old(changed) + 1 else old(changed)
      ensures weight == 0 <==> result == Ok(None)
      ensures weight > budget <==> result == Err(WeightExceedsCapacity)
      ensures 0 < weight <= budget ==>
                && result == Ok(Some(Waiter(|old(arrived)|, weight)))
                && queue == old(queue) + [Waiter(|old(arrived)|, weight)]
                && arrived == old(arrived) + [Waiter(|old(arrived)|, weight)]
      ensures !(0 < weight <= budget) ==> queue == old(queue) && arrived == old(arrived)
    {
      if weight == 0 {
        return Ok(None);
      }
      if weight > budget {
        return Err(WeightExceedsCapacity);
      }
      var waiter := Join(weight);
      result := Ok(Some(waiter));
    }

    method Join(weight: nat) returns (waiter: Waiter)
      requires Valid() && 0 < weight <= budget
      modifies this`queue, this`nextId, this`changed, this`arrived
      ensures Valid() && waiter == Waiter(|old(arrived)|, weight)
      ensures queue == old(queue) + [waiter] && arrived == old(arrived) + [waiter] && changed == old(changed) + 1
    {
      waiter := Waiter(nextId, weight);
      nextId := nextId + 1;
      JoinLast(arrived, cancelled, admitted, queue, budget, waiter);
      queue := queue + [waiter];
      changed := changed + 1;
      arrived := arrived + [waiter];
    }

    // The head of the queue pays and leaves.
    method Admit(waiter: Waiter)
      requires Valid() && queue != [] && queue[0] == waiter && tokens >= waiter.weight as real
      modifies this`tokens, this`queue, this`changed, this`grants, this`admitted, this`asleep
      ensures Valid()
      ensures queue == old(queue)[1..] && admitted == old(admitted) + [waiter]
      ensures grants == old(grants) + [Grant(updated, waiter.weight)] && tokens == old(tokens) - waiter.weight as real
      ensures changed == old(changed) + 1 && asleep == old(asleep) - {waiter}
    {
      AdmissionKeepsBound(grants, budget, rate, tokens, updated, waiter.weight);
      tokens := tokens - waiter.weight as real;
      grants := grants + [Grant(updated, waiter.weight)];
      admitted := admitted + [waiter];
      queue := queue[1..];
      changed := changed + 1;
      asleep := asleep - {waiter};
    }

    // Anybody else sleeps until the next broadcast; the head sets a timer besides.
    method FallAsleep(waiter: Waiter, now: int) returns (delay: Option<int>)
      requires Valid() && (budget == 0 || updated == now)
      modifies this`asleep
      ensures Valid()
      ensures delay.Some? <==> queue != [] && queue[0] == waiter
      ensures delay.Some? ==> delay.value == Delay(budget, window, tokens, waiter.weight)
      // A head that lacks tokens is woken at the first instant at which a refill covers its weight.
      ensures delay.Some? && tokens < waiter.weight as real ==>
                FirstCovered(budget, rate, tokens, waiter.weight, delay.value)
      ensures asleep ==
              old(asleep)[waiter := Sleep(changed, if delay.Some? then Some(now + delay.value) else None)]
    {
      delay := None;
      if queue != [] && queue[0] == waiter {
        QueuedHasArrived(arrived, cancelled, admitted, queue, 0);
        delay := Some(Delay(budget, window, tokens, waiter.weight));
        DelayFunds(budget, window, tokens, updated, waiter.weight);
        if tokens < waiter.weight as real {
          DelayIsExact(budget, window, tokens, waiter.weight);
        }
      }
      asleep := asleep[waiter := Sleep(changed, if delay.Some? then Some(now + delay.value) else None)];
    }

    // One turn of the loop in Wait, under the lock: the head is admitted as soon as its tokens are there. Anybody else
    // goes to sleep until the next broadcast, the head with a timer besides.
    method Poll(waiter: Waiter, now: int) returns (done: bool, delay: Option<int>)
      requires Valid() && updated <= now
      modifies this`tokens, this`updated, this`queue, this`changed, this`grants, this`admitted, this`asleep
      ensures Valid()
      ensures done <==> old(queue) != [] && old(queue)[0] == waiter
                        && Refilled(budget, rate, old(tokens), now - old(updated)) >= waiter.weight as real
      ensures done ==>
                && queue == old(queue)[1..] && admitted == old(admitted) + [waiter]
                && grants == old(grants) + [Grant(updated, waiter.weight)]
                && tokens == Refilled(budget, rate, old(tokens), now - old(updated)) - waiter.weight as real
      ensures !done ==>
                && queue == old(queue) && admitted == old(admitted) && grants == old(grants)
                && tokens == Refilled(budget, rate, old(tokens), now - old(updated))
      ensures updated == if budget == 0 then old(updated) else now
      ensures delay.Some? <==> !done && queue != [] && queue[0] == waiter
      ensures delay.Some? ==> FirstCovered(budget, rate, tokens, waiter.weight, delay.value)
      ensures changed == if done then old(changed) + 1 else old(changed)
      ensures asleep == if done then old(asleep) - {waiter}
              else old(asleep)[waiter := Sleep(changed, if delay.Some? then Some(now + delay.value) else None)]
      // A timer that fires with no broadcast since it was set finds its tokens.
      ensures Called(waiter, old(queue), old(asleep), old(changed), now) ==> done
    {
      Refill(now);
      done, delay := false, None;
      if queue != [] && queue[0] == waiter && tokens >= waiter.weight as real {
        Admit(waiter);
        done := true;
      } else {
        delay := FallAsleep(waiter, now);
      }
    }

    // The response-dependent surcharge may overdraw the bucket.
    method Charge(weight: nat, now: int)
      requires Valid() && updated <= now
      modifies this`tokens, this`updated, this`changed
      ensures Valid()
      ensures changed == if weight == 0 then old(changed) else old(changed) + 1
      ensures tokens == if weight == 0 then old(tokens)
          else Refilled(budget, rate, old(tokens), now - old(updated)) - weight as real
      ensures updated == if weight == 0 || budget == 0 then old(updated) else now
    {
      if weight == 0 {
        return;
      }
      Refill(now);
      ChargeKeepsBound(grants, budget, rate, tokens, updated, weight);
      tokens := tokens - weight as real;
      changed := changed + 1;
    }

    // A cancelled Wait leaves the queue; the others keep their order.
    method Remove(waiter: Waiter)
      requires Valid()
      modifies this`queue, this`changed, this`cancelled, this`asleep
      ensures Valid()
      ensures asleep == old(asleep) - {waiter}
      ensures changed == if waiter in old(queue) then old(changed) + 1 else old(changed)
      ensures waiter !in old(queue) ==> queue == old(queue) && cancelled == old(cancelled)
      ensures waiter in old(queue) ==>
                && waiter !in queue && cancelled == old(cancelled) + {waiter.id}
                && exists i :: 0 <= i < |old(queue)| && old(queue)[i] == waiter
                    && queue == old(queue)[..i] + old(queue)[i + 1..]
    {
      asleep := asleep - {waiter};
      var i := 0;
      while i < |queue|
        invariant 0 <= i <= |queue|
        invariant waiter !in queue[..i]
        invariant queue == old(queue) && cancelled == old(cancelled) && changed == old(changed)
        invariant asleep == old(asleep) - {waiter} && Valid()
      {
        if queue[i] == waiter {
          QueuedHasArrived(arrived, cancelled, admitted, queue, i);
          CancelQueued(arrived, cancelled, admitted, queue, i);
          queue := queue[..i] + queue[i + 1..];
          CancelledIsGone(arrived, cancelled, admitted, queue, waiter);
          cancelled := cancelled + {waiter.id};
          changed := changed + 1;
          return;
        }
        i := i + 1;
      }
    }
  }

  lemma JoinLast(arrived: seq<Waiter>, cancelled: set<nat>, admitted: seq<Waiter>, queue: seq<Waiter>, budget: nat,
                 waiter: Waiter)
    requires OrderKept(arrived, cancelled, admitted, queue, budget)
    requires waiter.id == |arrived| && 0 < waiter.weight <= budget
    ensures OrderKept(arrived + [waiter], cancelled, admitted, queue + [waiter], budget)
  {
    ServedWithLast(arrived, waiter, cancelled);
  }

  lemma QueuedHasArrived(arrived: seq<Waiter>, cancelled: set<nat>, admitted: seq<Waiter>, queue: seq<Waiter>, i: nat)
    requires Numbered(arrived) && Served(arrived, cancelled) == admitted + queue && i < |queue|
    ensures queue[i] in arrived && queue[i].id < |arrived|
  {
    ServedAscends(arrived, cancelled);
    assert queue[i] in admitted + queue;
  }

  lemma CancelQueued(arrived: seq<Waiter>, cancelled: set<nat>, admitted: seq<Waiter>, queue: seq<Waiter>, i: nat)
    requires Numbered(arrived) && Served(arrived, cancelled) == admitted + queue && i < |queue|
    ensures Served(arrived, cancelled + {queue[i].id}) == admitted + (queue[..i] + queue[i + 1..])
  {
    var served, k := admitted + queue, |admitted| + i;
    CancelOne(arrived, cancelled, k);
    assert served[k] == queue[i];
    assert Without(served, k) == admitted + (queue[..i] + queue[i + 1..]);
  }

  lemma CancelledIsGone(arrived: seq<Waiter>, cancelled: set<nat>, admitted: seq<Waiter>, rest: seq<Waiter>,
                        waiter: Waiter)
    requires Numbered(arrived) && Served(arrived, cancelled + {waiter.id}) == admitted + rest
    ensures waiter !in rest
  {
    ServedAscends(arrived, cancelled + {waiter.id});
    assert forall other | other in rest :: other in admitted + rest;
  }
}
