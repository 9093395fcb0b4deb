/** websocket/rate.go: the rolling-window message limiter. Times are nanoseconds on the monotonic clock. */
module RollingWindow {

  const DEFAULT_MAX_OUTGOING_MESSAGES_PER_MINUTE: nat := 2000
  const MINUTE: nat := 60_000_000_000

  ghost predicate NonDecreasing(times: seq<int>) {
    forall i, j | 0 <= i < j < |times| :: times[i] <= times[j]
  }

  // How many of `times` fall in the half-open window [from, from + length).
  function CountIn(times: seq<int>, from: int, length: nat): nat {
    if times == [] then 0
    else CountIn(times[..|times| - 1], from, length) + if from <= times[|times| - 1] < from + length then 1 else 0
  }

  // The window that ends just now already holds the whole quota.
  predicate Full(times: seq<int>, limit: nat, window: nat, now: int) {
    CountIn(times, now - window + 1, window) >= limit
  }

  // Admissions at least a quota apart are at least a window apart.
  ghost predicate Spaced(times: seq<int>, limit: nat, window: nat) {
    forall i, j | 0 <= i <= j < |times| && j - i >= limit :: times[j] - times[i] >= window
  }

  // In a sorted history the window holds a contiguous run, which ends no later than `last`.
  lemma {:induction false} CountIsARun(times: seq<int>, from: int, length: nat) returns (first: nat, last: nat)
    requires NonDecreasing(times)
    ensures first <= last <= |times|
    ensures CountIn(times, from, length) == last - first
    ensures forall i | 0 <= i < |times| :: from <= times[i] < from + length <==> first <= i < last
  {
    if times == [] {
      first, last := 0, 0;
    } else {
      var front := times[..|times| - 1];
      first, last := CountIsARun(front, from, length);
      assert forall i | 0 <= i < |front| :: front[i] == times[i];
      if first < last < |front| {
        assert times[last - 1] <= times[last] <= times[|times| - 1];
      }
      if from <= times[|times| - 1] < from + length {
        if first == last {
          first := |times| - 1;
        }
        last := |times|;
      }
    }
  }

  // However the window is placed, it holds at most `limit` of all the admissions ever granted.
  lemma EveryWindowIsBounded(times: seq<int>, limit: nat, window: nat, from: int)
    requires Sound(times, limit, window)
    ensures CountIn(times, from, window) <= limit
  {
    SoundMeans(times, limit, window);
    var first, last := CountIsARun(times, from, window);
    if limit < last {
      assert times[last - 1] - times[last - 1 - limit] >= window;
    }
  }

  // When the `kept` youngest admissions are exactly those younger than a window, they are its count.
  lemma {:induction false} KeptIsTheCount(times: seq<int>, kept: nat, window: nat, now: int)
    requires kept <= |times|
    requires forall i | 0 <= i < |times| :: times[i] <= now && (i < |times| - kept <==> times[i] <= now - window)
    ensures CountIn(times, now - window + 1, window) == kept
  {
    if times != [] {
      KeptIsTheCount(times[..|times| - 1], if kept == 0 then 0 else kept - 1, window, now);
    }
  }

  // Every admission comes after the one before, and a whole window after the one a quota earlier.
  predicate Sound(granted: seq<int>, limit: nat, window: nat) {
    granted == [] ||
      var last := |granted| - 1;
      && Sound(granted[..last], limit, window)
      && (last > 0 ==> granted[last - 1] <= granted[last])
      && (last >= limit ==> granted[last] - granted[last - limit] >= window)
  }

  lemma {:induction false} SoundMeans(granted: seq<int>, limit: nat, window: nat)
    requires Sound(granted, limit, window)
    ensures NonDecreasing(granted) && Spaced(granted, limit, window)
  {
    if granted != [] {
      var front, last := granted[..|granted| - 1], granted[|granted| - 1];
      SoundMeans(front, limit, window);
      assert granted == front + [last];
      LastOfSound(front, last, limit, window);
    }
  }

  lemma LastOfSound(front: seq<int>, last: int, limit: nat, window: nat)
    requires NonDecreasing(front) && Spaced(front, limit, window)
    requires front != [] ==> front[|front| - 1] <= last
    requires |front| >= limit ==> last - (front + [last])[|front| - limit] >= window
    ensures NonDecreasing(front + [last]) && Spaced(front + [last], limit, window)
  {
    var whole := front + [last];
    assert forall i | 0 <= i < |front| :: whole[i] == front[i] <= last;
    assert forall i | 0 <= i <= |front| - limit :: whole[i] <= whole[|front| - limit];
  }

  // The first `dropped` admissions are forgotten: they are a whole window old at time `clock`.
  predicate Kept(granted: seq<int>, dropped: nat, limit: nat, window: nat, clock: int) {
    && 0 < limit && 0 < window && dropped <= |granted| && Sound(granted, limit, window)
    && (granted != [] ==> granted[|granted| - 1] <= clock)
    && (0 < dropped ==> granted[dropped - 1] + window <= clock)
  }

  // A sorted history is cut where its last old entry stands.
  lemma CutAt(granted: seq<int>, cut: nat, limit: nat, window: nat, now: int)
    requires Sound(granted, limit, window) && cut <= |granted|
    requires granted != [] ==> granted[|granted| - 1] <= now
    requires 0 < cut ==> granted[cut - 1] <= now - window
    requires cut < |granted| ==> granted[cut] > now - window
    ensures CountIn(granted, now - window + 1, window) == |granted| - cut
  {
    SoundMeans(granted, limit, window);
    forall i | 0 <= i < |granted| ensures granted[i] <= now && (i < cut <==> granted[i] <= now - window) {
      assert granted[i] <= granted[|granted| - 1];
      if i < cut {
        assert granted[i] <= granted[cut - 1];
      } else {
        assert granted[cut] <= granted[i];
      }
    }
    KeptIsTheCount(granted, |granted| - cut, window, now);
  }

  // The quota is used up exactly when the admission a quota ago is younger than a window.
  lemma FullMeans(granted: seq<int>, limit: nat, window: nat, now: int)
    requires 0 < limit && Sound(granted, limit, window)
    requires granted != [] ==> granted[|granted| - 1] <= now
    ensures Full(granted, limit, window, now) <==>
            |granted| >= limit && granted[|granted| - limit] > now - window
    ensures After(granted, limit, window, now) ==
            granted + if |granted| >= limit && granted[|granted| - limit] > now - window then [] else [now]
  {
    SoundMeans(granted, limit, window);
    var first, last := CountIsARun(granted, now - window + 1, window);
    assert forall i | 0 <= i < |granted| :: granted[i] <= now;
  }

  // What is not forgotten fills the slice exactly when the window that ends now is full.
  lemma CutDecides(granted: seq<int>, cut: nat, limit: nat, window: nat, now: int)
    requires Sound(granted, limit, window) && cut <= |granted|
    requires granted != [] ==> granted[|granted| - 1] <= now
    requires 0 < cut ==> granted[cut - 1] <= now - window
    requires cut < |granted| ==> granted[cut] > now - window
    ensures Full(granted, limit, window, now) <==> |granted| - cut >= limit
  {
    CutAt(granted, cut, limit, window, now);
  }

  // Forgetting a few more that are a window old.
  lemma ForgetMore(granted: seq<int>, dropped: nat, first: nat, limit: nat, window: nat, clock: int, now: int)
    requires Kept(granted, dropped, limit, window, clock) && clock <= now && dropped + first <= |granted|
    requires 0 < first ==> granted[dropped + first - 1] <= now - window
    ensures Kept(granted, dropped + first, limit, window, now)
  {}

  // With room left in the slice, the admission a whole quota earlier has been forgotten.
  lemma AppendKeeps(granted: seq<int>, dropped: nat, limit: nat, window: nat, now: int)
    requires Kept(granted, dropped, limit, window, now) && |granted| - dropped < limit
    ensures Kept(granted + [now], dropped, limit, window, now)
  {
    SoundMeans(granted, limit, window);
    if |granted| >= limit {
      assert granted[|granted| - limit] <= granted[dropped - 1];
    }
    assert (granted + [now])[..|granted|] == granted;
  }

  // What has been granted after callers looked in turn at the times `nows`.
  function After(granted: seq<int>, limit: nat, window: nat, now: int): seq<int> {
    if Full(granted, limit, window, now) then granted else granted + [now]
  }

  datatype Turn = Turn(now: int, mine: bool)

  function AfterAll(granted: seq<int>, limit: nat, window: nat, turns: seq<Turn>): seq<int> {
    if turns == [] then granted
    else After(AfterAll(granted, limit, window, turns[..|turns| - 1]), limit, window, turns[|turns| - 1].now)
  }

  ghost predicate Ordered(turns: seq<Turn>, clock: int) {
    && (forall i | 0 <= i < |turns| :: clock <= turns[i].now)
    && (forall i, j | 0 <= i < j < |turns| :: turns[i].now <= turns[j].now)
  }

  // The k-th of the turns finds no room.
  predicate FindsNoRoom(granted: seq<int>, limit: nat, window: nat, turns: seq<Turn>, k: nat)
    requires k < |turns|
  {
    Full(AfterAll(granted, limit, window, turns[..k]), limit, window, turns[k].now)
  }

  // The caller was refused in every turn it had among the first n.
  ghost predicate Refused(granted: seq<int>, limit: nat, window: nat, turns: seq<Turn>, n: nat)
    requires n <= |turns|
  {
    forall k | 0 <= k < n && turns[k].mine :: FindsNoRoom(granted, limit, window, turns, k)
  }

  lemma OneMoreTurn(granted: seq<int>, limit: nat, window: nat, turns: seq<Turn>, k: nat)
    requires k < |turns|
    ensures AfterAll(granted, limit, window, turns[..k + 1])
         == After(AfterAll(granted, limit, window, turns[..k]), limit, window, turns[k].now)
  {
    assert turns[..k + 1][..k] == turns[..k];
  }

  class MessageRateLimiter {
    const limit: nat
    const window: nat
    // The slice `sent`: its backing array, allocated once with capacity `limit`, and its length.
    const slots: array<int>
    var len: nat
    // History: every admission ever granted, how many of them the slice has forgotten, and the last time the
    // limiter has seen.
    ghost var granted: seq<int>
    ghost var dropped: nat
    ghost var clock: int

    ghost predicate Valid()
      reads this, slots
    {
      && slots.Length == limit && len <= limit
      && Kept(granted, dropped, limit, window, clock)
      && |granted| == dropped + len
      && forall k | 0 <= k < len :: slots[k] == granted[dropped + k]
    }

    constructor (limit: int, window: int, ghost now: int)
      ensures Valid() && granted == [] && clock == now && fresh(slots)
      ensures this.limit == if limit <= 0 then 2000 else limit
      ensures this.window == if window <= 0 then 60_000_000_000 else window
    {
      var size: nat := if limit <= 0 then DEFAULT_MAX_OUTGOING_MESSAGES_PER_MINUTE else limit;
      this.limit := size;
      this.window := if window <= 0 then MINUTE else window;
      slots := new int[size];
      len := 0;
      granted, dropped, clock := [], 0, now;
    }

    // copy(sent, sent[first:]) followed by the reslice.
    method DropFirst(first: nat)
      requires first <= len <= slots.Length
      modifies this`len, slots
      ensures len == old(len) - first
      ensures forall k | 0 <= k < len :: slots[k] == old(slots[k + first])
    {
      var rest := len - first;
      var i := 0;
      while i < rest
        invariant 0 <= i <= rest
        invariant forall k | 0 <= k < i :: slots[k] == old(slots[k + first])
        invariant forall k | i <= k < len :: slots[k] == old(slots[k])
        modifies slots
      {
        slots[i] := slots[i + first];
        i := i + 1;
      }
      len := rest;
    }

    // The scan from the oldest entry: it stops at the first one younger than the cutoff.
    method CountOld(cutoff: int) returns (first: nat)
      requires len <= slots.Length
      ensures first <= len
      ensures 0 < first ==> slots[first - 1] <= cutoff
      ensures first < len ==> slots[first] > cutoff
    {
      first := 0;
      while first < len && slots[first] <= cutoff
        invariant first <= len
        invariant 0 < first ==> slots[first - 1] <= cutoff
      {
        first := first + 1;
      }
    }

    // Forget what is a whole window old, and nothing younger.
    method Prune(now: int)
      requires Valid() && clock <= now
      modifies this`len, this`dropped, this`clock, slots
      ensures Valid() && clock == now
      ensures 0 < dropped ==> granted[dropped - 1] <= now - window
      ensures dropped < |granted| ==> granted[dropped] > now - window
    {
      var first := CountOld(now - window);
      assert 0 < first ==> slots[first - 1] == granted[dropped + first - 1];
      assert first < len ==> slots[first] == granted[dropped + first];
      ForgetMore(granted, dropped, first, limit, window, clock, now);
      if first > 0 {
        DropFirst(first);
      }
      dropped, clock := dropped + first, now;
    }

    // The slice grows within its capacity.
    method Append(now: int)
      requires len < slots.Length
      modifies this`len, slots
      ensures len == old(len) + 1 && slots[old(len)] == now
      ensures forall k | 0 <= k < old(len) :: slots[k] == old(slots[k])
    {
      slots[len] := now;
      len := len + 1;
    }

    // One turn of the loop in Wait, under the lock. It admits exactly when fewer than `limit` of all
    // admissions ever granted lie in the window that ends now.
    method TryAdmit(now: int) returns (admitted: bool, wait: int)
      requires Valid() && clock <= now
      modifies this, slots
      ensures Valid() && clock == now
      ensures admitted <==> !Full(old(granted), limit, window, now)
      ensures granted == After(old(granted), limit, window, now)
      ensures !admitted ==> |granted| >= limit && granted[|granted| - limit] + window == now + wait
    {
      Prune(now);
      CutDecides(granted, dropped, limit, window, now);
      if len < limit {
        AppendKeeps(granted, dropped, limit, window, now);
        Append(now);
        granted := granted + [now];
        return true, 0;
      }
      assert slots[0] == granted[dropped];
      return false, slots[0] + window - now;
    }

    // Wait, for a caller who gets the turns that are `mine` until its context is cancelled. The lock is free
    // between two turns, and the other turns are those that other callers get meanwhile.
    method Wait(turns: seq<Turn>) returns (admitted: bool, used: nat)
      requires Valid() && Ordered(turns, clock)
      modifies this, slots
      ensures Valid() && used <= |turns| && clock == if used == 0 then old(clock) else turns[used - 1].now
      ensures granted == AfterAll(old(granted), limit, window, turns[..used])
      // The caller is admitted in the first of its turns that finds room, and else uses them all up.
      ensures admitted ==>
                && used > 0 && turns[used - 1].mine
                && !FindsNoRoom(old(granted), limit, window, turns, used - 1)
                && Refused(old(granted), limit, window, turns, used - 1)
      ensures !admitted ==> used == |turns| && Refused(old(granted), limit, window, turns, used)
    {
      ghost var before := granted;
      used, admitted := 0, false;
      while used < |turns|
        invariant used <= |turns| && Valid() && clock == if used == 0 then old(clock) else turns[used - 1].now
        invariant granted == AfterAll(before, limit, window, turns[..used])
        invariant Refused(before, limit, window, turns, used)
      {
        var turn := turns[used];
        OneMoreTurn(before, limit, window, turns, used);
        var done, wait := TryAdmit(turn.now);
        used := used + 1;
        if done && turn.mine {
          admitted := true;
          return;
        }
      }
    }
  }

  // However many callers take turns, the history stays sound, and with it the quota of every window.
  lemma {:induction false} TurnsKeepTheQuota(granted: seq<int>, limit: nat, window: nat, turns: seq<Turn>, clock: int)
    requires 0 < limit && Sound(granted, limit, window) && Ordered(turns, clock)
    requires granted != [] ==> granted[|granted| - 1] <= clock
    ensures var after := AfterAll(granted, limit, window, turns);
            && Sound(after, limit, window)
            && (after != [] ==> after[|after| - 1] <= if turns == [] then clock else turns[|turns| - 1].now)
  {
    if turns != [] {
      var front, now := turns[..|turns| - 1], turns[|turns| - 1].now;
      TurnsKeepTheQuota(granted, limit, window, front, clock);
      OneTurnKeepsTheQuota(AfterAll(granted, limit, window, front), limit, window, now);
    }
  }

  lemma OneTurnKeepsTheQuota(granted: seq<int>, limit: nat, window: nat, now: int)
    requires 0 < limit && Sound(granted, limit, window)
    requires granted != [] ==> granted[|granted| - 1] <= now
    ensures var after := After(granted, limit, window, now);
            Sound(after, limit, window) && (after != [] ==> after[|after| - 1] <= now)
  {
    if !Full(granted, limit, window, now) {
      SoundMeans(granted, limit, window);
      if |granted| >= limit {
        RoomIsOld(granted, limit, window, now);
      }
      assert (granted + [now])[..|granted|] == granted;
    }
  }

  lemma RoomIsOld(granted: seq<int>, limit: nat, window: nat, now: int)
    requires 0 < limit <= |granted| && NonDecreasing(granted) && granted[|granted| - 1] <= now
    requires !Full(granted, limit, window, now)
    ensures granted[|granted| - limit] <= now - window
  {
    var first, last := CountIsARun(granted, now - window + 1, window);
    assert granted[|granted| - limit] <= granted[|granted| - 1];
  }

  // A refused caller that comes back after the wait it was told is admitted, unless others were
  // admitted meanwhile, and no earlier moment would have done.
  lemma WaitIsExact(times: seq<int>, limit: nat, window: nat, now: int, wait: int, later: int)
    requires 0 < limit <= |times| && Sound(times, limit, window) && 0 < window
    requires times[|times| - 1] <= now <= later && times[|times| - limit] + window == now + wait
    ensures !Full(times, limit, window, later) <==> later >= now + wait
  {
    SoundMeans(times, limit, window);
    var first, last := CountIsARun(times, later - window + 1, window);
    assert times[|times| - limit] <= times[|times| - 1];
    if first < last {
      assert times[first] <= times[last - 1] <= times[|times| - 1];
    }
  }
}
