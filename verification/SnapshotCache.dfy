/** asset/meta_resolver.go: the cached metadata snapshot that concurrent callers share, and the single fetch they
    join. Every step is one critical section, or the fetch itself. */
module SnapshotCache {
  import opened Wrappers

  // A load is named by its number; the snapshot it brought, if any, by the load.
  datatype LoadResult = Pending | Success | Failure

  // `empty`: the base snapshot counts as missing when it lists no assets, the optional ones never do.
  datatype Cached = Cached(load: nat, expires: nat, empty: bool)

  // The load in flight; `owner` is history, the code keeps only the load.
  datatype Loading = Loading(load: nat, owner: nat)

  datatype Answer = Snapshot(load: nat) | LoadError(load: nat) | Cancelled

  datatype Stage = Calling | Joined(load: nat) | Fetching(load: nat) | Returned(answer: Answer)

  // `since` is how many loads had finished when the call began.
  datatype Caller = Caller(force: bool, since: nat, stage: Stage)

  // History: `times` says when the snapshot of a load arrived, `blanks` which of them count as missing.
  datatype State = State(
    ttl: nat,
    now: nat,
    cached: Option<Cached>,
    loading: Option<Loading>,
    results: seq<LoadResult>,
    finished: seq<nat>,
    times: map<nat, nat>,
    blanks: set<nat>,
    callers: map<nat, Caller>)

  ghost predicate Init(s: State) {
    && s.cached.None? && s.loading.None? && s.results == [] && s.finished == [] && s.callers == map[]
    && s.times == map[] && s.blanks == {}
  }

  predicate Valid(s: State) {
    s.cached.Some? && !s.cached.value.empty && (s.ttl == 0 || s.now < s.cached.value.expires)
  }

  function Moved(s: State, id: nat, stage: Stage): map<nat, Caller>
    requires id in s.callers
  {
    s.callers[id := Caller(s.callers[id].force, s.callers[id].since, stage)]
  }

  // ---------- The steps ----------

  ghost predicate Tick(s: State, now: nat, t: State) {
    s.now <= now && t == s.(now := now)
  }

  ghost predicate Call(s: State, id: nat, force: bool, t: State) {
    id !in s.callers && t == s.(callers := s.callers[id := Caller(force, |s.finished|, Calling)])
  }

  // Under the lock: the valid snapshot, the load in flight, or a load of one's own.
  ghost predicate Look(s: State, id: nat, t: State) {
    && id in s.callers && s.callers[id].stage.Calling?
    && if !s.callers[id].force && Valid(s)
       then t == s.(callers := Moved(s, id, Returned(Snapshot(s.cached.value.load))))
       else if s.loading.Some? then t == s.(callers := Moved(s, id, Joined(s.loading.value.load)))
       else t == s.(callers := Moved(s, id, Fetching(|s.results|)), results := s.results + [Pending],
                    loading := Some(Loading(|s.results|, id)))
  }

  // The fetch is over: only a success replaces the cached snapshot.
  ghost predicate Finish(s: State, id: nat, ok: bool, empty: bool, t: State) {
    && id in s.callers && s.callers[id].stage.Fetching? && s.callers[id].stage.load < |s.results|
    && var load := s.callers[id].stage.load;
       if ok
       then t == s.(results := s.results[load := Success], finished := s.finished + [load], loading := None,
                    cached := Some(Cached(load, s.now + s.ttl, empty)), times := s.times[load := s.now],
                    blanks := if empty then s.blanks + {load} else s.blanks,
                    callers := Moved(s, id, Returned(Snapshot(load))))
       else t == s.(results := s.results[load := Failure], finished := s.finished + [load], loading := None,
                    callers := Moved(s, id, Returned(LoadError(load))))
  }

  // Whoever joined learns the result; only an ordinary read may go on with an older snapshot that is still valid.
  ghost predicate Wake(s: State, id: nat, t: State) {
    && id in s.callers && s.callers[id].stage.Joined? && s.callers[id].stage.load < |s.results|
    && var load := s.callers[id].stage.load;
       && !s.results[load].Pending?
       && if s.results[load].Success? then t == s.(callers := Moved(s, id, Returned(Snapshot(load))))
          else if !s.callers[id].force && Valid(s)
          then t == s.(callers := Moved(s, id, Returned(Snapshot(s.cached.value.load))))
          else t == s.(callers := Moved(s, id, Returned(LoadError(load))))
  }

  ghost predicate Cancel(s: State, id: nat, t: State) {
    && id in s.callers && (s.callers[id].stage.Calling? || s.callers[id].stage.Joined?)
    && t == s.(callers := Moved(s, id, Returned(Cancelled)))
  }

  ghost predicate Next(s: State, t: State) {
    || (exists now :: Tick(s, now, t))
    || (exists id, force :: Call(s, id, force, t))
    || (exists id :: Look(s, id, t))
    || (exists id, ok, empty :: Finish(s, id, ok, empty, t))
    || (exists id :: Wake(s, id, t))
    || (exists id :: Cancel(s, id, t))
  }

  // ---------- Invariants ----------

  predicate IsFetching(s: State, id: nat, load: nat) {
    id in s.callers && s.callers[id].stage == Fetching(load)
  }

  // A load is pending exactly while it is the one in flight, and one caller is fetching it.
  ghost predicate OneLoad(s: State) {
    && (forall load | 0 <= load < |s.results| :: s.results[load].Pending? <==>
        s.loading.Some? && s.loading.value.load == load)
    && (s.loading.Some? ==>
          s.loading.value.load < |s.results| && IsFetching(s, s.loading.value.owner, s.loading.value.load))
    && (forall id | id in s.callers && s.callers[id].stage.Fetching? ::
          s.loading == Some(Loading(s.callers[id].stage.load, id)))
  }

  ghost predicate FinishedAfter(s: State, load: nat, since: nat) {
    exists p :: since <= p < |s.finished| && s.finished[p] == load
  }

  predicate Is(s: State, load: nat, result: LoadResult) {
    load < |s.results| && s.results[load] == result
  }

  // The load that brought a snapshot last.
  function NewestSuccess(finished: seq<nat>, results: seq<LoadResult>): Option<nat> {
    if finished == [] then None
    else
      var last := finished[|finished| - 1];
      if last < |results| && results[last].Success? then Some(last)
      else NewestSuccess(finished[..|finished| - 1], results)
  }

  // The cached snapshot is the newest that arrived, and expires as long after its arrival as snapshots live.
  ghost predicate CacheKept(s: State) {
    && (forall p | 0 <= p < |s.finished| :: s.finished[p] < |s.results| && !s.results[s.finished[p]].Pending?)
    && NewestSuccess(s.finished, s.results) == (if s.cached.Some? then Some(s.cached.value.load) else None)
    && (s.cached.Some? ==>
          var cached := s.cached.value;
          && Is(s, cached.load, Success)
          && cached.load in s.times && cached.expires == s.times[cached.load] + s.ttl
          && (cached.empty <==> cached.load in s.blanks))
    && (forall load | load in s.blanks :: load in s.times)
    && (forall load | load in s.times :: Is(s, load, Success))
  }

  // An ordinary read may be told this snapshot now: it is the newest, it is not blank, and it has not expired.
  ghost predicate Current(s: State, load: nat) {
    && NewestSuccess(s.finished, s.results) == Some(load)
    && load in s.times && load !in s.blanks
    && (s.ttl == 0 || s.now < s.times[load] + s.ttl)
  }

  lemma {:induction false} NewestStays(finished: seq<nat>, results: seq<LoadResult>, after: seq<LoadResult>)
    requires |results| <= |after|
    requires forall p | 0 <= p < |finished| :: finished[p] < |results| && after[finished[p]] == results[finished[p]]
    ensures NewestSuccess(finished, after) == NewestSuccess(finished, results)
  {
    if finished != [] {
      NewestStays(finished[..|finished| - 1], results, after);
    }
  }

  lemma LookKeepsCache(s: State, id: nat, t: State)
    requires Inv(s) && Look(s, id, t)
    ensures CacheKept(t)
  {
    NewestStays(s.finished, s.results, t.results);
  }

  lemma OneMoreFinished(finished: seq<nat>, load: nat, results: seq<LoadResult>)
    ensures NewestSuccess(finished + [load], results) ==
            if load < |results| && results[load].Success? then Some(load) else NewestSuccess(finished, results)
  {
    assert (finished + [load])[..|finished|] == finished;
  }

  lemma SuccessKeepsCache(s: State, id: nat, empty: bool, t: State)
    requires OneLoad(s) && CacheKept(s) && Finish(s, id, true, empty, t)
    ensures CacheKept(t)
  {
    OneMoreFinished(s.finished, s.callers[id].stage.load, t.results);
  }

  lemma FailureKeepsCache(s: State, id: nat, empty: bool, t: State)
    requires OneLoad(s) && CacheKept(s) && Finish(s, id, false, empty, t)
    ensures CacheKept(t)
  {
    OneMoreFinished(s.finished, s.callers[id].stage.load, t.results);
    NewestStays(s.finished, s.results, t.results);
  }

  // What a caller waits for or was told.
  ghost predicate CallerKept(s: State, caller: Caller) {
    && caller.since <= |s.finished|
    && match caller.stage
       case Calling => true
       case Fetching(load) => true
       case Joined(load) => load < |s.results| && (s.results[load].Pending? || FinishedAfter(s, load, caller.since))
       case Returned(Snapshot(load)) => Is(s, load, Success) && (caller.force ==> FinishedAfter(s, load, caller.since))
       case Returned(LoadError(load)) => Is(s, load, Failure) && FinishedAfter(s, load, caller.since)
       case Returned(Cancelled) => true
  }

  ghost predicate CallersKept(s: State) {
    forall id | id in s.callers :: CallerKept(s, s.callers[id])
  }

  ghost predicate Inv(s: State) {
    OneLoad(s) && CacheKept(s) && CallersKept(s)
  }

  // Nothing a caller relies on is lost when more loads finish.
  lemma CallerStays(s: State, t: State, caller: Caller)
    requires CallerKept(s, caller)
    requires |s.results| <= |t.results| && forall load | 0 <= load < |s.results| && !s.results[load].Pending? ::
        t.results[load] == s.results[load]
    requires s.finished <= t.finished
    requires (caller.stage.Joined? && Is(s, caller.stage.load, Pending)) ==>
               (Is(t, caller.stage.load, Pending) || FinishedAfter(t, caller.stage.load, caller.since))
    ensures CallerKept(t, caller)
  {
    if caller.stage.Joined? && FinishedAfter(s, caller.stage.load, caller.since) {
      LaterStill(s, t, caller.stage.load, caller.since);
    }
    if caller.stage.Returned? && !caller.stage.answer.Cancelled?
      && FinishedAfter(s, caller.stage.answer.load, caller.since) {
      LaterStill(s, t, caller.stage.answer.load, caller.since);
    }
  }

  lemma LaterStill(s: State, t: State, load: nat, since: nat)
    requires s.finished <= t.finished && FinishedAfter(s, load, since)
    ensures FinishedAfter(t, load, since)
  {
    var p :| since <= p < |s.finished| && s.finished[p] == load;
    assert t.finished[p] == load;
  }

  lemma LookKeeps(s: State, id: nat, t: State)
    requires Inv(s) && Look(s, id, t)
    ensures Inv(t)
  {
    LookKeepsCache(s, id, t);
    forall other | other in t.callers && other != id ensures CallerKept(t, t.callers[other]) {
      CallerStays(s, t, s.callers[other]);
    }
  }

  lemma FinishKeeps(s: State, id: nat, ok: bool, empty: bool, t: State)
    requires Inv(s) && Finish(s, id, ok, empty, t)
    ensures Inv(t)
  {
    if ok {
      SuccessKeepsCache(s, id, empty, t);
    } else {
      FailureKeepsCache(s, id, empty, t);
    }
    var load := s.callers[id].stage.load;
    assert t.finished[|s.finished|] == load;
    forall other | other in t.callers && other != id ensures CallerKept(t, t.callers[other]) {
      var caller := s.callers[other];
      if caller.stage.Joined? && caller.stage.load == load {
        assert FinishedAfter(t, load, caller.since);
      }
      CallerStays(s, t, caller);
    }
    assert FinishedAfter(t, load, s.callers[id].since);
  }

  lemma WakeKeeps(s: State, id: nat, t: State)
    requires Inv(s) && Wake(s, id, t)
    ensures Inv(t)
  {
    forall other | other in t.callers && other != id ensures CallerKept(t, t.callers[other]) {
      CallerStays(s, t, s.callers[other]);
    }
    LaterStill(s, t, s.callers[id].stage.load, s.callers[id].since);
  }

  lemma QuietKeeps(s: State, t: State, id: nat, stage: Stage)
    requires Inv(s) && id in s.callers
    requires stage == Returned(Cancelled) && !s.callers[id].stage.Fetching?
    requires t == s.(callers := Moved(s, id, stage))
    ensures Inv(t)
  {
    forall other | other in t.callers && other != id ensures CallerKept(t, t.callers[other]) {
      CallerStays(s, t, s.callers[other]);
    }
  }

  lemma CallKeeps(s: State, id: nat, force: bool, t: State)
    requires Inv(s) && Call(s, id, force, t)
    ensures Inv(t)
  {
    forall other | other in s.callers ensures CallerKept(t, s.callers[other]) {
      CallerStays(s, t, s.callers[other]);
    }
  }

  lemma TickKeeps(s: State, now: nat, t: State)
    requires Inv(s) && Tick(s, now, t)
    ensures Inv(t)
  {
    forall other | other in s.callers ensures CallerKept(t, s.callers[other]) {
      CallerStays(s, t, s.callers[other]);
    }
  }

  lemma NextKeeps(s: State, t: State)
    requires Inv(s) && Next(s, t)
    ensures Inv(t)
  {
    if now :| Tick(s, now, t) {
      TickKeeps(s, now, t);
    }
    if id, force :| Call(s, id, force, t) {
      CallKeeps(s, id, force, t);
    }
    if id :| Look(s, id, t) {
      LookKeeps(s, id, t);
    }
    if id, ok, empty :| Finish(s, id, ok, empty, t) {
      FinishKeeps(s, id, ok, empty, t);
    }
    if id :| Wake(s, id, t) {
      WakeKeeps(s, id, t);
    }
    if id :| Cancel(s, id, t) {
      QuietKeeps(s, t, id, Returned(Cancelled));
    }
  }

  // ---------- Every run ----------

  ghost predicate Step(run: seq<State>, i: nat)
    requires i + 1 < |run|
  {
    Next(run[i], run[i + 1])
  }

  ghost predicate Run(run: seq<State>) {
    run != [] && Init(run[0]) && forall i: nat | i + 1 < |run| :: Step(run, i)
  }

  lemma {:induction false} RunKeeps(run: seq<State>, i: nat)
    requires Run(run) && i < |run|
    ensures Inv(run[i])
  {
    if i > 0 {
      RunKeeps(run, i - 1);
      assert Step(run, i - 1);
      NextKeeps(run[i - 1], run[i]);
    }
  }

  // Callers share one fetch: no two are ever under way.
  lemma OneFetchAtATime(run: seq<State>, i: nat, a: nat, b: nat)
    requires Run(run) && i < |run|
    requires a in run[i].callers && run[i].callers[a].stage.Fetching?
    requires b in run[i].callers && run[i].callers[b].stage.Fetching?
    ensures a == b
  {
    RunKeeps(run, i);
  }

  // A forced refresh is told a snapshot whose fetch succeeded and ended after the refresh was asked for,
  // never an older one; and an error only if such a fetch failed.
  lemma RefreshIsFresh(run: seq<State>, i: nat, id: nat)
    requires Run(run) && i < |run| && id in run[i].callers && run[i].callers[id].stage.Returned?
    ensures var s, caller := run[i], run[i].callers[id];
            match caller.stage.answer
            case Snapshot(load) => Is(s, load, Success) && (caller.force ==> FinishedAfter(s, load, caller.since))
            case LoadError(load) => Is(s, load, Failure) && FinishedAfter(s, load, caller.since)
            case Cancelled => true
  {
    RunKeeps(run, i);
  }

  // Whoever is told a snapshot is told one whose fetch ended after the call began or, an ordinary read, the newest one,
  // which has not expired at that moment.
  lemma ReadsAreCurrent(run: seq<State>, i: nat, id: nat)
    requires Run(run) && i + 1 < |run| && id in run[i].callers && id in run[i + 1].callers
    requires !run[i].callers[id].stage.Returned? && run[i + 1].callers[id].stage.Returned?
    requires run[i + 1].callers[id].stage.answer.Snapshot?
    ensures var caller, load := run[i].callers[id], run[i + 1].callers[id].stage.answer.load;
            FinishedAfter(run[i + 1], load, caller.since) || (!caller.force && Current(run[i], load))
  {
    RunKeeps(run, i);
    RunKeeps(run, i + 1);
    assert Step(run, i);
    TellingIsCurrent(run[i], id, run[i + 1]);
  }

  lemma TellingIsCurrent(s: State, id: nat, t: State)
    requires Inv(s) && Next(s, t) && id in s.callers && id in t.callers
    requires !s.callers[id].stage.Returned? && t.callers[id].stage.Returned? && t.callers[id].stage.answer.Snapshot?
    ensures var caller, load := s.callers[id], t.callers[id].stage.answer.load;
            FinishedAfter(t, load, caller.since) || (!caller.force && Current(s, load))
  {
    WhoIsTold(s, id, t);
    if ok, empty :| Finish(s, id, ok, empty, t) {
      assert t.finished[|s.finished|] == s.callers[id].stage.load;
    } else if Look(s, id, t) {
      LookTells(s, id, t);
    } else {
      WakeTells(s, id, t);
    }
  }

  lemma WhoIsTold(s: State, id: nat, t: State)
    requires Next(s, t) && id in s.callers && id in t.callers
    requires !s.callers[id].stage.Returned? && t.callers[id].stage.Returned? && t.callers[id].stage.answer.Snapshot?
    ensures Look(s, id, t) || Wake(s, id, t) || exists ok, empty :: Finish(s, id, ok, empty, t)
  {}

  lemma LookTells(s: State, id: nat, t: State)
    requires CacheKept(s) && Look(s, id, t) && t.callers[id].stage.Returned? && t.callers[id].stage.answer.Snapshot?
    ensures !s.callers[id].force && Current(s, t.callers[id].stage.answer.load)
  {}

  lemma WakeTells(s: State, id: nat, t: State)
    requires Inv(s) && Wake(s, id, t) && t.callers[id].stage.Returned? && t.callers[id].stage.answer.Snapshot?
    ensures var caller, load := s.callers[id], t.callers[id].stage.answer.load;
            FinishedAfter(t, load, caller.since) || (!caller.force && Current(s, load))
  {
    assert CallerKept(s, s.callers[id]);
    if FinishedAfter(s, s.callers[id].stage.load, s.callers[id].since) {
      LaterStill(s, t, s.callers[id].stage.load, s.callers[id].since);
    }
  }

  // And an ordinary read waits or fetches only while there is no such snapshot.
  lemma CurrentSnapshotsAreUsed(run: seq<State>, i: nat, id: nat)
    requires Run(run) && i + 1 < |run| && id in run[i].callers && id in run[i + 1].callers
    requires run[i].callers[id].stage.Calling?
    requires run[i + 1].callers[id].stage.Joined? || run[i + 1].callers[id].stage.Fetching?
    ensures run[i].callers[id].force || forall load :: !Current(run[i], load)
  {
    RunKeeps(run, i);
    assert Step(run, i);
    OnlyLookWaits(run[i], id, run[i + 1]);
    LookWaits(run[i], id, run[i + 1]);
  }

  lemma OnlyLookWaits(s: State, id: nat, t: State)
    requires Next(s, t) && id in s.callers && id in t.callers && s.callers[id].stage.Calling?
    requires t.callers[id].stage.Joined? || t.callers[id].stage.Fetching?
    ensures Look(s, id, t)
  {}

  lemma LookWaits(s: State, id: nat, t: State)
    requires CacheKept(s) && Look(s, id, t) && (t.callers[id].stage.Joined? || t.callers[id].stage.Fetching?)
    ensures s.callers[id].force || forall load :: !Current(s, load)
  {}

  // A joined load that failed is no error for an ordinary read that still has such a snapshot.
  lemma FailuresOfOthersDoNotHurt(run: seq<State>, i: nat, id: nat)
    requires Run(run) && i + 1 < |run| && id in run[i].callers && id in run[i + 1].callers
    requires run[i].callers[id].stage.Joined?
    requires run[i + 1].callers[id].stage.Returned? && run[i + 1].callers[id].stage.answer.LoadError?
    ensures run[i].callers[id].force || forall load :: !Current(run[i], load)
  {
    RunKeeps(run, i);
    assert Step(run, i);
    OnlyWakeTellsErrors(run[i], id, run[i + 1]);
  }

  lemma OnlyWakeTellsErrors(s: State, id: nat, t: State)
    requires Next(s, t) && id in s.callers && id in t.callers && s.callers[id].stage.Joined?
    requires t.callers[id].stage.Returned? && t.callers[id].stage.answer.LoadError?
    ensures Wake(s, id, t)
  {}

  // Whoever has joined a load can be told its result, or somebody is fetching it.
  lemma NobodyJoinsADeadLoad(run: seq<State>, i: nat, id: nat)
    requires Run(run) && i < |run| && id in run[i].callers && run[i].callers[id].stage.Joined?
    ensures var s, load := run[i], run[i].callers[id].stage.load;
            load < |s.results|
            && (s.results[load].Pending? ==> s.loading.Some? && IsFetching(s, s.loading.value.owner, load))
  {
    RunKeeps(run, i);
  }
}
