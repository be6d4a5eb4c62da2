/** Who may touch a wallet while a refresh runs: the job registry, the mutators that hold its lock, the
    lifecycle operations that wait for a refresh to stop, and the cancel flag, as interleaved steps of
    any number of threads over one wallet. */
module Exclusion {
  import opened Chain

  datatype Job = IdleJob | Running | FailedJob

  /** `Asking` to `RefreshOver` follow one refresh: claim, clear the cancel flag, take the snapshot, scan
      and commit, release. */
  datatype RefreshAt = Asking | Claimed | Cleared | Scanning(snapshot: nat) | Ending(failed: bool) | RefreshOver

  /** A mutator under `with_refresh_stopped` or a lifecycle operation holds the registry lock while `Inside`.
      Only a successful unseal passes through `Clearing`. */
  datatype MutateAt = Wanting | Inside | MutateOver

  datatype LifecycleAt = Announcing | Waiting | InsideLifecycle | Clearing | LifecycleOver

  datatype Kind = SealWallet | UnsealWallet | CloseWallet

  datatype Thread =
    | Refresher(r: RefreshAt)
    | Mutator(m: MutateAt)
    | Lifecycle(kind: Kind, l: LifecycleAt)
    | Canceller(done: bool)

  /** A commit, with the generation its snapshot was taken at and the generation it found. */
  datatype Commit = Commit(snapshot: nat, found: nat)

  /** `generation` counts what anything but a refresh did to the wallet. */
  datatype State = State(job: Job, holder: Option<nat>, cancel: bool, generation: nat, threads: seq<Thread>, commits: seq<Commit>)

  /** What a thread's next step depends on besides the state: go on, do it once more, or give up. */
  datatype Choice = Go | Again | GiveUp

  datatype Event = Spawn(t: Thread) | Run(tid: nat, choice: Choice)

  predicate Newborn(t: Thread) {
    match t
    case Refresher(r) => r == Asking
    case Mutator(m) => m == Wanting
    case Lifecycle(_, l) => l == Announcing
    case Canceller(done) => !done
  }

  function Put(s: State, i: nat, t: Thread): State
    requires i < |s.threads|
  {
    s.(threads := s.threads[i := t])
  }

  /** Registry accesses are atomic and wait for the lock to be free. */
  function RefreshStep(s: State, i: nat, at: RefreshAt, choice: Choice): State
    requires i < |s.threads|
  {
    match at
    case Asking =>
      if s.holder.Some? then s
      else if s.job == Running then Put(s, i, Refresher(RefreshOver))
      else Put(s.(job := Running), i, Refresher(Claimed))
    case Claimed => Put(s.(cancel := false), i, Refresher(Cleared))
    case Cleared => Put(s, i, Refresher(Scanning(s.generation)))
    case Scanning(snapshot) =>
      if choice == Again then s.(commits := s.commits + [Commit(snapshot, s.generation)])
      else Put(s, i, Refresher(Ending(choice == GiveUp)))
    case Ending(failed) =>
      if s.holder.Some? then s
      else Put(s.(job := if failed then FailedJob else IdleJob), i, Refresher(RefreshOver))
    case RefreshOver => s
  }

  function MutateStep(s: State, i: nat, at: MutateAt, choice: Choice): State
    requires i < |s.threads|
  {
    match at
    case Wanting =>
      if s.holder.Some? then s
      else if s.job == Running then Put(s, i, Mutator(MutateOver))
      else Put(s.(holder := Some(i)), i, Mutator(Inside))
    case Inside =>
      if choice == Again then s.(generation := s.generation + 1)
      else Put(s.(holder := None), i, Mutator(MutateOver))
    case MutateOver => s
  }

  /** Waiting releases the lock and ends with it free and no refresh running, or in a timeout. */
  function LifecycleStep(s: State, i: nat, kind: Kind, at: LifecycleAt, choice: Choice): State
    requires i < |s.threads|
  {
    match at
    case Announcing => Put(s.(cancel := true), i, Lifecycle(kind, Waiting))
    case Waiting =>
      if choice == GiveUp then Put(s, i, Lifecycle(kind, LifecycleOver))
      else if s.holder.Some? || s.job == Running then s
      else Put(s.(holder := Some(i)), i, Lifecycle(kind, InsideLifecycle))
    case InsideLifecycle =>
      if choice == Again then s.(generation := s.generation + 1)
      else Put(s.(holder := None), i, Lifecycle(kind, if kind == UnsealWallet && choice == Go then Clearing else LifecycleOver))
    case Clearing => Put(s.(cancel := false), i, Lifecycle(kind, LifecycleOver))
    case LifecycleOver => s
  }

  function Step(s: State, e: Event): State {
    match e
    case Spawn(t) => if Newborn(t) then s.(threads := s.threads + [t]) else s
    case Run(i, choice) =>
      if i >= |s.threads| then s
      else
        match s.threads[i]
        case Refresher(r) => RefreshStep(s, i, r, choice)
        case Mutator(m) => MutateStep(s, i, m, choice)
        case Lifecycle(kind, l) => LifecycleStep(s, i, kind, l, choice)
        case Canceller(_) => Put(s.(cancel := true), i, Canceller(true))
  }

  const START := State(IdleJob, None, false, 0, [], [])

  function After(events: seq<Event>): State {
    if events == [] then START else Step(After(events[..|events|-1]), events[|events|-1])
  }

  // ---------------------------------------------------------------------------------------------
  // The invariant
  // ---------------------------------------------------------------------------------------------

  /** From the claim to the release. */
  predicate Owns(t: Thread) {
    t.Refresher? && (t.r == Claimed || t.r == Cleared || t.r.Scanning? || t.r.Ending?)
  }

  predicate Holds(t: Thread) {
    (t.Mutator? && t.m == Inside) || (t.Lifecycle? && t.l == InsideLifecycle)
  }

  predicate Current(t: Thread, generation: nat) {
    t.Refresher? && t.r.Scanning? ==> t.r.snapshot == generation
  }

  ghost predicate OneOwner(threads: seq<Thread>, job: Job) {
    && (forall i, j :: 0 <= i < |threads| && 0 <= j < |threads| && Owns(threads[i]) && Owns(threads[j]) ==> i == j)
    && (job == Running <==> exists i :: 0 <= i < |threads| && Owns(threads[i]))
  }

  ghost predicate OneHolder(threads: seq<Thread>, holder: Option<nat>) {
    && (forall i :: 0 <= i < |threads| && Holds(threads[i]) ==> holder == Some(i))
    && (holder.Some? ==> holder.value < |threads| && Holds(threads[holder.value]))
  }

  ghost predicate AllCurrent(threads: seq<Thread>, generation: nat) {
    forall i :: 0 <= i < |threads| ==> Current(threads[i], generation)
  }

  ghost predicate Inv(s: State) {
    && OneOwner(s.threads, s.job) && OneHolder(s.threads, s.holder) && AllCurrent(s.threads, s.generation)
    && (s.holder.Some? ==> s.job != Running)
    && forall c :: c in s.commits ==> c.snapshot == c.found
  }

  lemma OwnersKept(threads: seq<Thread>, job: Job, i: nat, t: Thread, job': Job)
    requires OneOwner(threads, job) && i < |threads|
    requires Owns(t) ==> (Owns(threads[i]) || job != Running) && job' == Running
    requires !Owns(t) ==> if Owns(threads[i]) then job' != Running else job' == job
    ensures OneOwner(threads[i := t], job')
  {
    var after := threads[i := t];
    assert after[i] == t;
    if j :| 0 <= j < |threads| && Owns(threads[j]) {
      assert j != i ==> after[j] == threads[j];
    }
  }

  lemma HoldersKept(threads: seq<Thread>, holder: Option<nat>, i: nat, t: Thread, holder': Option<nat>)
    requires OneHolder(threads, holder) && i < |threads|
    requires Holds(t) ==> (Holds(threads[i]) || holder == None) && holder' == Some(i)
    requires !Holds(t) ==> holder' == if Holds(threads[i]) then None else holder
    ensures OneHolder(threads[i := t], holder')
  {}

  /** A thread that is not scanning a stale snapshot keeps all snapshots current. */
  lemma CurrentKept(threads: seq<Thread>, generation: nat, i: nat, t: Thread)
    requires AllCurrent(threads, generation) && i < |threads| && Current(t, generation)
    ensures AllCurrent(threads[i := t], generation)
  {}

  lemma RefreshKeeps(s: State, i: nat, choice: Choice)
    requires Inv(s) && i < |s.threads| && s.threads[i].Refresher?
    ensures Inv(RefreshStep(s, i, s.threads[i].r, choice))
  {
    var s' := RefreshStep(s, i, s.threads[i].r, choice);
    assert Current(s.threads[i], s.generation);
    if s'.threads != s.threads {
      OwnersKept(s.threads, s.job, i, s'.threads[i], s'.job);
      HoldersKept(s.threads, s.holder, i, s'.threads[i], s'.holder);
      CurrentKept(s.threads, s.generation, i, s'.threads[i]);
    }
  }

  lemma MutateKeeps(s: State, i: nat, choice: Choice)
    requires Inv(s) && i < |s.threads| && s.threads[i].Mutator?
    ensures Inv(MutateStep(s, i, s.threads[i].m, choice))
  {
    var s' := MutateStep(s, i, s.threads[i].m, choice);
    if s'.threads != s.threads {
      OwnersKept(s.threads, s.job, i, s'.threads[i], s'.job);
      HoldersKept(s.threads, s.holder, i, s'.threads[i], s'.holder);
    } else if s.threads[i].m == Inside {
      NoOwnerUnderLock(s, i, s'.generation);
    }
  }

  lemma LifecycleKeeps(s: State, i: nat, choice: Choice)
    requires Inv(s) && i < |s.threads| && s.threads[i].Lifecycle?
    ensures Inv(LifecycleStep(s, i, s.threads[i].kind, s.threads[i].l, choice))
  {
    var s' := LifecycleStep(s, i, s.threads[i].kind, s.threads[i].l, choice);
    if s'.threads != s.threads {
      OwnersKept(s.threads, s.job, i, s'.threads[i], s'.job);
      HoldersKept(s.threads, s.holder, i, s'.threads[i], s'.holder);
    } else if s.threads[i].l == InsideLifecycle {
      NoOwnerUnderLock(s, i, s'.generation);
    }
  }

  /** While anyone is inside, nobody scans, so a mutation makes no snapshot stale. */
  lemma NoOwnerUnderLock(s: State, i: nat, generation: nat)
    requires Inv(s) && i < |s.threads| && Holds(s.threads[i])
    ensures AllCurrent(s.threads, generation)
  {
    forall j | 0 <= j < |s.threads| ensures Current(s.threads[j], generation) {
      assert !Owns(s.threads[j]);
    }
  }

  lemma StepKeeps(s: State, e: Event)
    requires Inv(s)
    ensures Inv(Step(s, e))
  {
    match e
    case Spawn(t) =>
      if Newborn(t) {
        SpawnKeeps(s, t);
      }
    case Run(i, choice) =>
      if i < |s.threads| {
        match s.threads[i]
        case Refresher(_) => RefreshKeeps(s, i, choice);
        case Mutator(_) => MutateKeeps(s, i, choice);
        case Lifecycle(_, _) => LifecycleKeeps(s, i, choice);
        case Canceller(_) =>
          OwnersKept(s.threads, s.job, i, Canceller(true), s.job);
          HoldersKept(s.threads, s.holder, i, Canceller(true), s.holder);
      }
  }

  lemma SpawnKeeps(s: State, t: Thread)
    requires Inv(s) && Newborn(t)
    ensures Inv(s.(threads := s.threads + [t]))
  {
    var after := s.threads + [t];
    forall i | 0 <= i < |after| ensures Owns(after[i]) || Holds(after[i]) ==> i < |s.threads| && after[i] == s.threads[i] {
    }
    if i :| 0 <= i < |s.threads| && Owns(s.threads[i]) {
      assert after[i] == s.threads[i];
    }
  }

  lemma {:induction false} Reachable(events: seq<Event>)
    ensures Inv(After(events))
  {
    if events != [] {
      Reachable(events[..|events|-1]);
      StepKeeps(After(events[..|events|-1]), events[|events|-1]);
    }
  }

  /** In every interleaving of any number of threads: at most one refresh owns the wallet, no mutator or
      lifecycle body overlaps it or another body, and every commit found the wallet as its snapshot was. */
  lemma RefreshOwnsAlone(events: seq<Event>, i: nat, j: nat)
    requires i < |After(events).threads| && j < |After(events).threads| && i != j
    ensures var s := After(events);
      && !(Owns(s.threads[i]) && Owns(s.threads[j]))
      && !(Holds(s.threads[i]) && (Owns(s.threads[j]) || Holds(s.threads[j])))
      && (Owns(s.threads[i]) ==> s.job == Running)
      && forall c :: c in s.commits ==> c.snapshot == c.found
  {
    Reachable(events);
  }

  // ---------------------------------------------------------------------------------------------
  // Who gets in
  // ---------------------------------------------------------------------------------------------

  predicate Wants(t: Thread) {
    t == Refresher(Asking) || t == Mutator(Wanting) || (t.Lifecycle? && t.l == Waiting)
  }

  predicate In(t: Thread) {
    Owns(t) || Holds(t)
  }

  ghost predicate Vacant(threads: seq<Thread>) {
    forall j :: 0 <= j < |threads| ==> !In(threads[j])
  }

  /** What the registry says of the threads: nobody holds the lock and no refresh is marked as running
      exactly when no thread is in. */
  lemma VacantIff(s: State)
    requires Inv(s)
    ensures Vacant(s.threads) <==> s.holder == None && s.job != Running
  {
    if s.job == Running {
      var i :| 0 <= i < |s.threads| && Owns(s.threads[i]);
      assert In(s.threads[i]);
    }
    if s.holder.Some? {
      assert In(s.threads[s.holder.value]);
    }
  }

  lemma OwnedIff(s: State)
    requires Inv(s)
    ensures (exists j :: 0 <= j < |s.threads| && Owns(s.threads[j])) <==> s.job == Running
  {}

  /** In every reachable state: whoever asks gets in exactly when no other thread is in. A refresh or a
      mutator that finds another refresh is turned away, a lifecycle operation keeps waiting. */
  lemma EntersIff(events: seq<Event>, i: nat)
    requires i < |After(events).threads| && Wants(After(events).threads[i])
    ensures var s := After(events);
      var t := Step(s, Run(i, Go)).threads[i];
      && (In(t) <==> Vacant(s.threads))
      && (t == s.threads[i] || In(t) || ((exists j :: 0 <= j < |s.threads| && Owns(s.threads[j])) && t in {Refresher(RefreshOver), Mutator(MutateOver)}))
      && (t == s.threads[i] ==> s.threads[i].Lifecycle? || exists j :: 0 <= j < |s.threads| && Holds(s.threads[j]))
  {
    var s := After(events);
    Reachable(events);
    VacantIff(s);
    OwnedIff(s);
    if s.holder.Some? {
      assert Holds(s.threads[s.holder.value]);
    }
  }

  /** Where any sequence of events leads from a state. */
  function From(s: State, events: seq<Event>): State
    decreases |events|
  {
    if events == [] then s else From(Step(s, events[0]), events[1..])
  }

  lemma {:induction false} FromSplit(s: State, first: seq<Event>, second: seq<Event>)
    ensures From(s, first + second) == From(From(s, first), second)
    decreases |first|
  {
    if first == [] {
      assert first + second == second;
    } else {
      assert (first + second)[0] == first[0] && (first + second)[1..] == first[1..] + second;
      FromSplit(Step(s, first[0]), first[1..], second);
    }
  }

  /** Thread `i` still wants in, and the invariant holds. */
  ghost predicate Standing(s: State, i: nat) {
    Inv(s) && i < |s.threads| && Wants(s.threads[i])
  }

  lemma OthersStay(s: State, i: nat, j: nat, choice: Choice)
    requires i < |s.threads| && i != j
    ensures i < |Step(s, Run(j, choice)).threads| && Step(s, Run(j, choice)).threads[i] == s.threads[i]
  {}

  /** One step of another thread leaves the one that wants in where it is. */
  lemma StepAside(s: State, i: nat, j: nat, choice: Choice)
    requires Standing(s, i) && j != i
    ensures Standing(Step(s, Run(j, choice)), i)
  {
    StepKeeps(s, Run(j, choice));
    OthersStay(s, i, j, choice);
  }

  /** Whoever is inside can leave ... */
  lemma HolderLeaves(s: State, i: nat) returns (more: seq<Event>)
    requires Standing(s, i)
    ensures Standing(From(s, more), i) && From(s, more).holder == None
  {
    more := [];
    if s.holder.Some? {
      var e := Run(s.holder.value, GiveUp);
      StepAside(s, i, s.holder.value, GiveUp);
      assert [e][1..] == [];
      assert From(s, [e]) == From(Step(s, e), []);
      more := [e];
    }
  }

  /** What a refresh has left to do before it lets go, when it scans one batch at most. */
  function Left(r: RefreshAt): nat {
    match r
    case Claimed => 4
    case Cleared => 3
    case Scanning(_) => 2
    case Ending(_) => 1
    case _ => 0
  }

  /** ... and a refresh under way can end. */
  lemma RefreshLeaves(s: State, i: nat, w: nat) returns (more: seq<Event>)
    requires Standing(s, i) && s.holder == None && w < |s.threads| && Owns(s.threads[w])
    ensures Standing(From(s, more), i) && From(s, more).holder == None && From(s, more).job != Running
    decreases Left(s.threads[w].r)
  {
    var e := Run(w, GiveUp);
    var s' := Step(s, e);
    StepAside(s, i, w, GiveUp);
    if s.threads[w].r.Ending? {
      assert [e][1..] == [] && From(s', []) == s';
      more := [e];
    } else {
      var rest := RefreshLeaves(s', i, w);
      more := [e] + rest;
      assert more[0] == e && more[1..] == rest;
    }
  }

  lemma EntersVacant(s: State, i: nat)
    requires i < |s.threads| && Wants(s.threads[i]) && s.holder == None && s.job != Running
    ensures From(s, [Run(i, Go)]) == Step(s, Run(i, Go)) && i < |Step(s, Run(i, Go)).threads|
    ensures In(Step(s, Run(i, Go)).threads[i])
  {
    var e := Run(i, Go);
    assert [e][1..] == [] && From(Step(s, e), []) == Step(s, e);
  }

  /** Everyone inside has a way out. */
  lemma Vacated(s: State, i: nat) returns (more: seq<Event>)
    requires Standing(s, i)
    ensures Standing(From(s, more), i) && From(s, more).holder == None && From(s, more).job != Running
  {
    var first := HolderLeaves(s, i);
    var free := From(s, first);
    var second: seq<Event> := [];
    if free.job == Running {
      OwnedIff(free);
      var w :| 0 <= w < |free.threads| && Owns(free.threads[w]);
      second := RefreshLeaves(free, i, w);
    }
    FromSplit(s, first, second);
    more := first + second;
  }

  /** From every reachable state, every thread that wants in has a schedule that lets it in: no lock and
      no job mark is ever left behind. */
  lemma GetsIn(events: seq<Event>, i: nat)
    requires i < |After(events).threads| && Wants(After(events).threads[i])
    ensures exists more :: i < |From(After(events), more).threads| && In(From(After(events), more).threads[i])
  {
    var s := After(events);
    Reachable(events);
    var more := Vacated(s, i);
    EntersVacant(From(s, more), i);
    FromSplit(s, more, [Run(i, Go)]);
    assert In(From(s, more + [Run(i, Go)]).threads[i]);
  }

  // ---------------------------------------------------------------------------------------------
  // What a refresh leaves behind
  // ---------------------------------------------------------------------------------------------

  ghost predicate NeverOwned(s: State, events: seq<Event>) {
    forall k, j :: 0 <= k <= |events| && 0 <= j < |From(s, events[..k]).threads| ==> !Owns(From(s, events[..k]).threads[j])
  }

  lemma {:induction false} MarkStands(s: State, events: seq<Event>)
    requires Inv(s) && NeverOwned(s, events)
    ensures From(s, events).job == s.job
    decreases |events|
  {
    if events != [] {
      var s', rest := Step(s, events[0]), events[1..];
      StepKeeps(s, events[0]);
      forall k, j | 0 <= k <= |rest| && 0 <= j < |From(s', rest[..k]).threads| ensures !Owns(From(s', rest[..k]).threads[j]) {
        assert events[..k + 1][0] == events[0] && events[..k + 1][1..] == rest[..k];
        assert From(s, events[..k + 1]) == From(s', rest[..k]);
      }
      NotOwnedNow(s, events);
      NotOwnedNow(s', rest);
      MarkStands(s', rest);
    }
  }

  lemma NotOwnedNow(s: State, events: seq<Event>)
    requires Inv(s) && NeverOwned(s, events)
    ensures forall j :: 0 <= j < |s.threads| ==> !Owns(s.threads[j])
    ensures s.job != Running
  {
    assert events[..0] == [] && From(s, events[..0]) == s;
  }

  /** A refresh that ends marks the wallet as failed exactly when it failed, and the mark stands through
      everything that follows until another refresh takes the wallet. */
  lemma OutcomeStands(events: seq<Event>, w: nat, choice: Choice, more: seq<Event>)
    requires w < |After(events).threads| && After(events).threads[w].Refresher? && After(events).threads[w].r.Ending?
    requires After(events).holder == None
    requires NeverOwned(Step(After(events), Run(w, choice)), more)
    ensures var left := From(Step(After(events), Run(w, choice)), more);
      (left.job == FailedJob <==> After(events).threads[w].r.failed) && left.job != Running
  {
    var s := After(events);
    Reachable(events);
    StepKeeps(s, Run(w, choice));
    MarkStands(Step(s, Run(w, choice)), more);
  }

  // ---------------------------------------------------------------------------------------------
  // The cancel flag
  // ---------------------------------------------------------------------------------------------

  /** The two steps that clear the flag: of a refresh that just claimed the wallet, and of an unseal
      that succeeded. */
  predicate Clears(t: Thread) {
    t == Refresher(Claimed) || (t.Lifecycle? && t.l == Clearing)
  }

  lemma OnlyClaimOrUnsealClears(s: State, e: Event)
    ensures s.cancel && !Step(s, e).cancel ==> e.Run? && e.tid < |s.threads| && Clears(s.threads[e.tid])
  {}

  /** The steps that raise it: of a lifecycle operation that announces itself, and of a cancel request. */
  predicate Raises(t: Thread) {
    t.Canceller? || (t.Lifecycle? && t.l == Announcing)
  }

  ghost predicate RaisedAt(events: seq<Event>, k: nat)
    requires k < |events|
  {
    var s := After(events[..k]);
    events[k].Run? && events[k].tid < |s.threads| && Raises(s.threads[events[k].tid])
  }

  ghost predicate ClearedAt(events: seq<Event>, k: nat)
    requires k < |events|
  {
    var s := After(events[..k]);
    events[k].Run? && events[k].tid < |s.threads| && Clears(s.threads[events[k].tid])
  }

  /** Step `k` raised the flag and nothing cleared it since. */
  ghost predicate StandsFrom(events: seq<Event>, k: nat)
    requires k < |events|
  {
    RaisedAt(events, k) && forall j :: k < j < |events| ==> !ClearedAt(events, j)
  }

  lemma SameEarlier(events: seq<Event>, k: nat)
    requires k + 1 < |events|
    ensures var before := events[..|events|-1];
      RaisedAt(events, k) == RaisedAt(before, k) && ClearedAt(events, k) == ClearedAt(before, k)
  {
    assert events[..|events|-1][..k] == events[..k];
  }

  lemma StandsEarlier(events: seq<Event>, k: nat)
    requires k + 1 < |events|
    ensures StandsFrom(events, k) <==> StandsFrom(events[..|events|-1], k) && !ClearedAt(events, |events| - 1)
  {
    var before, n := events[..|events|-1], |events| - 1;
    forall j: nat | j < n ensures RaisedAt(events, j) == RaisedAt(before, j) && ClearedAt(events, j) == ClearedAt(before, j) {
      SameEarlier(events, j);
    }
    if StandsFrom(before, k) && !ClearedAt(events, n) {
      forall j | k < j < |events| ensures !ClearedAt(events, j) {
        assert j < n ==> !ClearedAt(before, j);
      }
    }
  }

  /** The flag is up exactly when some step raised it and no later one cleared it. */
  lemma {:induction false} RaisedIff(events: seq<Event>)
    ensures After(events).cancel <==> exists k: nat :: k < |events| && StandsFrom(events, k)
  {
    if events != [] {
      var before, n := events[..|events|-1], |events| - 1;
      RaisedIff(before);
      forall k: nat | k < n ensures StandsFrom(events, k) <==> StandsFrom(before, k) && !ClearedAt(events, n) {
        StandsEarlier(events, k);
      }
      assert StandsFrom(events, n) == RaisedAt(events, n);
      assert After(events).cancel <==> RaisedAt(events, n) || (After(before).cancel && !ClearedAt(events, n));
    }
  }

  ghost predicate UnsealPending(s: State) {
    exists i :: 0 <= i < |s.threads| && s.threads[i].Lifecycle? && s.threads[i].l == Clearing
  }

  /** Refresh `w` is under way and was told to stop after it cleared the flag. */
  ghost predicate Told(s: State, w: nat) {
    && Inv(s) && s.cancel
    && w < |s.threads| && Owns(s.threads[w]) && s.threads[w] != Refresher(Claimed)
  }

  predicate Over(s: State, w: nat) {
    w < |s.threads| && s.threads[w] == Refresher(RefreshOver)
  }

  /** The refresh is still under way and can no longer see that it was told. */
  ghost predicate Lost(s: State, w: nat) {
    w < |s.threads| && Owns(s.threads[w]) && !s.cancel
  }

  lemma CancellationHolds(s: State, w: nat, e: Event)
    requires Told(s, w) && !UnsealPending(s)
    ensures var s' := Step(s, e); s'.cancel && (Over(s', w) || (Told(s', w) && !UnsealPending(s')))
  {
    StepKeeps(s, e);
    forall i | 0 <= i < |s.threads| ensures !Clears(s.threads[i]) {
      assert Owns(s.threads[i]) ==> i == w;
    }
    OnlyClaimOrUnsealClears(s, e);
    forall i | 0 <= i < |s.threads| ensures !Holds(s.threads[i]) {
    }
  }

  lemma StaysOver(s: State, w: nat, e: Event)
    requires Over(s, w)
    ensures Over(Step(s, e), w)
  {}

  lemma {:induction false} OverForGood(s: State, w: nat, events: seq<Event>)
    requires Over(s, w)
    ensures Over(From(s, events), w)
    decreases |events|
  {
    if events != [] {
      StaysOver(s, w, events[0]);
      OverForGood(Step(s, events[0]), w, events[1..]);
    }
  }

  /** Through every continuation, with any number of further threads: the cancellation stays set until the
      refresh it was given to is over. */
  lemma {:induction false} CancellationHoldsUntilObserved(s: State, w: nat, events: seq<Event>)
    requires Told(s, w) && !UnsealPending(s)
    ensures Over(From(s, events), w) || (Told(From(s, events), w) && !UnsealPending(From(s, events)))
    decreases |events|
  {
    if events != [] {
      CancellationHolds(s, w, events[0]);
      if Over(Step(s, events[0]), w) {
        OverForGood(Step(s, events[0]), w, events[1..]);
      } else {
        CancellationHoldsUntilObserved(Step(s, events[0]), w, events[1..]);
      }
    }
  }

  /** The flag of a refresh under way can be erased in one step exactly when an unseal that already succeeded
      has yet to clear it ... */
  lemma CancellationErasedIff(s: State, w: nat)
    requires Told(s, w)
    ensures (exists e :: !Step(s, e).cancel) <==> UnsealPending(s)
  {
    if UnsealPending(s) {
      var i :| 0 <= i < |s.threads| && s.threads[i].Lifecycle? && s.threads[i].l == Clearing;
      assert !Step(s, Run(i, Go)).cancel;
    } else {
      forall e ensures Step(s, e).cancel {
        CancellationHolds(s, w, e);
      }
    }
  }

  /** ... and so can be lost on the refresh in some continuation exactly then. */
  lemma CancellationLostIff(s: State, w: nat)
    requires Told(s, w)
    ensures (exists events :: Lost(From(s, events), w)) <==> UnsealPending(s)
  {
    if UnsealPending(s) {
      var i :| 0 <= i < |s.threads| && s.threads[i].Lifecycle? && s.threads[i].l == Clearing;
      var e := Run(i, Go);
      assert [e][1..] == [] && From(Step(s, e), []) == Step(s, e);
      assert From(s, [e]) == Step(s, e);
      assert Lost(From(s, [e]), w);
    } else {
      forall events ensures !Lost(From(s, events), w) {
        CancellationHoldsUntilObserved(s, w, events);
      }
    }
  }

  /** An unseal finishes its body, a refresh claims the wallet and clears the flag, the refresh is
      cancelled, and only then the unseal clears the flag. */
  const LATE_UNSEAL: seq<Event> := [
    Spawn(Lifecycle(UnsealWallet, Announcing)), Spawn(Refresher(Asking)), Spawn(Canceller(false)),
    Run(0, Go), Run(0, Go), Run(0, Go), Run(1, Go), Run(1, Go), Run(2, Go), Run(0, Go)]

  lemma Next(k: nat)
    requires k < |LATE_UNSEAL|
    ensures After(LATE_UNSEAL[..k + 1]) == Step(After(LATE_UNSEAL[..k]), LATE_UNSEAL[k])
  {
    assert LATE_UNSEAL[..k + 1][..k] == LATE_UNSEAL[..k];
  }

  /** The exception is real: the refresh is still running, it was told to stop, and it will never learn. */
  lemma LateUnsealLosesCancellation()
    ensures var told, lost := After(LATE_UNSEAL[..9]), After(LATE_UNSEAL[..10]);
      && |told.threads| == 3 && told.cancel && told.threads[1] == Refresher(Cleared) && told.threads[2] == Canceller(true)
      && |lost.threads| == 3 && !lost.cancel && lost.threads[1] == Refresher(Cleared)
  {
    Next(0);
    Next(1);
    Next(2);
    assert After(LATE_UNSEAL[..3]).threads == [Lifecycle(UnsealWallet, Announcing), Refresher(Asking), Canceller(false)];
    Next(3);
    Next(4);
    Next(5);
    assert After(LATE_UNSEAL[..6]).threads == [Lifecycle(UnsealWallet, Clearing), Refresher(Asking), Canceller(false)];
    Next(6);
    Next(7);
    Next(8);
    Next(9);
  }
}
