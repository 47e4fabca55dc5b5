/** Registration on demand with one tracked retry (app/server.py: Registrar).
    Manifests are numbered by age; an attempt sends the manifest current when it
    gets the attempt lock. Coupled joins this protocol to Replication. */
module Registrar {
  import opened Basics
  import Runs
  import opened Identity

  // ----- State -----

  datatype Who = ByCall(k: nat) | ByRetry(r: nat)

  /** register(): Queued until its attempt ends, then waiting for the retry it
      cancelled, then in the on_registered hook. */
  datatype CallPc = Queued | StoppingRetry(r: nat) | InHook | Over | Gone

  /** Who called register(): the lifespan at startup, on_connect in the set-up task,
      or on_registries_updated in the refresh task. */
  datatype Origin = Startup | OnConnect | OnRefresh

  /** cancelled: a cancellation was requested of the calling task, which can then
      only unwind. */
  datatype Call = Call(version: nat, origin: Origin, pc: CallPc, cancelled: bool)

  /** _retry_until_registered: Trying from joining the attempt lock's queue on. */
  datatype RetryPc = Asleep | Trying | RetryInHook | Ended
  datatype Retry = Retry(pc: RetryPc, cancelled: bool)

  /** lock: the attempt lock's queue, its holder first; sending: the manifest of
      the attempt in flight; hooks: how often the on_registered hook was started.
      registrarStopped: shutdown has called stop(). */
  datatype State = State(
    manifest: nat, registered: nat,
    calls: seq<Call>, retries: seq<Retry>, tracked: Option<nat>,
    lock: seq<Who>, sending: Option<nat>,
    registrarStopped: bool, hooks: nat)

  predicate Initial(s: State) {
    s == State(s.manifest, 0, [], [], None, [], None, false, 0)
  }

  datatype Step =
    | ManifestChanges
    | Registers(origin: Origin)
    | Begins
    | Lands
    | Fails(tookEffect: bool)
    | StopWaitOver(k: nat)
    | HookOver(k: nat)
    | CancelsCalls(which: set<nat>)
    | CallUnwinds(k: nat, tookEffect: bool)
    | RetryWakes(r: nat)
    | RetryUnwinds(r: nat, tookEffect: bool)
    | RetryHookOver(r: nat)
    | RegistrarStops

  // ----- Steps -----

  predicate Cancelled(s: State, w: Who) {
    match w
    case ByCall(k) => k < |s.calls| && s.calls[k].cancelled
    case ByRetry(r) => r < |s.retries| && s.retries[r].cancelled
  }

  predicate Idle(c: Call) {
    c.pc == Over || c.pc == Gone
  }

  predicate Enabled(s: State, step: Step) {
    match step
    case ManifestChanges => true
    case Registers(_) => true
    case Begins => s.lock != [] && s.sending.None? && !Cancelled(s, s.lock[0])
    case Lands => s.lock != [] && s.sending.Some? && InRange(s, s.lock[0]) && !Cancelled(s, s.lock[0])
    case Fails(_) => s.lock != [] && s.sending.Some? && InRange(s, s.lock[0]) && !Cancelled(s, s.lock[0])
    case StopWaitOver(k) =>
      k < |s.calls| && !s.calls[k].cancelled && s.calls[k].pc.StoppingRetry? && s.calls[k].pc.r < |s.retries| &&
      s.retries[s.calls[k].pc.r].pc == Ended
    case HookOver(k) => k < |s.calls| && !s.calls[k].cancelled && s.calls[k].pc == InHook
    case CancelsCalls(_) => true
    case CallUnwinds(k, _) => k < |s.calls| && s.calls[k].cancelled && !Idle(s.calls[k])
    case RetryWakes(r) => r < |s.retries| && s.retries[r].pc == Asleep && !s.retries[r].cancelled
    case RetryUnwinds(r, _) =>
      r < |s.retries| && s.retries[r].cancelled && (s.retries[r].pc == Asleep || s.retries[r].pc == Trying)
    case RetryHookOver(r) => r < |s.retries| && s.retries[r].pc == RetryInHook
    case RegistrarStops => !s.registrarStopped
  }

  predicate InRange(s: State, w: Who) {
    match w
    case ByCall(k) => k < |s.calls|
    case ByRetry(r) => r < |s.retries|
  }

  function WithCall(s: State, k: nat, pc: CallPc): State
    requires k < |s.calls|
  {
    s.(calls := s.calls[k := s.calls[k].(pc := pc)])
  }

  function WithRetry(s: State, r: nat, pc: RetryPc): State
    requires r < |s.retries|
  {
    s.(retries := s.retries[r := s.retries[r].(pc := pc)])
  }

  /** The hook is awaited: its write, if any, is requested in this same segment. */
  function HookRuns(s: State): State {
    s.(hooks := s.hooks + 1)
  }

  function CallsCancelled(calls: seq<Call>, which: set<nat>): seq<Call> {
    seq(|calls|, k requires 0 <= k < |calls| =>
      if k in which && !Idle(calls[k]) then calls[k].(cancelled := true) else calls[k])
  }

  /** stop() up to its await: let go of the retry, then cancel it. */
  function Detached(s: State): State {
    if s.tracked.Some? && s.tracked.value < |s.retries|
    then s.(tracked := None, retries := s.retries[s.tracked.value := s.retries[s.tracked.value].(cancelled := true)])
    else s.(tracked := None)
  }

  /** The attempt in flight succeeds; its owner goes on in the same segment. */
  function AfterLands(s: State): State
    requires Enabled(s, Lands)
  {
    var done := s.(registered := s.sending.value, sending := None, lock := s.lock[1..]);
    match s.lock[0]
    case ByCall(k) =>
      if s.tracked.Some? then WithCall(Detached(done), k, StoppingRetry(s.tracked.value))
      else HookRuns(WithCall(done, k, InHook))
    case ByRetry(r) =>
      var letGo := if s.tracked == Some(r) then done.(tracked := None) else done;
      HookRuns(WithRetry(letGo, r, RetryInHook))
  }

  predicate RetryLive(s: State) {
    s.tracked.Some? && s.tracked.value < |s.retries| && s.retries[s.tracked.value].pc != Ended
  }

  /** The attempt in flight fails, perhaps after it took effect. */
  function AfterFails(s: State, tookEffect: bool): State
    requires Enabled(s, Fails(tookEffect))
  {
    var registered := if tookEffect then s.sending.value else s.registered;
    var done := s.(registered := registered, sending := None, lock := s.lock[1..]);
    match s.lock[0]
    case ByCall(k) =>
      var scheduled :=
        if RetryLive(s) then done
        else done.(retries := s.retries + [Retry(Asleep, false)], tracked := Some(|s.retries|));
      WithCall(scheduled, k, Over)
    case ByRetry(r) => WithRetry(done, r, Asleep)
  }

  function Without(lock: seq<Who>, w: Who): (rest: seq<Who>) {
    if lock == [] then []
    else if lock[0] == w then lock[1..]
    else [lock[0]] + Without(lock[1..], w)
  }

  /** A cancelled attempt leaves the lock's queue; one in flight may take effect. */
  function Withdrawn(s: State, w: Who, tookEffect: bool): State {
    if s.lock != [] && s.lock[0] == w
    then s.(lock := s.lock[1..], sending := None,
            registered := if tookEffect && s.sending.Some? then s.sending.value else s.registered)
    else s.(lock := Without(s.lock, w))
  }

  function Apply(s: State, step: Step): State
    requires Enabled(s, step)
  {
    match step
    case ManifestChanges => s.(manifest := s.manifest + 1)
    case Registers(origin) => s.(calls := s.calls + [Call(s.manifest, origin, Queued, false)],
                                 lock := s.lock + [ByCall(|s.calls|)])
    case Begins => s.(sending := Some(s.manifest))
    case Lands => AfterLands(s)
    case Fails(tookEffect) => AfterFails(s, tookEffect)
    case StopWaitOver(k) => HookRuns(WithCall(s, k, InHook))
    case HookOver(k) => WithCall(s, k, Over)
    case CancelsCalls(which) => s.(calls := CallsCancelled(s.calls, which))
    case CallUnwinds(k, tookEffect) => WithCall(Withdrawn(s, ByCall(k), tookEffect), k, Gone)
    case RetryWakes(r) => WithRetry(s, r, Trying).(lock := s.lock + [ByRetry(r)])
    case RetryUnwinds(r, tookEffect) => WithRetry(Withdrawn(s, ByRetry(r), tookEffect), r, Ended)
    case RetryHookOver(r) => WithRetry(s, r, Ended)
    case RegistrarStops => Detached(s).(registrarStopped := true)
  }

  function Next(s: State, step: Step): Option<State> {
    if Enabled(s, step) then Some(Apply(s, step)) else None
  }

  ghost predicate Reachable(s: State) {
    Runs.Reachable(Initial, Next, s)
  }

  // ----- The invariant -----

  predicate AttemptEnded(c: Call) {
    c.pc != Queued && c.pc != Gone
  }

  predicate Joined(s: State, w: Who) {
    match w
    case ByCall(k) => k < |s.calls| && s.calls[k].pc == Queued
    case ByRetry(r) => r < |s.retries| && s.retries[r].pc == Trying
  }

  /** The lock's queue holds exactly the queued calls and trying retries, once each. */
  ghost predicate LockFits(s: State) {
    && Distinct(s.lock)
    && (forall w :: w in s.lock <==> Joined(s, w))
    && (s.sending.Some? ==> s.lock != [])
  }

  /** Manifests only get newer, and one in flight is newer than all that ended. */
  predicate VersionsFit(s: State) {
    && s.registered <= s.manifest
    && (forall k :: 0 <= k < |s.calls| ==> s.calls[k].version <= s.manifest)
    && (s.sending.Some? ==>
          && s.registered <= s.sending.value <= s.manifest
          && (forall k :: 0 <= k < |s.calls| && AttemptEnded(s.calls[k]) ==> s.calls[k].version <= s.sending.value)
          && (s.lock != [] && s.lock[0].ByCall? && s.lock[0].k < |s.calls| ==>
                s.calls[s.lock[0].k].version <= s.sending.value))
  }

  /** The tracked retry is live; any other that could still register is cancelled. */
  predicate RetriesFit(s: State) {
    && (s.tracked.Some? ==>
          s.tracked.value < |s.retries| && !s.retries[s.tracked.value].cancelled &&
          (s.retries[s.tracked.value].pc == Asleep || s.retries[s.tracked.value].pc == Trying))
    && (forall r :: 0 <= r < |s.retries| && s.tracked != Some(r) ==>
          s.retries[r].cancelled || s.retries[r].pc == RetryInHook || s.retries[r].pc == Ended)
  }

  predicate NothingLost(s: State) {
    forall k :: 0 <= k < |s.calls| && AttemptEnded(s.calls[k]) ==>
      s.calls[k].version <= s.registered || s.tracked.Some? || s.registrarStopped
  }

  ghost predicate Inv(s: State) {
    LockFits(s) && VersionsFit(s) && RetriesFit(s) && NothingLost(s)
  }

  // ----- Preservation -----

  lemma HeadAndTail(lock: seq<Who>)
    requires lock != [] && Distinct(lock)
    ensures forall v :: v in lock <==> v == lock[0] || v in lock[1..]
    ensures lock[0] !in lock[1..] && Distinct(lock[1..])
  {
  }

  lemma {:induction false} WithoutMembers(lock: seq<Who>, w: Who, v: Who)
    requires Distinct(lock)
    ensures v in Without(lock, w) <==> v in lock && v != w
  {
    if lock != [] {
      HeadAndTail(lock);
      if lock[0] != w {
        WithoutMembers(lock[1..], w, v);
      }
    }
  }

  lemma ConsDistinct(head: Who, rest: seq<Who>)
    requires head !in rest && Distinct(rest)
    ensures Distinct([head] + rest)
  {
    assert forall j :: 0 <= j < |rest| ==> rest[j] in rest;
  }

  lemma {:induction false} WithoutDistinct(lock: seq<Who>, w: Who)
    requires Distinct(lock)
    ensures Distinct(Without(lock, w))
  {
    if lock != [] {
      HeadAndTail(lock);
      if lock[0] != w {
        WithoutMembers(lock[1..], w, lock[0]);
        WithoutDistinct(lock[1..], w);
        ConsDistinct(lock[0], Without(lock[1..], w));
      }
    }
  }

  lemma WithoutDrops(lock: seq<Who>, w: Who)
    requires Distinct(lock)
    ensures forall v :: v in Without(lock, w) <==> v in lock && v != w
    ensures Distinct(Without(lock, w))
    ensures lock != [] && lock[0] != w ==> Without(lock, w) != [] && Without(lock, w)[0] == lock[0]
  {
    WithoutDistinct(lock, w);
    forall v
      ensures v in Without(lock, w) <==> v in lock && v != w
    {
      WithoutMembers(lock, w, v);
    }
  }

  lemma WithdrawnKeeps(s: State, w: Who, tookEffect: bool)
    requires Inv(s)
    ensures var next := Withdrawn(s, w, tookEffect);
            && next.calls == s.calls && next.retries == s.retries
            && (forall v :: v in next.lock <==> v in s.lock && v != w)
            && Distinct(next.lock)
            && (next.sending.Some? ==> next.lock != []) && VersionsFit(next) && RetriesFit(next) && NothingLost(next)
  {
    WithoutDrops(s.lock, w);
    if s.lock != [] && s.lock[0] == w {
      HeadAndTail(s.lock);
    }
  }

  lemma CallGoneKeeps(s: State, k: nat)
    requires k < |s.calls| && Distinct(s.lock) && (s.sending.Some? ==> s.lock != [])
    requires forall w :: w in s.lock <==> w != ByCall(k) && Joined(s, w)
    requires VersionsFit(s) && RetriesFit(s) && NothingLost(s)
    ensures Inv(WithCall(s, k, Gone))
  {
  }

  lemma CancelKeeps(s: State, step: Step)
    requires Inv(s) && Enabled(s, step) && step.CallUnwinds?
    ensures Inv(Apply(s, step))
  {
    WithdrawnKeeps(s, ByCall(step.k), step.tookEffect);
    CallGoneKeeps(Withdrawn(s, ByCall(step.k), step.tookEffect), step.k);
  }

  /** A cancelled retry ends: nothing else depends on it. */
  lemma RetryEndKeeps(s: State, r: nat)
    requires r < |s.retries| && s.retries[r].cancelled
    requires Distinct(s.lock) && (s.sending.Some? ==> s.lock != [])
    requires forall w :: w in s.lock <==> w != ByRetry(r) && Joined(s, w)
    requires VersionsFit(s) && RetriesFit(s) && NothingLost(s)
    ensures Inv(WithRetry(s, r, Ended))
  {
  }

  lemma UnwindKeeps(s: State, step: Step)
    requires Inv(s) && Enabled(s, step) && step.RetryUnwinds?
    ensures Inv(Apply(s, step))
  {
    WithdrawnKeeps(s, ByRetry(step.r), step.tookEffect);
    RetryEndKeeps(Withdrawn(s, ByRetry(step.r), step.tookEffect), step.r);
  }

  /** An attempt ends: its owner leaves the lock. */
  lemma HeadLeaves(s: State, registered: nat)
    requires Inv(s) && s.lock != [] && s.sending.Some? && (registered == s.registered || registered == s.sending.value)
    ensures var done := s.(registered := registered, sending := None, lock := s.lock[1..]);
            && Distinct(done.lock)
            && (forall v :: v in done.lock <==> v in s.lock && v != s.lock[0])
            && VersionsFit(done) && RetriesFit(done) && NothingLost(done)
  {
    HeadAndTail(s.lock);
  }

  lemma CallLands(s: State)
    requires Inv(s) && Enabled(s, Lands) && s.lock[0].ByCall?
    ensures Inv(Apply(s, Lands))
  {
    assert s.lock[0] in s.lock;
    HeadLeaves(s, s.sending.value);
    var done := s.(registered := s.sending.value, sending := None, lock := s.lock[1..]);
    if s.tracked.Some? {
      LandedCallStopsRetry(done, s.lock[0].k);
    } else {
      LandedCallRunsHook(done, s.lock[0].k);
    }
  }

  lemma LandedCallStopsRetry(s: State, k: nat)
    requires k < |s.calls| && s.calls[k].pc == Queued && s.tracked.Some?
    requires Distinct(s.lock) && s.sending.None?
    requires forall w :: w in s.lock <==> w != ByCall(k) && Joined(s, w)
    requires VersionsFit(s) && RetriesFit(s)
    requires forall j :: 0 <= j < |s.calls| && (AttemptEnded(s.calls[j]) || j == k) ==>
              s.calls[j].version <= s.registered
    ensures Inv(WithCall(Detached(s), k, StoppingRetry(s.tracked.value)))
  {
  }

  lemma LandedCallRunsHook(s: State, k: nat)
    requires k < |s.calls| && s.calls[k].pc == Queued && s.tracked.None?
    requires Distinct(s.lock) && s.sending.None?
    requires forall w :: w in s.lock <==> w != ByCall(k) && Joined(s, w)
    requires VersionsFit(s) && RetriesFit(s)
    requires forall j :: 0 <= j < |s.calls| && (AttemptEnded(s.calls[j]) || j == k) ==>
              s.calls[j].version <= s.registered
    ensures Inv(HookRuns(WithCall(s, k, InHook)))
  {
  }

  lemma RetryLands(s: State)
    requires Inv(s) && Enabled(s, Lands) && s.lock[0].ByRetry?
    ensures Inv(Apply(s, Lands))
  {
    assert s.lock[0] in s.lock;
    HeadLeaves(s, s.sending.value);
  }

  lemma RetryScheduled(s: State)
    requires RetriesFit(s) && !RetryLive(s)
    ensures var next := s.(retries := s.retries + [Retry(Asleep, false)], tracked := Some(|s.retries|));
            RetriesFit(next) && forall w :: Joined(next, w) <==> Joined(s, w)
  {
  }

  lemma CallOverKeeps(s: State, k: nat)
    requires k < |s.calls| && s.calls[k].pc == Queued && s.tracked.Some?
    requires Distinct(s.lock) && s.sending.None?
    requires forall w :: w in s.lock <==> w != ByCall(k) && Joined(s, w)
    requires VersionsFit(s) && RetriesFit(s) && NothingLost(s)
    ensures Inv(WithCall(s, k, Over))
  {
  }

  lemma CallFails(s: State, step: Step)
    requires Inv(s) && Enabled(s, step) && step.Fails? && s.lock[0].ByCall?
    ensures Inv(Apply(s, step))
  {
    assert s.lock[0] in s.lock;
    var registered := if step.tookEffect then s.sending.value else s.registered;
    HeadLeaves(s, registered);
    var done := s.(registered := registered, sending := None, lock := s.lock[1..]);
    if RetryLive(done) {
      CallOverKeeps(done, s.lock[0].k);
    } else {
      RetryScheduled(done);
      CallOverKeeps(done.(retries := s.retries + [Retry(Asleep, false)], tracked := Some(|s.retries|)), s.lock[0].k);
    }
  }

  lemma RetryFails(s: State, step: Step)
    requires Inv(s) && Enabled(s, step) && step.Fails? && s.lock[0].ByRetry?
    ensures Inv(Apply(s, step))
  {
    assert s.lock[0] in s.lock;
    HeadLeaves(s, if step.tookEffect then s.sending.value else s.registered);
  }

  lemma StepKeeps(s: State, step: Step)
    requires Inv(s) && Enabled(s, step)
    ensures Inv(Apply(s, step))
  {
    match step
    case CallUnwinds(_, _) => CancelKeeps(s, step);
    case CancelsCalls(which) => CancellationKeeps(s, which);
    case RetryUnwinds(_, _) => UnwindKeeps(s, step);
    case Lands => if s.lock[0].ByCall? { CallLands(s); } else { RetryLands(s); }
    case Fails(_) => if s.lock[0].ByCall? { CallFails(s, step); } else { RetryFails(s, step); }
    case Registers(origin) => CallJoins(s, origin);
    case RetryWakes(r) => RetryJoins(s, r);
    case Begins => BeginKeeps(s);
    case StopWaitOver(_) => CallMovesOn(s, step);
    case HookOver(_) => CallMovesOn(s, step);
    case RetryHookOver(_) => RetryMovesOn(s, step);
    case RegistrarStops => RetryMovesOn(s, step);
    case _ => AsideKeeps(s, step);
  }

  lemma CancellationKeeps(s: State, which: set<nat>)
    requires Inv(s)
    ensures Inv(s.(calls := CallsCancelled(s.calls, which)))
  {
    var next := s.(calls := CallsCancelled(s.calls, which));
    assert forall w :: Joined(next, w) <==> Joined(s, w);
  }

  lemma CallJoins(s: State, origin: Origin)
    requires Inv(s) && Enabled(s, Registers(origin))
    ensures Inv(Apply(s, Registers(origin)))
  {
    var who := ByCall(|s.calls|);
    assert who !in s.lock;
    assert forall v :: v in s.lock + [who] <==> v == who || v in s.lock;
  }

  lemma RetryJoins(s: State, r: nat)
    requires Inv(s) && Enabled(s, RetryWakes(r))
    ensures Inv(Apply(s, RetryWakes(r)))
  {
    assert ByRetry(r) !in s.lock;
    assert forall v :: v in s.lock + [ByRetry(r)] <==> v == ByRetry(r) || v in s.lock;
  }

  lemma BeginKeeps(s: State)
    requires Inv(s) && Enabled(s, Begins)
    ensures Inv(Apply(s, Begins))
  {
  }

  lemma CallMovesOn(s: State, step: Step)
    requires Inv(s) && Enabled(s, step) && (step.StopWaitOver? || step.HookOver?)
    ensures Inv(Apply(s, step))
  {
    assert forall w :: Joined(Apply(s, step), w) <==> Joined(s, w);
  }

  lemma RetryMovesOn(s: State, step: Step)
    requires Inv(s) && Enabled(s, step) && (step.RetryHookOver? || step.RegistrarStops?)
    ensures Inv(Apply(s, step))
  {
    assert forall w :: Joined(Apply(s, step), w) <==> Joined(s, w);
  }

  lemma AsideKeeps(s: State, step: Step)
    requires Inv(s) && Enabled(s, step) && step.ManifestChanges?
    ensures Inv(Apply(s, step))
  {
  }

  lemma ReachableHolds(s: State)
    requires Reachable(s)
    ensures Inv(s)
  {
    forall x, step | Inv(x) && Next(x, step).Some?
      ensures Inv(Next(x, step).value)
    {
      StepKeeps(x, step);
    }
    Runs.ReachableKeeps(Initial, Next, Inv, s);
  }

  // ----- The retry a call waits for -----

  /** It has ended, or its cancellation is about to end it. */
  predicate RetryStops(retries: seq<Retry>, r: nat) {
    && r < |retries|
    && (retries[r].pc == Ended || (retries[r].cancelled && (retries[r].pc == Asleep || retries[r].pc == Trying)))
  }

  predicate StopsFit(calls: seq<Call>, retries: seq<Retry>) {
    forall k :: 0 <= k < |calls| && calls[k].pc.StoppingRetry? ==> RetryStops(retries, calls[k].pc.r)
  }

  /** Retries only go on: one that stops keeps stopping. */
  lemma StoppingStays(s: State, step: Step, r: nat)
    requires LockFits(s) && RetryStops(s.retries, r) && Enabled(s, step)
    ensures RetryStops(Apply(s, step).retries, r)
  {
    assert step.Lands? || step.Fails? ==> s.lock[0] in s.lock;
  }

  /** Only a landed call starts to wait for a retry, the one it cancels. */
  lemma WaitsBegin(s: State, step: Step, k: nat)
    requires LockFits(s) && RetriesFit(s) && Enabled(s, step)
    requires k < |Apply(s, step).calls| && Apply(s, step).calls[k].pc.StoppingRetry?
    ensures (k < |s.calls| && s.calls[k].pc == Apply(s, step).calls[k].pc) ||
            RetryStops(Apply(s, step).retries, Apply(s, step).calls[k].pc.r)
  {
    if step.Lands? {
      assert s.lock[0] in s.lock;
    } else if step.CancelsCalls? {
      assert Apply(s, step).calls[k].pc == s.calls[k].pc;
    }
  }

  lemma StopsStay(s: State, step: Step)
    requires Inv(s) && StopsFit(s.calls, s.retries) && Enabled(s, step)
    ensures StopsFit(Apply(s, step).calls, Apply(s, step).retries)
  {
    var next := Apply(s, step);
    forall k | 0 <= k < |next.calls| && next.calls[k].pc.StoppingRetry?
      ensures RetryStops(next.retries, next.calls[k].pc.r)
    {
      WaitsBegin(s, step, k);
      if k < |s.calls| && s.calls[k].pc == next.calls[k].pc {
        StoppingStays(s, step, s.calls[k].pc.r);
      }
    }
  }

  // ----- Main results -----

  /** No registration is lost: whatever ended, failed or overlapped, every finished
      register() is covered by what is registered or by a live tracked retry, which
      no cancellation has reached; callers may be cancelled. Assumes stop() is not
      called from outside. */
  lemma NoRegistrationLost(s: State, k: nat)
    requires Reachable(s) && !s.registrarStopped
    requires k < |s.calls| && AttemptEnded(s.calls[k])
    ensures s.calls[k].version <= s.registered ||
            (RetryLive(s) && !s.retries[s.tracked.value].cancelled)
  {
    ReachableHolds(s);
  }

  /** The newest manifest asked for: once no call is queued or in flight it is
      registered, or the tracked retry's next attempt sends it or a newer one. */
  lemma NewestManifestIsCovered(s: State, newest: nat)
    requires Reachable(s) && !s.registrarStopped
    requires forall k :: 0 <= k < |s.calls| ==> s.calls[k].pc != Queued
    requires exists k :: 0 <= k < |s.calls| && s.calls[k].pc != Gone && s.calls[k].version == newest
    ensures newest <= s.registered || (RetryLive(s) && newest <= s.manifest)
    ensures RetryLive(s) && Enabled(s, Begins) ==> newest <= Apply(s, Begins).sending.value
  {
    ReachableHolds(s);
    var k :| 0 <= k < |s.calls| && s.calls[k].pc != Gone && s.calls[k].version == newest;
    NoRegistrationLost(s, k);
  }

  /** A landing never costs a newer failure its retry: when one lets a retry go,
      every finished call's manifest is registered. */
  lemma LandingCoversAll(s: State, k: nat)
    requires Reachable(s) && Enabled(s, Lands)
    requires k < |Apply(s, Lands).calls| && AttemptEnded(Apply(s, Lands).calls[k])
    ensures Apply(s, Lands).calls[k].version <= Apply(s, Lands).registered
  {
    ReachableHolds(s);
    assert s.lock[0] in s.lock;
  }

  /** The hook is started by exactly these: a retry that lands, by then no longer
      tracked; a call that lands with no retry tracked; and a call whose wait for the
      retry it cancelled at its landing is over. */
  lemma HookFollowsLanding(s: State, step: Step)
    requires Reachable(s) && Enabled(s, step)
    ensures var next := Apply(s, step);
            next.hooks == s.hooks + (if (step.Lands? && (s.lock[0].ByRetry? || s.tracked.None?)) || step.StopWaitOver?
                                     then 1 else 0)
    ensures step.Lands? ==>
              var next := Apply(s, step);
              && next.registered == s.sending.value && next.lock == s.lock[1..] && next.sending.None?
              && (match s.lock[0]
                  case ByCall(k) =>
                    && next.tracked.None? && |next.retries| == |s.retries|
                    && if s.tracked.None? then next.calls[k].pc == InHook
                       else s.tracked.value < |next.retries| && next.retries[s.tracked.value].cancelled &&
                            next.calls[k].pc == StoppingRetry(s.tracked.value)
                  case ByRetry(r) =>
                    && next.tracked == (if s.tracked == Some(r) then None else s.tracked)
                    && next.retries[r].pc == RetryInHook)
  {
    ReachableHolds(s);
  }

  /** The attempt at the head of the lock's queue goes on: it begins, its outcome comes,
      or its cancelled owner unwinds. */
  function HeadStep(s: State): Step
    requires s.lock != []
  {
    if Cancelled(s, s.lock[0]) then
      (match s.lock[0]
       case ByCall(k) => CallUnwinds(k, false)
       case ByRetry(r) => RetryUnwinds(r, false))
    else if s.sending.None? then Begins
    else Lands
  }

  /** The head's attempt is over. */
  predicate HeadEnds(s: State, step: Step)
    requires s.lock != []
  {
    step.Lands? || step.Fails? ||
    (step.CallUnwinds? && s.lock[0] == ByCall(step.k)) || (step.RetryUnwinds? && s.lock[0] == ByRetry(step.r))
  }

  /** The tracked retry gets its turn: asleep, it can wake and then waits for the
      attempt lock; waiting, it is never overtaken, the attempt ahead of it can always
      go on, and each one that ends brings it a place nearer. */
  lemma RetryGetsItsTurn(s: State, r: nat, step: Step)
    requires Reachable(s) && s.tracked == Some(r) && Enabled(s, step)
    ensures r < |s.retries| && !s.retries[r].cancelled
    ensures s.retries[r].pc == Asleep ==>
              Enabled(s, RetryWakes(r)) && Apply(s, RetryWakes(r)).lock == s.lock + [ByRetry(r)]
    ensures s.retries[r].pc != Asleep ==> ByRetry(r) in s.lock && Enabled(s, HeadStep(s))
    ensures ByRetry(r) in s.lock && ByRetry(r) in Apply(s, step).lock ==>
              var was, now := IndexOf(s.lock, ByRetry(r)), IndexOf(Apply(s, step).lock, ByRetry(r));
              now <= was && (HeadEnds(s, step) ==> now < was)
  {
    ReachableHolds(s);
    StepKeeps(s, step);
    assert s.retries[r].pc != Asleep ==> Joined(s, ByRetry(r));
    if s.lock != [] {
      HeadMovesOn(s);
    }
    if ByRetry(r) in s.lock && ByRetry(r) in Apply(s, step).lock {
      PlaceMovesOn(s, step, ByRetry(r));
    }
  }

  lemma HeadMovesOn(s: State)
    requires Inv(s) && s.lock != []
    ensures Enabled(s, HeadStep(s))
  {
    assert s.lock[0] in s.lock && Joined(s, s.lock[0]);
  }

  /** Nobody in the lock's queue is overtaken. */
  lemma PlaceMovesOn(s: State, step: Step, w: Who)
    requires Inv(s) && Enabled(s, step) && Inv(Apply(s, step)) && w in s.lock && w in Apply(s, step).lock
    ensures IndexOf(Apply(s, step).lock, w) <= IndexOf(s.lock, w)
    ensures HeadEnds(s, step) ==> IndexOf(Apply(s, step).lock, w) < IndexOf(s.lock, w)
  {
    var now := Apply(s, step).lock;
    if s.lock <= now {
      PlaceStays(s.lock, now, w);
      if HeadEnds(s, step) { HeadGoes(s, step); }
    } else if now == s.lock[1..] {
      PlaceInTail(s.lock, w);
    } else {
      var v := if step.CallUnwinds? then ByCall(step.k) else ByRetry(step.r);
      PlaceWithout(s.lock, v, w);
    }
  }

  lemma HeadGoes(s: State, step: Step)
    requires Enabled(s, step) && s.lock != [] && HeadEnds(s, step)
    ensures Apply(s, step).lock == s.lock[1..]
  {
  }

  lemma PlaceInTail(lock: seq<Who>, w: Who)
    requires Distinct(lock) && lock != [] && w in lock[1..]
    ensures IndexOf(lock[1..], w) == IndexOf(lock, w) - 1
  {
    assert lock[IndexOf(lock[1..], w) + 1] == w;
  }

  lemma {:induction false} PlaceWithout(lock: seq<Who>, v: Who, w: Who)
    requires Distinct(lock) && w in Without(lock, v)
    ensures w in lock && IndexOf(Without(lock, v), w) <= IndexOf(lock, w)
    decreases |lock|
  {
    WithoutDrops(lock, v);
    HeadAndTail(lock);
    if lock[0] == v {
      PlaceInTail(lock, w);
    } else if lock[0] != w {
      var rest := Without(lock[1..], v);
      assert w in rest;
      PlaceWithout(lock[1..], v, w);
      PlaceInTail(lock, w);
      assert Without(lock, v)[1..] == rest;
      PlaceInTail(Without(lock, v), w);
    }
  }

  lemma AttemptOnlyGrows(s: State, step: Step)
    requires VersionsFit(s) && Enabled(s, step)
    requires step.Lands? || step.Fails? || step.CallUnwinds? || step.RetryUnwinds?
    ensures s.registered <= Apply(s, step).registered <= s.manifest && Apply(s, step).manifest == s.manifest
  {
  }

  /** Attempts run one at a time and only ever register newer manifests. */
  lemma RegisteredOnlyGrows(s: State, step: Step)
    requires Reachable(s) && Enabled(s, step)
    ensures s.registered <= Apply(s, step).registered <= Apply(s, step).manifest
  {
    ReachableHolds(s);
    if step.Lands? || step.Fails? || step.CallUnwinds? || step.RetryUnwinds? {
      AttemptOnlyGrows(s, step);
    }
  }
}
