/** Command correlation (app/ha_connection.py: _cmd, _fail_pending and the result
    branch of _handle_message), over a whole process run: connections come and go,
    the id counter and the table of pending commands stay. */
module Commands {
  import opened Basics
  import Runs

  /** A command's future: Waiting, or how it was resolved, for good. Abandoned: its
      caller was cancelled, or sending it raised. */
  datatype Outcome = Waiting | Result | CommandError | HookRaised | ConnectionLost | TimedOut | Abandoned

  /** History: result frames in arrival order, and the hooks run for them with
      whether they raised. */
  datatype Entry = Handled(id: nat, success: bool) | HookRan(id: nat, raised: bool)

  /** hooks: history. Which of all the commands ever sent has a result hook. */
  datatype Table = Table(
    nextId: nat, pending: map<nat, bool>, futures: map<nat, Outcome>, log: seq<Entry>, hooks: map<nat, bool>)

  const FRESH := Table(1, map[], map[], [], map[])

  /** pending maps an id to whether its command has a result hook. */
  datatype Step =
    | Sends(hook: bool)
    | ReplyArrives(id: nat, success: bool, hookRaises: bool)
    | TimesOut(id: nat)
    | CallerCancelled(id: nat)
    | SendFails(id: nat)
    | CommandReturns(id: nat)
    | Drops

  predicate Waits(t: Table, id: nat) {
    id in t.futures && t.futures[id] == Waiting
  }

  predicate Enabled(t: Table, s: Step) {
    match s
    case Sends(_) => true
    case ReplyArrives(_, _, _) => true
    case TimesOut(id) => Waits(t, id)
    case CallerCancelled(id) => Waits(t, id)
    case SendFails(id) => Waits(t, id)
    case CommandReturns(id) => id in t.futures && !Waits(t, id)
    case Drops => true
  }

  function AfterReply(t: Table, id: nat, success: bool, hookRaises: bool): Table {
    var seen := t.(log := t.log + [Handled(id, success)]);
    if id !in t.pending || !Waits(t, id) then seen
    else if !success then seen.(futures := t.futures[id := CommandError])
    else if !t.pending[id] then seen.(futures := t.futures[id := Result])
    else seen.(futures := t.futures[id := if hookRaises then HookRaised else Result],
               log := seen.log + [HookRan(id, hookRaises)])
  }

  /** These commands, where still waiting, are told that the connection is lost. */
  function Lost(futures: map<nat, Outcome>, ids: set<nat>): map<nat, Outcome> {
    map id | id in futures :: if id in ids && futures[id] == Waiting then ConnectionLost else futures[id]
  }

  function AfterDrop(t: Table): Table {
    t.(pending := map[], futures := Lost(t.futures, t.pending.Keys))
  }

  function Apply(t: Table, s: Step): Table
    requires Enabled(t, s)
  {
    match s
    case Sends(hook) =>
      t.(nextId := t.nextId + 1, pending := t.pending[t.nextId := hook], futures := t.futures[t.nextId := Waiting],
         hooks := t.hooks[t.nextId := hook])
    case ReplyArrives(id, success, hookRaises) => AfterReply(t, id, success, hookRaises)
    case TimesOut(id) => t.(futures := t.futures[id := TimedOut])
    case CallerCancelled(id) => t.(futures := t.futures[id := Abandoned])
    case SendFails(id) => t.(futures := t.futures[id := Abandoned], pending := t.pending - {id})
    case CommandReturns(id) => t.(pending := t.pending - {id})
    case Drops => AfterDrop(t)
  }

  function Next(t: Table, step: Step): Option<Table> {
    if Enabled(t, step) then Some(Apply(t, step)) else None
  }

  /** The table after these steps, if each was enabled in its turn. */
  function Run(t: Table, steps: seq<Step>): Option<Table> {
    Runs.RunOf(Next, t, steps)
  }

  predicate Initial(t: Table) {
    t == FRESH
  }

  ghost predicate Reachable(t: Table) {
    Runs.Reachable(Initial, Next, t)
  }

  predicate Ran(t: Table, i: int) {
    0 <= i < |t.log| && t.log[i].HookRan?
  }

  ghost predicate IdsFit(t: Table) {
    && 1 <= t.nextId
    && (forall id :: id in t.futures <==> 1 <= id < t.nextId)
    && (forall id :: id in t.pending ==> id in t.futures)
    && (forall id :: Waits(t, id) ==> id in t.pending)
  }

  /** A hook's command is done, with the reply the hook was run for. */
  predicate Honoured(t: Table, id: nat) {
    id in t.futures && (t.futures[id] == Result || t.futures[id] == HookRaised)
  }

  ghost predicate HooksFit(t: Table) {
    && (forall i :: Ran(t, i) ==> i > 0 && t.log[i - 1] == Handled(t.log[i].id, true) && Honoured(t, t.log[i].id))
    && (forall i, k :: Ran(t, i) && Ran(t, k) && i != k ==> t.log[i].id != t.log[k].id)
  }

  ghost predicate Inv(t: Table) {
    IdsFit(t) && HooksFit(t)
  }

  /** A longer log with no new hook in it keeps what was said of hooks. */
  lemma NoNewHook(t: Table, next: Table)
    requires HooksFit(t)
    requires next.log == t.log ||
            (|next.log| == |t.log| + 1 && next.log[..|t.log|] == t.log && next.log[|t.log|].Handled?)
    requires forall id :: Honoured(t, id) ==> Honoured(next, id)
    ensures HooksFit(next)
  {
    assert forall i :: 0 <= i < |t.log| ==> next.log[i] == next.log[..|t.log|][i] == t.log[i] || next.log == t.log;
    forall i | Ran(next, i)
      ensures Ran(t, i) && next.log[i] == t.log[i] && (i > 0 ==> next.log[i - 1] == t.log[i - 1])
    {
    }
  }

  lemma NewHook(t: Table, next: Table, id: nat, raised: bool)
    requires HooksFit(t) && Waits(t, id) && next.log == t.log + [Handled(id, true)] + [HookRan(id, raised)]
    requires Honoured(next, id) && forall other :: Honoured(t, other) ==> Honoured(next, other)
    ensures HooksFit(next)
  {
    var n := |t.log|;
    assert next.log[n] == Handled(id, true) && next.log[n + 1] == HookRan(id, raised);
    assert forall i :: 0 <= i < n ==> next.log[i] == t.log[i];
    forall i | Ran(next, i)
      ensures i == n + 1 || (Ran(t, i) && next.log[i] == t.log[i] && t.log[i].id != id)
    {
      if i < n { assert Ran(t, i); }
    }
  }

  lemma StepKeeps(t: Table, s: Step)
    requires Inv(t) && Enabled(t, s)
    ensures Inv(Apply(t, s))
  {
    var next := Apply(t, s);
    assert forall id :: Honoured(t, id) ==> Honoured(next, id);
    if s.ReplyArrives? && s.success && s.id in t.pending && Waits(t, s.id) && t.pending[s.id] {
      NewHook(t, next, s.id, s.hookRaises);
    } else {
      if s.ReplyArrives? { assert next.log[..|t.log|] == t.log; }
      NoNewHook(t, next);
    }
  }

  lemma ReachableHolds(t: Table)
    requires Reachable(t)
    ensures Inv(t)
  {
    forall x, step | Inv(x) && Next(x, step).Some?
      ensures Inv(Next(x, step).value)
    {
      StepKeeps(x, step);
    }
    Runs.ReachableKeeps(Initial, Next, Inv, t);
  }

  // ----- Main results -----

  /** An id is never reused: a command gets one no earlier command ever had. */
  lemma IdsAreFresh(t: Table, hook: bool)
    requires Reachable(t)
    ensures t.nextId !in t.futures && t.nextId !in t.pending
    ensures forall id :: id in t.futures ==> id < t.nextId
  {
    ReachableHolds(t);
  }

  /** One step resolves a future only by its own reply, its timeout, its own caller
      giving it up, or a drop; a reply makes it a result or an error only if the
      command is still in the table. What it then holds tells which of these it was. */
  lemma ResolvedByItsOwn(t: Table, s: Step, id: nat)
    requires Reachable(t) && Enabled(t, s) && id in t.futures
    ensures id in Apply(t, s).futures
    ensures Apply(t, s).futures[id] != t.futures[id] ==>
              && t.futures[id] == Waiting
              && (s.Drops? || ((s.ReplyArrives? || s.TimesOut? || s.CallerCancelled? || s.SendFails?) && s.id == id))
              && (s.ReplyArrives? <==> Apply(t, s).futures[id] in {Result, CommandError, HookRaised})
              && (s.Drops? <==> Apply(t, s).futures[id] == ConnectionLost)
              && (s.TimesOut? <==> Apply(t, s).futures[id] == TimedOut)
              && (s.CallerCancelled? || s.SendFails? <==> Apply(t, s).futures[id] == Abandoned)
  {
    ReachableHolds(t);
  }

  /** A reply, an error and a hook's exception each come from a frame of their own. */
  ghost predicate OutcomeTold(t: Table, id: nat, hook: bool, outcome: Outcome) {
    match outcome
    case Result => Handled(id, true) in t.log && (hook ==> HookRan(id, false) in t.log)
    case HookRaised => Handled(id, true) in t.log && hook && HookRan(id, true) in t.log
    case CommandError => Handled(id, false) in t.log
    case _ => true
  }

  ghost predicate OutcomesFit(t: Table) {
    && t.hooks.Keys == t.futures.Keys
    && (forall id :: id in t.pending ==> id in t.hooks && t.pending[id] == t.hooks[id])
    && (forall id :: id in t.futures ==> OutcomeTold(t, id, t.hooks[id], t.futures[id]))
    && RunsFit(t)
  }

  /** A hook that ran is its command's own, and its end is the command's outcome. */
  ghost predicate RunsFit(t: Table) {
    forall id, raised :: HookRan(id, raised) in t.log ==>
      id in t.futures && id in t.hooks && t.hooks[id] && t.futures[id] == if raised then HookRaised else Result
  }

  ghost predicate ToldInv(t: Table) {
    Inv(t) && OutcomesFit(t)
  }

  /** A frame reaches a waiting command whose hook it runs. */
  predicate RunsHook(t: Table, id: nat, success: bool) {
    id in t.pending && Waits(t, id) && success && t.pending[id]
  }

  lemma ReplyLogged(t: Table, id: nat, success: bool, hookRaises: bool, e: Entry)
    ensures e in AfterReply(t, id, success, hookRaises).log <==>
            e in t.log || e == Handled(id, success) || (RunsHook(t, id, success) && e == HookRan(id, hookRaises))
  {
  }

  lemma ReplyRuns(t: Table, id: nat, success: bool, hookRaises: bool)
    requires OutcomesFit(t) && IdsFit(t)
    ensures RunsFit(AfterReply(t, id, success, hookRaises))
  {
    var next := AfterReply(t, id, success, hookRaises);
    forall ran, raised | HookRan(ran, raised) in next.log
      ensures ran in next.futures && ran in next.hooks && next.hooks[ran]
      ensures next.futures[ran] == if raised then HookRaised else Result
    {
      ReplyLogged(t, id, success, hookRaises, HookRan(ran, raised));
    }
  }

  lemma ReplyTold(t: Table, id: nat, success: bool, hookRaises: bool)
    requires OutcomesFit(t) && IdsFit(t)
    ensures OutcomesFit(AfterReply(t, id, success, hookRaises))
  {
    var next := AfterReply(t, id, success, hookRaises);
    ReplyRuns(t, id, success, hookRaises);
    forall e
      ensures e in t.log ==> e in next.log
      ensures e == Handled(id, success) || (RunsHook(t, id, success) && e == HookRan(id, hookRaises)) ==> e in next.log
    {
      ReplyLogged(t, id, success, hookRaises, e);
    }
    forall other | other in next.futures
      ensures OutcomeTold(next, other, next.hooks[other], next.futures[other])
    {
      assert OutcomeTold(t, other, t.hooks[other], t.futures[other]);
    }
  }

  /** No other step touches the log. */
  lemma SilentTold(t: Table, s: Step)
    requires OutcomesFit(t) && IdsFit(t) && Enabled(t, s) && !s.ReplyArrives?
    ensures OutcomesFit(Apply(t, s))
  {
    var next := Apply(t, s);
    assert next.log == t.log;
    forall id | id in next.futures
      ensures OutcomeTold(next, id, next.hooks[id], next.futures[id])
    {
      if id in t.futures { assert OutcomeTold(t, id, t.hooks[id], t.futures[id]); }
    }
  }

  lemma ToldKeeps(t: Table, s: Step)
    requires ToldInv(t) && Enabled(t, s)
    ensures ToldInv(Apply(t, s))
  {
    StepKeeps(t, s);
    if s.ReplyArrives? {
      ReplyTold(t, s.id, s.success, s.hookRaises);
    } else {
      SilentTold(t, s);
    }
  }

  lemma ReachableTold(t: Table)
    requires Reachable(t)
    ensures ToldInv(t)
  {
    forall x, step | ToldInv(x) && Next(x, step).Some?
      ensures ToldInv(Next(x, step).value)
    {
      ToldKeeps(x, step);
    }
    Runs.ReachableKeeps(Initial, Next, ToldInv, t);
  }

  /** What a future holds was told by Home Assistant: a result by a frame that
      succeeded, with the hook run to its end if the command has one; a hook's
      exception by a successful frame whose hook raised; an error by a frame that did
      not succeed. A hook runs only for a command that has one. */
  lemma OutcomesAreTold(t: Table, id: nat)
    requires Reachable(t) && id in t.futures
    ensures id in t.hooks
    ensures t.futures[id] == Result ==> Handled(id, true) in t.log && (t.hooks[id] ==> HookRan(id, false) in t.log)
    ensures t.futures[id] == HookRaised ==> Handled(id, true) in t.log && t.hooks[id] && HookRan(id, true) in t.log
    ensures t.futures[id] == CommandError ==> Handled(id, false) in t.log
    ensures HookRan(id, true) in t.log ==> t.hooks[id] && t.futures[id] == HookRaised
    ensures HookRan(id, false) in t.log ==> t.hooks[id] && t.futures[id] == Result
  {
    ReachableTold(t);
  }

  /** The first reply to a command still waiting resolves it, and it alone: with a
      result exactly when the command succeeded and its hook, if it has one, did not
      raise. A reply to any other id changes no future. */
  lemma ReplyResolves(t: Table, id: nat, success: bool, hookRaises: bool)
    requires Reachable(t)
    ensures var next := Apply(t, ReplyArrives(id, success, hookRaises));
            && next.futures.Keys == t.futures.Keys
            && (forall other :: other in t.futures && (other != id || !Waits(t, id)) ==>
                  next.futures[other] == t.futures[other])
            && (Waits(t, id) ==>
                  && id in t.hooks
                  && (next.futures[id] == Result <==> success && !(t.hooks[id] && hookRaises))
                  && (next.futures[id] == HookRaised <==> success && t.hooks[id] && hookRaises)
                  && (next.futures[id] == CommandError <==> !success))
  {
    ReachableTold(t);
  }

  /** A future is resolved at most once, whatever the rest of the run brings. */
  lemma {:induction false} ResolvedOnce(t: Table, steps: seq<Step>, id: nat)
    requires Inv(t) && id in t.futures && !Waits(t, id) && Run(t, steps).Some?
    ensures var z := Run(t, steps).value;
            id in z.futures && z.futures[id] == t.futures[id]
    decreases |steps|
  {
    if steps != [] {
      StepKeeps(t, steps[0]);
      ResolvedOnce(Apply(t, steps[0]), steps[1..], id);
    }
  }

  /** A drop resolves every command pending at it, and leaves none behind. */
  lemma DropResolvesAll(t: Table)
    requires Reachable(t)
    ensures var z := Apply(t, Drops);
            z.pending == map[] && forall id :: id in t.futures ==>
              id in z.futures && z.futures[id] == if t.futures[id] == Waiting then ConnectionLost else t.futures[id]
  {
    ReachableHolds(t);
  }

  /** A hook runs at most once, right after its own command's successful reply and
      before any later frame, and its command then holds the reply or the hook's
      exception. */
  lemma HooksRunOnceInPlace(t: Table, i: nat)
    requires Reachable(t) && Ran(t, i)
    ensures i > 0 && t.log[i - 1] == Handled(t.log[i].id, true)
    ensures t.log[i].id in t.futures
    ensures t.futures[t.log[i].id] == Result || t.futures[t.log[i].id] == HookRaised
    ensures forall k :: 0 <= k < |t.log| && t.log[k].HookRan? && t.log[k].id == t.log[i].id ==> k == i
  {
    ReachableHolds(t);
    forall k | 0 <= k < |t.log| && t.log[k].HookRan? && t.log[k].id == t.log[i].id
      ensures k == i
    {
      assert Ran(t, k);
    }
  }

  // ----- In place -----

  /** asyncio.Future, as far as one command uses it. */
  class Future {
    var outcome: Outcome

    constructor ()
      ensures outcome == Waiting
    {
      outcome := Waiting;
    }
  }

  datatype Pending = Pending(fut: Future, hook: bool)

  ghost function OutcomesOf(futures: map<nat, Future>): map<nat, Outcome>
    reads set id | id in futures :: futures[id]
  {
    map id | id in futures :: futures[id].outcome
  }

  ghost function HooksOf(pending: map<nat, Pending>): map<nat, bool> {
    map id | id in pending :: pending[id].hook
  }

  /** No two commands share a future. */
  ghost predicate OwnFutures(futures: map<nat, Future>) {
    forall id, other :: id in futures && other in futures && id != other ==> futures[id] != futures[other]
  }

  ghost predicate Unused(futures: map<nat, Future>, fut: Future) {
    forall id :: id in futures ==> futures[id] != fut
  }

  ghost predicate InTable(pending: map<nat, Pending>, futures: map<nat, Future>) {
    forall id :: id in pending ==> id in futures && pending[id].fut == futures[id]
  }

  lemma Filed(pending: map<nat, Pending>, futures: map<nat, Future>, id: nat, fut: Future, hook: bool)
    requires OwnFutures(futures) && InTable(pending, futures) && id !in futures
    requires Unused(futures, fut)
    ensures OwnFutures(futures[id := fut]) && InTable(pending[id := Pending(fut, hook)], futures[id := fut])
  {
  }

  lemma FiledReads(pending: map<nat, Pending>, futures: map<nat, Future>, id: nat, fut: Future, hook: bool)
    ensures HooksOf(pending[id := Pending(fut, hook)]) == HooksOf(pending)[id := hook]
    ensures OutcomesOf(futures[id := fut]) == OutcomesOf(futures)[id := fut.outcome]
  {
  }

  class CommandTable {
    var nextId: nat
    var pending: map<nat, Pending>
    ghost var futures: map<nat, Future>
    ghost var log: seq<Entry>
    ghost var hooks: map<nat, bool>

    /** Every command has a future of its own, and the table holds that one. */
    ghost predicate Valid()
      reads this
    {
      OwnFutures(futures) && InTable(pending, futures) && forall id :: id in futures ==> id < nextId
    }

    ghost function Owned(): set<Future>
      reads this
    {
      set id | id in futures :: futures[id]
    }

    ghost function Model(): Table
      reads this, set id | id in futures :: futures[id]
    {
      Table(nextId, HooksOf(pending), OutcomesOf(futures), log, hooks)
    }

    constructor ()
      ensures Valid() && Model() == FRESH
    {
      nextId, pending, futures, log, hooks := 1, map[], map[], [], map[];
    }

    /** _cmd up to its first await: the future is the caller's to keep. */
    method Send(hook: bool) returns (id: nat, fut: Future)
      requires Valid()
      modifies this`nextId, this`pending, this`futures, this`hooks
      ensures Valid() && fresh(fut) && id == old(nextId) && futures == old(futures)[id := fut]
      ensures fut.outcome == Waiting && nextId == id + 1 && pending == old(pending)[id := Pending(fut, hook)]
      ensures Model() == Apply(old(Model()), Sends(hook))
    {
      id := nextId;
      fut := new Future();
      assert Unused(futures, fut);
      File(fut, hook);
    }

    /** The next id, and its place in the table. */
    method File(fut: Future, hook: bool)
      requires Valid() && fut.outcome == Waiting && Unused(futures, fut)
      modifies this`nextId, this`pending, this`futures, this`hooks
      ensures Valid() && futures == old(futures)[old(nextId) := fut]
      ensures nextId == old(nextId) + 1 && pending == old(pending)[old(nextId) := Pending(fut, hook)]
      ensures Model() == Apply(old(Model()), Sends(hook))
    {
      Filed(pending, futures, nextId, fut, hook);
      FiledReads(pending, futures, nextId, fut, hook);
      var id := nextId;
      nextId, pending, futures := id + 1, pending[id := Pending(fut, hook)], futures[id := fut];
      hooks := hooks[id := hook];
    }

    /** _cmd's finally. */
    method Return(id: nat)
      requires Valid() && Enabled(Model(), CommandReturns(id))
      modifies this`pending
      ensures pending == old(pending) - {id}
      ensures Valid() && Model() == Apply(old(Model()), CommandReturns(id))
    {
      pending := pending - {id};
      assert HooksOf(pending) == old(HooksOf(pending)) - {id};
    }

    /** A result frame: only the future in the table is looked at, and only while it
        is not done. It gets the result of a success whose hook, if there is one, did
        not raise; the hook's exception; or the error. */
    method HandleResult(id: nat, success: bool, hookRaises: bool)
      requires Valid()
      modifies this`log, set p | p in pending.Values :: p.fut
      ensures Valid() && Model() == Apply(old(Model()), ReplyArrives(id, success, hookRaises))
      ensures forall other :: other in futures && (other != id || id !in pending) ==>
                futures[other].outcome == old(futures[other].outcome)
      ensures id in pending ==>
                pending[id].fut.outcome == if old(pending[id].fut.outcome) != Waiting then old(pending[id].fut.outcome)
                                           else if !success then CommandError
                                           else if pending[id].hook && hookRaises then HookRaised
                                           else Result
      ensures log == old(log) + [Handled(id, success)] +
                     if id in pending && old(pending[id].fut.outcome) == Waiting && success && pending[id].hook
                     then [HookRan(id, hookRaises)] else []
    {
      log := log + [Handled(id, success)];
      if id !in pending {
        return;
      }
      var fut, hook := pending[id].fut, pending[id].hook;
      if fut.outcome != Waiting {
        return;
      }
      if !success {
        fut.outcome := CommandError;
      } else {
        if hook {
          log := log + [HookRan(id, hookRaises)];
        }
        fut.outcome := if hook && hookRaises then HookRaised else Result;
      }
      assert OutcomesOf(futures) == old(OutcomesOf(futures))[id := fut.outcome];
    }

    method FailOne(id: nat, ghost was: map<nat, Outcome>, ghost done: set<nat>)
      requires Valid() && id in pending && OutcomesOf(futures) == Lost(was, done)
      modifies pending[id].fut
      ensures OutcomesOf(futures) == Lost(was, done + {id})
    {
      var fut := pending[id].fut;
      if fut.outcome == Waiting {
        fut.outcome := ConnectionLost;
      }
      assert OutcomesOf(futures) == Lost(Lost(was, done), {id});
      LostJoin(was, done, id);
    }

    /** Resolves every future in the table that is not done, then clears the table. */
    method FailPending()
      requires Valid()
      modifies this`pending, Owned()
      ensures pending == map[]
      ensures Valid() && Model() == Apply(old(Model()), Drops)
    {
      ghost var was := Model();
      assert was.pending.Keys == pending.Keys;
      FailAll();
      pending := map[];
      assert HooksOf(pending) == map[];
      assert Model() == AfterDrop(was);
    }

    /** for fut, _ in self._pending.values() */
    method FailAll()
      requires Valid()
      modifies Owned()
      ensures OutcomesOf(futures) == Lost(old(OutcomesOf(futures)), pending.Keys)
    {
      var left := pending.Keys;
      ghost var was, done: set<nat> := OutcomesOf(futures), {};
      assert was == Lost(was, done);
      while left != {}
        invariant left <= pending.Keys && done + left == pending.Keys
        invariant OutcomesOf(futures) == Lost(was, done)
        decreases |left|
      {
        var id :| id in left;
        assert pending[id].fut in Owned();
        FailOne(id, was, done);
        left, done := left - {id}, done + {id};
      }
      assert done == pending.Keys;
    }
  }

  lemma LostJoin(futures: map<nat, Outcome>, ids: set<nat>, id: nat)
    ensures Lost(Lost(futures, ids), {id}) == Lost(futures, ids + {id})
  {
  }
}
