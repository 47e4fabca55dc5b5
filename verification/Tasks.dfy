/** The cancellation contracts every stop path relies on (app/tasks.py, the waiting
    loop of HAConnection._stop_locked, and _run_all of app/server.py). What happens
    during an await is a parameter. */
module Tasks {
  import opened Basics

  /** How an awaited task ends: by returning, or by raising anything at all. */
  datatype Ending = Returns | Raises

  /** One await of a cancelled task: how many cancellations were aimed at the
      caller meanwhile, and how the awaited one ended. */
  datatype Wait = Wait(aimed: nat, ending: Ending)

  /** cancelling is the caller's count of every cancellation ever requested of it,
      handled ones included. The wait raises exactly if one was aimed at the caller
      during it and what it awaited ended by raising; a task that swallows its
      cancellation and returns hides the caller's. */
  method CancelAndWait(cancelling: nat, task: Option<Wait>) returns (raised: bool, after: nat)
    ensures raised <==> task.Some? && task.value.aimed > 0 && task.value.ending == Raises
    ensures after == if task.Some? then cancelling + task.value.aimed else cancelling
  {
    after := cancelling;
    if task.None? {
      return false, after;
    }
    var cancellingAtEntry := after;
    after := after + task.value.aimed;
    raised := false;
    match task.value.ending {
      case Returns =>
      case Raises => raised := after > cancellingAtEntry;
    }
  }

  /** Cancellations aimed at the caller during the first k waits. */
  function Aimed(waits: seq<Wait>, k: nat): nat
    requires k <= |waits|
  {
    if k == 0 then 0 else Aimed(waits, k - 1) + waits[k - 1].aimed
  }

  /** At the end of wait k the caller gives up. */
  predicate GivesUp(waits: seq<Wait>, k: nat)
    requires k < |waits|
  {
    waits[k].ending == Raises && Aimed(waits, k + 1) > 0
  }

  /** The loop over the cancelled tasks: it waits for them in order, and stops
      early exactly at the first that ends by raising once a cancellation has been
      aimed at the caller; the tasks behind it are cancelled but not awaited. */
  method StopLocked(cancelling: nat, waits: seq<Wait>) returns (raised: bool, awaited: nat)
    ensures awaited <= |waits|
    ensures raised ==> awaited > 0 && GivesUp(waits, awaited - 1)
    ensures raised ==> forall k :: 0 <= k < awaited - 1 ==> !GivesUp(waits, k)
    ensures !raised ==> awaited == |waits| && forall k :: 0 <= k < |waits| ==> !GivesUp(waits, k)
  {
    var count, cancellingAtEntry := cancelling, cancelling;
    awaited, raised := 0, false;
    while awaited < |waits|
      invariant awaited <= |waits|
      invariant count == cancelling + Aimed(waits, awaited)
      invariant forall k :: 0 <= k < awaited ==> !GivesUp(waits, k)
    {
      count := count + waits[awaited].aimed;
      awaited := awaited + 1;
      if waits[awaited - 1].ending == Raises && count > cancellingAtEntry {
        return true, awaited;
      }
    }
  }

  /** With tasks that end by raising, stopping them gives up exactly if any
      cancellation was aimed at the caller while it waited. */
  lemma {:induction false} RaisingTasksGiveUpIff(waits: seq<Wait>)
    requires forall k :: 0 <= k < |waits| ==> waits[k].ending == Raises
    ensures (exists k :: 0 <= k < |waits| && GivesUp(waits, k)) <==> Aimed(waits, |waits|) > 0
  {
    if Aimed(waits, |waits|) > 0 {
      assert GivesUp(waits, |waits| - 1);
    } else {
      forall k | 0 <= k < |waits|
        ensures !GivesUp(waits, k)
      {
        AimedGrows(waits, k + 1);
      }
    }
  }

  lemma {:induction false} AimedGrows(waits: seq<Wait>, k: nat)
    requires k <= |waits|
    ensures Aimed(waits, k) <= Aimed(waits, |waits|)
    decreases |waits| - k
  {
    if k < |waits| { AimedGrows(waits, k + 1); }
  }

  /** How a shutdown step ends; cancellations and errors are told apart by number. */
  datatype Outcome = Done | Cancelled(exc: nat) | Fails(error: nat)

  predicate FirstCancelled(outcomes: seq<Outcome>, k: nat)
    requires k < |outcomes|
  {
    outcomes[k].Cancelled? && forall j :: 0 <= j < k ==> !outcomes[j].Cancelled?
  }

  /** _run_all: every step up to the first that fails outright is invoked once, in
      order, wherever cancellations land. When none fails, the first cancellation
      is raised after the last step, exactly if there was one. */
  method RunAll(outcomes: seq<Outcome>) returns (invoked: seq<nat>, result: Outcome)
    ensures |invoked| <= |outcomes| && forall i :: 0 <= i < |invoked| ==> invoked[i] == i
    ensures result.Fails? <==> exists k :: 0 <= k < |outcomes| && outcomes[k].Fails?
    ensures !result.Fails? ==> |invoked| == |outcomes|
    ensures result.Fails? ==>
              |invoked| > 0 && outcomes[|invoked| - 1] == result &&
              forall k :: 0 <= k < |invoked| - 1 ==> !outcomes[k].Fails?
    ensures result.Cancelled? ==>
              exists k :: 0 <= k < |outcomes| && FirstCancelled(outcomes, k) && outcomes[k] == result
    ensures result == Done <==> forall k :: 0 <= k < |outcomes| ==> outcomes[k] == Done
  {
    var cancelled: Option<Outcome> := None;
    invoked := [];
    while |invoked| < |outcomes|
      invariant |invoked| <= |outcomes| && forall i :: 0 <= i < |invoked| ==> invoked[i] == i
      invariant forall k :: 0 <= k < |invoked| ==> !outcomes[k].Fails?
      invariant cancelled.None? ==> forall k :: 0 <= k < |invoked| ==> outcomes[k] == Done
      invariant cancelled.Some? ==>
                exists k :: 0 <= k < |invoked| && FirstCancelled(outcomes, k) && outcomes[k] == cancelled.value
      decreases |outcomes| - |invoked|
    {
      var n := |invoked|;
      var outcome := outcomes[n];
      invoked := invoked + [n];
      match outcome {
        case Done =>
        case Cancelled(_) =>
          if cancelled.None? {
            assert FirstCancelled(outcomes, n);
            cancelled := Some(outcome);
          }
        case Fails(_) => return invoked, outcome;
      }
    }
    result := if cancelled.Some? then cancelled.value else Done;
  }
}
