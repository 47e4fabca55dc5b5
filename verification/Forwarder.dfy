/** The MQTT forwarder between start and stop (app/state_forwarder.py): a bounded
    queue, and an item in flight that survives reconnects. */
module Forwarder {
  import opened Basics
  import Runs

  /** An event that has something to forward, and the queue's length when it came. */
  datatype Arrival = Arrival(message: string, backlog: nat)

  /** Counters of history beside the queue and the loop's in-flight item: what
      arrived and what was accepted, what publish() confirmed, what the broker
      received, and for each item it received its place among the accepted.
      capacity 0 is unbounded. */
  datatype State = State(
    capacity: nat, queue: seq<string>, inflight: Option<string>,
    arrivals: seq<Arrival>, accepted: seq<string>, delivered: seq<string>, broker: seq<string>, places: seq<nat>)

  predicate Initial(s: State) {
    s == State(s.capacity, [], None, [], [], [], [], [])
  }

  /** Arrives(None): the entity was removed, nothing to forward. PublishFails and
      ConnectFails are MqttErrors; a failed publish may have reached the broker. */
  datatype Step =
    | Arrives(message: Option<string>)
    | Takes
    | Publishes
    | PublishFails(reached: bool)
    | ConnectFails

  predicate Full(s: State) {
    s.capacity > 0 && |s.queue| >= s.capacity
  }

  predicate Enabled(s: State, step: Step) {
    match step
    case Arrives(_) => true
    case Takes => s.inflight.None? && s.queue != []
    case Publishes => s.inflight.Some?
    case PublishFails(_) => s.inflight.Some?
    case ConnectFails => true
  }

  function Received(s: State): State
    requires s.inflight.Some?
  {
    s.(broker := s.broker + [s.inflight.value], places := s.places + [|s.delivered|])
  }

  function Apply(s: State, step: Step): State
    requires Enabled(s, step)
  {
    match step
    case Arrives(message) =>
      if message.None? then s
      else
        var seen := s.(arrivals := s.arrivals + [Arrival(message.value, |s.queue|)]);
        if Full(s) then seen
        else seen.(queue := s.queue + [message.value], accepted := s.accepted + [message.value])
    case Takes => s.(inflight := Some(s.queue[0]), queue := s.queue[1..])
    case Publishes => Received(s).(inflight := None, delivered := s.delivered + [s.inflight.value])
    case PublishFails(reached) => if reached then Received(s) else s
    case ConnectFails => s
  }

  function Next(s: State, step: Step): Option<State> {
    if Enabled(s, step) then Some(Apply(s, step)) else None
  }

  ghost predicate Reachable(s: State) {
    Runs.Reachable(Initial, Next, s)
  }

  function InFlight(s: State): seq<string> {
    if s.inflight.Some? then [s.inflight.value] else []
  }

  /** The broker got the accepted items in order, each at least once up to the
      last it got, and nothing else. */
  ghost predicate InPlace(broker: seq<string>, places: seq<nat>, accepted: seq<string>) {
    && |places| == |broker|
    && (forall i :: 0 <= i < |places| ==> places[i] < |accepted| && broker[i] == accepted[places[i]])
    && (places != [] ==> places[0] == 0)
    && (forall i, k :: 0 <= i < k < |places| && k == i + 1 ==> places[i] <= places[k] <= places[i] + 1)
  }

  /** The next place the broker can receive. */
  predicate FrontierFits(s: State) {
    if s.places == [] then s.delivered == []
    else
      var last := s.places[|s.places| - 1];
      |s.delivered| == last + 1 || (|s.delivered| == last && s.inflight.Some?)
  }

  /** The arrivals that found room. */
  function Kept(arrivals: seq<Arrival>, capacity: nat): seq<string> {
    if arrivals == [] then []
    else
      var last := arrivals[|arrivals| - 1];
      Kept(arrivals[..|arrivals| - 1], capacity) +
      if capacity > 0 && last.backlog >= capacity then [] else [last.message]
  }

  predicate Bounded(capacity: nat, queue: seq<string>, arrivals: seq<Arrival>) {
    capacity > 0 ==> |queue| <= capacity && forall i :: 0 <= i < |arrivals| ==> arrivals[i].backlog <= capacity
  }

  ghost predicate Inv(s: State) {
    && s.accepted == Kept(s.arrivals, s.capacity) && Bounded(s.capacity, s.queue, s.arrivals)
    && s.accepted == s.delivered + InFlight(s) + s.queue
    && InPlace(s.broker, s.places, s.accepted)
    && FrontierFits(s)
  }

  lemma KeptOneMore(arrivals: seq<Arrival>, a: Arrival, capacity: nat)
    ensures Kept(arrivals + [a], capacity) ==
            Kept(arrivals, capacity) + if capacity > 0 && a.backlog >= capacity then [] else [a.message]
  {
    assert (arrivals + [a])[..|arrivals|] == arrivals;
  }

  lemma StillInPlace(broker: seq<string>, places: seq<nat>, accepted: seq<string>, message: string)
    requires InPlace(broker, places, accepted)
    ensures InPlace(broker, places, accepted + [message])
  {
  }

  lemma TurnedAwayKeeps(s: State, message: string)
    requires Inv(s) && Full(s)
    ensures Inv(s.(arrivals := s.arrivals + [Arrival(message, |s.queue|)]))
  {
    KeptOneMore(s.arrivals, Arrival(message, |s.queue|), s.capacity);
  }

  lemma QueuedKeeps(s: State, message: string)
    requires Inv(s) && !Full(s)
    ensures Inv(s.(arrivals := s.arrivals + [Arrival(message, |s.queue|)], queue := s.queue + [message],
                   accepted := s.accepted + [message]))
  {
    KeptOneMore(s.arrivals, Arrival(message, |s.queue|), s.capacity);
    StillInPlace(s.broker, s.places, s.accepted, message);
    assert s.delivered + InFlight(s) + s.queue + [message] == s.delivered + InFlight(s) + (s.queue + [message]);
  }

  lemma ArrivalKeeps(s: State, message: string)
    requires Inv(s)
    ensures Inv(Apply(s, Arrives(Some(message))))
  {
    if Full(s) {
      TurnedAwayKeeps(s, message);
    } else {
      QueuedKeeps(s, message);
    }
  }

  lemma TakeKeeps(s: State)
    requires Inv(s) && Enabled(s, Takes)
    ensures Inv(Apply(s, Takes))
  {
    assert s.queue == [s.queue[0]] + s.queue[1..];
  }

  lemma OneMoreInPlace(broker: seq<string>, places: seq<nat>, accepted: seq<string>, at: nat)
    requires InPlace(broker, places, accepted) && at < |accepted|
    requires if places == [] then at == 0 else places[|places| - 1] <= at <= places[|places| - 1] + 1
    ensures InPlace(broker + [accepted[at]], places + [at], accepted)
  {
  }

  lemma ReceivedInPlace(s: State)
    requires Inv(s) && s.inflight.Some?
    ensures InPlace(Received(s).broker, Received(s).places, s.accepted)
    ensures Received(s).places[|s.places|] == |s.delivered|
  {
    assert s.accepted[|s.delivered|] == s.inflight.value;
    OneMoreInPlace(s.broker, s.places, s.accepted, |s.delivered|);
  }

  lemma StepKeeps(s: State, step: Step)
    requires Inv(s) && Enabled(s, step)
    ensures Inv(Apply(s, step))
  {
    match step
    case Arrives(message) => if message.Some? { ArrivalKeeps(s, message.value); }
    case Takes => TakeKeeps(s);
    case Publishes => ReceivedInPlace(s);
    case PublishFails(_) => ReceivedInPlace(s);
    case ConnectFails =>
  }

  lemma ReachableHolds(s: State)
    requires Reachable(s)
    ensures Inv(s)
  {
    forall x, step | Inv(x) && Next(x, step).Some?
      ensures Inv(Next(x, step).value)
    {
      StepKeeps(x, step);
    }
    Runs.ReachableKeeps(Initial, Next, Inv, s);
  }

  // ----- Main results -----

  /** Conservation: across any number of broker errors the accepted events are the
      delivered ones, the one in flight and the queued ones, in that order. */
  lemma NothingLostOrReordered(s: State)
    requires Reachable(s)
    ensures s.accepted == s.delivered + InFlight(s) + s.queue
  {
    ReachableHolds(s);
  }

  /** Of all that arrived, exactly what came to a full queue was turned away; the
      rest is delivered, in flight or queued, in order of arrival. */
  lemma OnlyFullQueueDrops(s: State)
    requires Reachable(s)
    ensures Kept(s.arrivals, s.capacity) == s.delivered + InFlight(s) + s.queue
    ensures s.capacity > 0 ==> |s.queue| <= s.capacity
    ensures forall i :: 0 <= i < |s.arrivals| && s.capacity > 0 && s.arrivals[i].backlog >= s.capacity ==>
              s.arrivals[i].backlog == s.capacity
  {
    ReachableHolds(s);
  }

  /** The log with adjacent repeats removed. */
  function Deduplicated(log: seq<string>): seq<string> {
    if |log| <= 1 then log
    else
      var before := Deduplicated(log[..|log| - 1]);
      if log[|log| - 1] == log[|log| - 2] then before else before + [log[|log| - 1]]
  }

  lemma DeduplicatedOneMore(log: seq<string>, item: string)
    requires log != []
    ensures Deduplicated(log + [item]) == Deduplicated(log) + if item == log[|log| - 1] then [] else [item]
  {
    assert (log + [item])[..|log|] == log;
  }

  /** One more item logged: the last one seen again, or the next. */
  lemma WalkOneMore(log: seq<string>, seen: seq<string>, item: string)
    requires log != [] && seen != [] && log[|log| - 1] == seen[|seen| - 1]
    requires Deduplicated(log) == Deduplicated(seen)
    ensures Deduplicated(log + [item]) == Deduplicated(seen + [item])
    ensures item == log[|log| - 1] ==> Deduplicated(log + [item]) == Deduplicated(seen)
  {
    DeduplicatedOneMore(log, item);
    DeduplicatedOneMore(seen, item);
  }

  lemma WalkFurther(log: seq<string>, seen: seq<string>, more: seq<string>, item: string)
    requires log != [] && seen != [] && log[|log| - 1] == seen[|seen| - 1] && Deduplicated(log) == Deduplicated(seen)
    requires more == seen + [item] || (more == seen && item == seen[|seen| - 1])
    ensures Deduplicated(log + [item]) == Deduplicated(more)
  {
    WalkOneMore(log, seen, item);
  }

  lemma PrefixNext(accepted: seq<string>, p: nat, q: nat)
    requires p <= q <= p + 1 && q < |accepted|
    ensures var seen, more, item := accepted[..p + 1], accepted[..q + 1], accepted[q];
            && seen[|seen| - 1] == accepted[p]
            && (more == seen + [item] || (more == seen && item == seen[|seen| - 1]))
  {
  }

  lemma LogEnds(log: seq<string>)
    requires |log| > 1
    ensures var n := |log| - 1; log == log[..n] + [log[n]] && log[..n] != [] && log[..n][|log[..n]| - 1] == log[n - 1]
  {
  }

  lemma InPlaceFront(log: seq<string>, places: seq<nat>, accepted: seq<string>)
    requires InPlace(log, places, accepted) && log != []
    ensures InPlace(log[..|log| - 1], places[..|log| - 1], accepted)
    ensures |log| > 1 ==> places[|log| - 2] <= places[|log| - 1] <= places[|log| - 2] + 1
  {
  }

  /** A log that walks through the accepted items, repeating but not skipping. */
  lemma {:induction false} DeduplicatedPlaces(log: seq<string>, places: seq<nat>, accepted: seq<string>)
    requires InPlace(log, places, accepted) && log != []
    ensures Deduplicated(log) == Deduplicated(accepted[..places[|places| - 1] + 1])
  {
    var n := |log| - 1;
    if n > 0 {
      InPlaceFront(log, places, accepted);
      DeduplicatedPlaces(log[..n], places[..n], accepted);
      LogEnds(log);
      PrefixNext(accepted, places[n - 1], places[n]);
      WalkFurther(log[..n], accepted[..places[n - 1] + 1], accepted[..places[n] + 1], log[n]);
    } else {
      assert accepted[..1] == log;
    }
  }

  lemma {:induction false} DeduplicatedPrefix(log: seq<string>, n: nat)
    requires n <= |log|
    ensures Deduplicated(log[..n]) <= Deduplicated(log)
  {
    var m := |log| - 1;
    if n <= m {
      DeduplicatedPrefix(log[..m], n);
      assert log[..m][..n] == log[..n];
      if m > 0 {
        DeduplicatedOneMore(log[..m], log[m]);
        assert log == log[..m] + [log[m]];
      }
    } else {
      assert log[..n] == log;
    }
  }

  ghost predicate NoRepeats(log: seq<string>) {
    forall i, k :: 0 <= i < k < |log| && k == i + 1 ==> log[i] != log[k]
  }

  lemma {:induction false} NothingToDeduplicate(log: seq<string>)
    requires NoRepeats(log)
    ensures Deduplicated(log) == log
  {
    var m := |log| - 1;
    if m > 0 {
      NothingToDeduplicate(log[..m]);
      DeduplicatedOneMore(log[..m], log[m]);
      assert log[m - 1] != log[m - 1 + 1];
      assert log == log[..m] + [log[m]];
    }
  }

  /** Behind an adjacent repeat nothing different follows. */
  ghost predicate RepeatsLast(log: seq<string>) {
    forall i, k, j :: 0 <= i < k <= j < |log| && k == i + 1 && log[i] == log[k] ==> log[j] == log[i]
  }

  lemma {:induction false} DeduplicatedEnds(log: seq<string>)
    requires log != []
    ensures 0 < |Deduplicated(log)| <= |log| && Deduplicated(log)[|Deduplicated(log)| - 1] == log[|log| - 1]
  {
    if |log| > 1 { DeduplicatedEnds(log[..|log| - 1]); }
  }

  /** The first adjacent repeat. */
  lemma {:induction false} FirstRepeat(log: seq<string>) returns (i: nat)
    requires !NoRepeats(log)
    ensures i + 1 < |log| && log[i] == log[i + 1] && NoRepeats(log[..i + 1])
  {
    var n := |log| - 1;
    if NoRepeats(log[..n]) {
      i := n - 1;
      assert forall k :: 0 <= k < n - 1 ==> log[..n][k] != log[..n][k + 1];
    } else {
      i := FirstRepeat(log[..n]);
      assert log[..n][..i + 1] == log[..i + 1];
    }
  }

  /** Up to the first repeat the log is its own deduplication, and it stays so while
      nothing different follows. */
  lemma {:induction false} DeduplicatedStops(log: seq<string>, i: nat, n: nat)
    requires i < n <= |log| && NoRepeats(log[..i + 1]) && forall j :: i <= j < n ==> log[j] == log[i]
    ensures Deduplicated(log[..n]) == log[..i + 1]
    decreases n
  {
    if n == i + 1 {
      NothingToDeduplicate(log[..n]);
    } else {
      DeduplicatedStops(log, i, n - 1);
      DeduplicatedOneMore(log[..n - 1], log[n - 1]);
      assert log[..n] == log[..n - 1] + [log[n - 1]];
    }
  }

  lemma NewItemSkips(front: seq<string>, item: string, kept: seq<string>, log: seq<string>)
    requires front != [] && front + [item] <= log && front[|front| - 1] != item && Deduplicated(front) == kept
    requires |kept| < |log| && log[|kept|] != item
    ensures !(Deduplicated(log) <= log)
  {
    DeduplicatedOneMore(front, item);
    DeduplicatedPrefix(log, |front| + 1);
    assert log[..|front| + 1] == front + [item];
    NotThere(kept, item, Deduplicated(log), log);
  }

  lemma FrontFacts(log: seq<string>, i: nat, j: nat)
    requires i + 1 < j < |log| && log[i] == log[i + 1] == log[j - 1]
    ensures log[..j] != [] && log[..j] + [log[j]] <= log && log[..j][|log[..j]| - 1] == log[i]
    ensures |log[..i + 1]| < |log| && log[|log[..i + 1]|] == log[i]
  {
  }

  /** The first different item behind a repeat shows up too early. */
  lemma DeduplicatedSkips(log: seq<string>, i: nat, j: nat)
    requires i + 1 < j < |log| && log[i] == log[i + 1] && NoRepeats(log[..i + 1])
    requires log[j] != log[i] && forall k :: i <= k < j ==> log[k] == log[i]
    ensures !(Deduplicated(log) <= log)
  {
    DeduplicatedStops(log, i, j);
    FrontFacts(log, i, j);
    NewItemSkips(log[..j], log[j], log[..i + 1], log);
  }

  lemma NotThere(kept: seq<string>, item: string, all: seq<string>, log: seq<string>)
    requires kept + [item] <= all && |kept| < |log| && log[|kept|] != item
    ensures !(all <= log)
  {
    assert all[|kept|] == (kept + [item])[|kept|];
  }

  /** The first different item behind place i, if there is one. */
  lemma {:induction false} FirstDifferent(log: seq<string>, i: nat, n: nat) returns (j: nat)
    requires i < n < |log| && log[n] != log[i]
    ensures i < j <= n && log[j] != log[i] && forall k :: i <= k < j ==> log[k] == log[i]
    decreases n
  {
    if k :| i < k < n && log[k] != log[i] {
      j := FirstDifferent(log, i, k);
    } else {
      j := n;
    }
  }

  lemma RepeatsFrom(log: seq<string>, i: nat)
    requires i < |log| && NoRepeats(log[..i + 1])
    ensures forall k, l :: 0 <= k < l <= i && l == k + 1 ==> log[k] != log[l]
  {
    forall k, l | 0 <= k < l <= i && l == k + 1
      ensures log[k] != log[l]
    {
      assert log[..i + 1][k] != log[..i + 1][l];
    }
  }

  /** A log without its repeats is a prefix of itself exactly when nothing different
      follows its first repeat. */
  lemma PrefixIffRepeatsLast(log: seq<string>)
    ensures Deduplicated(log) <= log <==> RepeatsLast(log)
  {
    if NoRepeats(log) {
      NothingToDeduplicate(log);
      assert RepeatsLast(log);
    } else {
      var i := FirstRepeat(log);
      if RepeatsLast(log) {
        DeduplicatedStops(log, i, |log|);
        assert log[..|log|] == log;
      } else {
        var a, c, b :| 0 <= a < c <= b < |log| && c == a + 1 && log[a] == log[c] && log[b] != log[a];
        RepeatsFrom(log, i);
        var n := if log[a] != log[i] then a else b;
        var j := FirstDifferent(log, i, n);
        DeduplicatedSkips(log, i, j);
      }
    }
  }

  /** How many of the accepted items have reached the broker. */
  function Reached(s: State): nat {
    if s.places == [] then 0 else s.places[|s.places| - 1] + 1
  }

  lemma ReachedFits(s: State)
    requires Inv(s)
    ensures |s.delivered| <= Reached(s) <= |s.delivered| + |InFlight(s)| <= |s.accepted|
    ensures s.delivered <= s.accepted[..Reached(s)]
  {
  }

  lemma BrokerLog(s: State)
    requires Inv(s)
    ensures Deduplicated(s.broker) == Deduplicated(s.accepted[..Reached(s)])
  {
    if s.broker != [] {
      DeduplicatedPlaces(s.broker, s.places, s.accepted);
    }
  }

  /** Whatever failed publishes may have reached it, the broker's log walks through
      the accepted items from the first, repeating but never skipping or going
      back: all delivered ones and at most the one in flight. */
  lemma BrokerWalksAccepted(s: State)
    requires Reachable(s)
    ensures |s.delivered| <= Reached(s) <= |s.delivered| + |InFlight(s)| <= |s.accepted|
    ensures |s.places| == |s.broker|
    ensures s.places != [] ==> s.places[0] == 0 && s.places[|s.places| - 1] + 1 == Reached(s)
    ensures forall i :: 0 <= i < |s.broker| ==> s.places[i] < |s.accepted| && s.broker[i] == s.accepted[s.places[i]]
    ensures forall i, k :: 0 <= i < k < |s.places| && k == i + 1 ==> s.places[i] <= s.places[k] <= s.places[i] + 1
  {
    ReachableHolds(s);
    ReachedFits(s);
  }

  /** So with adjacent repeats removed on both sides the log is the first Reached
      accepted items; with repeats removed on the broker's side alone it is a prefix
      of the accepted items exactly when, among those, nothing different follows
      the first repeat. */
  lemma BrokerSeesAcceptedPrefix(s: State)
    requires Reachable(s)
    ensures Reached(s) <= |s.accepted|
    ensures Deduplicated(s.broker) == Deduplicated(s.accepted[..Reached(s)]) <= Deduplicated(s.accepted)
    ensures Deduplicated(s.broker) <= s.accepted <==> RepeatsLast(s.accepted[..Reached(s)])
  {
    ReachableHolds(s);
    ReachedFits(s);
    BrokerLog(s);
    DeduplicatedPrefix(s.accepted, Reached(s));
    var seen := s.accepted[..Reached(s)];
    PrefixIffRepeatsLast(seen);
    if seen != [] {
      DeduplicatedEnds(seen);
      PrefixOfWhole(Deduplicated(seen), seen, s.accepted);
    }
  }

  lemma PrefixOfWhole(x: seq<string>, y: seq<string>, z: seq<string>)
    requires |x| <= |y| && y <= z
    ensures x <= z <==> x <= y
  {
  }

  /** The same event twice and then another: the broker's log without repeats is no
      prefix of what was accepted. */
  lemma RepeatBreaksPrefix()
    ensures exists s :: Reachable(s) && s.accepted == ["on", "on", "off"] && !(Deduplicated(s.broker) <= s.accepted)
  {
    var s := State(0, [], None, [], [], [], [], []);
    Runs.StartReachable(Initial, Next, s);
    s := Forwarded(s, "on");
    s := Forwarded(s, "on");
    s := Forwarded(s, "off");
    assert s.broker == s.accepted == ["on", "on", "off"];
    BrokerSeesAcceptedPrefix(s);
    var seen := s.accepted[..Reached(s)];
    assert s.delivered == s.accepted && seen == s.accepted;
    assert seen[0] == seen[0 + 1] && seen[2] != seen[0];
  }

  lemma Forwarded(s: State, message: string) returns (next: State)
    requires Reachable(s) && s.capacity == 0 && s.queue == [] && s.inflight.None?
    ensures Reachable(next) && next.capacity == 0 && next.queue == [] && next.inflight.None?
    ensures next.accepted == s.accepted + [message] && next.broker == s.broker + [message]
    ensures next.delivered == s.delivered + [message]
  {
    next := Runs.Reach(Initial, Next, s, Arrives(Some(message)));
    next := Runs.Reach(Initial, Next, next, Takes);
    next := Runs.Reach(Initial, Next, next, Publishes);
  }

  // ----- In place -----

  datatype Outcome = Succeeds | MqttError(reached: bool)

  /** One await of the loop: the events that come meanwhile, and how it ends. */
  datatype Await = Await(events: seq<Option<string>>, outcome: Outcome)

  /** The events that have something to forward. */
  function Messages(events: seq<Option<string>>): seq<string> {
    if events == [] then []
    else
      var last := events[|events| - 1];
      Messages(events[..|events| - 1]) + if last.Some? then [last.value] else []
  }

  function AllMessages(awaits: seq<Await>): seq<string> {
    if awaits == [] then [] else AllMessages(awaits[..|awaits| - 1]) + Messages(awaits[|awaits| - 1].events)
  }

  function Came(arrivals: seq<Arrival>): seq<string> {
    seq(|arrivals|, i requires 0 <= i < |arrivals| => arrivals[i].message)
  }

  ghost predicate Leads(s: State, z: State) {
    Runs.Reachable(x => x == s, Next, z)
  }

  lemma LeadsOn(s: State, z: State, step: Step)
    requires Leads(s, z) && Enabled(z, step)
    ensures Leads(s, Apply(z, step))
  {
    var _ := Runs.Reach(x => x == s, Next, z, step);
  }

  lemma LeadsKeeps(s: State, z: State)
    requires Leads(s, z) && Inv(s)
    ensures Inv(z)
  {
    forall x, step | Inv(x) && Next(x, step).Some?
      ensures Inv(Next(x, step).value)
    {
      StepKeeps(x, step);
    }
    Runs.ReachableKeeps(x => x == s, Next, Inv, z);
  }

  lemma CameOneMore(arrivals: seq<Arrival>, a: Arrival)
    ensures Came(arrivals + [a]) == Came(arrivals) + [a.message]
  {
  }

  lemma OneMoreEvent(events: seq<Option<string>>, i: nat)
    requires i < |events|
    ensures Messages(events[..i + 1]) == Messages(events[..i]) + if events[i].Some? then [events[i].value] else []
  {
    assert events[..i + 1][..i] == events[..i];
  }

  lemma OneMoreAwait(awaits: seq<Await>, n: nat)
    requires n < |awaits|
    ensures AllMessages(awaits[..n + 1]) == AllMessages(awaits[..n]) + Messages(awaits[n].events)
  {
    assert awaits[..n + 1][..n] == awaits[..n];
  }

  /** What is still to be delivered, in flight and queued, behind what was. */
  function Line(s: State): seq<string> {
    s.delivered + InFlight(s) + s.queue
  }

  /** How long a queue is after so many messages came to it. */
  function Filled(queued: nat, messages: nat, capacity: nat): nat {
    if capacity == 0 || queued + messages <= capacity then queued + messages
    else if queued > capacity then queued
    else capacity
  }

  /** How many of these awaits are publishes that succeed, from what is waiting at the
      start. Down, an await is an attempt to connect; up with nothing to publish it
      waits for an event; otherwise it is a publish, and a failed one keeps its item
      and loses the client. */
  function Confirms(awaits: seq<Await>, up: bool, busy: bool, queued: nat, capacity: nat): nat
    decreases |awaits|
  {
    if awaits == [] then 0
    else
      var succeeds, came := awaits[0].outcome.Succeeds?, |Messages(awaits[0].events)|;
      if !up then
        Confirms(awaits[1..], succeeds, busy, Filled(queued, came, capacity), capacity)
      else if !busy && queued == 0 then
        Confirms(awaits[1..], true, false, Filled(0, came, capacity), capacity)
      else
        var left := Filled(if busy then queued else queued - 1, came, capacity);
        if succeeds then 1 + Confirms(awaits[1..], true, false, left, capacity)
        else Confirms(awaits[1..], false, true, left, capacity)
  }

  function Errors(awaits: seq<Await>): nat
    decreases |awaits|
  {
    if awaits == [] then 0 else (if awaits[0].outcome.MqttError? then 1 else 0) + Errors(awaits[1..])
  }

  /** Progress despite errors: an error costs at most two awaits, its own and that of
      connecting again; every other one delivers an item while one is waiting. */
  lemma {:induction false} ErrorsOnlyDelay(awaits: seq<Await>, up: bool, busy: bool, queued: nat, capacity: nat)
    ensures var waiting := queued + if busy then 1 else 0;
            var turns := |awaits| - 2 * Errors(awaits) - if up then 0 else 1;
            Confirms(awaits, up, busy, queued, capacity) >= if waiting <= turns then waiting else turns
    decreases |awaits|
  {
    if awaits != [] {
      var succeeds, came := awaits[0].outcome.Succeeds?, |Messages(awaits[0].events)|;
      if !up {
        ErrorsOnlyDelay(awaits[1..], succeeds, busy, Filled(queued, came, capacity), capacity);
      } else if busy || queued > 0 {
        var left := Filled(if busy then queued else queued - 1, came, capacity);
        ErrorsOnlyDelay(awaits[1..], succeeds, !succeeds, left, capacity);
      }
    }
  }

  class StateForwarder {
    const capacity: nat
    var queue: seq<string>
    var inflight: Option<string>
    ghost var arrivals: seq<Arrival>
    ghost var accepted: seq<string>
    ghost var delivered: seq<string>
    ghost var broker: seq<string>
    ghost var places: seq<nat>

    constructor (capacity: nat)
      ensures Initial(Model()) && this.capacity == capacity
    {
      this.capacity := capacity;
      queue, inflight := [], None;
      arrivals, accepted, delivered, broker, places := [], [], [], [], [];
    }

    ghost function Model(): State
      reads this
    {
      State(capacity, queue, inflight, arrivals, accepted, delivered, broker, places)
    }

    /** put_nowait, or a warning when the queue is full. */
    method OnStateChanged(message: Option<string>)
      modifies this`queue, this`arrivals, this`accepted
      ensures Model() == Apply(old(Model()), Arrives(message))
      ensures Came(arrivals) == old(Came(arrivals)) + if message.Some? then [message.value] else []
      ensures old(queue) <= queue
      ensures |queue| == Filled(|old(queue)|, if message.Some? then 1 else 0, capacity)
    {
      if message.None? {
        return;
      }
      CameOneMore(arrivals, Arrival(message.value, |queue|));
      arrivals := arrivals + [Arrival(message.value, |queue|)];
      if capacity > 0 && |queue| >= capacity {
        return;
      }
      queue := queue + [message.value];
      accepted := accepted + [message.value];
    }

    /** The events that come while the loop awaits. */
    method Meanwhile(events: seq<Option<string>>, ghost start: State)
      requires Leads(start, Model())
      modifies this`queue, this`arrivals, this`accepted
      ensures Leads(start, Model()) && Came(arrivals) == old(Came(arrivals)) + Messages(events)
      ensures old(queue) <= queue && |queue| == Filled(|old(queue)|, |Messages(events)|, capacity)
    {
      for i := 0 to |events|
        invariant Leads(start, Model()) && Came(arrivals) == old(Came(arrivals)) + Messages(events[..i])
        invariant old(queue) <= queue && |queue| == Filled(|old(queue)|, |Messages(events[..i])|, capacity)
      {
        LeadsOn(start, Model(), Arrives(events[i]));
        OneMoreEvent(events, i);
        OnStateChanged(events[i]);
      }
      assert events[..|events|] == events;
    }

    method TakeNext(ghost start: State)
      requires inflight.None? && queue != [] && Leads(start, Model())
      modifies this`queue, this`inflight
      ensures inflight == Some(old(queue)[0]) && queue == old(queue)[1..] && Leads(start, Model())
    {
      LeadsOn(start, Model(), Takes);
      inflight := Some(queue[0]);
      queue := queue[1..];
    }

    /** publish() returns or raises; either way the broker may have the item. */
    method PublishEnds(outcome: Outcome, ghost start: State)
      requires inflight.Some? && Leads(start, Model())
      modifies this`inflight, this`delivered, this`broker, this`places
      ensures Leads(start, Model())
      ensures outcome.Succeeds? ==> inflight.None? && delivered == old(delivered) + [old(inflight).value]
      ensures outcome.MqttError? ==> inflight == old(inflight) && delivered == old(delivered)
    {
      LeadsOn(start, Model(), if outcome.Succeeds? then Publishes else PublishFails(outcome.reached));
      if outcome.Succeeds? || outcome.reached {
        broker, places := broker + [inflight.value], places + [|delivered|];
      }
      if outcome.Succeeds? {
        delivered := delivered + [inflight.value];
        inflight := None;
      }
    }

    /** One turn of the inner loop: it waits for an item, or publishes the one in
        flight; the client is left when that raises, the item is not. */
    method Turn(now: Await, ghost start: State) returns (up: bool)
      requires Leads(start, Model())
      modifies this
      ensures Leads(start, Model()) && Came(arrivals) == old(Came(arrivals)) + Messages(now.events)
      ensures old(Line(Model())) <= Line(Model())
      ensures var came := |Messages(now.events)|;
              if old(inflight).None? && old(queue) == [] then
                && up && inflight.None? && delivered == old(delivered) && |queue| == Filled(0, came, capacity)
              else
                && (up <==> now.outcome.Succeeds?) && (up <==> inflight.None?)
                && |delivered| == |old(delivered)| + (if up then 1 else 0)
                && |queue| == Filled(if old(inflight).Some? then |old(queue)| else |old(queue)| - 1, came, capacity)
    {
      if inflight.None? && queue == [] {
        Meanwhile(now.events, start);
        return true;
      }
      if inflight.None? {
        TakeNext(start);
      }
      assert Line(Model()) == old(Line(Model()));
      Meanwhile(now.events, start);
      ghost var line := Line(Model());
      assert old(Line(Model())) <= line;
      PublishEnds(now.outcome, start);
      assert Line(Model()) == line;
      up := now.outcome.Succeeds?;
    }

    /** Of these awaits the first n are over, and what came since is in arrivals. */
    ghost predicate Seen(came: seq<string>, awaits: seq<Await>, n: nat)
      reads this`arrivals
    {
      n <= |awaits| && Came(arrivals) == came + AllMessages(awaits[..n])
    }

    /** The publishes that the awaits from place n on will confirm. */
    ghost function ToCome(awaits: seq<Await>, n: nat, up: bool): nat
      requires n <= |awaits|
      reads this
    {
      Confirms(awaits[n..], up, inflight.Some?, |queue|, capacity)
    }

    /** The turn that uses await n. */
    method TurnAt(awaits: seq<Await>, n: nat, ghost start: State, ghost came: seq<string>) returns (up: bool)
      requires Seen(came, awaits, n) && n < |awaits| && Leads(start, Model())
      modifies this
      ensures Seen(came, awaits, n + 1) && Leads(start, Model()) && old(Line(Model())) <= Line(Model())
      ensures !up ==> awaits[n].outcome.MqttError? && inflight.Some?
      ensures |delivered| + ToCome(awaits, n + 1, up) == |old(delivered)| + old(ToCome(awaits, n, true))
    {
      OneMoreAwait(awaits, n);
      assert awaits[n..][0] == awaits[n] && awaits[n..][1..] == awaits[n + 1..];
      up := Turn(awaits[n], start);
    }

    /** With a client: turns until one raises, which leaves its item in flight. */
    method Connected(awaits: seq<Await>, from: nat, ghost start: State, ghost came: seq<string>) returns (n: nat)
      requires Seen(came, awaits, from) && Leads(start, Model())
      modifies this
      ensures from <= n && Seen(came, awaits, n) && Leads(start, Model())
      ensures n == |awaits| || (from < n && awaits[n - 1].outcome.MqttError? && inflight.Some?)
      ensures old(Line(Model())) <= Line(Model())
      ensures |delivered| + ToCome(awaits, n, false) == |old(delivered)| + old(ToCome(awaits, from, true))
    {
      n := from;
      var up := true;
      while up && n < |awaits|
        invariant from <= n && Seen(came, awaits, n) && Leads(start, Model())
        invariant up || (from < n && awaits[n - 1].outcome.MqttError? && inflight.Some?)
        invariant old(Line(Model())) <= Line(Model())
        invariant |delivered| + ToCome(awaits, n, up) == |old(delivered)| + old(ToCome(awaits, from, true))
        decreases |awaits| - n
      {
        up := TurnAt(awaits, n, start, came);
        n := n + 1;
      }
    }

    /** async with aiomqtt.Client: events come while it connects. */
    method Connects(awaits: seq<Await>, n: nat, ghost start: State, ghost came: seq<string>)
      requires Seen(came, awaits, n) && n < |awaits| && Leads(start, Model())
      modifies this`queue, this`arrivals, this`accepted
      ensures Seen(came, awaits, n + 1) && Leads(start, Model())
      ensures old(Line(Model())) <= Line(Model())
      ensures ToCome(awaits, n + 1, awaits[n].outcome.Succeeds?) == old(ToCome(awaits, n, false))
    {
      OneMoreAwait(awaits, n);
      assert awaits[n..][0] == awaits[n] && awaits[n..][1..] == awaits[n + 1..];
      Meanwhile(awaits[n].events, start);
    }

    /** _publish_loop, as far as these awaits: whatever comes meanwhile and whatever
        fails, it takes steps of the protocol only, so every message is delivered, in
        flight, queued or turned away at a full queue, in order of arrival. Exactly the
        publishes that succeed confirm an item each, those waiting at the start first;
        an error delays them by at most two awaits. */
    method PublishLoop(awaits: seq<Await>)
      requires Inv(Model())
      modifies this
      ensures Leads(old(Model()), Model())
      ensures Came(arrivals) == old(Came(arrivals)) + AllMessages(awaits)
      ensures Kept(arrivals, capacity) == delivered + InFlight(Model()) + queue
      ensures old(delivered + InFlight(Model()) + queue) <= delivered + InFlight(Model()) + queue
      ensures old(delivered) <= delivered
      ensures |delivered| == |old(delivered)| +
                             Confirms(awaits, false, old(inflight).Some?, |old(queue)|, capacity)
      ensures var waiting, turns := |old(InFlight(Model()) + queue)|, |awaits| - 1 - 2 * Errors(awaits);
              |delivered| - |old(delivered)| >= if waiting <= turns then waiting else turns
    {
      ghost var start, came := Model(), Came(arrivals);
      Runs.StartReachable(x => x == start, Next, start);
      var n := 0;
      assert awaits[0..] == awaits;
      while n < |awaits|
        invariant Seen(came, awaits, n) && Leads(start, Model())
        invariant Line(start) <= Line(Model())
        invariant |delivered| + ToCome(awaits, n, false) == |start.delivered| + old(ToCome(awaits, 0, false))
      {
        Connects(awaits, n, start, came);
        n := n + 1;
        if awaits[n - 1].outcome.Succeeds? {
          n := Connected(awaits, n, start, came);
        }
      }
      assert awaits[..|awaits|] == awaits;
      LoopWentOn(awaits, start, Model());
    }
  }

  lemma LoopWentOn(awaits: seq<Await>, s: State, z: State)
    requires Inv(s) && Leads(s, z) && Line(s) <= Line(z)
    requires |z.delivered| == |s.delivered| + Confirms(awaits, false, s.inflight.Some?, |s.queue|, s.capacity)
    ensures Kept(z.arrivals, z.capacity) == Line(z) && s.delivered <= z.delivered
    ensures var waiting, turns := |InFlight(s) + s.queue|, |awaits| - 1 - 2 * Errors(awaits);
            |z.delivered| - |s.delivered| >= if waiting <= turns then waiting else turns
  {
    LeadsKeeps(s, z);
    ErrorsOnlyDelay(awaits, false, s.inflight.Some?, |s.queue|, s.capacity);
    assert s.delivered <= Line(s) && z.delivered <= Line(z);
  }
}
