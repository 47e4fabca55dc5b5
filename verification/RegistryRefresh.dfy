/** The coalesced registry refresh (app/ha_connection.py: _schedule_registry_refresh,
    _registry_refresh_loop, _refresh_registries) beside the set-up's subscriptions
    and fetch, on one connection. Registry contents are numbered by age. */
module RegistryRefresh {
  import opened Basics
  import Runs

  // ----- State -----

  datatype Fetcher = BySetup | ByRefresh

  /** Subscribing: set-up has subscribed to the first n registries' events. A task
      fetching list j (entities, devices, areas) has asked, was answered by Home
      Assistant, or its reply is handled and it is about to resume. Started: a
      refresh created but not yet run; Listening: running the listeners. */
  datatype Pc =
    | Finished
    | Subscribing(n: nat)
    | Started
    | Asked(j: nat)
    | Answered(j: nat)
    | Resuming(j: nat)
    | Listening

  /** pass: which pass of the refresh asked; a reply to a failed one is ignored. */
  datatype Frame = Changed(version: nat) | Reply(who: Fetcher, j: nat, version: nat, pass: nat)
  datatype Resume = Resume(who: Fetcher, j: nat, version: nat, pass: nat)

  /** frames: on their way from Home Assistant; resumes: tasks the event loop will
      resume, in order; lists: the three registries held; failed: the last pass
      failed. delivered: history, the newest change announced to us since the last
      subscription, at first the one current then (subscribedAt). */
  datatype State = State(
    ha: nat, frames: seq<Frame>, resumes: seq<Resume>, lists: seq<nat>,
    dirty: bool, setup: Pc, refresh: Pc, pass: nat, failed: bool,
    subscribedAt: nat, delivered: nat)

  /** A connection just up. No disconnect cancels the refresh: one may still be
      there from the connection before, wherever it was. */
  predicate Initial(s: State) {
    && s.frames == [] && s.resumes == [] && |s.lists| == 3
    && (forall j :: 0 <= j < 3 ==> s.lists[j] <= s.ha)
    && s.setup == Subscribing(0) && s.subscribedAt == s.delivered == 0 && !s.failed
    && (s.refresh == Finished || (s.refresh == Started && s.dirty) || s.refresh == Listening ||
        ((s.refresh.Asked? || s.refresh.Answered?) && s.refresh.j < 3))
  }

  datatype Step =
    | HaChanges(kind: nat)
    | HaSubscribes
    | HaAnswers(who: Fetcher)
    | Delivers
    | Resumes
    | LoopTests
    | FetchFails

  function PcOf(s: State, who: Fetcher): Pc {
    if who == BySetup then s.setup else s.refresh
  }

  function WithPc(s: State, who: Fetcher, pc: Pc): State {
    if who == BySetup then s.(setup := pc) else s.(refresh := pc)
  }

  predicate Fetching(pc: Pc) {
    pc.Asked? || pc.Answered? || pc.Resuming?
  }

  /** The set-up's fetch, or the refresh's current pass. */
  predicate Current(s: State, who: Fetcher, pass: nat) {
    who == BySetup || pass == s.pass
  }

  predicate Enabled(s: State, step: Step) {
    match step
    case HaChanges(kind) => kind < 3
    case HaSubscribes => s.setup.Subscribing?
    case HaAnswers(who) => PcOf(s, who).Asked?
    case Delivers => s.frames != []
    case Resumes => s.resumes != [] && s.resumes[0].j < |s.lists|
    case LoopTests => s.refresh == Started || s.refresh == Listening
    case FetchFails => Fetching(s.refresh)
  }

  /** A change is announced once its registry's events are subscribed to. */
  function AfterHaChanges(s: State, kind: nat): State {
    s.(ha := s.ha + 1,
       frames := if s.setup.Subscribing? && s.setup.n <= kind then s.frames else s.frames + [Changed(s.ha + 1)])
  }

  function AfterHaSubscribes(s: State): State
    requires s.setup.Subscribing?
  {
    if s.setup.n < 2 then s.(setup := Subscribing(s.setup.n + 1))
    else s.(setup := Asked(0), subscribedAt := s.ha, delivered := s.ha)
  }

  /** A registry event marks the registries dirty and starts a refresh if none runs. */
  function Scheduled(s: State): State {
    s.(dirty := true, refresh := if s.refresh == Finished then Started else s.refresh)
  }

  function AfterDelivers(s: State): State
    requires s.frames != []
  {
    var rest := s.(frames := s.frames[1..]);
    match s.frames[0]
    case Changed(v) =>
      Scheduled(rest).(delivered := if s.setup.Subscribing? || v <= s.delivered then s.delivered else v)
    case Reply(who, j, v, pass) =>
      if PcOf(s, who) == Answered(j) && Current(s, who, pass)
      then WithPc(rest, who, Resuming(j)).(resumes := s.resumes + [Resume(who, j, v, pass)])
      else rest
  }

  /** The fetching task resumes: stores its list and goes on. */
  function AfterResumes(s: State): State
    requires Enabled(s, Resumes)
  {
    var r := s.resumes[0];
    var rest := s.(resumes := s.resumes[1..]);
    if PcOf(s, r.who) == Resuming(r.j) && Current(s, r.who, r.pass) then
      var next := if r.j < 2 then Asked(r.j + 1) else if r.who == BySetup then Finished else Listening;
      WithPc(rest.(lists := s.lists[r.j := r.version]), r.who, next)
    else rest
  }

  /** while self._registry_dirty: */
  function Tested(s: State): State {
    if s.dirty then s.(dirty := false, refresh := Asked(0), pass := s.pass + 1, failed := false)
    else s.(refresh := Finished)
  }

  function Apply(s: State, step: Step): State
    requires Enabled(s, step)
  {
    match step
    case HaChanges(kind) => AfterHaChanges(s, kind)
    case HaSubscribes => AfterHaSubscribes(s)
    case HaAnswers(who) =>
      WithPc(s, who, Answered(PcOf(s, who).j)).(frames := s.frames + [Reply(who, PcOf(s, who).j, s.ha, s.pass)])
    case Delivers => AfterDelivers(s)
    case Resumes => AfterResumes(s)
    case LoopTests => Tested(s)
    case FetchFails => s.(refresh := Finished, failed := true)
  }

  function Next(s: State, step: Step): Option<State> {
    if Enabled(s, step) then Some(Apply(s, step)) else None
  }

  /** The state after these steps, if each was enabled in its turn. */
  function Run(s: State, steps: seq<Step>): Option<State> {
    Runs.RunOf(Next, s, steps)
  }

  ghost predicate Reachable(s: State) {
    Runs.Reachable(Initial, Next, s)
  }

  // ----- The invariant -----

  function ResumeAges(resumes: seq<Resume>): seq<nat> {
    seq(|resumes|, i requires 0 <= i < |resumes| => resumes[i].version)
  }

  function FrameAges(frames: seq<Frame>): seq<nat> {
    seq(|frames|, i requires 0 <= i < |frames| => frames[i].version)
  }

  /** The versions on their way to the lists, nearest first. */
  function Ages(resumes: seq<Resume>, frames: seq<Frame>): seq<nat> {
    ResumeAges(resumes) + FrameAges(frames)
  }

  /** In order of age, up to high. */
  predicate Line(ages: seq<nat>, high: nat) {
    && (forall i, k :: 0 <= i < k < |ages| ==> ages[i] <= ages[k])
    && (forall i :: 0 <= i < |ages| ==> ages[i] <= high)
  }

  /** The nearest age on its way, or the newest there is. */
  function Nearest(ages: seq<nat>, newest: nat): nat {
    if ages == [] then newest else ages[0]
  }

  predicate HeldBy(lists: seq<nat>, bound: nat) {
    |lists| == 3 && forall j :: 0 <= j < 3 ==> lists[j] <= bound
  }

  /** Everything on its way is ordered by age, and no older than what is held. */
  predicate InOrder(ages: seq<nat>, lists: seq<nat>, ha: nat) {
    Line(ages, ha) && HeldBy(lists, Nearest(ages, ha))
  }

  /** What was delivered is no newer than what is on its way, but for changes from
      before the last subscription. */
  predicate DeliveredFits(frames: seq<Frame>, delivered: nat, subscribedAt: nat, ha: nat) {
    && subscribedAt <= delivered <= ha
    && (delivered <= Nearest(FrameAges(frames), ha) || delivered == subscribedAt)
  }

  /** A refresh that ended, or was scheduled anew, since the pass it last made. */
  predicate PassOver(refresh: Pc) {
    refresh == Finished || refresh == Started
  }

  /** A reply on its way is the one its task waits for, or a failed pass's. */
  predicate ReplyFits(f: Frame, setup: Pc, refresh: Pc, pass: nat) {
    f.Reply? ==>
      && f.j < 3
      && (f.who == BySetup ==> setup == Answered(f.j))
      && (f.who == ByRefresh ==> f.pass <= pass && (f.pass == pass ==> refresh == Answered(f.j) || PassOver(refresh)))
  }

  predicate FramesFit(frames: seq<Frame>, setup: Pc, refresh: Pc, pass: nat) {
    && (forall i :: 0 <= i < |frames| ==> ReplyFits(frames[i], setup, refresh, pass))
    && (forall i, k :: 0 <= i < k < |frames| && frames[i].Reply? && frames[k].Reply? &&
                        frames[i].who == frames[k].who ==>
          frames[i].who == ByRefresh && frames[i].pass != frames[k].pass)
  }

  predicate ResumeFits(r: Resume, setup: Pc, refresh: Pc, pass: nat) {
    && r.j < 3
    && (r.who == BySetup ==> setup == Resuming(r.j))
    && (r.who == ByRefresh ==> r.pass <= pass && (r.pass == pass ==> refresh == Resuming(r.j) || PassOver(refresh)))
  }

  predicate ResumesFit(resumes: seq<Resume>, setup: Pc, refresh: Pc, pass: nat) {
    && (forall i :: 0 <= i < |resumes| ==> ResumeFits(resumes[i], setup, refresh, pass))
    && (forall i, k :: 0 <= i < k < |resumes| && resumes[i].who == resumes[k].who ==>
          resumes[i].who == ByRefresh && resumes[i].pass != resumes[k].pass)
  }

  predicate PcsFit(setup: Pc, refresh: Pc, dirty: bool, failed: bool) {
    && ((setup.Subscribing? && setup.n < 3) || setup == Finished || (Fetching(setup) && setup.j < 3))
    && !refresh.Subscribing? && (Fetching(refresh) ==> refresh.j < 3)
    && (refresh == Started ==> dirty)
    && (failed ==> PassOver(refresh))
  }

  predicate SinceSubscribed(frames: seq<Frame>, resumes: seq<Resume>, subscribedAt: nat) {
    && (forall i :: 0 <= i < |frames| && frames[i].Reply? && frames[i].who == BySetup ==>
          subscribedAt <= frames[i].version)
    && (forall i :: 0 <= i < |resumes| && resumes[i].who == BySetup ==> subscribedAt <= resumes[i].version)
  }

  /** Set-up has stored list j. */
  predicate StoredBySetup(setup: Pc, j: nat) {
    setup == Finished || (Fetching(setup) && j < setup.j)
  }

  /** What set-up has stored is no older than the last subscription. */
  predicate StoresFit(lists: seq<nat>, setup: Pc, subscribedAt: nat) {
    |lists| == 3 && forall j :: 0 <= j < 3 && StoredBySetup(setup, j) ==> subscribedAt <= lists[j]
  }

  /** The newest change announced: delivered, or on its way. */
  function Announced(frames: seq<Frame>, delivered: nat): nat {
    if frames == [] then delivered
    else
      var before := Announced(frames[..|frames| - 1], delivered);
      match frames[|frames| - 1]
      case Changed(v) => if before < v then v else before
      case Reply(_, _, _, _) => before
  }

  predicate AnnouncedFits(setup: Pc, frames: seq<Frame>, delivered: nat, ha: nat) {
    setup.Subscribing? || Announced(frames, delivered) == ha
  }

  /** How far set-up vouches for the lists: where it is, and the newest change
      delivered against the one at the last subscription. */
  datatype Cover = Cover(setup: Pc, delivered: nat, subscribedAt: nat)

  function CoverOf(s: State): Cover {
    Cover(s.setup, s.delivered, s.subscribedAt)
  }

  /** Set-up is still to store list j, and no change has been announced since the
      last subscription. */
  predicate SetupCovers(c: Cover, j: nat) {
    c.setup.Subscribing? || (c.delivered == c.subscribedAt && Fetching(c.setup) && c.setup.j <= j)
  }

  /** List j is as new as the last change delivered, or set-up will see to it. */
  predicate Fresh(lists: seq<nat>, c: Cover, j: nat)
    requires j < |lists|
  {
    c.delivered <= lists[j] || SetupCovers(c, j)
  }

  predicate AllFresh(lists: seq<nat>, c: Cover, n: nat) {
    n <= |lists| && forall j :: 0 <= j < n ==> Fresh(lists, c, j)
  }

  /** So is what a resumed pass will store. */
  predicate FreshResume(c: Cover, version: nat) {
    c.delivered <= version || SetupCovers(c, 0)
  }

  predicate FreshResumes(resumes: seq<Resume>, c: Cover, pass: nat) {
    forall i :: 0 <= i < |resumes| && resumes[i].who == ByRefresh && resumes[i].pass == pass ==>
        FreshResume(c, resumes[i].version)
  }

  /** Unless dirty, what the refresh has stored or is about to store is fresh; a
      pass that did not fail leaves every list fresh. */
  predicate PassFits(lists: seq<nat>, c: Cover, resumes: seq<Resume>, refresh: Pc, pass: nat, dirty: bool,
                     failed: bool) {
    && |lists| == 3
    && (refresh == Finished && !failed ==> AllFresh(lists, c, 3))
    && (refresh == Listening && !dirty ==> AllFresh(lists, c, 3))
    && (Fetching(refresh) && !dirty ==>
          refresh.j < 3 && AllFresh(lists, c, refresh.j) && FreshResumes(resumes, c, pass))
  }

  predicate WaitsFit(s: State) {
    && PcsFit(s.setup, s.refresh, s.dirty, s.failed)
    && FramesFit(s.frames, s.setup, s.refresh, s.pass) && ResumesFit(s.resumes, s.setup, s.refresh, s.pass)
  }

  predicate Inv(s: State) {
    && InOrder(Ages(s.resumes, s.frames), s.lists, s.ha)
    && DeliveredFits(s.frames, s.delivered, s.subscribedAt, s.ha)
    && WaitsFit(s)
    && SinceSubscribed(s.frames, s.resumes, s.subscribedAt) && StoresFit(s.lists, s.setup, s.subscribedAt)
    && AnnouncedFits(s.setup, s.frames, s.delivered, s.ha)
    && PassFits(s.lists, CoverOf(s), s.resumes, s.refresh, s.pass, s.dirty, s.failed)
  }

  // ----- Ages -----

  lemma {:induction false} AnnouncedFront(frames: seq<Frame>, delivered: nat)
    requires frames != []
    ensures Announced(frames, delivered) ==
            Announced(frames[1..],
                      if frames[0].Changed? && delivered < frames[0].version then frames[0].version else delivered)
  {
    if |frames| > 1 {
      AnnouncedFront(frames[..|frames| - 1], delivered);
      assert frames[1..][..|frames| - 2] == frames[..|frames| - 1][1..];
    }
  }

  /** Nothing on its way is a newer change. */
  lemma {:induction false} NothingAnnounced(frames: seq<Frame>, delivered: nat)
    requires forall i :: 0 <= i < |frames| ==> !frames[i].Changed? || frames[i].version <= delivered
    ensures Announced(frames, delivered) == delivered
  {
    if frames != [] { NothingAnnounced(frames[..|frames| - 1], delivered); }
  }

  /** Taking one version out of the line leaves it in order. */
  lemma LineCut(line: seq<nat>, before: seq<nat>, x: nat, after: seq<nat>, high: nat)
    requires Line(line, high) && line == before + [x] + after
    ensures Line(before + after, high) && x <= high && x <= Nearest(after, high)
    ensures Nearest(line, high) <= Nearest(before + after, high) && Nearest(line, high) <= x
  {
    assert forall i :: 0 <= i < |before + after| ==> (before + after)[i] == line[if i < |before| then i else i + 1];
    assert line[|before|] == x;
    assert after != [] ==> line[|before| + 1] == after[0];
  }

  lemma FrameTaken(resumes: seq<Resume>, frames: seq<Frame>)
    requires frames != []
    ensures Ages(resumes, frames) == ResumeAges(resumes) + [frames[0].version] + FrameAges(frames[1..])
    ensures Ages(resumes, frames[1..]) == ResumeAges(resumes) + FrameAges(frames[1..])
    ensures Nearest(FrameAges(frames), 0) == frames[0].version
  {
    assert FrameAges(frames) == [frames[0].version] + FrameAges(frames[1..]);
  }

  lemma ReplyHandled(resumes: seq<Resume>, frames: seq<Frame>, r: Resume)
    requires frames != [] && r.version == frames[0].version
    ensures Ages(resumes + [r], frames[1..]) == Ages(resumes, frames)
  {
    FrameTaken(resumes, frames);
    assert ResumeAges(resumes + [r]) == ResumeAges(resumes) + [r.version];
  }

  lemma ResumeTaken(resumes: seq<Resume>, frames: seq<Frame>)
    requires resumes != []
    ensures Ages(resumes, frames) == [resumes[0].version] + Ages(resumes[1..], frames)
  {
    assert ResumeAges(resumes) == [resumes[0].version] + ResumeAges(resumes[1..]);
  }

  // ----- Preservation: Home Assistant's steps -----

  lemma FrameSent(s: State, f: Frame, ha: nat)
    requires InOrder(Ages(s.resumes, s.frames), s.lists, s.ha) && s.ha <= ha && f.version == ha
    requires DeliveredFits(s.frames, s.delivered, s.subscribedAt, s.ha)
    ensures InOrder(Ages(s.resumes, s.frames + [f]), s.lists, ha)
    ensures DeliveredFits(s.frames + [f], s.delivered, s.subscribedAt, ha)
  {
    assert FrameAges(s.frames + [f]) == FrameAges(s.frames) + [ha];
    assert Ages(s.resumes, s.frames + [f]) == Ages(s.resumes, s.frames) + [ha];
  }

  lemma UnheardChangeKeeps(s: State)
    requires Inv(s) && s.setup.Subscribing?
    ensures Inv(s.(ha := s.ha + 1))
  {
  }

  lemma AnnouncementKeeps(s: State)
    requires Inv(s)
    ensures Inv(s.(ha := s.ha + 1, frames := s.frames + [Changed(s.ha + 1)]))
  {
    var f := Changed(s.ha + 1);
    var frames := s.frames + [f];
    FrameSent(s, f, s.ha + 1);
    EventFits(s.frames, f, s.setup, s.refresh, s.pass);
    assert frames[..|s.frames|] == s.frames;
    assert forall i :: 0 <= i < |frames| && frames[i].Reply? ==> i < |s.frames| && frames[i] == s.frames[i];
  }

  lemma EventFits(frames: seq<Frame>, f: Frame, setup: Pc, refresh: Pc, pass: nat)
    requires FramesFit(frames, setup, refresh, pass) && f.Changed?
    ensures FramesFit(frames + [f], setup, refresh, pass)
  {
  }

  lemma ChangeKeeps(s: State, step: Step)
    requires Inv(s) && Enabled(s, step) && step.HaChanges?
    ensures Inv(Apply(s, step))
  {
    if s.setup.Subscribing? && s.setup.n <= step.kind {
      UnheardChangeKeeps(s);
    } else {
      AnnouncementKeeps(s);
    }
  }

  lemma SubscribeKeeps(s: State)
    requires Inv(s) && Enabled(s, HaSubscribes)
    ensures Inv(Apply(s, HaSubscribes))
  {
    var next := Apply(s, HaSubscribes);
    SetupMoves(s.frames, s.resumes, s.setup, next.setup, s.refresh, s.pass);
    assert forall j :: SetupCovers(CoverOf(next), j);
    if !next.setup.Subscribing? {
      assert forall i :: 0 <= i < |s.frames| ==> s.frames[i].version == Ages(s.resumes, s.frames)[|s.resumes| + i];
      NothingAnnounced(s.frames, s.ha);
    }
  }

  /** Nothing on its way belongs to a set-up that only subscribes. */
  lemma SetupMoves(frames: seq<Frame>, resumes: seq<Resume>, setup: Pc, next: Pc, refresh: Pc, pass: nat)
    requires FramesFit(frames, setup, refresh, pass) && ResumesFit(resumes, setup, refresh, pass) && setup.Subscribing?
    ensures FramesFit(frames, next, refresh, pass) && ResumesFit(resumes, next, refresh, pass)
    ensures forall at :: SinceSubscribed(frames, resumes, at)
  {
    assert forall i :: 0 <= i < |frames| ==> ReplyFits(frames[i], setup, refresh, pass);
    assert forall i :: 0 <= i < |resumes| ==> ResumeFits(resumes[i], setup, refresh, pass);
  }

  /** A task that has asked is answered: no other reply of its pass is on its way. */
  lemma AnswerFits(s: State, who: Fetcher)
    requires WaitsFit(s) && Enabled(s, HaAnswers(who))
    ensures WaitsFit(Apply(s, HaAnswers(who)))
  {
    var next := Apply(s, HaAnswers(who));
    forall i | 0 <= i < |s.frames|
      ensures next.frames[i] == s.frames[i] && ReplyFits(next.frames[i], next.setup, next.refresh, next.pass)
      ensures s.frames[i].Reply? && s.frames[i].who == who ==> who == ByRefresh && s.frames[i].pass != s.pass
    {
      assert ReplyFits(s.frames[i], s.setup, s.refresh, s.pass);
    }
    assert ReplyFits(next.frames[|s.frames|], next.setup, next.refresh, next.pass);
    forall i | 0 <= i < |s.resumes|
      ensures ResumeFits(next.resumes[i], next.setup, next.refresh, next.pass)
    {
      assert ResumeFits(s.resumes[i], s.setup, s.refresh, s.pass);
    }
  }

  /** Set-up goes on without storing anything. */
  lemma CoverStays(c: Cover, d: Cover)
    requires d.delivered == c.delivered && d.subscribedAt == c.subscribedAt
    requires Fetching(c.setup) && Fetching(d.setup) && c.setup.j == d.setup.j
    ensures forall v: nat :: FreshResume(c, v) ==> FreshResume(d, v)
    ensures forall lists: seq<nat>, n: nat :: AllFresh(lists, c, n) ==> AllFresh(lists, d, n)
    ensures forall lists: seq<nat> :: StoresFit(lists, c.setup, c.subscribedAt) ==>
              StoresFit(lists, d.setup, d.subscribedAt)
  {
    forall lists: seq<nat>, n: nat | AllFresh(lists, c, n)
      ensures AllFresh(lists, d, n)
    {
      forall j | 0 <= j < n
        ensures Fresh(lists, d, j)
      {
        assert Fresh(lists, c, j);
      }
    }
  }

  lemma AnswerKeepsStores(s: State, who: Fetcher)
    requires StoresFit(s.lists, s.setup, s.subscribedAt) && Enabled(s, HaAnswers(who))
    requires PassFits(s.lists, CoverOf(s), s.resumes, s.refresh, s.pass, s.dirty, s.failed)
    ensures var next := Apply(s, HaAnswers(who));
            && StoresFit(next.lists, next.setup, next.subscribedAt)
            && PassFits(next.lists, CoverOf(next), next.resumes, next.refresh, next.pass, next.dirty, next.failed)
  {
    if who == BySetup {
      CoverStays(CoverOf(s), CoverOf(Apply(s, HaAnswers(who))));
    }
  }

  lemma AnswerSinceSubscribed(frames: seq<Frame>, resumes: seq<Resume>, f: Frame, subscribedAt: nat)
    requires SinceSubscribed(frames, resumes, subscribedAt) && subscribedAt <= f.version
    ensures SinceSubscribed(frames + [f], resumes, subscribedAt)
  {
    assert forall i :: 0 <= i < |frames| ==> (frames + [f])[i] == frames[i];
  }

  lemma AnswerAnnounces(frames: seq<Frame>, f: Frame, delivered: nat)
    requires f.Reply?
    ensures Announced(frames + [f], delivered) == Announced(frames, delivered)
  {
    assert (frames + [f])[..|frames|] == frames;
  }

  lemma AnswerKeeps(s: State, who: Fetcher)
    requires Inv(s) && Enabled(s, HaAnswers(who))
    ensures Inv(Apply(s, HaAnswers(who)))
  {
    var f := Reply(who, PcOf(s, who).j, s.ha, s.pass);
    FrameSent(s, f, s.ha);
    AnswerFits(s, who);
    AnswerAnnounces(s.frames, f, s.delivered);
    AnswerSinceSubscribed(s.frames, s.resumes, f, s.subscribedAt);
    AnswerKeepsStores(s, who);
  }

  // ----- Preservation: the reader -----

  lemma FramesShorten(frames: seq<Frame>, setup: Pc, refresh: Pc, pass: nat)
    requires frames != [] && FramesFit(frames, setup, refresh, pass)
    ensures FramesFit(frames[1..], setup, refresh, pass)
    ensures frames[0].Reply? ==>
              forall i :: 0 <= i < |frames[1..]| && frames[1..][i].Reply? && frames[1..][i].who == frames[0].who ==>
                frames[0].who == ByRefresh && frames[1..][i].pass != frames[0].pass
  {
    assert forall i :: 0 <= i < |frames[1..]| ==> frames[1..][i] == frames[i + 1];
  }

  lemma EventStarts(frames: seq<Frame>, resumes: seq<Resume>, setup: Pc, pass: nat)
    requires FramesFit(frames, setup, Finished, pass) && ResumesFit(resumes, setup, Finished, pass)
    ensures FramesFit(frames, setup, Started, pass) && ResumesFit(resumes, setup, Started, pass)
  {
    assert forall i :: 0 <= i < |frames| && ReplyFits(frames[i], setup, Finished, pass) ==>
        ReplyFits(frames[i], setup, Started, pass);
    assert forall i :: 0 <= i < |resumes| && ResumeFits(resumes[i], setup, Finished, pass) ==>
        ResumeFits(resumes[i], setup, Started, pass);
  }

  lemma EventKeepsWaits(s: State)
    requires WaitsFit(s) && s.frames != [] && s.frames[0].Changed?
    ensures WaitsFit(AfterDelivers(s))
  {
    FramesShorten(s.frames, s.setup, s.refresh, s.pass);
    if s.refresh == Finished {
      EventStarts(s.frames[1..], s.resumes, s.setup, s.pass);
    }
  }

  lemma EventKeeps(s: State)
    requires Inv(s) && Enabled(s, Delivers) && s.frames[0].Changed?
    ensures Inv(Apply(s, Delivers))
  {
    var next, v := AfterDelivers(s), s.frames[0].version;
    FrameTaken(s.resumes, s.frames);
    LineCut(Ages(s.resumes, s.frames), ResumeAges(s.resumes), v, FrameAges(next.frames), s.ha);
    AnnouncedFront(s.frames, s.delivered);
    EventKeepsWaits(s);
    assert forall i :: 0 <= i < |next.frames| ==> next.frames[i] == s.frames[i + 1];
    assert next.dirty && next.refresh != Finished;
  }

  /** A reply from before the last subscription finds set-up with everything to store. */
  lemma OldReplyIsCovered(s: State, version: nat)
    requires StoresFit(s.lists, s.setup, s.subscribedAt) && PcsFit(s.setup, s.refresh, s.dirty, s.failed)
    requires HeldBy(s.lists, version) && (s.delivered <= version || s.delivered == s.subscribedAt)
    ensures FreshResume(CoverOf(s), version)
  {
    if version < s.delivered {
      assert !StoredBySetup(s.setup, 0);
    }
  }

  /** The reply is the one its task waits for. */
  predicate Accepts(s: State, f: Frame) {
    f.Reply? && PcOf(s, f.who) == Answered(f.j) && Current(s, f.who, f.pass)
  }

  lemma AcceptedFits(s: State)
    requires WaitsFit(s) && s.frames != [] && Accepts(s, s.frames[0])
    ensures WaitsFit(AfterDelivers(s))
  {
    var next, f := AfterDelivers(s), s.frames[0];
    var r := Resume(f.who, f.j, f.version, f.pass);
    FramesShorten(s.frames, s.setup, s.refresh, s.pass);
    assert ReplyFits(f, s.setup, s.refresh, s.pass);
    forall i | 0 <= i < |next.frames|
      ensures ReplyFits(next.frames[i], next.setup, next.refresh, next.pass)
    {
      assert ReplyFits(next.frames[i], s.setup, s.refresh, s.pass);
    }
    forall i | 0 <= i < |s.resumes|
      ensures next.resumes[i] == s.resumes[i] && ResumeFits(next.resumes[i], next.setup, next.refresh, next.pass)
      ensures s.resumes[i].who == f.who ==> f.who == ByRefresh && s.resumes[i].pass != f.pass
    {
      assert ResumeFits(s.resumes[i], s.setup, s.refresh, s.pass);
    }
    assert next.resumes == s.resumes + [r] && ResumeFits(r, next.setup, next.refresh, next.pass);
  }

  lemma AcceptedKeeps(s: State)
    requires Inv(s) && s.frames != [] && Accepts(s, s.frames[0])
    requires FreshResume(CoverOf(s), s.frames[0].version)
    requires InOrder(Ages(s.resumes, s.frames), s.lists, s.ha)
    ensures var next := AfterDelivers(s);
            && InOrder(Ages(next.resumes, next.frames), next.lists, next.ha)
            && WaitsFit(next) && StoresFit(next.lists, next.setup, next.subscribedAt)
            && PassFits(next.lists, CoverOf(next), next.resumes, next.refresh, next.pass, next.dirty, next.failed)
  {
    var next, f := AfterDelivers(s), s.frames[0];
    ReplyHandled(s.resumes, s.frames, Resume(f.who, f.j, f.version, f.pass));
    AcceptedFits(s);
    if f.who == BySetup {
      CoverStays(CoverOf(s), CoverOf(next));
    }
  }

  lemma ReplyDropped(s: State)
    requires Inv(s) && s.frames != [] && s.frames[0].Reply?
    requires InOrder(Ages(s.resumes, s.frames[1..]), s.lists, s.ha)
    requires DeliveredFits(s.frames[1..], s.delivered, s.subscribedAt, s.ha)
    ensures Inv(s.(frames := s.frames[1..]))
  {
    AnnouncedFront(s.frames, s.delivered);
    FramesShorten(s.frames, s.setup, s.refresh, s.pass);
    assert forall i :: 0 <= i < |s.frames[1..]| ==> s.frames[1..][i] == s.frames[i + 1];
  }

  lemma ReplyTaken(s: State)
    requires Inv(s) && Enabled(s, Delivers) && Accepts(s, s.frames[0])
    requires FreshResume(CoverOf(s), s.frames[0].version)
    requires DeliveredFits(s.frames[1..], s.delivered, s.subscribedAt, s.ha)
    ensures Inv(AfterDelivers(s))
  {
    var next := AfterDelivers(s);
    AcceptedKeeps(s);
    AnnouncedFront(s.frames, s.delivered);
    assert forall i :: 0 <= i < |next.frames| ==> next.frames[i] == s.frames[i + 1];
  }

  lemma ReplyKeeps(s: State)
    requires Inv(s) && Enabled(s, Delivers) && s.frames[0].Reply?
    ensures Inv(Apply(s, Delivers))
  {
    var ages, v := Ages(s.resumes, s.frames), s.frames[0].version;
    FrameTaken(s.resumes, s.frames);
    LineCut(ages, ResumeAges(s.resumes), v, FrameAges(s.frames[1..]), s.ha);
    if Accepts(s, s.frames[0]) {
      OldReplyIsCovered(s, v);
      ReplyTaken(s);
    } else {
      ReplyDropped(s);
    }
  }

  // ----- Preservation: the fetching tasks -----

  lemma ResumesShorten(resumes: seq<Resume>, setup: Pc, refresh: Pc, pass: nat)
    requires ResumesFit(resumes, setup, refresh, pass) && resumes != []
    ensures ResumesFit(resumes[1..], setup, refresh, pass)
    ensures forall i :: 0 <= i < |resumes[1..]| && resumes[1..][i].who == resumes[0].who ==>
              resumes[0].who == ByRefresh && resumes[1..][i].pass != resumes[0].pass
  {
    assert forall i :: 0 <= i < |resumes[1..]| ==> resumes[1..][i] == resumes[i + 1];
  }

  /** The resumed task is the one the reply was for. */
  predicate Continues(s: State, r: Resume) {
    PcOf(s, r.who) == Resuming(r.j) && Current(s, r.who, r.pass)
  }

  lemma ResumeKeepsWaits(s: State)
    requires WaitsFit(s) && Enabled(s, Resumes)
    ensures WaitsFit(AfterResumes(s))
  {
    var next, r := AfterResumes(s), s.resumes[0];
    ResumesShorten(s.resumes, s.setup, s.refresh, s.pass);
    assert ResumeFits(r, s.setup, s.refresh, s.pass);
    if Continues(s, r) {
      forall i | 0 <= i < |s.frames|
        ensures ReplyFits(s.frames[i], next.setup, next.refresh, next.pass)
      {
        assert ReplyFits(s.frames[i], s.setup, s.refresh, s.pass);
      }
      forall i | 0 <= i < |next.resumes|
        ensures ResumeFits(next.resumes[i], next.setup, next.refresh, next.pass)
      {
        assert ResumeFits(next.resumes[i], s.setup, s.refresh, s.pass);
      }
    }
  }

  /** Storing the nearest version keeps what is held behind what is on its way. */
  lemma StoreKeepsOrder(s: State)
    requires InOrder(Ages(s.resumes, s.frames), s.lists, s.ha) && Enabled(s, Resumes)
    ensures var next := AfterResumes(s); InOrder(Ages(next.resumes, next.frames), next.lists, next.ha)
    ensures s.lists[s.resumes[0].j] <= s.resumes[0].version
  {
    var after := Ages(s.resumes[1..], s.frames);
    ResumeTaken(s.resumes, s.frames);
    LineCut(Ages(s.resumes, s.frames), [], s.resumes[0].version, after, s.ha);
    assert [] + after == after;
  }

  lemma ResumesInOrder(s: State)
    requires Line(Ages(s.resumes, s.frames), s.ha)
    ensures forall i :: 0 < i < |s.resumes| ==> s.resumes[0].version <= s.resumes[i].version
  {
    forall i | 0 < i < |s.resumes|
      ensures s.resumes[0].version <= s.resumes[i].version
    {
      assert Ages(s.resumes, s.frames)[0] <= Ages(s.resumes, s.frames)[i];
    }
  }

  /** Set-up stores its list: what it covered is now held. */
  lemma SetupStoreKeepsPass(s: State)
    requires PassFits(s.lists, CoverOf(s), s.resumes, s.refresh, s.pass, s.dirty, s.failed)
    requires Enabled(s, Resumes) && s.resumes[0].who == BySetup && Continues(s, s.resumes[0]) && s.resumes[0].j < 3
    requires s.subscribedAt <= s.resumes[0].version && s.lists[s.resumes[0].j] <= s.resumes[0].version
    requires forall i :: 0 < i < |s.resumes| ==> s.resumes[0].version <= s.resumes[i].version
    ensures var next := AfterResumes(s);
            PassFits(next.lists, CoverOf(next), next.resumes, next.refresh, next.pass, next.dirty, next.failed)
  {
    var next := AfterResumes(s);
    assert forall j :: 0 <= j < 3 && Fresh(s.lists, CoverOf(s), j) ==> Fresh(next.lists, CoverOf(next), j);
    forall i | 0 <= i < |next.resumes| && FreshResume(CoverOf(s), s.resumes[i + 1].version)
      ensures next.resumes[i] == s.resumes[i + 1] && FreshResume(CoverOf(next), next.resumes[i].version)
    {
    }
  }

  lemma RefreshStoreKeepsPass(s: State)
    requires PassFits(s.lists, CoverOf(s), s.resumes, s.refresh, s.pass, s.dirty, s.failed)
    requires Enabled(s, Resumes) && s.resumes[0].who == ByRefresh && Continues(s, s.resumes[0]) && s.resumes[0].j < 3
    requires s.lists[s.resumes[0].j] <= s.resumes[0].version
    ensures var next := AfterResumes(s);
            PassFits(next.lists, CoverOf(next), next.resumes, next.refresh, next.pass, next.dirty, next.failed)
  {
    var next, c, r := AfterResumes(s), CoverOf(s), s.resumes[0];
    assert CoverOf(next) == c;
    assert forall i :: 0 <= i < |next.resumes| ==> next.resumes[i] == s.resumes[i + 1];
    if !s.dirty {
      assert FreshResume(c, r.version);
      assert Fresh(next.lists, c, r.j);
      assert forall j :: 0 <= j < 3 && Fresh(s.lists, c, j) ==> Fresh(next.lists, c, j);
    }
  }

  lemma ContinuedKeeps(s: State)
    requires Inv(s) && Enabled(s, Resumes) && Continues(s, s.resumes[0])
    ensures var next := AfterResumes(s);
            && PassFits(next.lists, CoverOf(next), next.resumes, next.refresh, next.pass, next.dirty, next.failed)
            && StoresFit(next.lists, next.setup, next.subscribedAt)
  {
    StoreKeepsOrder(s);
    ResumesInOrder(s);
    assert ResumeFits(s.resumes[0], s.setup, s.refresh, s.pass);
    if s.resumes[0].who == BySetup { SetupStoreKeepsPass(s); } else { RefreshStoreKeepsPass(s); }
  }

  lemma ResumeKeeps(s: State)
    requires Inv(s) && Enabled(s, Resumes)
    ensures Inv(Apply(s, Resumes))
  {
    var next := AfterResumes(s);
    StoreKeepsOrder(s);
    ResumeKeepsWaits(s);
    assert forall i :: 0 <= i < |next.resumes| ==> next.resumes[i] == s.resumes[i + 1];
    if Continues(s, s.resumes[0]) {
      ContinuedKeeps(s);
    }
  }

  lemma PassStarts(frames: seq<Frame>, resumes: seq<Resume>, setup: Pc, refresh: Pc, pass: nat, next: Pc, c: Cover)
    requires FramesFit(frames, setup, refresh, pass) && ResumesFit(resumes, setup, refresh, pass)
    ensures FramesFit(frames, setup, next, pass + 1) && ResumesFit(resumes, setup, next, pass + 1)
    ensures FramesFit(frames, setup, Finished, pass) && ResumesFit(resumes, setup, Finished, pass)
    ensures FreshResumes(resumes, c, pass + 1)
  {
    forall i | 0 <= i < |frames|
      ensures ReplyFits(frames[i], setup, next, pass + 1) && ReplyFits(frames[i], setup, Finished, pass)
    {
      assert ReplyFits(frames[i], setup, refresh, pass);
    }
    forall i | 0 <= i < |resumes|
      ensures ResumeFits(resumes[i], setup, next, pass + 1) && ResumeFits(resumes[i], setup, Finished, pass)
      ensures resumes[i].who == ByRefresh ==> resumes[i].pass <= pass
    {
      assert ResumeFits(resumes[i], setup, refresh, pass);
    }
  }

  lemma LoopKeeps(s: State, step: Step)
    requires Inv(s) && Enabled(s, step) && (step.LoopTests? || step.FetchFails?)
    ensures Inv(Apply(s, step))
  {
    PassStarts(s.frames, s.resumes, s.setup, s.refresh, s.pass, Asked(0), CoverOf(s));
    assert CoverOf(Apply(s, step)) == CoverOf(s);
  }

  lemma StepKeeps(s: State, step: Step)
    requires Inv(s) && Enabled(s, step)
    ensures Inv(Apply(s, step))
  {
    match step
    case HaChanges(_) => ChangeKeeps(s, step);
    case HaSubscribes => SubscribeKeeps(s);
    case HaAnswers(who) => AnswerKeeps(s, who);
    case Delivers => if s.frames[0].Reply? { ReplyKeeps(s); } else { EventKeeps(s); }
    case Resumes => ResumeKeeps(s);
    case _ => LoopKeeps(s, step);
  }

  lemma InitialHolds(s: State)
    requires Initial(s)
    ensures Inv(s)
  {
    assert Ages(s.resumes, s.frames) == [] && FrameAges(s.frames) == [];
    assert forall j :: SetupCovers(CoverOf(s), j);
  }

  lemma ReachableHolds(s: State)
    requires Reachable(s)
    ensures Inv(s)
  {
    forall x | Initial(x)
      ensures Inv(x)
    {
      InitialHolds(x);
    }
    forall x, step | Inv(x) && Next(x, step).Some?
      ensures Inv(Next(x, step).value)
    {
      StepKeeps(x, step);
    }
    Runs.ReachableKeeps(Initial, Next, Inv, s);
  }

  // ----- Main results -----

  /** Nothing is under way that could change the lists. */
  predicate Quiet(s: State) {
    s.setup == Finished && s.refresh == Finished && forall i :: 0 <= i < |s.frames| ==> !s.frames[i].Changed?
  }

  lemma ListsAreFresh(s: State)
    requires Inv(s) && s.setup == Finished && s.refresh == Finished && !s.failed && s.delivered == s.ha
    ensures forall j :: 0 <= j < 3 ==> s.lists[j] == s.ha
  {
    forall j | 0 <= j < 3
      ensures s.lists[j] == s.ha
    {
      assert Fresh(s.lists, CoverOf(s), j) && s.lists[j] <= Nearest(Ages(s.resumes, s.frames), s.ha);
    }
  }

  /** No registry change is lost, however many events arrive during a pass, whatever
      refresh was left over from an earlier connection and whichever earlier passes
      failed: quiet after a pass that did not fail, every registry held is Home
      Assistant's current one. */
  lemma NoChangeLost(s: State)
    requires Reachable(s) && Quiet(s) && !s.failed
    ensures |s.lists| == 3 && forall j :: 0 <= j < 3 ==> s.lists[j] == s.ha
  {
    ReachableHolds(s);
    NothingAnnounced(s.frames, s.delivered);
    ListsAreFresh(s);
  }

  /** A change announced while a refresh runs is picked up by another pass: the
      task cannot finish with a stale list that set-up is not about to fetch. */
  lemma RefreshEndsFresh(s: State)
    requires Reachable(s) && Enabled(s, LoopTests) && Apply(s, LoopTests).refresh == Finished
    ensures |s.lists| == 3 && forall j :: 0 <= j < 3 ==> s.delivered <= s.lists[j] || SetupCovers(CoverOf(s), j)
  {
    ReachableHolds(s);
    forall j | 0 <= j < 3
      ensures s.delivered <= s.lists[j] || SetupCovers(CoverOf(s), j)
    {
      assert Fresh(s.lists, CoverOf(s), j);
    }
  }

  predicate NoneFails(steps: seq<Step>) {
    forall i :: 0 <= i < |steps| ==> !steps[i].FetchFails?
  }

  /** A failure is past once a pass starts. */
  predicate Retried(s: State) {
    s.failed ==> s.refresh == Started
  }

  lemma RetriedStays(s: State, step: Step)
    requires PcsFit(s.setup, s.refresh, s.dirty, s.failed) && Retried(s) && Enabled(s, step) && !step.FetchFails?
    ensures Retried(Apply(s, step))
  {
  }

  /** A failure is past once a pass starts. */
  lemma {:induction false} RetriedSucceeds(s: State, steps: seq<Step>)
    requires Inv(s) && Retried(s) && NoneFails(steps) && Run(s, steps).Some?
    ensures Retried(Run(s, steps).value)
    decreases |steps|
  {
    if steps != [] {
      StepKeeps(s, steps[0]);
      RetriedStays(s, steps[0]);
      assert forall i :: 0 <= i < |steps[1..]| ==> steps[1..][i] == steps[i + 1];
      RetriedSucceeds(Apply(s, steps[0]), steps[1..]);
    }
  }

  /** The next event repairs: deliver one in any reachable state, failed passes or
      not; as soon as all is quiet again with no further failure, every registry
      held is the current one. */
  lemma EventRepairs(s: State, steps: seq<Step>)
    requires Reachable(s) && Enabled(s, Delivers) && s.frames[0].Changed?
    requires NoneFails(steps) && Run(Apply(s, Delivers), steps).Some?
    ensures var z := Run(Apply(s, Delivers), steps).value;
            Quiet(z) ==> |z.lists| == 3 && forall j :: 0 <= j < 3 ==> z.lists[j] == z.ha
  {
    ReachableHolds(s);
    StepKeeps(s, Delivers);
    RetriedSucceeds(Apply(s, Delivers), steps);
    var z := Run(Apply(s, Delivers), steps).value;
    if Quiet(z) {
      Runs.RunsOn(Initial, Next, s, [Delivers] + steps);
      assert ([Delivers] + steps)[1..] == steps;
      NoChangeLost(z);
    }
  }

  /** Without it a failed pass can leave a change behind. */
  lemma FailedFetchLosesChange()
    ensures exists s :: Reachable(s) && Quiet(s) && s.failed && s.frames == [] && |s.lists| == 3 && s.lists[0] < s.ha
  {
    var s0 := State(0, [], [], [0, 0, 0], false, Subscribing(0), Finished, 0, false, 0, 0);
    Runs.StartReachable(Initial, Next, s0);
    var s := Subscribed(s0);
    s := FetchOne(s);
    s := FetchOne(s);
    s := FetchOne(s);
    s := PassFails(s);
    assert s.lists == [0, 0, 0];
  }

  /** A change, its event, and a pass that fails at once. */
  lemma PassFails(s: State) returns (next: State)
    requires Reachable(s) && s.setup == Finished && s.refresh == Finished && s.frames == []
    ensures Reachable(next) && Quiet(next) && next.failed && next.frames == []
    ensures next.lists == s.lists && next.ha == s.ha + 1
  {
    next := Takes(s, HaChanges(0));
    assert next == s.(ha := s.ha + 1, frames := [Changed(s.ha + 1)]);
    next := Takes(next, Delivers);
    next := Takes(next, LoopTests);
    next := Takes(next, FetchFails);
  }

  lemma Takes(s: State, step: Step) returns (next: State)
    requires Reachable(s) && Enabled(s, step)
    ensures next == Apply(s, step) && Reachable(next)
  {
    next := Runs.Reach(Initial, Next, s, step);
  }

  lemma Subscribed(s: State) returns (next: State)
    requires Reachable(s) && s.setup == Subscribing(0) && s.ha == 0
    ensures Reachable(next) && next == s.(setup := Asked(0), subscribedAt := 0, delivered := 0)
  {
    next := Takes(s, HaSubscribes);
    next := Takes(next, HaSubscribes);
    next := Takes(next, HaSubscribes);
  }

  lemma FetchOne(s: State) returns (next: State)
    requires Reachable(s) && s.setup.Asked? && s.setup.j < 3 && s.frames == [] && s.resumes == []
    requires s.lists == [0, 0, 0] && s.ha == 0
    ensures Reachable(next) && next == s.(setup := if s.setup.j < 2 then Asked(s.setup.j + 1) else Finished)
  {
    var j := s.setup.j;
    next := Takes(s, HaAnswers(BySetup));
    assert next == s.(setup := Answered(j), frames := [Reply(BySetup, j, 0, s.pass)]);
    next := Takes(next, Delivers);
    assert next == s.(setup := Resuming(j), resumes := [Resume(BySetup, j, 0, s.pass)]);
    next := Takes(next, Resumes);
  }

  // ----- It comes to rest -----

  /** How far a task is from its end. */
  function Position(pc: Pc): nat {
    match pc
    case Finished => 0
    case Listening => 1
    case Resuming(j) => if j < 3 then 8 - 3 * j else 2
    case Answered(j) => if j < 3 then 9 - 3 * j else 3
    case Asked(j) => if j < 3 then 10 - 3 * j else 4
    case Started => 11
    case Subscribing(n) => if n < 3 then 15 - n else 12
  }

  function FramesLeft(frames: seq<Frame>): nat {
    if frames == [] then 0
    else FramesLeft(frames[..|frames| - 1]) + if frames[|frames| - 1].Changed? then 100 else 2
  }

  /** How much is left to do if Home Assistant's registries stay as they are. */
  function Left(s: State): nat {
    FramesLeft(s.frames) + |s.resumes| + 3 * Position(s.setup) + 3 * Position(s.refresh) + if s.dirty then 50 else 0
  }

  lemma FramesLeftMore(frames: seq<Frame>, f: Frame)
    ensures FramesLeft(frames + [f]) == FramesLeft(frames) + if f.Changed? then 100 else 2
  {
    assert (frames + [f])[..|frames|] == frames;
  }

  lemma {:induction false} FramesLeftFront(frames: seq<Frame>)
    requires frames != []
    ensures FramesLeft(frames) == FramesLeft(frames[1..]) + if frames[0].Changed? then 100 else 2
  {
    if |frames| > 1 {
      FramesLeftFront(frames[..|frames| - 1]);
      assert frames[..|frames| - 1][1..] == frames[1..][..|frames| - 2];
    }
  }

  lemma AnswerLeavesLess(s: State, who: Fetcher)
    requires PcsFit(s.setup, s.refresh, s.dirty, s.failed) && Enabled(s, HaAnswers(who))
    ensures Left(Apply(s, HaAnswers(who))) < Left(s)
  {
    FramesLeftMore(s.frames, Reply(who, PcOf(s, who).j, s.ha, s.pass));
    assert Position(Answered(PcOf(s, who).j)) < Position(PcOf(s, who));
  }

  lemma DeliveryLeavesLess(s: State)
    requires s.frames != []
    ensures Left(AfterDelivers(s)) < Left(s)
  {
    var next := AfterDelivers(s);
    FramesLeftFront(s.frames);
    assert next.frames == s.frames[1..];
    if s.frames[0].Changed? {
      assert Position(next.refresh) <= Position(s.refresh) + 11 && next.setup == s.setup;
    } else {
      assert |next.resumes| <= |s.resumes| + 1 && next.dirty == s.dirty;
      assert Position(next.refresh) <= Position(s.refresh) && Position(next.setup) <= Position(s.setup);
    }
  }

  lemma ResumeLeavesLess(s: State)
    requires Enabled(s, Resumes)
    ensures Left(AfterResumes(s)) < Left(s)
  {
    var next := AfterResumes(s);
    assert |next.resumes| == |s.resumes| - 1 && next.frames == s.frames && next.dirty == s.dirty;
    assert Position(next.refresh) <= Position(s.refresh) && Position(next.setup) <= Position(s.setup);
  }

  lemma TaskLeavesLess(s: State, step: Step)
    requires PcsFit(s.setup, s.refresh, s.dirty, s.failed) && Enabled(s, step)
    requires step.HaSubscribes? || step.LoopTests? || step.FetchFails?
    ensures Left(Apply(s, step)) < Left(s)
  {
    var next := Apply(s, step);
    assert next.frames == s.frames && next.resumes == s.resumes;
  }

  lemma StepLeavesLess(s: State, step: Step)
    requires PcsFit(s.setup, s.refresh, s.dirty, s.failed) && Enabled(s, step) && !step.HaChanges?
    ensures Left(Apply(s, step)) < Left(s)
  {
    match step
    case HaAnswers(who) => AnswerLeavesLess(s, who);
    case Delivers => DeliveryLeavesLess(s);
    case Resumes => ResumeLeavesLess(s);
    case _ => TaskLeavesLess(s, step);
  }

  /** What set-up waits for is on its way. */
  predicate SetupAwaits(setup: Pc, frames: seq<Frame>, resumes: seq<Resume>) {
    && (setup.Answered? ==> exists i :: 0 <= i < |frames| && frames[i].Reply? && frames[i].who == BySetup)
    && (setup.Resuming? ==> exists i :: 0 <= i < |resumes| && resumes[i].who == BySetup)
  }

  ghost predicate AwaitsInv(s: State) {
    Inv(s) && SetupAwaits(s.setup, s.frames, s.resumes)
  }

  lemma AnswerAwaits(s: State, step: Step)
    requires AwaitsInv(s) && Enabled(s, step) && (step.HaAnswers? || step.HaChanges?)
    ensures var next := Apply(s, step); SetupAwaits(next.setup, next.frames, next.resumes)
  {
    var next := Apply(s, step);
    assert s.frames <= next.frames && next.resumes == s.resumes;
    assert step == HaAnswers(BySetup) ==> next.frames[|s.frames|].who == BySetup;
  }

  lemma DeliveryAwaits(s: State)
    requires AwaitsInv(s) && Enabled(s, Delivers)
    ensures var next := Apply(s, Delivers); SetupAwaits(next.setup, next.frames, next.resumes)
  {
    var next := Apply(s, Delivers);
    if next.setup != s.setup {
      assert next.resumes[|s.resumes|].who == BySetup;
    } else if s.setup.Answered? {
      var i :| 0 <= i < |s.frames| && s.frames[i].Reply? && s.frames[i].who == BySetup;
      assert ReplyFits(s.frames[i], s.setup, s.refresh, s.pass);
      assert next.frames[i - 1] == s.frames[i];
    } else if s.setup.Resuming? {
      assert s.resumes <= next.resumes;
    }
  }

  lemma ResumeAwaits(s: State)
    requires AwaitsInv(s) && Enabled(s, Resumes)
    ensures var next := Apply(s, Resumes); SetupAwaits(next.setup, next.frames, next.resumes)
  {
    var next := Apply(s, Resumes);
    if s.setup.Resuming? && next.setup == s.setup {
      var i :| 0 <= i < |s.resumes| && s.resumes[i].who == BySetup;
      assert ResumeFits(s.resumes[i], s.setup, s.refresh, s.pass);
      assert next.resumes[i - 1] == s.resumes[i];
    }
  }

  lemma AwaitsKeep(s: State, step: Step)
    requires AwaitsInv(s) && Enabled(s, step)
    ensures AwaitsInv(Apply(s, step))
  {
    StepKeeps(s, step);
    match step
    case HaAnswers(_) => AnswerAwaits(s, step);
    case HaChanges(_) => AnswerAwaits(s, step);
    case Delivers => DeliveryAwaits(s);
    case Resumes => ResumeAwaits(s);
    case _ =>
  }

  lemma ReachableAwaits(s: State)
    requires Reachable(s)
    ensures AwaitsInv(s)
  {
    forall x | Initial(x)
      ensures AwaitsInv(x)
    {
      InitialHolds(x);
    }
    forall x, step | AwaitsInv(x) && Next(x, step).Some?
      ensures AwaitsInv(Next(x, step).value)
    {
      AwaitsKeep(x, step);
    }
    Runs.ReachableKeeps(Initial, Next, AwaitsInv, s);
  }

  /** A step that brings things on while they are not quiet. */
  function NextMove(s: State): Step {
    if s.frames != [] then Delivers
    else if s.resumes != [] then Resumes
    else if s.setup.Subscribing? then HaSubscribes
    else if s.setup.Asked? then HaAnswers(BySetup)
    else if s.refresh.Asked? then HaAnswers(ByRefresh)
    else if Fetching(s.refresh) then FetchFails
    else LoopTests
  }

  /** The refresh comes to rest: while things are not quiet some step can be taken, and
      every step but a further change in Home Assistant leaves strictly less to do. A
      fetch whose reply was lost with an earlier connection fails. */
  lemma RefreshSettles(s: State, step: Step)
    requires Reachable(s)
    ensures !Quiet(s) ==> Enabled(s, NextMove(s)) && !NextMove(s).HaChanges?
    ensures Enabled(s, step) && !step.HaChanges? ==> Left(Apply(s, step)) < Left(s)
  {
    ReachableAwaits(s);
    assert s.resumes != [] ==> ResumeFits(s.resumes[0], s.setup, s.refresh, s.pass);
    if Enabled(s, step) && !step.HaChanges? {
      StepLeavesLess(s, step);
    }
  }

  // ----- The refresh task's loop -----

  /** One turn of the loop: the socket is gone, or the lists fetched before the
      pass ended, and how many registry events came while it and its listeners ran. */
  datatype Turn = NoSocket | Pass(fetched: seq<nat>, events: nat)

  predicate Complete(turn: Turn) {
    turn.Pass? && |turn.fetched| == 3
  }

  /** The loop goes round again behind this turn. */
  predicate GoesRound(turn: Turn) {
    Complete(turn) && turn.events > 0
  }

  function Stored(lists: seq<nat>, fetched: seq<nat>): seq<nat> {
    if |fetched| <= |lists| then fetched + lists[|fetched|..] else fetched
  }

  /** The lists after these turns. */
  function StoredBy(lists: seq<nat>, turns: seq<Turn>): seq<nat> {
    if turns == [] then lists
    else
      var before, last := StoredBy(lists, turns[..|turns| - 1]), turns[|turns| - 1];
      if last.Pass? then Stored(before, last.fetched) else before
  }

  lemma {:induction false} StoredLength(lists: seq<nat>, turns: seq<Turn>)
    requires |lists| == 3 && forall k :: 0 <= k < |turns| && turns[k].Pass? ==> |turns[k].fetched| <= 3
    ensures |StoredBy(lists, turns)| == 3
  {
    if turns != [] { StoredLength(lists, turns[..|turns| - 1]); }
  }

  /** What the listeners found: the lists of every complete pass, in order. */
  function FoundBy(turns: seq<Turn>): seq<seq<nat>> {
    if turns == [] then []
    else
      var last := turns[|turns| - 1];
      FoundBy(turns[..|turns| - 1]) + if Complete(last) then [last.fetched] else []
  }

  class Refresher {
    var dirty: bool
    var lists: seq<nat>
    ghost var found: seq<seq<nat>>

    constructor (lists: seq<nat>)
      ensures !dirty && this.lists == lists && found == []
    {
      dirty, this.lists, found := false, lists, [];
    }

    /** for cb in self._registry_listeners: they read the lists as they are now. */
    method Announce()
      modifies this`found
      ensures found == old(found) + [lists]
    {
      found := found + [lists];
    }

    /** The refresh task, given what happens in each of its turns: it goes round
        exactly as long as an event came during the turn before, announces every
        complete pass and no other, and unless it was cut short it leaves the lists of
        a pass during which nothing changed. */
    method RefreshLoop(turns: seq<Turn>) returns (made: nat)
      requires |lists| == 3 && forall k :: 0 <= k < |turns| && turns[k].Pass? ==> |turns[k].fetched| <= 3
      modifies this
      ensures made <= |turns| && lists == StoredBy(old(lists), turns[..made])
      ensures found == old(found) + FoundBy(turns[..made])
      ensures forall k :: 0 <= k < made - 1 ==> GoesRound(turns[k])
      ensures !old(dirty) ==> made == 0
      ensures old(dirty) && made < |turns| ==> made > 0 && !GoesRound(turns[made - 1])
      ensures made > 0 && Complete(turns[made - 1]) ==> lists == turns[made - 1].fetched
      ensures made > 0 ==> dirty == (turns[made - 1].Pass? && turns[made - 1].events > 0)
    {
      made := 0;
      while dirty && made < |turns|
        invariant made <= |turns| && lists == StoredBy(old(lists), turns[..made])
        invariant found == old(found) + FoundBy(turns[..made])
        invariant forall k :: 0 <= k < made ==> GoesRound(turns[k]) || (k == made - 1 && Complete(turns[k]))
        invariant made > 0 ==> dirty == (turns[made - 1].events > 0)
        invariant made == 0 ==> dirty == old(dirty)
        invariant made > 0 ==> old(dirty) && lists == turns[made - 1].fetched
      {
        ghost var before := turns[..made];
        var turn := turns[made];
        dirty := false;
        made := made + 1;
        assert turns[..made][..made - 1] == before && turns[..made][made - 1] == turn;
        if turn.NoSocket? {
          return;
        }
        StoredLength(old(lists), before);
        lists := turn.fetched + lists[|turn.fetched|..];
        if turn.events > 0 {
          dirty := true;
        }
        if |turn.fetched| < 3 {
          return;
        }
        assert lists == turn.fetched;
        Announce();
      }
    }
  }
}
