/**
 What becomes of a job and of an install, told by what happened to them on the way: the
 actions of the run are read, and the books of the model are not.
 */
module QueueOutcomes {
  import opened Wrappers
  import opened QueueShared
  import opened QueueProtocol
  import opened QueueInvariant
  import opened QueueTheorems
  import P = Progress

  // ----- what happened to a job

  datatype Event = Separated | SeparationFailed | SeparationCancelled | Filed | FilingFailed | Panicked

  /** What an action does to `job`, if it is the one the worker is on. */
  ghost function Happening(s: State, a: Action, job: JobId): set<Event> {
    var w := s.c.worker;
    if !a.Work? || !AtJob(w) || w.job != job then {}
    else if a.turn.Panic? then (if w.Ending? && Caught(w.rest) then {} else {Panicked})
    else if w.Separating? then
      (match a.turn
       case SeparateOk => {Separated}
       case SeparateErr => {SeparationFailed}
       case SeparateCancelled => {SeparationCancelled}
       case _ => {})
    else if w.rest.Filing? then
      (match a.turn
       case WriteOk => {Filed}
       case WriteErr => {FilingFailed}
       case _ => {})
    else {}
  }

  /** Everything that has happened to it before state `i`. */
  ghost function Happened(run: seq<State>, acts: seq<Action>, i: nat, job: JobId): set<Event>
    requires i <= |acts| && |acts| < |run|
  {
    if i == 0 then {} else Happened(run, acts, i - 1, job) + Happening(run[i - 1], acts[i - 1], job)
  }

  lemma {:induction false} HappenedIs(run: seq<State>, acts: seq<Action>, i: nat, job: JobId, e: Event)
    requires i <= |acts| && |acts| < |run|
    ensures e in Happened(run, acts, i, job) <==> exists k :: 0 <= k < i && e in Happening(run[k], acts[k], job)
  {
    if i > 0 { HappenedIs(run, acts, i - 1, job, e); }
  }

  /** How the stage a job is left with goes with what happened to it. */
  ghost predicate Told(stage: P.Stage, events: set<Event>) {
    && (stage.Done? <==> events == {Separated, Filed})
    && (stage.Cancelled? <==> events == {SeparationCancelled})
    && (stage.Failed? <==> Panicked in events || events == {SeparationFailed} || events == {Separated, FilingFailed})
  }

  /** And what can have happened by the time of each of the worker's writes. */
  ghost predicate Underway(rest: Rest, stage: P.Stage, events: set<Event>) {
    match rest
    case SetWriting => events == {Separated}
    case Filing => events == {Separated}
    case SetEntry => events == {Separated, Filed}
    case SetResult => events == {Separated, Filed}
    case SetDone => events == {Separated, Filed}
    case SetCancelled => events == {SeparationCancelled}
    case SetError => events == {SeparationFailed} || events == {Separated, FilingFailed}
    case SetFailed => events == {SeparationFailed} || events == {Separated, FilingFailed}
    case Returning => Told(stage, events)
    case CaughtError => Panicked in events
    case CaughtFailed => Panicked in events
  }

  ghost predicate Story(c: Core, job: JobId, events: set<Event>) {
    if job !in c.h.started || job !in c.cards then events == {}
    else if OnJob(c.worker, job) then
      (if c.worker.Ending? then Underway(c.worker.rest, c.cards[job].stage, events) else events == {})
    else Told(c.cards[job].stage, events)
  }

  /** What the next write of the worker's may find, once this one has been made. */
  lemma OnwardTells(job: JobId, flag: nat, rest: Rest, turn: Turn, card: Card, events: set<Event>, more: set<Event>)
    requires Onward(job, flag, rest, turn).Some? && Underway(rest, card.stage, events)
    requires more == if rest.Filing? && turn.WriteOk? then {Filed} else if rest.Filing? && turn.WriteErr? then {FilingFailed} else {}
    ensures var w, after := Onward(job, flag, rest, turn).value, Written(rest, card);
      && (w.Ending? || w.WantClear?) && w.job == job
      && (if w.Ending? then Underway(w.rest, after.stage, events + more) else Told(after.stage, events + more))
  {
    assert events + {} == events;
  }

  lemma EndTells(s: State, turn: Turn, events: set<Event>)
    requires s.c.worker.Ending? && WorkEnd(s.c, turn).Some? && s.c.worker.job in s.c.cards
    requires Underway(s.c.worker.rest, s.c.cards[s.c.worker.job].stage, events)
    ensures var job, c', after := s.c.worker.job, WorkEnd(s.c, turn).value, events + Happening(s, Work(turn), s.c.worker.job);
      && job in c'.cards && c'.worker.job == job && (c'.worker.Ending? || c'.worker.WantClear?)
      && (if c'.worker.Ending? then Underway(c'.worker.rest, c'.cards[job].stage, after)
          else Told(c'.cards[job].stage, after))
  {
    var job, flag, rest, card := s.c.worker.job, s.c.worker.flag, s.c.worker.rest, s.c.cards[s.c.worker.job];
    if !(turn.Panic? && !Caught(rest)) {
      hide Underway, Told;
      var more := if rest.Filing? && turn.WriteOk? then {Filed} else if rest.Filing? && turn.WriteErr? then {FilingFailed} else {};
      assert Happening(s, Work(turn), job) == more;
      OnwardTells(job, flag, rest, turn, card, events, more);
    }
  }

  lemma SeparationTells(s: State, turn: Turn)
    requires s.c.worker.Separating? && WorkSeparate(s.c, turn).Some? && s.c.worker.job in s.c.cards
    ensures var job, c', after := s.c.worker.job, WorkSeparate(s.c, turn).value, Happening(s, Work(turn), s.c.worker.job);
      && job in c'.cards && c'.worker.job == job && (c'.worker.Ending? || c'.worker.Separating?)
      && (if c'.worker.Ending? then Underway(c'.worker.rest, c'.cards[job].stage, after) else after == {})
  {
  }

  /** The worker, on the job. */
  lemma OwnStoryGoesOn(s: State, turn: Turn, job: JobId, events: set<Event>)
    requires JobsOk(s.c) && CardsOk(s.c) && OnJob(s.c.worker, job) && DoWork(s.c, turn).Some? && Story(s.c, job, events)
    ensures Story(DoWork(s.c, turn).value, job, events + Happening(s, Work(turn), job))
  {
    QueueHasNoRepeats(s.c);
    WorkersCard(s.c);
    hide WorkSeparate, WorkEnd, Underway, Told, JobsOk, CardsOk, AtWork;
    var c' := DoWork(s.c, turn).value;
    OwnWorkStartsNothing(s.c, turn);
    if s.c.worker.Ending? { EndTells(s, turn, events); }
    else if s.c.worker.Separating? { SeparationTells(s, turn); }
  }

  lemma OwnWorkStartsNothing(c: Core, turn: Turn)
    requires HasJob(c.worker) && !JobOver(c.worker) && DoWork(c, turn).Some?
    ensures DoWork(c, turn).value.h.started == c.h.started
    ensures c.worker.HoldRegister? ==> DoWork(c, turn).value == c.(
              d := Register(c.d, c.worker.job, c.worker.flag), worker := Separating(c.worker.job, c.worker.flag))
  {
  }

  /** The worker, on something else. */
  lemma OtherStoryGoesOn(c: Core, turn: Turn, job: JobId, events: set<Event>)
    requires JobsOk(c) && CardsOk(c) && !OnJob(c.worker, job) && DoWork(c, turn).Some? && Story(c, job, events)
    ensures Story(DoWork(c, turn).value, job, events)
  {
    hide DoWork, Told, Underway, JobsOk, CardsOk;
    StartsOnlyWhatItTakes(c, turn, job);
    if job in c.h.started {
      StartedHasACard(c, job);
      WorkWritesItsOwn(c, turn, job);
    }
  }

  lemma StartedHasACard(c: Core, job: JobId)
    requires JobsOk(c) && CardsOk(c) && job in c.h.started
    ensures job in c.cards && job in c.h.accepted && job in c.h.claimant
  {
    QueueHasNoRepeats(c);
  }

  lemma StartsOnlyWhatItTakes(c: Core, turn: Turn, job: JobId)
    requires DoWork(c, turn).Some?
    ensures job !in c.h.started && job in DoWork(c, turn).value.h.started ==>
      OnJob(DoWork(c, turn).value.worker, job) && !DoWork(c, turn).value.worker.Ending?
  {
  }

  lemma GrantedStory(c: Core, job: JobId, events: set<Event>)
    requires WorkerWants(c.worker).Some? && Story(c, job, events)
    ensures Story(c.(worker := WorkerGranted(c.worker)), job, events)
  {
  }

  lemma CallersTellNothing(c: Core, t: Tid, pc: Pc, job: JobId, events: set<Event>)
    requires JobsOk(c) && CardsOk(c) && CallerOk(c, t, pc) && Do(c, t, pc).Moved? && Story(c, job, events)
    ensures Story(Do(c, t, pc).c, job, events)
  {
    hide Do, Told, Underway, JobsOk, CardsOk;
    DoStartsNothing(c, t, pc);
    DoInstallsNothing(c, t, pc);
    if job in c.h.started {
      StartedHasACard(c, job);
      DoWritesNoAccepted(c, t, pc, job);
    }
  }

  lemma StoryGoesOn(s: State, a: Action, s': State, job: JobId, events: set<Event>)
    requires Inv(s) && Next(s, a) == Some(s') && Story(s.c, job, events)
    ensures Story(s'.c, job, events + Happening(s, a, job))
  {
    hide Do, DoWork, Story, Happening;
    match a
    case Call(t, op) => CallTellsNothing(s, t, op, job, events); NothingHappens(s, a, job);
    case GraceOver(t) => NothingHappens(s, a, job);
    case Step(t) =>
      NothingHappens(s, a, job);
      if Wants(s.callers[t]).None? { CallersTellNothing(s.c, t, s.callers[t], job, events); }
    case Work(turn) =>
      if WorkerWants(s.c.worker).Some? { NothingHappens(s, a, job); GrantedStory(s.c, job, events); }
      else if OnJob(s.c.worker, job) { OwnStoryGoesOn(s, turn, job, events); }
      else { NothingHappens(s, a, job); OtherStoryGoesOn(s.c, turn, job, events); }
  }

  lemma NothingHappens(s: State, a: Action, job: JobId)
    requires !a.Work? || WorkerWants(s.c.worker).Some? || !OnJob(s.c.worker, job)
    ensures Happening(s, a, job) == {} && forall events: set<Event> :: events + Happening(s, a, job) == events
  {
  }

  lemma CallTellsNothing(s: State, t: Tid, op: Op, job: JobId, events: set<Event>)
    requires JobsOk(s.c) && CardsOk(s.c) && Begin(s, t, op).Some? && Story(s.c, job, events)
    ensures Story(Begin(s, t, op).value.c, job, events)
  {
    if job in s.c.h.started { StartedHasACard(s.c, job); }
  }

  lemma {:induction false} EveryStory(run: seq<State>, acts: seq<Action>, i: nat, job: JobId)
    requires IsRun(run, acts) && i < |run|
    ensures Story(run[i].c, job, Happened(run, acts, i, job))
  {
    hide Next, Inv, Story, Happening;
    if i == 0 { FreshStory(run, acts, job); }
    else {
      EveryStory(run, acts, i - 1, job);
      EveryStateIsGood(run, acts, i - 1);
      StepOf(run, acts, i - 1);
      StoryGoesOn(run[i - 1], acts[i - 1], run[i], job, Happened(run, acts, i - 1, job));
    }
  }

  lemma FreshStory(run: seq<State>, acts: seq<Action>, job: JobId)
    requires IsRun(run, acts)
    ensures Story(run[0].c, job, {})
  {
  }

  // ----- in terms of the run alone

  /** The separator, on `job`, comes out this way at step `k`. */
  ghost predicate ComesOut(run: seq<State>, acts: seq<Action>, k: nat, job: JobId, turn: Turn)
    requires k < |acts| < |run|
  {
    acts[k] == Work(turn) && run[k].c.worker.Separating? && run[k].c.worker.job == job
  }

  /** The cache, publishing `job`, comes out this way at step `k`. */
  ghost predicate Publishes(run: seq<State>, acts: seq<Action>, k: nat, job: JobId, turn: Turn)
    requires k < |acts| < |run|
  {
    acts[k] == Work(turn) && run[k].c.worker.Ending? && run[k].c.worker.rest.Filing? && run[k].c.worker.job == job
  }

  /** Something panics at step `k`, on `job` and outside the handler of a panic. */
  ghost predicate Panics(run: seq<State>, acts: seq<Action>, k: nat, job: JobId)
    requires k < |acts| < |run|
  {
    && acts[k] == Work(Panic) && AtJob(run[k].c.worker) && run[k].c.worker.job == job
    && !(run[k].c.worker.Ending? && Caught(run[k].c.worker.rest))
  }

  lemma HappeningIs(run: seq<State>, acts: seq<Action>, k: nat, job: JobId)
    requires k < |acts| < |run|
    ensures Separated in Happening(run[k], acts[k], job) <==> ComesOut(run, acts, k, job, SeparateOk)
    ensures SeparationFailed in Happening(run[k], acts[k], job) <==> ComesOut(run, acts, k, job, SeparateErr)
    ensures SeparationCancelled in Happening(run[k], acts[k], job) <==> ComesOut(run, acts, k, job, SeparateCancelled)
    ensures Filed in Happening(run[k], acts[k], job) <==> Publishes(run, acts, k, job, WriteOk)
    ensures FilingFailed in Happening(run[k], acts[k], job) <==> Publishes(run, acts, k, job, WriteErr)
    ensures Panicked in Happening(run[k], acts[k], job) <==> Panics(run, acts, k, job)
  {
  }

  /**
   A job the worker has left shows how it came out.  Done, exactly if its separation succeeded, and
   after that its publication, and nothing panicked; cancelled, exactly if its separation was and
   nothing panicked; failed, exactly if either of them failed or something panicked.
   */
  lemma EndsAsItCameOut(run: seq<State>, acts: seq<Action>, i: nat, job: JobId)
    requires IsRun(run, acts) && i < |run| && job in run[i].c.h.started && !OnJob(run[i].c.worker, job)
    ensures job in run[i].c.cards
    ensures var stage := run[i].c.cards[job].stage;
      && (stage.Done? <==>
            && (exists k, l :: 0 <= k < l < i && ComesOut(run, acts, k, job, SeparateOk) && Publishes(run, acts, l, job, WriteOk))
            && !(exists k :: 0 <= k < i && Panics(run, acts, k, job)))
      && (stage.Cancelled? <==>
            && (exists k :: 0 <= k < i && ComesOut(run, acts, k, job, SeparateCancelled))
            && !(exists k :: 0 <= k < i && Panics(run, acts, k, job)))
      && (stage.Failed? <==>
            || (exists k :: 0 <= k < i && ComesOut(run, acts, k, job, SeparateErr))
            || (exists k :: 0 <= k < i && Publishes(run, acts, k, job, WriteErr))
            || (exists k :: 0 <= k < i && Panics(run, acts, k, job)))
  {
    LeftMeansTerminal(run, acts, i, job);
    EveryStory(run, acts, i, job);
    EventsOf(run, acts, i, job);
    var events := Happened(run, acts, i, job);
    if Filed in events { SeparatedFirst(run, acts, i, job); }
  }

  lemma EventsOf(run: seq<State>, acts: seq<Action>, i: nat, job: JobId)
    requires i <= |acts| < |run|
    ensures var events := Happened(run, acts, i, job);
      && (Separated in events <==> exists k :: 0 <= k < i && ComesOut(run, acts, k, job, SeparateOk))
      && (SeparationFailed in events <==> exists k :: 0 <= k < i && ComesOut(run, acts, k, job, SeparateErr))
      && (SeparationCancelled in events <==> exists k :: 0 <= k < i && ComesOut(run, acts, k, job, SeparateCancelled))
      && (Filed in events <==> exists k :: 0 <= k < i && Publishes(run, acts, k, job, WriteOk))
      && (FilingFailed in events <==> exists k :: 0 <= k < i && Publishes(run, acts, k, job, WriteErr))
      && (Panicked in events <==> exists k :: 0 <= k < i && Panics(run, acts, k, job))
  {
    hide Happening, ComesOut, Publishes, Panics;
    forall e: Event { HappenedIs(run, acts, i, job, e); }
    forall k: nat | k < i { HappeningIs(run, acts, k, job); }
  }

  /** What is published had been separated by then. */
  lemma SeparatedFirst(run: seq<State>, acts: seq<Action>, i: nat, job: JobId)
    requires IsRun(run, acts) && i < |run| && Filed in Happened(run, acts, i, job)
    ensures exists k, l :: 0 <= k < l < i && ComesOut(run, acts, k, job, SeparateOk) && Publishes(run, acts, l, job, WriteOk)
  {
    hide Happened, Happening, Next;
    EventsOf(run, acts, i, job);
    var l :| 0 <= l < i && Publishes(run, acts, l, job, WriteOk);
    EveryStory(run, acts, l, job);
    EveryStateIsGood(run, acts, l);
    WorkersCard(run[l].c);
    QueueHasNoRepeats(run[l].c);
    EventsOf(run, acts, l, job);
    var k :| 0 <= k < l && ComesOut(run, acts, k, job, SeparateOk);
  }

  // ----- what happened to an install

  /** The answer that an action makes due to request `r`: its build's outcome, or what cut it short. */
  ghost function Earned(s: State, a: Action, r: nat): set<Answer> {
    var w := s.c.worker;
    var taken := s.c.d.incoming.Some? && s.c.d.incoming.value.id == r;
    match a
    case Work(turn) =>
      if !w.Building? || w.request.id != r then {}
      else
        (match turn
         case BuildOk => {Built(w.request.model)}
         case BuildErr => {BuildFailed}
         case BuildPanic => {BuildPanicked}
         case _ => {})
    case Step(t) =>
      if !taken || t !in s.callers then {}
      else if s.callers[t].InstallHoldIncoming? then {Superseded}
      else if s.callers[t].StopHoldIncoming? then {ShuttingDown}
      else {}
    case _ => {}
  }

  ghost function EverEarned(run: seq<State>, acts: seq<Action>, i: nat, r: nat): set<Answer>
    requires i <= |acts| && |acts| < |run|
  {
    if i == 0 then {} else EverEarned(run, acts, i - 1, r) + Earned(run[i - 1], acts[i - 1], r)
  }

  lemma {:induction false} EverEarnedIs(run: seq<State>, acts: seq<Action>, i: nat, r: nat, x: Answer)
    requires i <= |acts| && |acts| < |run|
    ensures x in EverEarned(run, acts, i, r) <==> exists k :: 0 <= k < i && x in Earned(run[k], acts[k], r)
  {
    if i > 0 { EverEarnedIs(run, acts, i - 1, r, x); }
  }

  /** The one answer earned so far, at every place a request can be in. */
  ghost predicate Fate(s: State, r: nat, earned: set<Answer>) {
    if r >= |s.c.h.places| || r >= |s.c.h.replies| then earned == {}
    else match s.c.h.places[r]
         case Staged => earned == {}
         case AtWorker =>
           && (s.c.worker.Building? ==> earned == {})
           && (s.c.worker.Publishing? ==> earned == {Built(s.c.worker.request.model)})
           && (s.c.worker.Replying? ==> earned == {s.c.worker.answer})
         case Handed(t) =>
           && t in s.callers
           && (s.callers[t].InstallSupersede? ==> earned == {Superseded})
           && (s.callers[t].StopReply? ==> earned == {ShuttingDown})
         case Answered => |s.c.h.replies[r]| == 1 && earned == {s.c.h.replies[r][0]}
  }

  lemma BuildGoesOn(s: State, turn: Turn, r: nat, earned: set<Answer>)
    requires InstallsOk(s.c) && HandedOk(s) && WorkInstall(s.c, turn).Some? && Fate(s, r, earned)
    ensures Fate(s.(c := WorkInstall(s.c, turn).value), r, earned + Earned(s, Work(turn), r))
  {
  }

  lemma TakingGoesOn(s: State, r: nat, earned: set<Answer>)
    requires InstallsOk(s.c) && WorkNext(s.c).Some? && Fate(s, r, earned)
    ensures Fate(s.(c := WorkNext(s.c).value), r, earned)
  {
  }

  lemma JobsTouchNoRequest(c: Core, turn: Turn)
    requires InstallsOk(c)
    ensures WorkSeparate(c, turn).Some? ==> Untouched(c, WorkSeparate(c, turn).value)
    ensures WorkEnd(c, turn).Some? ==> Untouched(c, WorkEnd(c, turn).value)
  {
  }

  /** No request has moved, and the worker holds none before or after. */
  ghost predicate Untouched(c: Core, c': Core) {
    && c'.h.places == c.h.places && c'.h.replies == c.h.replies
    && !(c.worker.Building? || c.worker.Publishing? || c.worker.Replying?)
    && !(c'.worker.Building? || c'.worker.Publishing? || c'.worker.Replying?)
  }

  lemma UntouchedFate(s: State, c': Core, r: nat, earned: set<Answer>)
    requires InstallsOk(s.c) && Untouched(s.c, c') && Fate(s, r, earned)
    ensures Fate(s.(c := c'), r, earned)
  {
  }

  lemma WorkGoesOn(s: State, turn: Turn, r: nat, earned: set<Answer>)
    requires InstallsOk(s.c) && HandedOk(s) && DoWork(s.c, turn).Some? && Fate(s, r, earned)
    ensures Fate(s.(c := DoWork(s.c, turn).value), r, earned + Earned(s, Work(turn), r))
  {
    hide WorkNext, WorkInstall, WorkSeparate, WorkEnd, Fate, InstallsOk, HandedOk, Untouched;
    JobsTouchNoRequest(s.c, turn);
    assert earned + {} == earned;
    match s.c.worker
    case Separating(_, _) => UntouchedFate(s, WorkSeparate(s.c, turn).value, r, earned);
    case HoldClear(_, _) => UntouchedFate(s, WorkSeparate(s.c, turn).value, r, earned);
    case Ending(_, _, _) => UntouchedFate(s, WorkEnd(s.c, turn).value, r, earned);
    case Building(_) => BuildGoesOn(s, turn, r, earned);
    case Publishing(_) => BuildGoesOn(s, turn, r, earned);
    case Replying(_, _) => BuildGoesOn(s, turn, r, earned);
    case Swapping(_) => BuildGoesOn(s, turn, r, earned);
    case _ => TakingGoesOn(s, r, earned);
  }

  /** Not at one of the four places in a call from which a request changes hands. */
  ghost predicate Quiet(pc: Pc) {
    !pc.InstallHoldIncoming? && !pc.InstallSupersede? && !pc.StopHoldIncoming? && !pc.StopReply?
  }

  lemma QuietMovesNothing(c: Core, t: Tid, pc: Pc)
    requires Do(c, t, pc).Moved? && Quiet(pc)
    ensures var c' := Do(c, t, pc).c;
      && c'.h.places == c.h.places && c'.h.replies == c.h.replies
      && (c'.worker == c.worker || (c.worker.Parked? && c'.worker.WantPending?))
  {
  }

  lemma QuietFate(s: State, t: Tid, c': Core, pc': Pc, r: nat, earned: set<Answer>)
    requires InstallsOk(s.c) && HandedOk(s) && t in s.callers && Quiet(s.callers[t]) && Fate(s, r, earned)
    requires c'.h.places == s.c.h.places && c'.h.replies == s.c.h.replies
    requires c'.worker == s.c.worker || (s.c.worker.Parked? && c'.worker.WantPending?)
    ensures Fate(s.(c := c', callers := s.callers[t := pc']), r, earned)
  {
  }

  /** A staged request is taken, by a stop or for a newer one. */
  lemma StopTakesIt(s: State, t: Tid, r: nat, earned: set<Answer>)
    requires InstallsOk(s.c) && HandedOk(s) && t in s.callers && s.callers[t].StopHoldIncoming? && Fate(s, r, earned)
    ensures var e := DoStop(s.c, t, s.callers[t]);
      Fate(s.(c := e.c, callers := s.callers[t := e.pc]), r, earned + Earned(s, Step(t), r))
  {
  }

  lemma InstallTakesIt(s: State, t: Tid, r: nat, earned: set<Answer>)
    requires InstallsOk(s.c) && HandedOk(s) && t in s.callers && s.callers[t].InstallHoldIncoming? && Fate(s, r, earned)
    ensures var e := DoInstall(s.c, t, s.callers[t]);
      Fate(s.(c := e.c, callers := s.callers[t := e.pc]), r, earned + Earned(s, Step(t), r))
  {
  }

  /** And answered. */
  lemma StopAnswersIt(s: State, t: Tid, r: nat, earned: set<Answer>)
    requires InstallsOk(s.c) && HandedOk(s) && t in s.callers && s.callers[t].StopReply? && Fate(s, r, earned)
    requires CallerOk(s.c, t, s.callers[t]) && DoStop(s.c, t, s.callers[t]).Moved?
    ensures var e := DoStop(s.c, t, s.callers[t]);
      Fate(s.(c := e.c, callers := s.callers[t := e.pc]), r, earned)
  {
  }

  lemma InstallAnswersIt(s: State, t: Tid, r: nat, earned: set<Answer>)
    requires InstallsOk(s.c) && HandedOk(s) && t in s.callers && s.callers[t].InstallSupersede? && Fate(s, r, earned)
    requires CallerOk(s.c, t, s.callers[t]) && DoInstall(s.c, t, s.callers[t]).Moved?
    ensures var e := DoInstall(s.c, t, s.callers[t]);
      Fate(s.(c := e.c, callers := s.callers[t := e.pc]), r, earned)
  {
  }

  lemma CallerIsOk(s: State, t: Tid)
    requires CallersOk(s) && t in s.callers
    ensures CallerOk(s.c, t, s.callers[t])
  {
  }

  lemma OnlyTakingEarns(s: State, t: Tid, r: nat)
    requires t in s.callers && !s.callers[t].InstallHoldIncoming? && !s.callers[t].StopHoldIncoming?
    ensures Earned(s, Step(t), r) == {}
  {
  }

  lemma CallerGoesOn(s: State, t: Tid, r: nat, earned: set<Answer>)
    requires InstallsOk(s.c) && CallersOk(s) && HandedOk(s) && t in s.callers && Do(s.c, t, s.callers[t]).Moved?
    requires Fate(s, r, earned) && Wants(s.callers[t]).None?
    ensures var e := Do(s.c, t, s.callers[t]);
      Fate(s.(c := e.c, callers := s.callers[t := e.pc]), r, earned + Earned(s, Step(t), r))
  {
    hide Fate, InstallsOk, CallersOk, HandedOk, CallerOk, Earned, DoSubmit, DoCancel, DoInstall, DoStop;
    var pc := s.callers[t];
    CallerIsOk(s, t);
    assert earned + {} == earned;
    if pc.StopHoldIncoming? { StopTakesIt(s, t, r, earned); }
    else if pc.InstallHoldIncoming? { InstallTakesIt(s, t, r, earned); }
    else {
      OnlyTakingEarns(s, t, r);
      if pc.StopReply? { StopAnswersIt(s, t, r, earned); }
      else if pc.InstallSupersede? { InstallAnswersIt(s, t, r, earned); }
      else {
        QuietMovesNothing(s.c, t, pc);
        QuietFate(s, t, Do(s.c, t, pc).c, Do(s.c, t, pc).pc, r, earned);
      }
    }
  }

  /** Calls, grants and a grace period that runs out touch no request. */
  lemma WaitingGoesOn(s: State, a: Action, s': State, r: nat, earned: set<Answer>)
    requires InstallsOk(s.c) && HandedOk(s) && Next(s, a) == Some(s') && Fate(s, r, earned)
    requires a.Call? || a.GraceOver? || (a.Step? && Wants(s.callers[a.t]).Some?)
             || (a.Work? && WorkerWants(s.c.worker).Some?)
    ensures Fate(s', r, earned) && Earned(s, a, r) == {}
  {
  }

  lemma FateGoesOn(s: State, a: Action, s': State, r: nat, earned: set<Answer>)
    requires Inv(s) && Next(s, a) == Some(s') && Fate(s, r, earned)
    ensures Fate(s', r, earned + Earned(s, a, r))
  {
    hide Do, DoWork, Fate, InstallsOk, HandedOk, CallersOk, Earned;
    assert earned + {} == earned;
    if a.Step? && Wants(s.callers[a.t]).None? {
      CallerGoesOn(s, a.t, r, earned);
      LocksAside(s, s', r, earned + Earned(s, a, r));
    } else if a.Work? && WorkerWants(s.c.worker).None? {
      WorkGoesOn(s, a.turn, r, earned);
      LocksAside(s, s', r, earned + Earned(s, a, r));
    } else {
      WaitingGoesOn(s, a, s', r, earned);
    }
  }

  lemma LocksAside(s: State, s': State, r: nat, earned: set<Answer>)
    ensures Fate(s'.(locks := s.locks), r, earned) == Fate(s', r, earned)
  {
  }

  lemma {:induction false} EveryFate(run: seq<State>, acts: seq<Action>, i: nat, r: nat)
    requires IsRun(run, acts) && i < |run|
    ensures Fate(run[i], r, EverEarned(run, acts, i, r))
  {
    hide Next, Inv, Fate, Earned;
    if i == 0 { FreshFate(run, acts, r); }
    else {
      EveryFate(run, acts, i - 1, r);
      EveryStateIsGood(run, acts, i - 1);
      StepOf(run, acts, i - 1);
      FateGoesOn(run[i - 1], acts[i - 1], run[i], r, EverEarned(run, acts, i - 1, r));
    }
  }

  lemma FreshFate(run: seq<State>, acts: seq<Action>, r: nat)
    requires IsRun(run, acts)
    ensures Fate(run[0], r, {})
  {
  }

  /** The build of request `r` comes out this way at step `k`. */
  ghost predicate Builds(run: seq<State>, acts: seq<Action>, k: nat, r: nat, turn: Turn)
    requires k < |acts| < |run|
  {
    acts[k] == Work(turn) && run[k].c.worker.Building? && run[k].c.worker.request.id == r
  }

  /** Another install, or a stop, takes request `r` out of the staging place at step `k`. */
  ghost predicate Displaces(run: seq<State>, acts: seq<Action>, k: nat, r: nat, stopping: bool)
    requires k < |acts| < |run|
  {
    && acts[k].Step? && acts[k].t in run[k].callers
    && (if stopping then run[k].callers[acts[k].t].StopHoldIncoming? else run[k].callers[acts[k].t].InstallHoldIncoming?)
    && run[k].c.d.incoming.Some? && run[k].c.d.incoming.value.id == r
  }

  /** An answer that is given says what happened, and what happened is the answer that is given. */
  lemma AnswersAreEarned(run: seq<State>, acts: seq<Action>, i: nat, r: nat)
    requires IsRun(run, acts) && i < |run| && r < |run[i].c.h.requests|
    ensures r < |run[i].c.h.replies|
    ensures run[i].c.h.replies[r] != [] ==>
      match run[i].c.h.replies[r][0]
      case Built(m) => m == run[i].c.h.requests[r] && exists k :: 0 <= k < i && Builds(run, acts, k, r, BuildOk)
      case BuildFailed => exists k :: 0 <= k < i && Builds(run, acts, k, r, BuildErr)
      case BuildPanicked => exists k :: 0 <= k < i && Builds(run, acts, k, r, BuildPanic)
      case Superseded => exists k :: 0 <= k < i && Displaces(run, acts, k, r, false)
      case ShuttingDown => exists k :: 0 <= k < i && Displaces(run, acts, k, r, true)
    ensures forall k :: 0 <= k < i && run[i].c.h.replies[r] != [] ==>
      && (Builds(run, acts, k, r, BuildOk) ==> run[i].c.h.replies[r] == [Built(run[i].c.h.requests[r])])
      && (Builds(run, acts, k, r, BuildErr) ==> run[i].c.h.replies[r] == [BuildFailed])
      && (Builds(run, acts, k, r, BuildPanic) ==> run[i].c.h.replies[r] == [BuildPanicked])
      && (Displaces(run, acts, k, r, false) ==> run[i].c.h.replies[r] == [Superseded])
      && (Displaces(run, acts, k, r, true) ==> run[i].c.h.replies[r] == [ShuttingDown])
  {
    hide Next, Inv, Earned, EverEarned, Builds, Displaces;
    EveryStateIsGood(run, acts, i);
    InstallsOf(run[i]);
    EveryFate(run, acts, i, r);
    AnswersAreTrue(run, acts, i, r);
    if run[i].c.h.replies[r] != [] {
      var x := run[i].c.h.replies[r][0];
      assert run[i].c.h.replies[r] == [x];
      assert EverEarned(run, acts, i, r) == {x};
      EverEarnedIs(run, acts, i, r, x);
      var first :| 0 <= first < i && x in Earned(run[first], acts[first], r);
      EarnedHow(run, acts, first, r);
      forall k: nat | k < i ensures forall y :: y in Earned(run[k], acts[k], r) ==> y == x {
        forall y | y in Earned(run[k], acts[k], r) ensures y == x { EverEarnedIs(run, acts, i, r, y); }
        EarnedHow(run, acts, k, r);
      }
      forall k: nat | k < i { EarnedHow(run, acts, k, r); }
    }
  }

  lemma EarnedHow(run: seq<State>, acts: seq<Action>, k: nat, r: nat)
    requires k < |acts| < |run|
    ensures forall x :: x in Earned(run[k], acts[k], r) ==>
      match x
      case Built(_) => Builds(run, acts, k, r, BuildOk)
      case BuildFailed => Builds(run, acts, k, r, BuildErr)
      case BuildPanicked => Builds(run, acts, k, r, BuildPanic)
      case Superseded => Displaces(run, acts, k, r, false)
      case ShuttingDown => Displaces(run, acts, k, r, true)
    ensures Builds(run, acts, k, r, BuildOk) ==> Built(run[k].c.worker.request.model) in Earned(run[k], acts[k], r)
    ensures Builds(run, acts, k, r, BuildErr) ==> BuildFailed in Earned(run[k], acts[k], r)
    ensures Builds(run, acts, k, r, BuildPanic) ==> BuildPanicked in Earned(run[k], acts[k], r)
    ensures Displaces(run, acts, k, r, false) ==> Superseded in Earned(run[k], acts[k], r)
    ensures Displaces(run, acts, k, r, true) ==> ShuttingDown in Earned(run[k], acts[k], r)
  {
  }

  // ----- what a build leaves behind

  /** From a successful build to the swap, the new model is on its way in. */
  ghost predicate ComingIn(c: Core, m: Model) {
    || (c.worker.Publishing? && c.worker.request.model == m)
    || (c.worker.Replying? && c.worker.answer == Built(m) && c.d.info == m)
    || (c.worker.Swapping? && c.worker.model == m && c.d.info == m)
    || (c.worker.WantPending? && c.separator == m && c.d.info == m)
  }

  /** After a failed one nothing is. */
  ghost predicate GoneWrong(c: Core, before: Core) {
    && c.d.info == before.d.info && c.separator == before.separator
    && ((c.worker.Replying? && (c.worker.answer.BuildFailed? || c.worker.answer.BuildPanicked?)) || c.worker.WantPending?)
  }

  lemma StaysComingIn(s: State, a: Action, s': State, m: Model)
    requires Next(s, a) == Some(s') && ComingIn(s.c, m) && !s.c.worker.WantPending?
    ensures ComingIn(s'.c, m)
  {
    if a.Step? && Wants(s.callers[a.t]).None? { hide Do; DoInstallsNothing(s.c, a.t, s.callers[a.t]); }
  }

  lemma StaysGoneWrong(s: State, a: Action, s': State, before: Core)
    requires Next(s, a) == Some(s') && GoneWrong(s.c, before) && !s.c.worker.WantPending?
    ensures GoneWrong(s'.c, before)
  {
    if a.Step? && Wants(s.callers[a.t]).None? { hide Do; DoInstallsNothing(s.c, a.t, s.callers[a.t]); }
  }

  lemma {:induction false} ComesIn(run: seq<State>, acts: seq<Action>, k: nat, j: nat)
    requires IsRun(run, acts) && k < j < |run| && run[k].c.worker.Building? && acts[k] == Work(BuildOk)
    requires forall x :: k < x < j ==> !run[x].c.worker.WantPending?
    ensures ComingIn(run[j].c, run[k].c.worker.request.model)
    decreases j
  {
    hide Next;
    StepOf(run, acts, j - 1);
    if k + 1 < j {
      ComesIn(run, acts, k, j - 1);
      StaysComingIn(run[j - 1], acts[j - 1], run[j], run[k].c.worker.request.model);
    } else {
      BuildTakes(run[k], acts[k], run[j]);
    }
  }

  lemma {:induction false} GoesWrong(run: seq<State>, acts: seq<Action>, k: nat, j: nat)
    requires IsRun(run, acts) && k < j < |run| && run[k].c.worker.Building?
    requires acts[k] == Work(BuildErr) || acts[k] == Work(BuildPanic)
    requires forall x :: k < x < j ==> !run[x].c.worker.WantPending?
    ensures GoneWrong(run[j].c, run[k].c)
    decreases j
  {
    hide Next;
    StepOf(run, acts, j - 1);
    if k + 1 < j {
      GoesWrong(run, acts, k, j - 1);
      StaysGoneWrong(run[j - 1], acts[j - 1], run[j], run[k].c);
    } else {
      BuildTakes(run[k], acts[k], run[j]);
    }
  }

  lemma BuildTakes(s: State, a: Action, s': State)
    requires Next(s, a) == Some(s') && s.c.worker.Building?
    ensures a == Work(BuildOk) ==> ComingIn(s'.c, s.c.worker.request.model)
    ensures a == Work(BuildErr) || a == Work(BuildPanic) ==> GoneWrong(s'.c, s.c)
  {
  }

  /**
   When the worker first looks for work again after a build, the model that was asked for is
   published and run if the build succeeded, and otherwise nothing has changed.
   */
  lemma BuiltMeansInstalled(run: seq<State>, acts: seq<Action>, k: nat, j: nat)
    requires IsRun(run, acts) && k < j < |run| && run[k].c.worker.Building?
    requires acts[k] == Work(BuildOk) || acts[k] == Work(BuildErr) || acts[k] == Work(BuildPanic)
    requires run[j].c.worker.WantPending? && forall x :: k < x < j ==> !run[x].c.worker.WantPending?
    ensures var m := run[k].c.worker.request.model;
      if acts[k] == Work(BuildOk) then run[j].c.d.info == m && run[j].c.separator == m
      else run[j].c.d.info == run[k].c.d.info && run[j].c.separator == run[k].c.separator
  {
    if acts[k] == Work(BuildOk) { ComesIn(run, acts, k, j); } else { GoesWrong(run, acts, k, j); }
  }

  /** Whatever the separator, the cache or a build does, the worker takes it as it comes; a report shows. */
  lemma EveryOutcomeIsTaken(s: State)
    ensures s.c.worker.Building? ==>
      Next(s, Work(BuildOk)).Some? && Next(s, Work(BuildErr)).Some? && Next(s, Work(BuildPanic)).Some?
    ensures s.c.worker.Separating? ==>
      && Next(s, Work(SeparateOk)).Some? && Next(s, Work(SeparateErr)).Some? && Next(s, Work(Panic)).Some?
      && (Next(s, Work(SeparateCancelled)).Some? <==>
            s.c.worker.flag < |s.c.d.flags| && s.c.d.flags[s.c.worker.flag])
      && (forall stage :: Next(s, Work(Report(stage))).Some? <==> !stage.Terminal())
      && (forall stage :: Next(s, Work(Report(stage))).Some? ==>
            Seen(Next(s, Work(Report(stage))).value.c, s.c.worker.job) == Seen(s.c, s.c.worker.job).(stage := stage))
    ensures s.c.worker.Ending? && s.c.worker.rest.Filing? ==>
      Next(s, Work(WriteOk)).Some? && Next(s, Work(WriteErr)).Some?
    ensures s.c.worker.Ending? && !Caught(s.c.worker.rest) ==> Next(s, Work(Panic)).Some?
  {
  }

  // ----- what a caller hears

  /** A submission hears the place its job was given. */
  lemma SubmitHears(s: State, t: Tid, s': State)
    requires t in s.callers && Next(s, Step(t)) == Some(s')
    ensures s.callers[t].SubmitHold? && |s.c.d.pending| < s.c.d.maxDepth ==>
      && s'.callers[t] == SubmitNotify(|s.c.d.pending|)
      && |s'.c.d.pending| == |s.c.d.pending| + 1 && s'.c.d.pending[|s.c.d.pending|] == s.callers[t].job
    ensures s.callers[t].SubmitNotify? ==> s'.callers[t] == Idle(Position(s.callers[t].at))
  {
  }

  /** A cancel hears yes exactly if it took the job out of the queue, or told the one in flight. */
  lemma CancelHears(s: State, t: Tid, s': State)
    requires t in s.callers && Next(s, Step(t)) == Some(s')
    requires s.callers[t].CancelHoldPending? || s.callers[t].CancelHoldRunning?
    ensures var job := s.callers[t].job;
      if s.callers[t].CancelHoldPending? then
        if job in s.c.d.pending then s'.callers[t] == Idle(CancelSaid(true)) && s'.c.d.pending == Without(s.c.d.pending, job)
        else s'.callers[t].CancelWantRunning? && s'.callers[t].job == job && s'.c.d == s.c.d
      else
        && s'.callers[t] == Idle(CancelSaid(RunningIs(s.c.d, job)))
        && (if RunningIs(s.c.d, job)
            then forall i :: 0 <= i < |s.c.d.flags| ==> s'.c.d.flags[i] == (i == s.c.d.running.value.flag || s.c.d.flags[i])
            else s'.c.d == s.c.d)
  {
  }

  /** An install is refused exactly once a stop has begun, stages the model it was called with, and hears
      the answer to that request. */
  lemma InstallHears(s: State, t: Tid, s': State)
    requires t in s.callers && Next(s, Step(t)) == Some(s')
    ensures s.callers[t].InstallHoldPending? ==>
      s'.callers[t] == if s.c.d.shutdown then Idle(InstallRefused) else InstallWantIncoming(s.callers[t].model)
    ensures s.callers[t].InstallHoldIncoming? ==>
      && s'.c.h.requests == s.c.h.requests + [s.callers[t].model]
      && s'.c.d.incoming == Some(Request(|s.c.h.requests|, s.callers[t].model))
      && (s'.callers[t].InstallSupersede? || s'.callers[t].InstallNotify?) && s'.callers[t].mine == |s.c.h.requests|
    ensures s.callers[t].InstallSupersede? ==> s'.callers[t] == InstallNotify(s.callers[t].mine)
    ensures s.callers[t].InstallNotify? ==> s'.callers[t] == InstallReceive(s.callers[t].mine)
    ensures s.callers[t].InstallReceive? ==>
      && s.callers[t].mine < |s.c.h.replies| && s.c.h.replies[s.callers[t].mine] != []
      && s'.callers[t] == Idle(InstallSaid(s.c.h.replies[s.callers[t].mine][0]))
  {
  }

  /** A job is started only where nobody is stopping and no model is staged, and it is the oldest that waits. */
  lemma StartsInTurn(run: seq<State>, acts: seq<Action>, i: nat)
    requires IsRun(run, acts) && i < |acts| && run[i + 1].c.h.started != run[i].c.h.started
    ensures !run[i].c.d.shutdown && run[i].c.d.incoming.None? && run[i].c.d.pending != []
    ensures run[i + 1].c.h.started == run[i].c.h.started + [run[i].c.d.pending[0]]
    ensures run[i + 1].c.d.pending == run[i].c.d.pending[1..]
  {
    EveryStateIsGood(run, acts, i);
    StepOf(run, acts, i);
    var s, a := run[i], acts[i];
    hide Do, DoWork;
    match a
    case Call(t, op) =>
    case GraceOver(t) =>
    case Step(t) => if Wants(s.callers[t]).None? { DoStartsNothing(s.c, t, s.callers[t]); }
    case Work(turn) => if WorkerWants(s.c.worker).None? { StartingIs(s.c, turn); }
  }

  lemma StartingIs(c: Core, turn: Turn)
    requires DoWork(c, turn).Some? && DoWork(c, turn).value.h.started != c.h.started
    ensures c.worker.Choose? && c.d.pending != []
    ensures DoWork(c, turn).value.h.started == c.h.started + [c.d.pending[0]]
    ensures DoWork(c, turn).value.d.pending == c.d.pending[1..]
  {
  }
}
