/**
 Live recompute: while a comparison is on screen, changing a headline field compares again after a pause
 (apps/web/src/App.tsx). A render and the effects that follow it are one step.
 */
module LiveRecompute {
  import opened Wrappers
  import opened Text
  import opened AsyncActions
  import opened LiveSignature

  const DEBOUNCE_MS := 600

  // ---- The effect and its timers -----------------------------------------------------------

  /** What the effect depends on. */
  datatype Deps = Deps(comparison: Option<Comparison>, mode: Mode, isEditing: bool, signature: string)

  /** A timer remembers the render it was set in. */
  datatype Timer = Timer(due: nat, signature: string, seen: Screen)

  /** `armed` holds every timer set and neither fired nor cleared; `cleanup` is the timer that the function returned
      by the effect's last run will clear, if it returned one. */
  datatype Live = Live(
    app: State, now: nat, armed: map<nat, Timer>, cleanup: Option<nat>, nextTimer: nat, last: string, deps: Deps,
    fires: seq<nat>)

  datatype LiveEvent = Acted(event: Event) | Waited(milliseconds: nat) | Fired(timer: nat)

  function SignatureOf(screen: Screen): string {
    HeadlineSignature(screen.form.levers)
  }

  function DepsOf(screen: Screen): Deps {
    Deps(screen.comparison, screen.mode, screen.isEditing, SignatureOf(screen))
  }

  predicate IsLive(screen: Screen) {
    screen.comparison.Some? && screen.mode == FormMode && !screen.isEditing
  }

  /** `window.clearTimeout`, by the cleanup of the last run. */
  function CleanUp(s: Live): Live {
    s.(armed := if s.cleanup.Some? then s.armed - {s.cleanup.value} else s.armed, cleanup := None)
  }

  /** The body of the effect: a new timer, and the cleanup that goes with it, when the signature has moved in live
      mode. */
  function Effect(s: Live): Live {
    var screen := s.app.screen;
    var signature := SignatureOf(screen);
    if !IsLive(screen) then s.(last := signature)
    else if signature == s.last then s
    else
      s.(armed := s.armed[s.nextTimer := Timer(s.now + DEBOUNCE_MS, signature, screen)],
         cleanup := Some(s.nextTimer),
         nextTimer := s.nextTimer + 1)
  }

  /** After a render the effect runs only if something it depends on has changed. */
  function Commit(s: Live): Live {
    var deps := DepsOf(s.app.screen);
    if deps == s.deps then s else Effect(CleanUp(s.(deps := deps)))
  }

  predicate IsDue(s: Live, id: nat) {
    id in s.armed && s.armed[id].due <= s.now
  }

  ghost function Fire(s: Live, id: nat): Live
    requires IsDue(s, id)
  {
    var timer := s.armed[id];
    var fired := s.(armed := s.armed - {id}, last := timer.signature, fires := s.fires + [s.now]);
    if s.app.busy != None then fired.(last := "")
    else fired.(app := HandleCompare(s.app, timer.seen))
  }

  predicate CanOccur(s: Live, event: LiveEvent) {
    match event
    case Acted(e) => CanHappen(s.app, e)
    case Waited(_) => true
    case Fired(id) => IsDue(s, id)
  }

  ghost function LiveStep(s: Live, event: LiveEvent): Live
    requires CanOccur(s, event)
  {
    match event
    case Acted(e) => Commit(s.(app := Step(s.app, e)))
    case Waited(ms) => s.(now := s.now + ms)
    case Fired(id) => Commit(Fire(s, id))
  }

  ghost predicate IsLiveRun(s: Live, events: seq<LiveEvent>)
    decreases |events|
  {
    events == [] || (CanOccur(s, events[0]) && IsLiveRun(LiveStep(s, events[0]), events[1..]))
  }

  ghost function LiveRun(s: Live, events: seq<LiveEvent>): Live
    requires IsLiveRun(s, events)
    decreases |events|
  {
    if events == [] then s else LiveRun(LiveStep(s, events[0]), events[1..])
  }

  function Mounted(screen: Screen): Live {
    Live(AsyncActions.Initial(screen), 0, map[], None, 0, SignatureOf(screen), DepsOf(screen), [])
  }

  // ---- What every run keeps ----------------------------------------------------------------

  /** No timer is set, or exactly the one that the pending cleanup will clear. */
  predicate OneTimer(s: Live) {
    && (s.armed.Keys == {} || (s.cleanup.Some? && s.armed.Keys == {s.cleanup.value}))
    && (s.cleanup.Some? ==> s.cleanup.value < s.nextTimer)
  }

  predicate SpacedOut(fires: seq<nat>) {
    forall i, j :: 0 <= i < j < |fires| ==> fires[j] - fires[i] >= DEBOUNCE_MS * (j - i)
  }

  predicate TimerIsCurrent(s: Live, timer: Timer) {
    && IsLive(s.app.screen)
    && timer.signature == SignatureOf(s.app.screen)
    && timer.signature != s.last
    && DepsOf(timer.seen) == DepsOf(s.app.screen)
    && DEBOUNCE_MS <= timer.due <= s.now + DEBOUNCE_MS
    && (s.fires != [] ==> s.fires[|s.fires| - 1] + DEBOUNCE_MS <= timer.due)
  }

  ghost predicate LiveInvariant(s: Live) {
    && Invariant(s.app)
    && OneTimer(s)
    && s.deps == DepsOf(s.app.screen)
    && (forall id :: id in s.armed ==> TimerIsCurrent(s, s.armed[id]))
    && (s.armed.Keys == {} ==>
          s.last == SignatureOf(s.app.screen) || (IsLive(s.app.screen) && s.last == ""))
    && SpacedOut(s.fires)
    && (s.fires != [] ==> s.fires[|s.fires| - 1] <= s.now)
  }

  /** The cleanup leaves no timer set. */
  lemma CleanUpClears(s: Live)
    requires OneTimer(s)
    ensures CleanUp(s) == s.(armed := map[], cleanup := None)
  {
  }

  /** With no timer left, a run of the effect sets at most one. */
  lemma EffectFromClean(s: Live)
    requires s.armed == map[] && s.cleanup == None
    ensures var screen, after := s.app.screen, Effect(s);
            && (!IsLive(screen) ==> after == s.(last := SignatureOf(screen)))
            && (IsLive(screen) && SignatureOf(screen) == s.last ==> after == s)
            && (IsLive(screen) && SignatureOf(screen) != s.last ==>
                  && after == s.(armed := after.armed, cleanup := Some(s.nextTimer), nextTimer := s.nextTimer + 1)
                  && after.armed == map[s.nextTimer := Timer(s.now + DEBOUNCE_MS, SignatureOf(screen), screen)]
                  && after.armed.Keys == {s.nextTimer}
                  && after.armed != map[])
  {
    hide HeadlineSignature;
    assert s.nextTimer in map[s.nextTimer := Timer(s.now + DEBOUNCE_MS, SignatureOf(s.app.screen), s.app.screen)];
  }

  lemma CommitKeeps(s: Live, before: Live)
    requires LiveInvariant(before) && Invariant(s.app)
    requires s == before.(app := s.app)
    ensures LiveInvariant(Commit(s))
  {
    hide HeadlineSignature, Invariant, CleanUp, SpacedOut, Effect;
    var deps := DepsOf(s.app.screen);
    if deps != s.deps {
      var clean := CleanUp(s.(deps := deps));
      CleanUpClears(s.(deps := deps));
      assert clean == s.(deps := deps, armed := map[], cleanup := None);
      EffectFromClean(clean);
    }
  }

  lemma HandleCompareLeavesDeps(s: State, seen: Screen)
    ensures DepsOf(HandleCompare(s, seen).screen) == DepsOf(s.screen)
    ensures HandleCompare(s, seen).screen.form == s.screen.form
  {
    hide HeadlineSignature, Trim, JobOf, IsValidDraft;
  }

  lemma OneMoreFire(fires: seq<nat>, now: nat)
    requires SpacedOut(fires) && (fires != [] ==> fires[|fires| - 1] + DEBOUNCE_MS <= now)
    ensures SpacedOut(fires + [now])
  {
  }

  lemma FireKeeps(s: Live, id: nat)
    requires LiveInvariant(s) && IsDue(s, id)
    ensures LiveInvariant(Fire(s, id)) && Commit(Fire(s, id)) == Fire(s, id)
    ensures Fire(s, id).armed == map[]
  {
    hide HeadlineSignature, Invariant, HandleCompare, SpacedOut;
    HandleCompareLeavesDeps(s.app, s.armed[id].seen);
    InvariantIsKept(s.app, CompareClicked(s.armed[id].seen));
    OneMoreFire(s.fires, s.now);
    assert s.armed.Keys == {id};
    assert (s.armed - {id}).Keys == {};
  }

  lemma LiveInvariantIsKept(s: Live, event: LiveEvent)
    requires LiveInvariant(s) && CanOccur(s, event)
    ensures LiveInvariant(LiveStep(s, event))
  {
    hide HeadlineSignature, Invariant, Step, Fire, Commit, SpacedOut;
    match event {
      case Acted(e) =>
        InvariantIsKept(s.app, e);
        CommitKeeps(s.(app := Step(s.app, e)), s);
      case Waited(_) =>
      case Fired(id) => FireKeeps(s, id);
    }
  }

  /** In every timed run from a mounted page: no timer is set or exactly the one the pending cleanup will clear; a set
      timer means that a comparison is on screen, in form mode, not being edited, and carries the signature on screen,
      which is not the remembered one; and fires are spaced out. */
  lemma {:induction false} EveryLiveRunIsSafe(s: Live, events: seq<LiveEvent>)
    requires LiveInvariant(s) && IsLiveRun(s, events)
    ensures LiveInvariant(LiveRun(s, events))
    decreases |events|
  {
    hide LiveInvariant, CanOccur, LiveStep;
    if events != [] {
      LiveInvariantIsKept(s, events[0]);
      EveryLiveRunIsSafe(LiveStep(s, events[0]), events[1..]);
    }
  }

  lemma MountedIsSafe(screen: Screen)
    ensures LiveInvariant(Mounted(screen))
  {
    hide HeadlineSignature;
  }

  /** From a mounted page on, the i-th and the j-th fire are at least (j - i) times 600 ms apart. */
  lemma FiresAreSpaced(screen: Screen, events: seq<LiveEvent>, i: nat, j: nat)
    requires IsLiveRun(Mounted(screen), events)
    requires i < j < |LiveRun(Mounted(screen), events).fires|
    ensures var fires := LiveRun(Mounted(screen), events).fires;
            fires[j] - fires[i] >= 600 * (j - i)
  {
    hide LiveRun, Mounted, IsLiveRun;
    MountedIsSafe(screen);
    EveryLiveRunIsSafe(Mounted(screen), events);
  }

  // ---- What a fire does --------------------------------------------------------------------

  /** A live compare starts only with a comparison on screen, in form mode, not while editing, with nothing in flight
      that it could supersede, and on a valid form; it submits a form with the signature on screen. Otherwise the fire
      starts nothing: with an action in flight it only empties the remembered signature. */
  lemma LiveCompareIsSafe(s: Live, id: nat)
    requires LiveInvariant(s) && IsDue(s, id)
    ensures var after := LiveStep(s, Fired(id));
            var seen := s.armed[id].seen;
            && IsLive(s.app.screen)
            && after.armed == map[]
            && (s.app.busy != None ==> after.app == s.app && after.last == "")
            && (s.app.busy == None ==> Quiet(s.app) && after.last == SignatureOf(s.app.screen))
            && (s.app.busy == None && IsValidDraft(seen.form) ==>
                  && after.app.active == s.app.active + 1
                  && after.app.busy == Some(Compare)
                  && after.app.active in after.app.inFlight
                  && after.app.inFlight[after.app.active] == NwsPrepared(JobOf(seen))
                  && JobOf(seen).submission.form == JobOf(seen).nws.form == seen.form
                  && HeadlineSignature(seen.form.levers) == SignatureOf(s.app.screen))
            && (s.app.busy == None && !IsValidDraft(seen.form) ==>
                  after.app.active == s.app.active && after.app.inFlight == s.app.inFlight && after.app.busy == None)
  {
    hide HeadlineSignature, IsValidDraft;
    FireKeeps(s, id);
  }

  /** The form submitted is the one on screen exactly when the form on screen is still the one the timer was set with.
      If no headline field on screen contains a bar, the headline fields submitted are those on screen, and only the
      rest of the form may differ. */
  lemma SubmitsTheScreen(s: Live, id: nat)
    requires LiveInvariant(s) && IsDue(s, id) && s.app.busy == None && IsValidDraft(s.armed[id].seen.form)
    ensures var after := LiveStep(s, Fired(id));
            && after.app.active in after.app.inFlight
            && after.app.inFlight[after.app.active].NwsPrepared?
            && var sent := after.app.inFlight[after.app.active].job.submission.form;
               && (sent == after.app.screen.form <==> s.armed[id].seen.form == s.app.screen.form)
               && (HasNoBar(s.app.screen.form.levers) ==>
                     && sent.levers == after.app.screen.form.levers
                     && (sent == after.app.screen.form <==> s.armed[id].seen.form.content == s.app.screen.form.content))
  {
    hide HeadlineSignature, IsValidDraft, HasNoBar;
    LiveCompareIsSafe(s, id);
    FireKeeps(s, id);
    HandleCompareLeavesDeps(s.app, s.armed[id].seen);
    if HasNoBar(s.app.screen.form.levers) {
      NoBarTellsApart(s.app.screen.form.levers, s.armed[id].seen.form.levers);
    }
  }

  // ---- A skipped edit ----------------------------------------------------------------------

  /** No event of the run changes anything the effect depends on. */
  ghost predicate KeepsDeps(s: Live, events: seq<LiveEvent>)
    requires IsLiveRun(s, events)
    decreases |events|
  {
    events != [] ==>
      && DepsOf(LiveStep(s, events[0]).app.screen) == DepsOf(s.app.screen)
      && KeepsDeps(LiveStep(s, events[0]), events[1..])
  }

  /** An edit was skipped and waits: '' is remembered, and no timer is set. */
  ghost predicate EditWaits(s: Live) {
    LiveInvariant(s) && s.last == "" && s.armed == map[]
  }

  /** Waiting, answers, and changes of other things leave a skipped edit waiting. */
  lemma {:induction false} SkippedEditWaits(s: Live, events: seq<LiveEvent>)
    requires EditWaits(s) && IsLiveRun(s, events) && KeepsDeps(s, events)
    ensures EditWaits(LiveRun(s, events)) && LiveRun(s, events).fires == s.fires
    decreases |events|
  {
    hide LiveInvariant, Step, DepsOf;
    if events != [] {
      LiveInvariantIsKept(s, events[0]);
      DepsAreCurrent(s);
      SkippedEditWaits(LiveStep(s, events[0]), events[1..]);
    }
  }

  lemma DepsAreCurrent(s: Live)
    requires LiveInvariant(s)
    ensures s.deps == DepsOf(s.app.screen)
  {
  }

  /** The first change of anything the effect depends on decides over a skipped edit: a timer is set exactly if the
      change lands in live mode, for the form then on screen; otherwise the edit is dropped, since the signature on
      screen is remembered. */
  lemma SkippedEditIsDecided(s: Live, quiet: seq<LiveEvent>, change: LiveEvent)
    requires EditWaits(s) && IsLiveRun(s, quiet) && KeepsDeps(s, quiet) && CanOccur(LiveRun(s, quiet), change)
    requires var before := LiveRun(s, quiet);
             DepsOf(LiveStep(before, change).app.screen) != DepsOf(before.app.screen)
    ensures var before := LiveRun(s, quiet);
            var after := LiveStep(before, change);
            var screen := after.app.screen;
            && (after.armed != map[] <==> IsLive(screen))
            && (IsLive(screen) ==>
                  after.armed == map[before.nextTimer := Timer(before.now + DEBOUNCE_MS, SignatureOf(screen), screen)])
            && (!IsLive(screen) ==> after.last == SignatureOf(screen))
  {
    hide Step, HeadlineSignature, LiveRun, IsLiveRun, KeepsDeps, CleanUp, Effect;
    var before := LiveRun(s, quiet);
    SkippedEditWaits(s, quiet);
    DepsAreCurrent(before);
    match change {
      case Acted(event) =>
        var acted := before.(app := Step(before.app, event));
        var screen := acted.app.screen;
        SignatureIsNotEmpty(screen.form.levers);
        CleanUpClears(acted.(deps := DepsOf(screen)));
        EffectFromClean(acted.(deps := DepsOf(screen), armed := map[], cleanup := None));
      case Waited(_) =>
      case Fired(_) =>
    }
  }

  /** No event of the run moves the signature. */
  ghost predicate KeepsSignature(s: Live, events: seq<LiveEvent>)
    requires IsLiveRun(s, events)
    decreases |events|
  {
    events != [] ==>
      && SignatureOf(LiveStep(s, events[0]).app.screen) == SignatureOf(s.app.screen)
      && KeepsSignature(LiveStep(s, events[0]), events[1..])
  }

  /** The signature on screen is the remembered one, and no timer is set. */
  ghost predicate IsSettled(s: Live) {
    LiveInvariant(s) && s.last == SignatureOf(s.app.screen) && s.armed == map[]
  }

  /** Once dropped, an edit stays dropped in every run that does not move the signature again, in live mode or not. */
  lemma {:induction false} DroppedEditStaysDropped(s: Live, events: seq<LiveEvent>)
    requires IsSettled(s) && IsLiveRun(s, events) && KeepsSignature(s, events)
    ensures IsSettled(LiveRun(s, events)) && LiveRun(s, events).fires == s.fires
    decreases |events|
  {
    hide LiveInvariant, Step, HeadlineSignature, CanOccur;
    if events != [] {
      LiveInvariantIsKept(s, events[0]);
      SettledStep(s, events[0]);
      DroppedEditStaysDropped(LiveStep(s, events[0]), events[1..]);
    }
  }

  lemma SettledStep(s: Live, event: LiveEvent)
    requires IsSettled(s) && CanOccur(s, event)
    requires SignatureOf(LiveStep(s, event).app.screen) == SignatureOf(s.app.screen)
    ensures LiveStep(s, event).last == s.last && LiveStep(s, event).armed == map[]
    ensures LiveStep(s, event).fires == s.fires
  {
    hide Step, HeadlineSignature, CleanUp, Effect;
    match event {
      case Acted(e) =>
        var acted := s.(app := Step(s.app, e));
        CleanUpClears(acted.(deps := DepsOf(acted.app.screen)));
        EffectFromClean(acted.(deps := DepsOf(acted.app.screen), armed := map[], cleanup := None));
      case Waited(_) =>
      case Fired(_) =>
    }
  }

  /** Leaving form mode and coming back drops a skipped edit: the screen is as before, the old comparison still up. */
  lemma LeavingDropsTheEdit(s: Live)
    requires EditWaits(s) && IsLive(s.app.screen)
    ensures var screen := s.app.screen;
            var events := [Acted(Touched(screen.(mode := DescribeMode))), Acted(Touched(screen))];
            && IsLiveRun(s, events)
            && var after := LiveRun(s, events);
               after.app == s.app && IsLive(after.app.screen) && IsSettled(after)
  {
    hide HeadlineSignature, LiveInvariant;
    var screen := s.app.screen;
    var leave, back := Acted(Touched(screen.(mode := DescribeMode))), Acted(Touched(screen));
    DepsAreCurrent(s);
    LiveInvariantIsKept(s, leave);
    var away := LiveStep(s, leave);
    SkippedEditIsDecided(s, [], leave);
    LiveInvariantIsKept(away, back);
    var after := LiveStep(away, back);
    SettledStep(away, back);
    assert [leave, back][1..] == [back] && [back][1..] == [];
    assert IsLiveRun(away, [back]) && LiveRun(away, [back]) == after;
  }

  // ---- The page ----------------------------------------------------------------------------

  /** The refs and the timers of the live page, beside the page's actions. */
  class LivePage {
    const app: App
    var lastLiveSignature: string
    var armed: map<nat, Timer>
    var cleanup: Option<nat>
    var nextTimer: nat
    var effectDeps: Deps
    var now: nat
    ghost var fires: seq<nat>

    ghost function Model(): Live
      reads this, app
    {
      Live(app.Model(), now, armed, cleanup, nextTimer, lastLiveSignature, effectDeps, fires)
    }

    constructor (app: App)
      requires app.Model() == AsyncActions.Initial(app.screen)
      ensures this.app == app && Model() == Mounted(app.screen) && LiveInvariant(Model())
    {
      this.app := app;
      lastLiveSignature := SignatureOf(app.screen);
      effectDeps := DepsOf(app.screen);
      armed, cleanup, nextTimer, now, fires := map[], None, 0, 0, [];
      new;
      MountedIsSafe(app.screen);
    }

    method SetTimeout(timer: Timer) returns (id: nat)
      modifies this`armed, this`nextTimer
      ensures id == old(nextTimer) && nextTimer == id + 1 && armed == old(armed)[id := timer]
    {
      id := nextTimer;
      nextTimer := nextTimer + 1;
      armed := armed[id := timer];
    }

    method ClearTimeout(id: nat)
      modifies this`armed
      ensures armed == old(armed) - {id}
    {
      armed := armed - {id};
    }

    /** The effect of a render: its cleanup clears the old timer, then it decides on a new one. */
    method RunEffects()
      modifies this
      ensures Model() == Commit(old(Model()))
    {
      var liveSignature := SignatureOf(app.screen);
      var deps := DepsOf(app.screen);
      if deps == effectDeps {
        return;
      }
      effectDeps := deps;
      if cleanup != None {
        ClearTimeout(cleanup.value);
        cleanup := None;
      }
      if app.screen.comparison == None || app.screen.mode != FormMode || app.screen.isEditing {
        lastLiveSignature := liveSignature;
        return;
      }
      if liveSignature == lastLiveSignature {
        return;
      }
      var timer := SetTimeout(Timer(now + DEBOUNCE_MS, liveSignature, app.screen));
      cleanup := Some(timer);
    }

    /** The callback of a timer. */
    method OnTimer(id: nat)
      requires LiveInvariant(Model()) && IsDue(Model(), id)
      modifies this, app
      ensures Model() == LiveStep(old(Model()), Fired(id)) && LiveInvariant(Model())
    {
      FireKeeps(Model(), id);
      var fired := armed[id];
      armed := armed - {id};
      fires := fires + [now];
      lastLiveSignature := fired.signature;
      if app.busyAction != None {
        lastLiveSignature := "";
        return;
      }
      app.Submit(fired.seen);
    }
  }
}
