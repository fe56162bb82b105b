/**
 Live recompute over whole runs: which form a live compare submits, and how many comparisons a minute it can make
 (apps/web/src/App.tsx).
 */
module LiveRuns {
  import opened Wrappers
  import opened Text
  import opened AsyncActions
  import opened LiveSignature
  import opened LiveRecompute
  import Workload
  import Validity
  import Fields

  // ---- The form submitted ------------------------------------------------------------------

  lemma OneStepOfTimers(s: Live, event: LiveEvent, id: nat)
    requires CanOccur(s, event) && id < s.nextTimer
    ensures var after := LiveStep(s, event);
            && s.nextTimer <= after.nextTimer
            && (id in after.armed ==> id in s.armed && after.armed[id] == s.armed[id])
  {
    hide HeadlineSignature, Step, HandleCompare;
  }

  /** A timer once set is never changed, only cleared or fired. */
  lemma {:induction false} TimersDoNotChange(s: Live, events: seq<LiveEvent>, id: nat)
    requires IsLiveRun(s, events) && id < s.nextTimer
    ensures id in LiveRun(s, events).armed ==> id in s.armed && LiveRun(s, events).armed[id] == s.armed[id]
    decreases |events|
  {
    hide LiveStep, CanOccur;
    if events != [] {
      OneStepOfTimers(s, events[0], id);
      TimersDoNotChange(LiveStep(s, events[0]), events[1..], id);
    }
  }

  /** A timer is set with the screen as it is then. */
  lemma TimerSeesTheScreen(s: Live, event: LiveEvent)
    requires CanOccur(s, event)
    ensures var after := LiveStep(s, event);
            after.nextTimer > s.nextTimer ==>
              && after.nextTimer == s.nextTimer + 1
              && s.nextTimer in after.armed
              && after.armed[s.nextTimer].seen == after.app.screen
  {
    hide HeadlineSignature, Step, HandleCompare;
  }

  /** No event of the run changes the form. */
  ghost predicate KeepsForm(s: Live, events: seq<LiveEvent>)
    requires IsLiveRun(s, events)
    decreases |events|
  {
    events != [] ==>
      && LiveStep(s, events[0]).app.screen.form == s.app.screen.form
      && KeepsForm(LiveStep(s, events[0]), events[1..])
  }

  lemma {:induction false} FormIsKept(s: Live, events: seq<LiveEvent>)
    requires IsLiveRun(s, events) && KeepsForm(s, events)
    ensures LiveRun(s, events).app.screen.form == s.app.screen.form
    decreases |events|
  {
    hide LiveStep, CanOccur;
    if events != [] {
      FormIsKept(LiveStep(s, events[0]), events[1..]);
    }
  }

  /** From the event that sets a timer on: when the timer fires, the form submitted is the form as that event left it.
      So it is the form on screen exactly when that is the same again, and in particular when no event in between
      changed the form. */
  lemma SubmitsTheFormAtArming(s: Live, arming: LiveEvent, events: seq<LiveEvent>)
    requires LiveInvariant(s) && CanOccur(s, arming) && LiveStep(s, arming).nextTimer > s.nextTimer
    requires var armed := LiveStep(s, arming);
             && IsValidDraft(armed.app.screen.form)
             && IsLiveRun(armed, events)
             && IsDue(LiveRun(armed, events), s.nextTimer) && LiveRun(armed, events).app.busy == None
    ensures var armed, id := LiveStep(s, arming), s.nextTimer;
            var before := LiveRun(armed, events);
            var after := LiveStep(before, Fired(id));
            && after.app.active in after.app.inFlight
            && after.app.inFlight[after.app.active].NwsPrepared?
            && var sent := after.app.inFlight[after.app.active].job.submission.form;
               && sent == armed.app.screen.form
               && (sent == after.app.screen.form <==> before.app.screen.form == armed.app.screen.form)
               && (KeepsForm(armed, events) ==> sent == after.app.screen.form)
  {
    hide LiveStep, IsValidDraft, LiveRun, IsLiveRun, KeepsForm, LiveInvariant;
    var armed, id := LiveStep(s, arming), s.nextTimer;
    var before := LiveRun(armed, events);
    TimerSeesTheScreen(s, arming);
    LiveInvariantIsKept(s, arming);
    TimersDoNotChange(armed, events, id);
    EveryLiveRunIsSafe(armed, events);
    LiveCompareIsSafe(before, id);
    SubmitsTheScreen(before, id);
    if KeepsForm(armed, events) {
      FormIsKept(armed, events);
    }
  }

  /** The difference is real: changing anything but the headline fields while a timer is set neither clears it nor sets
      it anew, and the compare submits the form without that change. */
  lemma OtherEditsAreNotSubmitted(s: Live, id: nat, content: Workload.Form, wait: nat)
    requires LiveInvariant(s) && id in s.armed && s.app.busy == None && s.now + wait >= s.armed[id].due
    requires IsValidDraft(s.armed[id].seen.form) && content != s.armed[id].seen.form.content
    ensures var screen := s.app.screen.(form := s.app.screen.form.(content := content));
            var events := [Acted(Touched(screen)), Waited(wait), Fired(id)];
            && IsLiveRun(s, events)
            && var after := LiveRun(s, events).app;
               && after.screen.form.content == content
               && after.active in after.inFlight
               && after.inFlight[after.active] == NwsPrepared(JobOf(s.armed[id].seen))
               && after.inFlight[after.active].job.submission.form != after.screen.form
  {
    hide HeadlineSignature, LiveInvariant, LiveStep, DepsOf, IsValidDraft;
    var screen := s.app.screen.(form := s.app.screen.form.(content := content));
    var edit, pause, fire := Acted(Touched(screen)), Waited(wait), Fired(id);
    DepsAreCurrent(s);
    OtherEditsKeepTheTimer(s, content);
    LiveInvariantIsKept(s, edit);
    var one := LiveStep(s, edit);
    LiveInvariantIsKept(one, pause);
    var two := WaitOnly(one, wait);
    LiveCompareIsSafe(two, id);
    SubmitsTheScreen(two, id);
    FormStaysOnFire(two, id);
    assert [edit, pause, fire][1..] == [pause, fire] && [pause, fire][1..] == [fire] && [fire][1..] == [];
    assert IsLiveRun(two, [fire]) && LiveRun(two, [fire]) == LiveStep(two, fire);
    assert IsLiveRun(one, [pause, fire]) && LiveRun(one, [pause, fire]) == LiveStep(two, fire);
  }

  lemma FormStaysOnFire(s: Live, id: nat)
    requires LiveInvariant(s) && IsDue(s, id)
    ensures LiveStep(s, Fired(id)).app.screen.form == s.app.screen.form
  {
    hide HeadlineSignature, HandleCompare, LiveInvariant;
    FireKeeps(s, id);
    HandleCompareLeavesDeps(s.app, s.armed[id].seen);
  }

  lemma OtherEditsKeepTheTimer(s: Live, content: Workload.Form)
    requires s.deps == DepsOf(s.app.screen)
    ensures var screen := s.app.screen.(form := s.app.screen.form.(content := content));
            LiveStep(s, Acted(Touched(screen))) == s.(app := s.app.(screen := screen))
  {
    hide HeadlineSignature;
  }

  lemma WaitOnly(s: Live, wait: nat) returns (after: Live)
    ensures after == LiveStep(s, Waited(wait)) == s.(now := s.now + wait)
  {
    after := s.(now := s.now + wait);
  }

  // ---- How often it can compare ------------------------------------------------------------

  /** A comparison started by live recompute: its id, and when. */
  datatype LiveStart = LiveStart(id: nat, at: nat)

  ghost function StartedBy(s: Live, event: LiveEvent): seq<LiveStart>
    requires CanOccur(s, event)
  {
    var active := LiveStep(s, event).app.active;
    if event.Fired? && active != s.app.active then [LiveStart(active, s.now)] else []
  }

  ghost function LiveStarts(s: Live, events: seq<LiveEvent>): seq<LiveStart>
    requires IsLiveRun(s, events)
    decreases |events|
  {
    if events == [] then [] else StartedBy(s, events[0]) + LiveStarts(LiveStep(s, events[0]), events[1..])
  }

  function TimesOf(starts: seq<LiveStart>): seq<nat> {
    seq(|starts|, i requires 0 <= i < |starts| => starts[i].at)
  }

  lemma OneStepOfFires(s: Live, event: LiveEvent)
    requires LiveInvariant(s) && CanOccur(s, event)
    ensures LiveStep(s, event).fires == if event.Fired? then s.fires + [s.now] else s.fires
    ensures event.Fired? && s.fires != [] ==> s.fires[|s.fires| - 1] + DEBOUNCE_MS <= s.now
  {
    hide DepsOf, SignatureOf, Step, HandleCompare, Invariant, SpacedOut, OneTimer, IsLive;
  }

  lemma OneMoreStart(starts: seq<LiveStart>, rest: seq<LiveStart>)
    requires |starts| == 1 && SpacedOut(TimesOf(rest))
    requires rest != [] ==> starts[0].at + DEBOUNCE_MS <= rest[0].at
    ensures SpacedOut(TimesOf(starts + rest))
  {
    var times := TimesOf(starts + rest);
    forall i, j | 0 <= i < j < |times| ensures times[j] - times[i] >= DEBOUNCE_MS * (j - i) {
      assert times[j] == TimesOf(rest)[j - 1];
      if i > 0 {
        assert times[i] == TimesOf(rest)[i - 1];
      } else {
        assert j > 1 ==> TimesOf(rest)[j - 1] - TimesOf(rest)[0] >= DEBOUNCE_MS * (j - 1);
      }
    }
  }

  lemma NoStarts()
    ensures SpacedOut(TimesOf([]))
  {
  }

  /** Comparisons started live are as far apart as the fires, which there may be more of. */
  lemma {:induction false} StartsAreSpaced(s: Live, events: seq<LiveEvent>)
    requires LiveInvariant(s) && IsLiveRun(s, events)
    ensures var starts := LiveStarts(s, events);
            && SpacedOut(TimesOf(starts))
            && (starts != [] && s.fires != [] ==> s.fires[|s.fires| - 1] + DEBOUNCE_MS <= starts[0].at)
    decreases |events|
  {
    hide LiveStep, CanOccur, LiveInvariant, SpacedOut, TimesOf;
    if events == [] {
      NoStarts();
    } else {
      var next := LiveStep(s, events[0]);
      var first, rest := StartedBy(s, events[0]), LiveStarts(next, events[1..]);
      OneStepOfFires(s, events[0]);
      LiveInvariantIsKept(s, events[0]);
      StartsAreSpaced(next, events[1..]);
      if first == [] {
        assert first + rest == rest;
      } else {
        OneMoreStart(first, rest);
      }
    }
  }

  lemma OneMore(s: Live, event: LiveEvent, rest: seq<LiveEvent>)
    requires CanOccur(s, event) && IsLiveRun(LiveStep(s, event), rest)
    ensures IsLiveRun(s, [event] + rest) && LiveRun(s, [event] + rest) == LiveRun(LiveStep(s, event), rest)
    ensures LiveStarts(s, [event] + rest) == StartedBy(s, event) + LiveStarts(LiveStep(s, event), rest)
  {
    hide LiveStep, CanOccur, StartedBy;
    assert ([event] + rest)[1..] == rest;
  }

  lemma {:induction false} RunsCompose(s: Live, first: seq<LiveEvent>, second: seq<LiveEvent>)
    requires IsLiveRun(s, first) && IsLiveRun(LiveRun(s, first), second)
    ensures IsLiveRun(s, first + second) && LiveRun(s, first + second) == LiveRun(LiveRun(s, first), second)
    ensures LiveStarts(s, first + second) == LiveStarts(s, first) + LiveStarts(LiveRun(s, first), second)
    decreases |first|
  {
    hide LiveStep, CanOccur, StartedBy;
    if first == [] {
      assert first + second == second;
    } else {
      RunsCompose(LiveStep(s, first[0]), first[1..], second);
      assert (first + second)[1..] == first[1..] + second;
    }
  }

  /** Live, on a valid form, with nothing to do. */
  ghost predicate Ready(s: Live) {
    && LiveInvariant(s)
    && IsLive(s.app.screen)
    && IsValidDraft(s.app.screen.form)
    && s.app.busy == None
    && s.armed == map[]
    && s.last == SignatureOf(s.app.screen)
  }

  /** The same screen with one more letter in the preferred region. */
  function OneLetterMore(screen: Screen): Screen {
    var form := screen.form;
    screen.(form := Draft(form.levers.(regionPreference := form.levers.regionPreference + "x"),
                          form.content.(regionPreference := form.content.regionPreference + "x")))
  }

  lemma RegionIsNotValidated(form: Workload.Form, region: string)
    ensures Validity.IsValid(form.(regionPreference := region)) <==> Validity.IsValid(form)
  {
    hide Fields.RowOf, Fields.Passes;
    var other := form.(regionPreference := region);
    forall field: Fields.Field ensures Validity.NumberIsValid(other, field) <==> Validity.NumberIsValid(form, field) {
    }
  }

  lemma OneLetterMoves(screen: Screen)
    ensures SignatureOf(OneLetterMore(screen)) != SignatureOf(screen)
    ensures IsLive(OneLetterMore(screen)) == IsLive(screen)
    ensures DepsOf(OneLetterMore(screen)) != DepsOf(screen)
    ensures IsValidDraft(OneLetterMore(screen).form) == IsValidDraft(screen.form)
  {
    hide HeadlineSignature, Validity.IsValid;
    var levers := screen.form.levers;
    RegionIsNotValidated(screen.form.content, screen.form.content.regionPreference + "x");
    LongerRegion(levers, "x");
  }

  lemma LongerRegion(levers: Levers, more: string)
    ensures |HeadlineSignature(levers.(regionPreference := levers.regionPreference + more))| ==
            |HeadlineSignature(levers)| + |more|
  {
    hide HeadlineSignature;
    SignatureLength(levers);
    SignatureLength(levers.(regionPreference := levers.regionPreference + more));
  }

  lemma SignatureLength(l: Levers)
    ensures |HeadlineSignature(l)| ==
            |l.vcpu| + |l.storageSizeGb| + |l.monthlyEgressGb| + |l.aiTrainingGpuHours| + |l.regionPreference|
            + |l.commitmentPreferencePercent| + 5
  {
    var t := LeverTexts(l);
    assert t[5..] == [l.commitmentPreferencePercent];
    assert t[4..][1..] == t[5..] && t[3..][1..] == t[4..] && t[2..][1..] == t[3..] && t[1..][1..] == t[2..];
    assert |Join(t[5..], "|")| == |t[5]|;
    assert |Join(t[4..], "|")| == |t[4]| + 1 + |t[5]|;
    assert |Join(t[3..], "|")| == |t[3]| + 1 + |Join(t[4..], "|")|;
    assert |Join(t[2..], "|")| == |t[2]| + 1 + |Join(t[3..], "|")|;
    assert |Join(t[1..], "|")| == |t[1]| + 1 + |Join(t[2..], "|")|;
  }

  lemma EditArms(s: Live) returns (id: nat, after: Live)
    requires Ready(s)
    ensures after == LiveStep(s, Acted(Touched(OneLetterMore(s.app.screen)))) && LiveInvariant(after)
    ensures id in after.armed
    ensures after.armed[id] == Timer(s.now + DEBOUNCE_MS, SignatureOf(after.app.screen), after.app.screen)
    ensures after.now == s.now && after.fires == s.fires
    ensures after.app == s.app.(screen := OneLetterMore(s.app.screen)) && IsValidDraft(after.app.screen.form)
    ensures IsLive(after.app.screen)
  {
    hide HeadlineSignature, OneLetterMore, IsValidDraft, LiveInvariant, CleanUp, Effect;
    var screen := OneLetterMore(s.app.screen);
    var edit := Acted(Touched(screen));
    OneLetterMoves(s.app.screen);
    DepsAreCurrent(s);
    LiveInvariantIsKept(s, edit);
    after := LiveStep(s, edit);
    var acted := s.(app := s.app.(screen := screen), deps := DepsOf(screen));
    CleanUpClears(acted) by { TimersAreOne(s); }
    EffectFromClean(acted.(armed := map[], cleanup := None));
    id := s.nextTimer;
  }

  lemma TimersAreOne(s: Live)
    requires LiveInvariant(s)
    ensures OneTimer(s)
  {
  }

  lemma PauseFires(s: Live, id: nat) returns (paused: Live, after: Live)
    requires LiveInvariant(s) && id in s.armed && s.armed[id].due == s.now + DEBOUNCE_MS && s.app.busy == None
    requires s.armed[id].seen == s.app.screen && IsValidDraft(s.app.screen.form) && IsLive(s.app.screen)
    ensures paused == LiveStep(s, Waited(DEBOUNCE_MS)) && IsDue(paused, id) && paused.app == s.app
    ensures after == LiveStep(paused, Fired(id)) && LiveInvariant(after)
    ensures after.armed == map[] && after.last == SignatureOf(after.app.screen)
    ensures IsLive(after.app.screen) && IsValidDraft(after.app.screen.form)
    ensures after.app.active == s.app.active + 1
    ensures after.app.active in after.app.inFlight && after.app.inFlight[after.app.active].NwsPrepared?
    ensures paused.now == after.now == s.now + DEBOUNCE_MS && after.fires == s.fires + [after.now]
    ensures after.app.applied == s.app.applied
  {
    hide HeadlineSignature, IsValidDraft, LiveInvariant;
    paused := LiveStep(s, Waited(DEBOUNCE_MS));
    LiveInvariantIsKept(s, Waited(DEBOUNCE_MS));
    after := LiveStep(paused, Fired(id));
    LiveInvariantIsKept(paused, Fired(id));
    FireKeeps(paused, id);
    HandleCompareLeavesDeps(paused.app, paused.armed[id].seen);
    LiveCompareIsSafe(paused, id);
  }

  ghost predicate Awaits(s: Live, job: Job) {
    s.app.active in s.app.inFlight && s.app.inFlight[s.app.active] == NwsPrepared(job)
  }

  /** The comparison on screen is that of the action, which submitted this. */
  ghost predicate Shows(screen: Screen, id: nat, submission: Submission) {
    screen.comparison.Some? && screen.comparison.value.action == id && screen.submitted == submission
  }

  /** The first two answers of a compare change nothing that live recompute looks at. */
  lemma TwoAnswers(s: Live, job: Job) returns (events: seq<LiveEvent>, after: Live)
    requires LiveInvariant(s) && Awaits(s, job)
    ensures IsLiveRun(s, events) && LiveRun(s, events) == after && LiveInvariant(after)
    ensures LiveStarts(s, events) == []
    ensures after == s.(app := s.app.(inFlight := s.app.inFlight[s.app.active := ComparisonCreated(job)]))
  {
    hide HeadlineSignature, LiveInvariant;
    var event := Acted(Resumed(s.app.active, Went));
    DepsAreCurrent(s);
    LiveInvariantIsKept(s, event);
    var one := LiveStep(s, event);
    LiveInvariantIsKept(one, event);
    after := LiveStep(one, event);
    assert after.app.inFlight == s.app.inFlight[s.app.active := ComparisonCreated(job)];
    OneMore(one, event, []);
    OneMore(s, event, [event] + []);
    events := [event] + ([event] + []);
  }

  /** The third brings the comparison; the page is live, and nothing is set off by it. */
  lemma AnswerDelivers(s: Live, job: Job) returns (event: LiveEvent, after: Live)
    requires LiveInvariant(s) && s.app.active in s.app.inFlight
    requires s.app.inFlight[s.app.active] == ComparisonCreated(job)
    requires s.app.screen.mode == FormMode && IsValidDraft(s.app.screen.form)
    requires s.armed == map[] && s.last == SignatureOf(s.app.screen)
    ensures CanOccur(s, event) && !event.Fired? && after == LiveStep(s, event) && Ready(after)
    ensures after.now == s.now && after.fires == s.fires && after.app.applied == s.app.applied + [s.app.active]
    ensures Shows(after.app.screen, s.app.active, job.submission) && after.app.screen.form == s.app.screen.form
  {
    hide HeadlineSignature, LiveInvariant, IsValidDraft, CleanUp, Effect, History.SaveComparisonHistoryEntry;
    event := Acted(Resumed(s.app.active, Priced("comparison")));
    DepsAreCurrent(s);
    TimersAreOne(s);
    LiveInvariantIsKept(s, event);
    after := LiveStep(s, event);
    var acted := s.(app := Step(s.app, Resumed(s.app.active, Priced("comparison"))));
    acted := acted.(deps := DepsOf(acted.app.screen));
    CleanUpClears(acted);
    EffectFromClean(acted.(armed := map[], cleanup := None));
    NotBusy(after);
  }

  lemma NotBusy(s: Live)
    requires LiveInvariant(s) && s.app.active !in s.app.inFlight
    ensures s.app.busy == None
  {
  }

  /** From an await for a comparison to the page being ready again. */
  lemma ThreeAnswers(s: Live, job: Job) returns (events: seq<LiveEvent>, after: Live)
    requires LiveInvariant(s) && Awaits(s, job)
    requires s.app.screen.mode == FormMode && IsValidDraft(s.app.screen.form)
    requires s.armed == map[] && s.last == SignatureOf(s.app.screen)
    ensures IsLiveRun(s, events) && LiveRun(s, events) == after && Ready(after)
    ensures LiveStarts(s, events) == []
    ensures after.now == s.now && after.fires == s.fires && after.app.applied == s.app.applied + [s.app.active]
    ensures Shows(after.app.screen, s.app.active, job.submission) && after.app.screen.form == s.app.screen.form
  {
    hide LiveStep, Ready, LiveInvariant, SignatureOf, IsValidDraft, CanOccur, Shows;
    var two, answered := TwoAnswers(s, job);
    var third: LiveEvent;
    third, after := AnswerDelivers(answered, job);
    OneMore(answered, third, []);
    RunsCompose(s, two, [third] + []);
    events := two + ([third] + []);
  }

  /** One edit, one pause, one fire, and the comparison comes. */
  lemma OneCycle(s: Live) returns (events: seq<LiveEvent>, after: Live)
    requires Ready(s)
    ensures IsLiveRun(s, events) && LiveRun(s, events) == after && Ready(after)
    ensures after.now == s.now + DEBOUNCE_MS && after.fires == s.fires + [after.now]
    ensures LiveStarts(s, events) == [LiveStart(s.app.active + 1, after.now)]
    ensures after.app.applied == s.app.applied + [s.app.active + 1]
  {
    hide LiveStep, LiveInvariant, SignatureOf, IsDue, OneLetterMore, IsValidDraft, Shows;
    var id, edited := EditArms(s);
    var paused, fired := PauseFires(edited, id);
    var answers: seq<LiveEvent>;
    answers, after := ThreeAnswers(fired, fired.app.inFlight[fired.app.active].job);
    var edit, pause, fire := Acted(Touched(OneLetterMore(s.app.screen))), Waited(DEBOUNCE_MS), Fired(id);
    OneMore(paused, fire, answers);
    OneMore(edited, pause, [fire] + answers);
    OneMore(s, edit, [pause] + ([fire] + answers));
    events := [edit] + ([pause] + ([fire] + answers));
  }

  /** The k-th comparison is started at a fire 600 k ms from now, and each of them is applied. */
  ghost predicate IsThatClose(s: Live, starts: seq<LiveStart>, after: Live) {
    && s.fires <= after.fires && |after.fires| == |s.fires| + |starts|
    && s.app.applied <= after.app.applied && |after.app.applied| == |s.app.applied| + |starts|
    && forall k :: 0 <= k < |starts| ==>
         && starts[k].at == after.fires[|s.fires| + k] == s.now + 600 * (k + 1)
         && starts[k].id == after.app.applied[|s.app.applied| + k]
  }

  lemma OneMoreThatClose(s: Live, first: LiveStart, middle: Live, rest: seq<LiveStart>, after: Live)
    requires middle.now == first.at == s.now + 600 && middle.fires == s.fires + [first.at]
    requires middle.app.applied == s.app.applied + [first.id] && IsThatClose(middle, rest, after)
    ensures IsThatClose(s, [first] + rest, after)
  {
    var starts := [first] + rest;
    assert middle.fires[|s.fires|] == after.fires[|s.fires|];
    assert middle.app.applied[|s.app.applied|] == after.app.applied[|s.app.applied|];
    forall k | 0 <= k < |starts|
      ensures starts[k].at == after.fires[|s.fires| + k] == s.now + 600 * (k + 1)
      ensures starts[k].id == after.app.applied[|s.app.applied| + k]
    {
      if k > 0 {
        assert starts[k] == rest[k - 1];
        assert |s.fires| + k == |middle.fires| + (k - 1);
        assert |s.app.applied| + k == |middle.app.applied| + (k - 1);
      }
    }
  }

  /** From a ready page, any number of comparisons can be started live 600 ms apart, and all of them delivered. */
  lemma {:induction false} ComparisonsCanBeThatClose(s: Live, n: nat) returns (events: seq<LiveEvent>)
    requires Ready(s)
    ensures IsLiveRun(s, events) && Ready(LiveRun(s, events))
    ensures |LiveStarts(s, events)| == n && IsThatClose(s, LiveStarts(s, events), LiveRun(s, events))
    decreases n
  {
    hide LiveStep, Ready, CanOccur;
    if n == 0 {
      events := [];
    } else {
      hide IsThatClose;
      var head, middle := OneCycle(s);
      var tail := ComparisonsCanBeThatClose(middle, n - 1);
      events := head + tail;
      RunsCompose(s, head, tail);
      OneMoreThatClose(s, LiveStarts(s, head)[0], middle, LiveStarts(middle, tail), LiveRun(s, events));
    }
  }

  /** A mounted page with a valid form is ready after its first comparison. */
  lemma ReadyIsReached(screen: Screen) returns (events: seq<LiveEvent>)
    requires screen.mode == FormMode && IsValidDraft(screen.form) && !IsLive(screen)
    ensures IsLiveRun(Mounted(screen), events) && LiveStarts(Mounted(screen), events) == []
    ensures var after := LiveRun(Mounted(screen), events);
            && Ready(after) && after.now == 0 && after.fires == []
            && after.app.applied == [1] && after.app.screen.form == screen.form
            && Shows(after.app.screen, 1, SubmissionOf(screen))
  {
    hide HeadlineSignature, LiveInvariant, IsValidDraft, Ready, IsLive, Shows;
    var start, click := Mounted(screen), Acted(CompareClicked(screen));
    MountedIsSafe(screen);
    LiveInvariantIsKept(start, click);
    var clicked := LiveStep(start, click);
    ClickShows(screen);
    var answers, after := ThreeAnswers(clicked, JobOf(screen));
    OneMore(start, click, answers);
    events := [click] + answers;
  }

  lemma ClickShows(screen: Screen)
    requires screen.mode == FormMode && IsValidDraft(screen.form)
    ensures var clicked := LiveStep(Mounted(screen), Acted(CompareClicked(screen)));
            && clicked.app.active == 1 && Awaits(clicked, JobOf(screen))
            && clicked.app.screen.mode == FormMode && clicked.app.screen.form == screen.form
            && clicked.armed == map[] && clicked.last == SignatureOf(screen)
            && clicked.now == 0 && clicked.fires == [] && clicked.app.applied == []
  {
    hide HeadlineSignature, IsValidDraft, JobOf;
  }

  // ---- The rate limit ----------------------------------------------------------------------

  /** No minute, counted from any of the times, has more than `limit` of them. */
  predicate AtMostPerMinute(times: seq<nat>, limit: int) {
    forall i, j :: 0 <= i <= j < |times| && times[j] < times[i] + 60000 ==> j - i + 1 <= limit
  }

  /** The debounce alone keeps to a limit of live comparisons a minute exactly if the limit is 100 or more, whatever
      valid form the page is mounted with; and so do the fires. */
  lemma DebounceKeepsTo(screen: Screen, limit: int)
    requires screen.mode == FormMode && IsValidDraft(screen.form) && !IsLive(screen)
    ensures limit >= 100 <==>
            forall events | IsLiveRun(Mounted(screen), events) ::
              AtMostPerMinute(TimesOf(LiveStarts(Mounted(screen), events)), limit)
    ensures limit >= 100 <==>
            forall events | IsLiveRun(Mounted(screen), events) ::
              AtMostPerMinute(LiveRun(Mounted(screen), events).fires, limit)
  {
    hide IsLiveRun, LiveRun, LiveStarts, TimesOf, AtMostPerMinute, Mounted, IsValidDraft, IsLive;
    if limit >= 100 {
      forall events | IsLiveRun(Mounted(screen), events)
        ensures AtMostPerMinute(TimesOf(LiveStarts(Mounted(screen), events)), limit)
        ensures AtMostPerMinute(LiveRun(Mounted(screen), events).fires, limit)
      {
        SpacedOutIsEnough(screen, events, limit);
      }
    } else {
      var events := HundredInAMinute(screen, limit);
    }
  }

  lemma SpacedOutIsEnough(screen: Screen, events: seq<LiveEvent>, limit: int)
    requires IsLiveRun(Mounted(screen), events) && limit >= 100
    ensures AtMostPerMinute(TimesOf(LiveStarts(Mounted(screen), events)), limit)
    ensures AtMostPerMinute(LiveRun(Mounted(screen), events).fires, limit)
  {
    hide IsLiveRun, LiveRun, LiveStarts, TimesOf, Mounted;
    MountedIsSafe(screen);
    EveryLiveRunIsSafe(Mounted(screen), events);
    StartsAreSpaced(Mounted(screen), events);
  }

  /** From any mounted page with a valid form that is not live yet, a hundred comparisons can be started and delivered
      in less than a minute from the first. */
  lemma HundredInAMinute(screen: Screen, limit: int) returns (events: seq<LiveEvent>)
    requires screen.mode == FormMode && IsValidDraft(screen.form) && !IsLive(screen) && limit < 100
    ensures IsLiveRun(Mounted(screen), events)
    ensures !AtMostPerMinute(TimesOf(LiveStarts(Mounted(screen), events)), limit)
    ensures !AtMostPerMinute(LiveRun(Mounted(screen), events).fires, limit)
  {
    hide LiveStep, Ready, CanOccur, Mounted, IsValidDraft, Shows, IsLive;
    var first := ReadyIsReached(screen);
    var ready := LiveRun(Mounted(screen), first);
    var rest := ComparisonsCanBeThatClose(ready, 100);
    RunsCompose(Mounted(screen), first, rest);
    events := first + rest;
    var times, fires := TimesOf(LiveStarts(Mounted(screen), events)), LiveRun(Mounted(screen), events).fires;
    assert times[0] == fires[0] == 600 && times[99] == fires[99] == 60000;
  }

  // ---- An edit that is lost ----------------------------------------------------------------

  /** One letter more, and a refresh of the prices before the pause is over: the fire finds the page busy and skips the
      edit. */
  lemma EditIsSkipped(s: Live) returns (events: seq<LiveEvent>, after: Live)
    requires Ready(s)
    ensures IsLiveRun(s, events) && LiveRun(s, events) == after && LiveStarts(s, events) == []
    ensures EditWaits(after) && IsLive(after.app.screen)
    ensures after.app.screen.form == OneLetterMore(s.app.screen).form
    ensures after.app.screen.comparison == s.app.screen.comparison
    ensures after.app.screen.submitted == s.app.screen.submitted
    ensures after.app.applied == s.app.applied
  {
    hide HeadlineSignature, IsValidDraft, LiveInvariant;
    var id, edited := EditArms(s);
    var edit, refresh := Acted(Touched(OneLetterMore(s.app.screen))), Acted(RefreshClicked(edited.app.screen));
    var pause, fire := Waited(DEBOUNCE_MS), Fired(id);
    DepsAreCurrent(edited);
    LiveInvariantIsKept(edited, refresh);
    var busy := LiveStep(edited, refresh);
    LiveInvariantIsKept(busy, pause);
    var paused := LiveStep(busy, pause);
    LiveInvariantIsKept(paused, fire);
    LiveCompareIsSafe(paused, id);
    after := LiveStep(paused, fire);
    OneMore(paused, fire, []);
    OneMore(busy, pause, [fire] + []);
    OneMore(edited, refresh, [pause] + ([fire] + []));
    OneMore(s, edit, [refresh] + ([pause] + ([fire] + [])));
    events := [edit] + ([refresh] + ([pause] + ([fire] + [])));
  }

  /** So an edit can be lost, from any mounted page with a valid form that is not live yet: the page ends up live with
      one letter more on screen than in the comparison beside it, and no later run compares it before the signature
      moves again. */
  lemma EditCanBeLost(screen: Screen) returns (events: seq<LiveEvent>)
    requires screen.mode == FormMode && IsValidDraft(screen.form) && !IsLive(screen)
    ensures IsLiveRun(Mounted(screen), events)
    ensures var after := LiveRun(Mounted(screen), events);
            && IsLive(after.app.screen)
            && after.app.screen.form == OneLetterMore(screen).form
            && Shows(after.app.screen, 1, SubmissionOf(screen))
            && SignatureOf(after.app.screen) != SignatureOf(screen)
            && after.app.applied == [1]
            && (forall later | IsLiveRun(after, later) && KeepsSignature(after, later) ::
                  LiveRun(after, later).fires == after.fires)
  {
    hide LiveStep, Ready, CanOccur, Mounted, IsValidDraft, LiveInvariant, HeadlineSignature, KeepsSignature;
    var first := ReadyIsReached(screen);
    var skipping, waiting := EditIsSkipped(LiveRun(Mounted(screen), first));
    LeavingDropsTheEdit(waiting);
    var here := waiting.app.screen;
    var leaving := [Acted(Touched(here.(mode := DescribeMode))), Acted(Touched(here))];
    RunsCompose(Mounted(screen), first, skipping);
    RunsCompose(Mounted(screen), first + skipping, leaving);
    OneLetterMoves(screen);
    events := first + skipping + leaving;
    var after := LiveRun(Mounted(screen), events);
    forall later | IsLiveRun(after, later) && KeepsSignature(after, later)
      ensures LiveRun(after, later).fires == after.fires
    {
      DroppedEditStaysDropped(after, later);
    }
  }
}
