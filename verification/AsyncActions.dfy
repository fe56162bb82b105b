/**
 Asynchronous actions of the comparison page and the rule that the latest one wins (apps/web/src/App.tsx).

 A handler runs up to its next `await` in one step; what it is waiting for is kept in `inFlight` under the
 action's id. Handlers see the screen of the render they were made in, which is the parameter `seen`.
 */
module AsyncActions {
  import opened Wrappers
  import opened Text
  import opened History
  import Workload
  import Validity
  import Validator
  import DiagramReview

  // ---- The screen --------------------------------------------------------------------------

  datatype Mode = DescribeMode | FormMode | DiagramMode

  /** The six headline fields of the form. */
  datatype Levers = Levers(
    vcpu: string, storageSizeGb: string, monthlyEgressGb: string, aiTrainingGpuHours: string,
    regionPreference: string, commitmentPreferencePercent: string)

  /** The form: the headline fields as typed, and the form as it is validated and built. */
  datatype Draft = Draft(levers: Levers, content: Workload.Form)

  datatype Submission = Submission(form: Draft, mode: Mode)

  /** What is sent to be priced: the spec of a form, and in diagram mode the reviewed requirements and traces with
      it. */
  datatype Prepared = Prepared(form: Draft, review: Option<DiagramReview.Compared>)

  /** A compare on its way. */
  datatype Job = Job(submission: Submission, nws: Prepared)

  /** A comparison result; each one is a new object, made by the action named here. */
  datatype Comparison = Comparison(comparisonId: string, action: nat)

  datatype Notice =
    | ReviewServices | ReviewDiagram | ComparisonReady(afterReview: bool) | SnapshotCreated
    | ReportDownloaded(format: string) | LoadedEntry(id: string) | OtherNotice(text: string)

  datatype Problem =
    | NothingToParse | NoDiagram | FormHasIssues | CallFailed(message: string) | OtherProblem(text: string)

  datatype Screen = Screen(
    form: Draft,
    naturalLanguageInput: string,
    diagramInput: string,
    diagram: Option<DiagramReview.ParseResult>,
    mode: Mode,
    isEditing: bool,
    awaitingReview: bool,
    submitted: Submission,
    comparison: Option<Comparison>,
    history: seq<Entry<Submission>>,
    hasFormIssues: bool,
    notice: Option<Notice>,
    error: Option<Problem>)

  /** INITIAL_HOME_FORM and sampleNaturalLanguageInput. */
  datatype Defaults = Defaults(homeForm: Draft, sampleInput: string)

  // ---- The protocol ------------------------------------------------------------------------

  datatype Busy = Parse | Compare | Refresh | Export

  /** What an action waits for, with what it took along. */
  datatype Await =
    | TextParsed
    | DiagramParsed
    | NwsPrepared(job: Job)
    | NwsValidated(job: Job)
    | ComparisonCreated(job: Job)
    | SnapshotMade
    | ReportMade(format: string)

  /** A parse brings a spec; `levers` are its headline numbers as they print. */
  datatype Reply =
    | Failed(message: string)
    | Parsed(spec: Workload.Nws, levers: Levers)
    | ParsedDiagram(spec: Workload.Nws, levers: Levers, diagram: DiagramReview.ParseResult)
    | Went
    | Priced(comparisonId: string)

  datatype State = State(
    active: nat,
    inFlight: map<nat, Await>,
    busy: Option<Busy>,
    screen: Screen,
    applied: seq<nat>)

  datatype Event =
    | ParseClicked(seen: Screen)
    | ParseDiagramClicked(seen: Screen)
    | CompareClicked(seen: Screen)
    | RefreshClicked(seen: Screen)
    | ExportClicked(seen: Screen, format: string)
    | Resumed(id: nat, reply: Reply)
    | Cleared(defaults: Defaults)
    | Restored(entry: Entry<Submission>, defaults: Defaults)
    | Touched(screen: Screen)   // anything else that changes the screen

  function BusyOf(await: Await): Busy {
    match await
    case TextParsed | DiagramParsed => Parse
    case NwsPrepared(_) | NwsValidated(_) | ComparisonCreated(_) => Compare
    case SnapshotMade => Refresh
    case ReportMade(_) => Export
  }

  /** The answers an await can get; preparing the spec only builds it, and does not fail. */
  predicate Answers(reply: Reply, await: Await) {
    match await
    case TextParsed => reply.Failed? || reply.Parsed?
    case DiagramParsed => reply.Failed? || reply.ParsedDiagram?
    case NwsPrepared(_) => reply.Went?
    case NwsValidated(_) | ReportMade(_) => reply.Failed? || reply.Went?
    case ComparisonCreated(_) | SnapshotMade => reply.Failed? || reply.Priced?
  }

  /** A new action becomes the active one; error and notice are cleared. */
  function Start(s: State, await: Await): State {
    s.(active := s.active + 1,
       inFlight := s.inFlight[s.active + 1 := await],
       busy := Some(BusyOf(await)),
       screen := s.screen.(error := None, notice := None))
  }

  function Refuse(s: State, problem: Problem): State {
    s.(screen := s.screen.(error := Some(problem), notice := None))
  }

  function HandleParse(s: State, seen: Screen): State {
    if Trim(seen.naturalLanguageInput) == "" then Refuse(s, NothingToParse) else Start(s, TextParsed)
  }

  function HandleParseDiagram(s: State, seen: Screen): State {
    if Trim(seen.diagramInput) == "" then Refuse(s, NoDiagram) else Start(s, DiagramParsed)
  }

  function SubmissionOf(seen: Screen): Submission {
    Submission(seen.form,
               if seen.mode == DiagramMode then DiagramMode else if seen.awaitingReview then DescribeMode else FormMode)
  }

  function JobOf(seen: Screen): Job {
    Job(SubmissionOf(seen),
        Prepared(seen.form,
                 if seen.mode == DiagramMode && seen.diagram.Some?
                 then Some(DiagramReview.PrepareForComparison(seen.diagram.value))
                 else None))
  }

  /** The compare handler looks at the form itself, not for a parse first. */
  predicate ComparesForm(seen: Screen) {
    seen.mode == FormMode || (seen.mode == DiagramMode && seen.diagram.Some?)
  }

  ghost predicate IsValidDraft(draft: Draft) {
    Validity.IsValid(draft.content)
  }

  ghost function HandleCompare(s: State, seen: Screen): State {
    if seen.mode == DescribeMode then HandleParse(s, seen)
    else if !ComparesForm(seen) then HandleParseDiagram(s, seen)
    else if !IsValidDraft(seen.form) then Refuse(s.(screen := s.screen.(hasFormIssues := true)), FormHasIssues)
    else Start(s.(screen := s.screen.(hasFormIssues := false)), NwsPrepared(JobOf(seen)))
  }

  /** The form that a parsed spec is read into. */
  function DraftOf(spec: Workload.Nws, levers: Levers): Draft {
    Draft(levers, Workload.FormFromNws(spec))
  }

  /** What a finished action does to the screen. */
  function Apply(screen: Screen, id: nat, await: Await, reply: Reply): Screen
    requires Answers(reply, await) && !reply.Failed?
  {
    match await
    case TextParsed =>
      screen.(form := DraftOf(reply.spec, reply.levers), hasFormIssues := false, mode := FormMode,
              awaitingReview := true, notice := Some(ReviewServices))
    case DiagramParsed =>
      screen.(diagram := Some(reply.diagram), form := DraftOf(reply.spec, reply.levers), hasFormIssues := false,
              mode := DiagramMode, awaitingReview := true, notice := Some(ReviewDiagram))
    case ComparisonCreated(job) =>
      screen.(comparison := Some(Comparison(reply.comparisonId, id)),
              submitted := job.submission,
              history := SaveComparisonHistoryEntry(screen.history, Entry(reply.comparisonId, job.submission)),
              isEditing := false, awaitingReview := false,
              notice := Some(ComparisonReady(job.submission.mode == DiagramMode)))
    case SnapshotMade =>
      screen.(comparison := Some(Comparison(reply.comparisonId, id)), notice := Some(SnapshotCreated))
    case ReportMade(format) => screen.(notice := Some(ReportDownloaded(format)))
    case _ => screen
  }

  /** The active action is over. */
  function Close(s: State, screen: Screen): State {
    s.(inFlight := s.inFlight - {s.active}, busy := None, screen := screen)
  }

  /** The active action gets its answer. */
  function Proceed(s: State, reply: Reply): State
    requires s.active in s.inFlight && Answers(reply, s.inFlight[s.active])
  {
    if reply.Failed? then Close(s, s.screen.(error := Some(CallFailed(reply.message))))
    else
      match s.inFlight[s.active]
      case NwsPrepared(job) => s.(inFlight := s.inFlight[s.active := NwsValidated(job)])
      case NwsValidated(job) => s.(inFlight := s.inFlight[s.active := ComparisonCreated(job)])
      case await => Close(s, Apply(s.screen, s.active, await, reply)).(applied := s.applied + [s.active])
  }

  /** Some action gets its answer; one that is no longer active just ends. */
  function Resume(s: State, id: nat, reply: Reply): State
    requires id in s.inFlight && Answers(reply, s.inFlight[id])
  {
    if id == s.active then Proceed(s, reply) else s.(inFlight := s.inFlight - {id})
  }

  function ClearedScreen(screen: Screen, defaults: Defaults): Screen {
    screen.(form := defaults.homeForm, naturalLanguageInput := defaults.sampleInput, diagramInput := "",
            diagram := None, mode := FormMode, isEditing := false, awaitingReview := false,
            submitted := Submission(defaults.homeForm, FormMode), comparison := None,
            hasFormIssues := false, notice := None, error := None)
  }

  function RestoredScreen(screen: Screen, entry: Entry<Submission>, defaults: Defaults): Screen {
    screen.(form := entry.payload.form, naturalLanguageInput := defaults.sampleInput, diagramInput := "",
            diagram := None, mode := FormMode, isEditing := false, awaitingReview := false,
            submitted := entry.payload, comparison := None,
            hasFormIssues := false, notice := Some(LoadedEntry(entry.comparisonId)), error := None)
  }

  /** cancelAsyncActions, then a new screen with nothing running. */
  function Abandon(s: State, screen: Screen): State {
    s.(active := s.active + 1, busy := None, screen := screen)
  }

  /** An answer comes only to an action in flight, and is one of those its call can give. */
  predicate CanHappen(s: State, event: Event) {
    event.Resumed? ==> event.id in s.inFlight && Answers(event.reply, s.inFlight[event.id])
  }

  ghost function Step(s: State, event: Event): State
    requires CanHappen(s, event)
  {
    match event
    case ParseClicked(seen) => HandleParse(s, seen)
    case ParseDiagramClicked(seen) => HandleParseDiagram(s, seen)
    case CompareClicked(seen) => HandleCompare(s, seen)
    case RefreshClicked(seen) => if seen.comparison == None then s else Start(s, SnapshotMade)
    case ExportClicked(seen, format) => if seen.comparison == None then s else Start(s, ReportMade(format))
    case Resumed(id, reply) => Resume(s, id, reply)
    case Cleared(defaults) => Abandon(s, ClearedScreen(s.screen, defaults))
    case Restored(entry, defaults) => Abandon(s, RestoredScreen(s.screen, entry, defaults))
    case Touched(screen) => s.(screen := screen)
  }

  /** The events can happen one after the other. */
  ghost predicate IsRun(s: State, events: seq<Event>)
    decreases |events|
  {
    events == [] || (CanHappen(s, events[0]) && IsRun(Step(s, events[0]), events[1..]))
  }

  ghost function Run(s: State, events: seq<Event>): State
    requires IsRun(s, events)
    decreases |events|
  {
    if events == [] then s else Run(Step(s, events[0]), events[1..])
  }

  function Initial(screen: Screen): State {
    State(0, map[], None, screen, [])
  }

  // ---- What every run keeps ----------------------------------------------------------------

  predicate Increasing(ids: seq<nat>) {
    forall i, j :: 0 <= i < j < |ids| ==> ids[i] < ids[j]
  }

  ghost predicate IsValidJob(job: Job) {
    IsValidDraft(job.submission.form) && job.nws.form == job.submission.form
  }

  /** A compare in flight was started on a valid form, and sends the spec of that form. */
  ghost predicate IsSubmittable(await: Await) {
    match await
    case NwsPrepared(job) => IsValidJob(job)
    case NwsValidated(job) => IsValidJob(job)
    case ComparisonCreated(job) => IsValidJob(job)
    case _ => true
  }

  ghost predicate Invariant(s: State) {
    && (forall id :: id in s.inFlight ==> id <= s.active && IsSubmittable(s.inFlight[id]))
    && s.busy == (if s.active in s.inFlight then Some(BusyOf(s.inFlight[s.active])) else None)
    && Increasing(s.applied)
    && (forall i :: 0 <= i < |s.applied| ==> s.applied[i] <= s.active && s.applied[i] !in s.inFlight)
  }

  lemma StartKeeps(s: State, await: Await)
    requires Invariant(s) && IsSubmittable(await)
    ensures Invariant(Start(s, await))
  {
    hide IsSubmittable;
  }

  lemma OthersSubmitNothing(format: string)
    ensures IsSubmittable(SnapshotMade) && IsSubmittable(ReportMade(format))
  {
  }

  lemma ScreenDoesNotMatter(s: State, screen: Screen)
    requires Invariant(s)
    ensures Invariant(s.(screen := screen))
  {
    hide IsSubmittable;
  }

  lemma HandlersKeep(s: State, seen: Screen)
    requires Invariant(s)
    ensures Invariant(HandleParse(s, seen)) && Invariant(HandleParseDiagram(s, seen))
    ensures Invariant(HandleCompare(s, seen))
  {
    hide Invariant, Start, Trim, IsValidDraft;
    var marked, unmarked := s.screen.(hasFormIssues := true), s.screen.(hasFormIssues := false);
    StartKeeps(s, TextParsed);
    StartKeeps(s, DiagramParsed);
    ScreenDoesNotMatter(s, HandleParse(s, seen).screen);
    ScreenDoesNotMatter(s, HandleParseDiagram(s, seen).screen);
    ScreenDoesNotMatter(s, Refuse(s.(screen := marked), FormHasIssues).screen);
    ScreenDoesNotMatter(s, unmarked);
    if IsValidDraft(seen.form) {
      StartKeeps(s.(screen := unmarked), NwsPrepared(JobOf(seen)));
    }
  }

  lemma InvariantIsKept(s: State, event: Event)
    requires Invariant(s) && CanHappen(s, event)
    ensures Invariant(Step(s, event))
  {
    hide HandleParse, HandleParseDiagram, HandleCompare, Proceed, ClearedScreen, RestoredScreen, IsSubmittable;
    match event {
      case ParseClicked(seen) => HandlersKeep(s, seen);
      case ParseDiagramClicked(seen) => HandlersKeep(s, seen);
      case CompareClicked(seen) => HandlersKeep(s, seen);
      case RefreshClicked(_) =>
        OthersSubmitNothing("");
        StartKeeps(s, SnapshotMade);
      case ExportClicked(_, format) =>
        OthersSubmitNothing(format);
        StartKeeps(s, ReportMade(format));
      case Resumed(id, reply) =>
        if id == s.active {
          ProceedKeeps(s, reply);
        }
      case _ =>
    }
  }

  lemma ProceedKeeps(s: State, reply: Reply)
    requires Invariant(s) && s.active in s.inFlight && Answers(reply, s.inFlight[s.active])
    ensures Invariant(Proceed(s, reply))
  {
    hide Apply, IsValidDraft;
    if |s.applied| > 0 {
      assert s.applied[|s.applied| - 1] != s.active;
    }
  }

  /** Nothing in flight can act any more. */
  predicate Quiet(s: State) {
    s.active !in s.inFlight
  }

  /** In every run: ids never exceed the counter, applied ids strictly increase, and `busy` is set exactly when
      the action with the current id is in flight, and names its kind. */
  lemma {:induction false} EveryRunIsOrderly(s: State, events: seq<Event>)
    requires Invariant(s) && IsRun(s, events)
    ensures Invariant(Run(s, events))
    ensures s.applied <= Run(s, events).applied
    ensures s.active <= Run(s, events).active
    decreases |events|
  {
    hide Step, CanHappen, Invariant;
    if events != [] {
      InvariantIsKept(s, events[0]);
      StepsOnlyAdd(s, events[0]);
      EveryRunIsOrderly(Step(s, events[0]), events[1..]);
    }
  }

  lemma StepsOnlyAdd(s: State, event: Event)
    requires CanHappen(s, event)
    ensures s.applied <= Step(s, event).applied && s.active <= Step(s, event).active
  {
    hide Trim, Apply, ClearedScreen, RestoredScreen, SubmissionOf, IsValidDraft;
  }

  /** Only the active action can change anything a user sees, and a result applied is that of the active action. */
  lemma OnlyActiveActs(s: State, id: nat, reply: Reply)
    requires CanHappen(s, Resumed(id, reply))
    ensures var t := Step(s, Resumed(id, reply));
            && (id != s.active ==> t.screen == s.screen && t.busy == s.busy && t.applied == s.applied)
            && (t.applied != s.applied ==> t.applied == s.applied + [s.active] && id == s.active)
            && t.active == s.active
  {
    hide Apply;
  }

  /** The results on the screen, which handlers leave alone. */
  ghost predicate SameResults(before: Screen, after: Screen) {
    before.form == after.form && before.comparison == after.comparison && before.history == after.history
  }

  lemma HandlersLeaveResults(s: State, seen: Screen)
    ensures SameResults(s.screen, HandleParse(s, seen).screen)
    ensures SameResults(s.screen, HandleParseDiagram(s, seen).screen)
    ensures SameResults(s.screen, HandleCompare(s, seen).screen)
  {
    hide Trim, SubmissionOf, IsValidDraft;
  }

  lemma ProceedChanges(s: State, reply: Reply)
    requires s.active in s.inFlight && Answers(reply, s.inFlight[s.active])
    ensures var before, after := s.screen, Proceed(s, reply).screen;
            && (after.form != before.form ==>
                  (reply.Parsed? || reply.ParsedDiagram?) && after.form == DraftOf(reply.spec, reply.levers))
            && (after.comparison != before.comparison ==>
                  reply.Priced? && after.comparison == Some(Comparison(reply.comparisonId, s.active)))
            && (after.history != before.history ==> s.inFlight[s.active].ComparisonCreated?)
  {
    hide SaveComparisonHistoryEntry;
  }

  /** Who can change what: a form only a parse that ended as the current action, Clear, Restore or the user; a
      comparison only a compare or refresh that did so, which stamps it with its id, or those three; the history
      only a compare or the user. */
  lemma WhoChangesWhat(s: State, event: Event)
    requires CanHappen(s, event) && !event.Touched? && !event.Cleared? && !event.Restored?
    ensures var before, after := s.screen, Step(s, event).screen;
            && (after.form != before.form ==>
                  && event.Resumed? && event.id == s.active
                  && (event.reply.Parsed? || event.reply.ParsedDiagram?)
                  && after.form == DraftOf(event.reply.spec, event.reply.levers))
            && (after.comparison != before.comparison ==>
                  && event.Resumed? && event.id == s.active && event.reply.Priced?
                  && after.comparison == Some(Comparison(event.reply.comparisonId, s.active)))
            && (after.history != before.history ==>
                  event.Resumed? && event.id == s.active && s.inFlight[s.active].ComparisonCreated?)
  {
    hide HandleParse, HandleParseDiagram, HandleCompare, Proceed, Answers, ClearedScreen, RestoredScreen;
    match event {
      case ParseClicked(seen) => HandlersLeaveResults(s, seen);
      case ParseDiagramClicked(seen) => HandlersLeaveResults(s, seen);
      case CompareClicked(seen) => HandlersLeaveResults(s, seen);
      case Resumed(id, reply) =>
        if id == s.active {
          ProceedChanges(s, reply);
        }
      case _ =>
    }
  }

  // ---- The latest action wins --------------------------------------------------------------

  /** A machine that can wait for one thing only: starting an action forgets the previous one. */
  datatype Slot = Slot(next: nat, waiting: Option<Await>, screen: Screen, applied: seq<nat>)

  function SlotOf(s: State): Slot {
    Slot(s.active, if s.active in s.inFlight then Some(s.inFlight[s.active]) else None, s.screen, s.applied)
  }

  /** The one-slot machine is the same program run with nothing but the slot in flight. */
  function AsState(slot: Slot): State {
    State(slot.next,
          if slot.waiting.Some? then map[slot.next := slot.waiting.value] else map[],
          if slot.waiting.Some? then Some(BusyOf(slot.waiting.value)) else None,
          slot.screen, slot.applied)
  }

  /** An answer to an action that is no longer active. */
  predicate IsStale(s: State, event: Event) {
    event.Resumed? && event.id != s.active
  }

  ghost function SlotStep(slot: Slot, event: Event): Slot
    requires CanHappen(AsState(slot), event)
  {
    SlotOf(Step(AsState(slot), event))
  }

  ghost predicate IsSlotRun(slot: Slot, events: seq<Event>)
    decreases |events|
  {
    events == [] || (CanHappen(AsState(slot), events[0]) && IsSlotRun(SlotStep(slot, events[0]), events[1..]))
  }

  ghost function SlotRun(slot: Slot, events: seq<Event>): Slot
    requires IsSlotRun(slot, events)
    decreases |events|
  {
    if events == [] then slot else SlotRun(SlotStep(slot, events[0]), events[1..])
  }

  /** The events of a run without the answers that came too late. */
  ghost function WithoutStale(s: State, events: seq<Event>): seq<Event>
    requires IsRun(s, events)
    decreases |events|
  {
    if events == [] then []
    else (if IsStale(s, events[0]) then [] else [events[0]]) + WithoutStale(Step(s, events[0]), events[1..])
  }

  lemma StaleIsInvisible(s: State, event: Event)
    requires CanHappen(s, event) && IsStale(s, event)
    ensures SlotOf(Step(s, event)) == SlotOf(s)
  {
  }

  lemma StartLooksTheSame(s: State, t: State, await: Await)
    requires s.active == t.active && s.screen == t.screen && s.applied == t.applied
    ensures SlotOf(Start(s, await)) == SlotOf(Start(t, await))
  {
  }

  lemma ProceedLooksTheSame(s: State, reply: Reply)
    requires s.active in s.inFlight && Answers(reply, s.inFlight[s.active])
    ensures SlotOf(Proceed(AsState(SlotOf(s)), reply)) == SlotOf(Proceed(s, reply))
  {
    hide Apply, Answers;
  }

  lemma HandlersLookTheSame(s: State, t: State, seen: Screen)
    requires t == AsState(SlotOf(s))
    ensures SlotOf(HandleParse(s, seen)) == SlotOf(HandleParse(t, seen))
    ensures SlotOf(HandleParseDiagram(s, seen)) == SlotOf(HandleParseDiagram(t, seen))
    ensures SlotOf(HandleCompare(s, seen)) == SlotOf(HandleCompare(t, seen))
  {
    hide Trim, JobOf, Start, IsValidDraft;
    StartLooksTheSame(s, t, TextParsed);
    StartLooksTheSame(s, t, DiagramParsed);
    var screen := s.screen.(hasFormIssues := false);
    StartLooksTheSame(s.(screen := screen), t.(screen := screen), NwsPrepared(JobOf(seen)));
  }

  lemma FreshLooksTheSame(s: State, event: Event)
    requires Invariant(s) && CanHappen(s, event) && !IsStale(s, event)
    ensures CanHappen(AsState(SlotOf(s)), event)
    ensures SlotStep(SlotOf(s), event) == SlotOf(Step(s, event))
  {
    hide Apply, ClearedScreen, RestoredScreen, Start, Proceed, HandleParse, HandleParseDiagram, HandleCompare, Answers;
    var t := AsState(SlotOf(s));
    match event {
      case ParseClicked(seen) => HandlersLookTheSame(s, t, seen);
      case ParseDiagramClicked(seen) => HandlersLookTheSame(s, t, seen);
      case CompareClicked(seen) => HandlersLookTheSame(s, t, seen);
      case RefreshClicked(_) => StartLooksTheSame(s, t, SnapshotMade);
      case ExportClicked(_, format) => StartLooksTheSame(s, t, ReportMade(format));
      case Resumed(_, reply) => ProceedLooksTheSame(s, reply);
      case _ =>
    }
  }

  /** Any number of overlapping actions behaves like the one-slot machine on the run without stale answers:
      whatever the interleaving, only the latest action counts. */
  lemma {:induction false} LatestWins(s: State, events: seq<Event>)
    requires Invariant(s) && IsRun(s, events)
    ensures IsSlotRun(SlotOf(s), WithoutStale(s, events))
    ensures SlotRun(SlotOf(s), WithoutStale(s, events)) == SlotOf(Run(s, events))
    decreases |events|
  {
    hide Step, CanHappen, Invariant, SlotOf, AsState, SlotStep, IsStale;
    if events != [] {
      var event, rest := events[0], events[1..];
      InvariantIsKept(s, event);
      LatestWins(Step(s, event), rest);
      if IsStale(s, event) {
        StaleIsInvisible(s, event);
        assert WithoutStale(s, events) == WithoutStale(Step(s, event), rest);
      } else {
        FreshLooksTheSame(s, event);
        assert WithoutStale(s, events)[0] == event;
        assert WithoutStale(s, events)[1..] == WithoutStale(Step(s, event), rest);
      }
    }
  }

  // ---- Clear and Restore -------------------------------------------------------------------

  predicate OnlyAnswers(events: seq<Event>) {
    forall i :: 0 <= i < |events| ==> events[i].Resumed?
  }

  /** However the actions in flight then end, a quiet screen stays as it is. */
  lemma {:induction false} QuietStaysAsItIs(s: State, events: seq<Event>)
    requires Quiet(s) && IsRun(s, events) && OnlyAnswers(events)
    ensures Run(s, events).screen == s.screen && Run(s, events).busy == s.busy && Run(s, events).applied == s.applied
    decreases |events|
  {
    if events != [] {
      QuietStaysAsItIs(Step(s, events[0]), events[1..]);
    }
  }

  /** After Clear or Restore, no earlier action changes form, comparison, notice, error or anything else. */
  lemma AbandonedActionsAreSilent(s: State, event: Event, events: seq<Event>)
    requires Invariant(s) && (event.Cleared? || event.Restored?)
    requires IsRun(Step(s, event), events) && OnlyAnswers(events)
    ensures Run(Step(s, event), events).screen == Step(s, event).screen
    ensures Run(Step(s, event), events).busy == None
  {
    hide ClearedScreen, RestoredScreen;
    QuietStaysAsItIs(Step(s, event), events);
  }

  /** Nor does it change anything later, whatever the user starts in the meantime: for good, an action in flight
      when Clear or Restore came can only end. */
  lemma AbandonedForGood(s: State, event: Event, events: seq<Event>, id: nat, reply: Reply)
    requires Invariant(s) && (event.Cleared? || event.Restored?) && id in s.inFlight
    requires IsRun(Step(s, event), events) && CanHappen(Run(Step(s, event), events), Resumed(id, reply))
    ensures var before := Run(Step(s, event), events);
            var after := Step(before, Resumed(id, reply));
            && after.screen == before.screen && after.busy == before.busy && after.applied == before.applied
            && id !in after.inFlight
  {
    hide ClearedScreen, RestoredScreen, Run, IsRun;
    InvariantIsKept(s, event);
    EveryRunIsOrderly(Step(s, event), events);
  }

  // ---- The page ----------------------------------------------------------------------------

  class App {
    var activeAsyncActionId: nat
    var busyAction: Option<Busy>
    var screen: Screen
    var inFlight: map<nat, Await>
    ghost var applied: seq<nat>

    ghost function Model(): State
      reads this
    {
      State(activeAsyncActionId, inFlight, busyAction, screen, applied)
    }

    constructor (screen: Screen)
      ensures Model() == Initial(screen) && Invariant(Model())
    {
      activeAsyncActionId, inFlight, busyAction, applied := 0, map[], None, [];
      this.screen := screen;
    }

    method SetError(error: Option<Problem>)
      modifies this`screen
      ensures screen == old(screen).(error := error)
    {
      screen := screen.(error := error);
    }

    method SetNotice(notice: Option<Notice>)
      modifies this`screen
      ensures screen == old(screen).(notice := notice)
    {
      screen := screen.(notice := notice);
    }

    method StartAsyncAction() returns (id: nat)
      modifies this`activeAsyncActionId
      ensures id == activeAsyncActionId == old(activeAsyncActionId) + 1
    {
      activeAsyncActionId := activeAsyncActionId + 1;
      id := activeAsyncActionId;
    }

    method CancelAsyncActions()
      modifies this`activeAsyncActionId
      ensures activeAsyncActionId == old(activeAsyncActionId) + 1
    {
      activeAsyncActionId := activeAsyncActionId + 1;
    }

    predicate IsCurrentAsyncAction(id: nat)
      reads this
    {
      activeAsyncActionId == id
    }

    /** The part every action begins with, up to its first `await`. */
    method Begin(await: Await)
      modifies this
      ensures Model() == Start(old(Model()), await)
    {
      var id := StartAsyncAction();
      SetError(None);
      SetNotice(None);
      busyAction := Some(BusyOf(await));
      inFlight := inFlight[id := await];
    }

    method ParseText(seen: Screen)
      modifies this
      ensures Model() == HandleParse(old(Model()), seen)
    {
      if Trim(seen.naturalLanguageInput) == "" {
        SetError(Some(NothingToParse));
        SetNotice(None);
        return;
      }
      Begin(TextParsed);
    }

    method ParseDiagram(seen: Screen)
      modifies this
      ensures Model() == HandleParseDiagram(old(Model()), seen)
    {
      if Trim(seen.diagramInput) == "" {
        SetError(Some(NoDiagram));
        SetNotice(None);
        return;
      }
      Begin(DiagramParsed);
    }

    method Submit(seen: Screen)
      modifies this
      ensures Model() == HandleCompare(old(Model()), seen)
    {
      if seen.mode == DescribeMode {
        ParseText(seen);
        return;
      }
      if seen.mode == DiagramMode && seen.diagram.None? {
        ParseDiagram(seen);
        return;
      }
      var validationIssues := Validator.ValidateWorkloadForm(seen.form.content);
      if |validationIssues| > 0 {
        screen := screen.(hasFormIssues := true);
        SetError(Some(FormHasIssues));
        SetNotice(None);
        return;
      }
      screen := screen.(hasFormIssues := false);
      Begin(NwsPrepared(JobOf(seen)));
    }

    method RefreshLive(seen: Screen)
      modifies this
      ensures Model() == Step(old(Model()), RefreshClicked(seen))
    {
      if seen.comparison == None {
        return;
      }
      Begin(SnapshotMade);
    }

    method ExportReport(seen: Screen, format: string)
      modifies this
      ensures Model() == Step(old(Model()), ExportClicked(seen, format))
    {
      if seen.comparison == None {
        return;
      }
      Begin(ReportMade(format));
    }

    /** What follows an `await`: the check of the id, the next call or the result, the catch and the finally. */
    method Continue(id: nat, reply: Reply)
      requires CanHappen(Model(), Resumed(id, reply))
      modifies this
      ensures Model() == Step(old(Model()), Resumed(id, reply))
    {
      var await := inFlight[id];
      inFlight := inFlight - {id};
      if reply.Failed? {
        if IsCurrentAsyncAction(id) {
          SetError(Some(CallFailed(reply.message)));
        }
      } else {
        if !IsCurrentAsyncAction(id) {
          return;
        }
        match await {
          case NwsPrepared(job) =>
            inFlight := inFlight[id := NwsValidated(job)];
            assert inFlight == old(inFlight)[id := NwsValidated(job)];
            return;
          case NwsValidated(job) =>
            inFlight := inFlight[id := ComparisonCreated(job)];
            assert inFlight == old(inFlight)[id := ComparisonCreated(job)];
            return;
          case _ =>
            screen := Apply(screen, id, await, reply);
            applied := applied + [id];
        }
      }
      if IsCurrentAsyncAction(id) {
        busyAction := None;
      }
    }

    method ClearComparison(defaults: Defaults)
      modifies this
      ensures Model() == Step(old(Model()), Cleared(defaults))
    {
      CancelAsyncActions();
      screen := screen.(form := defaults.homeForm, awaitingReview := false);
      screen := screen.(submitted := Submission(defaults.homeForm, FormMode), mode := FormMode);
      screen := screen.(naturalLanguageInput := defaults.sampleInput, diagramInput := "", diagram := None);
      screen := screen.(comparison := None, isEditing := false);
      busyAction := None;
      SetNotice(None);
      SetError(None);
      screen := screen.(hasFormIssues := false);
    }

    method RestoreComparisonHistory(entry: Entry<Submission>, defaults: Defaults)
      modifies this
      ensures Model() == Step(old(Model()), Restored(entry, defaults))
    {
      CancelAsyncActions();
      screen := screen.(form := entry.payload.form, submitted := entry.payload, mode := FormMode);
      screen := screen.(naturalLanguageInput := defaults.sampleInput, diagramInput := "", diagram := None);
      screen := screen.(comparison := None, isEditing := false, awaitingReview := false);
      busyAction := None;
      screen := screen.(hasFormIssues := false);
      SetError(None);
      SetNotice(Some(LoadedEntry(entry.comparisonId)));
    }
  }
}
