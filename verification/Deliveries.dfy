/**
 What a click starts and what its answer brings, for every action of the page, and what Clear and Restore leave
 (apps/web/src/App.tsx).
 */
module Deliveries {
  import opened Wrappers
  import opened Text
  import opened History
  import opened AsyncActions
  import opened CompareRuns
  import DiagramReview
  import Workload
  import ApiSchema
  import Validity

  // ---- What a click starts -----------------------------------------------------------------

  /** A click of the user on one of the five buttons. */
  predicate IsClick(event: Event) {
    || event.ParseClicked? || event.ParseDiagramClicked? || event.CompareClicked? || event.RefreshClicked?
    || event.ExportClicked?
  }

  /** What the click asks for is there, and the form is valid where it is compared. */
  ghost predicate HasInput(event: Event)
    requires IsClick(event)
  {
    match event
    case ParseClicked(seen) => Trim(seen.naturalLanguageInput) != ""
    case ParseDiagramClicked(seen) => Trim(seen.diagramInput) != ""
    case CompareClicked(seen) =>
      if seen.mode == DescribeMode then Trim(seen.naturalLanguageInput) != ""
      else if seen.mode == DiagramMode && seen.diagram.None? then Trim(seen.diagramInput) != ""
      else IsValidDraft(seen.form)
    case RefreshClicked(seen) => seen.comparison.Some?
    case ExportClicked(seen, _) => seen.comparison.Some?
  }

  /** A click starts an action exactly if its input is there; otherwise nothing is started or stopped, and the screen
      changes in its error, its notice and its form issues at most. */
  lemma ClickStartsExactly(s: State, event: Event)
    requires IsClick(event)
    ensures var after := Step(s, event);
            && (HasInput(event) ==>
                  && after.active == s.active + 1 && after.active in after.inFlight
                  && after.busy == Some(BusyOf(after.inFlight[after.active]))
                  && after.screen.error == None && after.screen.notice == None)
            && (!HasInput(event) ==>
                  && after == s.(screen := after.screen)
                  && after.screen == s.screen.(error := after.screen.error, notice := after.screen.notice,
                                               hasFormIssues := after.screen.hasFormIssues))
  {
    hide Trim, IsValidDraft, JobOf;
  }

  /** A refused compare says why: nothing to parse, no diagram, or issues of the form, which are then marked. */
  lemma RefusalIsTold(s: State, seen: Screen)
    requires !HasInput(CompareClicked(seen))
    ensures var screen := Step(s, CompareClicked(seen)).screen;
            && screen.notice == None
            && (seen.mode == DescribeMode ==> screen.error == Some(NothingToParse))
            && (seen.mode == DiagramMode && seen.diagram.None? ==> screen.error == Some(NoDiagram))
            && (seen.mode == FormMode || (seen.mode == DiagramMode && seen.diagram.Some?) ==>
                  screen.error == Some(FormHasIssues) && screen.hasFormIssues)
  {
    hide Trim, IsValidDraft, JobOf;
  }

  // ---- What an answer brings ---------------------------------------------------------------

  /** In every run that neither supersedes nor answers it, an action waits for what it waited for. */
  lemma StillWaiting(s: State, events: seq<Event>)
    requires Invariant(s) && s.active in s.inFlight
    requires IsRun(s, events) && Run(s, events).active == s.active && AnswersTo(s.active, events) == []
    ensures var before := Run(s, events);
            && s.active in before.inFlight && before.inFlight[s.active] == s.inFlight[s.active]
            && before.busy == Some(BusyOf(s.inFlight[s.active]))
            && before.applied == s.applied && Invariant(before)
  {
    hide Run, IsRun, Invariant, AnswersTo;
    ActionCarriesOn(s, events);
    EveryRunIsOrderly(s, events);
    BusyIsWaiting(Run(s, events));
  }

  /** The events after a click in which its action is neither superseded nor answered. */
  ghost predicate IsUndisturbed(s: State, click: Event, events: seq<Event>)
    requires IsClick(click)
  {
    && IsRun(Step(s, click), events)
    && Run(Step(s, click), events).active == s.active + 1
    && AnswersTo(s.active + 1, events) == []
  }

  /** From a click on Parse to its result, in every run that does not supersede it: the spec that comes is read into the
      form and shown for review in form mode, without issues; the rest of the screen is as the user has it by then, and
      the page is free. */
  lemma ParseDelivers(s: State, seen: Screen, events: seq<Event>, spec: Workload.Nws, levers: Levers)
    requires Invariant(s) && Trim(seen.naturalLanguageInput) != "" && IsUndisturbed(s, ParseClicked(seen), events)
    ensures var id, before := s.active + 1, Run(Step(s, ParseClicked(seen)), events);
            && before.busy == Some(Parse)
            && CanHappen(before, Resumed(id, Parsed(spec, levers)))
            && var after := Step(before, Resumed(id, Parsed(spec, levers)));
               && after.screen == before.screen.(
                    form := Draft(levers, Workload.FormFromNws(spec)),
                    mode := FormMode, awaitingReview := true, hasFormIssues := false, notice := Some(ReviewServices))
               && after.busy == None && Quiet(after) && after.applied == s.applied + [id]
  {
    hide Invariant, Run, IsRun, AnswersTo, Workload.FormFromNws;
    InvariantIsKept(s, ParseClicked(seen));
    StillWaiting(Step(s, ParseClicked(seen)), events);
  }

  /** The same for a diagram, whose services are then under review too. */
  lemma DiagramParseDelivers(
    s: State, seen: Screen, events: seq<Event>, spec: Workload.Nws, levers: Levers, diagram: DiagramReview.ParseResult)
    requires Invariant(s) && Trim(seen.diagramInput) != "" && IsUndisturbed(s, ParseDiagramClicked(seen), events)
    ensures var id, before := s.active + 1, Run(Step(s, ParseDiagramClicked(seen)), events);
            && before.busy == Some(Parse)
            && CanHappen(before, Resumed(id, ParsedDiagram(spec, levers, diagram)))
            && var after := Step(before, Resumed(id, ParsedDiagram(spec, levers, diagram)));
               && after.screen == before.screen.(
                    diagram := Some(diagram), form := Draft(levers, Workload.FormFromNws(spec)),
                    mode := DiagramMode, awaitingReview := true, hasFormIssues := false, notice := Some(ReviewDiagram))
               && after.busy == None && Quiet(after) && after.applied == s.applied + [id]
  {
    hide Invariant, Run, IsRun, AnswersTo, Workload.FormFromNws;
    InvariantIsKept(s, ParseDiagramClicked(seen));
    StillWaiting(Step(s, ParseDiagramClicked(seen)), events);
  }

  /** A refresh puts the new comparison on screen under its own id; form, submission and history stay. */
  lemma RefreshDelivers(s: State, seen: Screen, events: seq<Event>, comparisonId: string)
    requires Invariant(s) && seen.comparison.Some? && IsUndisturbed(s, RefreshClicked(seen), events)
    ensures var id, before := s.active + 1, Run(Step(s, RefreshClicked(seen)), events);
            && before.busy == Some(Refresh)
            && CanHappen(before, Resumed(id, Priced(comparisonId)))
            && var after := Step(before, Resumed(id, Priced(comparisonId)));
               && after.screen == before.screen.(
                    comparison := Some(Comparison(comparisonId, id)), notice := Some(SnapshotCreated))
               && after.busy == None && Quiet(after) && after.applied == s.applied + [id]
  {
    hide Invariant, Run, IsRun, AnswersTo;
    InvariantIsKept(s, RefreshClicked(seen));
    StillWaiting(Step(s, RefreshClicked(seen)), events);
  }

  /** An export changes the notice only. */
  lemma ExportDelivers(s: State, seen: Screen, format: string, events: seq<Event>)
    requires Invariant(s) && seen.comparison.Some? && IsUndisturbed(s, ExportClicked(seen, format), events)
    ensures var id, before := s.active + 1, Run(Step(s, ExportClicked(seen, format)), events);
            && before.busy == Some(Export)
            && CanHappen(before, Resumed(id, Went))
            && var after := Step(before, Resumed(id, Went));
               && after.screen == before.screen.(notice := Some(ReportDownloaded(format)))
               && after.busy == None && Quiet(after) && after.applied == s.applied + [id]
  {
    hide Invariant, Run, IsRun, AnswersTo;
    InvariantIsKept(s, ExportClicked(seen, format));
    StillWaiting(Step(s, ExportClicked(seen, format)), events);
  }

  // ---- What is sent ------------------------------------------------------------------------

  /** The job of a compare, at whichever of its awaits. */
  function JobIn(await: Await): Option<Job> {
    match await
    case NwsPrepared(job) => Some(job)
    case NwsValidated(job) => Some(job)
    case ComparisonCreated(job) => Some(job)
    case _ => None
  }

  /** In every run of the page, the spec that a compare in flight sends is one that the API accepts, exactly if the
      form is within the API's limits. In diagram mode this is the spec without the reviewed
      requirements. */
  lemma SentIsAccepted(screen: Screen, events: seq<Event>, id: nat, job: Job)
    requires IsRun(Initial(screen), events)
    requires id in Run(Initial(screen), events).inFlight
    requires JobIn(Run(Initial(screen), events).inFlight[id]) == Some(job)
    ensures ApiSchema.Accepts(Workload.BuildNwsFromForm(job.nws.form.content)) <==>
            ApiSchema.IsWithinLimits(job.nws.form.content)
    ensures job.nws.form == job.submission.form
  {
    hide Run, IsRun, ApiSchema.Accepts, ApiSchema.IsWithinLimits, Workload.BuildNwsFromForm, Validity.IsValid;
    assert Invariant(Initial(screen));
    EveryRunIsOrderly(Initial(screen), events);
    ApiSchema.ValidFormIsAccepted(job.nws.form.content);
  }

  // ---- Clear and Restore -------------------------------------------------------------------

  /** Clear forgets everything but the history: two pages with the same history look the same afterwards. What is left
      is the home form in form mode, with no comparison to refresh or export, and with nothing running. */
  lemma ClearForgets(s: State, t: State, defaults: Defaults)
    requires s.screen.history == t.screen.history
    ensures Step(s, Cleared(defaults)).screen == Step(t, Cleared(defaults)).screen
    ensures var after := Step(s, Cleared(defaults));
            var screen := after.screen;
            && screen.history == s.screen.history
            && screen.form == defaults.homeForm && screen.mode == FormMode && screen.comparison == None
            && screen.naturalLanguageInput == defaults.sampleInput && screen.diagramInput == ""
            && screen.diagram == None
            && !screen.isEditing && !screen.awaitingReview && !screen.hasFormIssues
            && screen.error == None && screen.notice == None
            && !HasInput(RefreshClicked(screen))
            && screen.submitted == SubmissionOf(screen)
            && after.busy == None && after.active == s.active + 1
  {
    hide IsValidDraft, Trim;
  }

  /** Restore forgets everything but the history and the entry; the entry's form is on screen, ready to be compared
      again. */
  lemma RestoreForgets(s: State, t: State, entry: Entry<Submission>, defaults: Defaults)
    requires s.screen.history == t.screen.history
    ensures Step(s, Restored(entry, defaults)).screen == Step(t, Restored(entry, defaults)).screen
    ensures var after := Step(s, Restored(entry, defaults));
            var screen := after.screen;
            && screen.history == s.screen.history
            && screen.form == entry.payload.form && screen.submitted == entry.payload
            && screen.mode == FormMode && screen.comparison == None
            && screen.naturalLanguageInput == defaults.sampleInput && screen.diagramInput == ""
            && screen.diagram == None
            && !screen.isEditing && !screen.awaitingReview && !screen.hasFormIssues
            && screen.error == None && screen.notice == Some(LoadedEntry(entry.comparisonId))
            && !HasInput(RefreshClicked(screen))
            && (HasInput(CompareClicked(screen)) <==> IsValidDraft(entry.payload.form))
            && after.busy == None && after.active == s.active + 1
  {
    hide IsValidDraft, Trim;
  }
}
