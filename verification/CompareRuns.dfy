/**
 What becomes of a compare over a whole run of the page, and of the history of comparisons (apps/web/src/App.tsx).
 */
module CompareRuns {
  import opened Wrappers
  import opened History
  import opened AsyncActions
  import DiagramReview

  // ---- An action in its run ----------------------------------------------------------------

  /** The answers an action gets in a run. */
  function AnswersTo(id: nat, events: seq<Event>): seq<Reply> {
    if events == [] then []
    else if events[0].Resumed? && events[0].id == id then [events[0].reply] + AnswersTo(id, events[1..])
    else AnswersTo(id, events[1..])
  }

  function NextAwait(await: Await, reply: Reply): Option<Await> {
    if reply.Failed? then None
    else
      match await
      case NwsPrepared(job) => Some(NwsValidated(job))
      case NwsValidated(job) => Some(ComparisonCreated(job))
      case _ => None
  }

  /** What an action still waits for after some answers. */
  function Waiting(await: Option<Await>, answers: seq<Reply>): Option<Await>
    decreases |answers|
  {
    if answers == [] || await.None? then await else Waiting(NextAwait(await.value, answers[0]), answers[1..])
  }

  /** The answers bring the action to its result. */
  predicate Delivers(await: Option<Await>, answers: seq<Reply>)
    decreases |answers|
  {
    answers != [] && await.Some? &&
      var next := NextAwait(await.value, answers[0]);
      if next.None? then !answers[0].Failed? else Delivers(next, answers[1..])
  }

  lemma OneStepOn(s: State, event: Event)
    requires Invariant(s) && CanHappen(s, event) && Step(s, event).active == s.active
    ensures var before, after := SlotOf(s).waiting, SlotOf(Step(s, event)).waiting;
            if event.Resumed? && event.id == s.active then
              && before.Some? && after == NextAwait(before.value, event.reply)
              && Step(s, event).applied ==
                 s.applied + if after.None? && !event.reply.Failed? then [s.active] else []
            else after == before && Step(s, event).applied == s.applied
  {
    hide Apply, HandleParse, HandleParseDiagram, HandleCompare, ClearedScreen, RestoredScreen, IsSubmittable;
    match event {
      case ParseClicked(seen) => HandlersRefuse(s, seen);
      case ParseDiagramClicked(seen) => HandlersRefuse(s, seen);
      case CompareClicked(seen) => HandlersRefuse(s, seen);
      case _ =>
    }
  }

  /** A handler that starts nothing leaves everything in flight alone. */
  lemma HandlersRefuse(s: State, seen: Screen)
    ensures HandleParse(s, seen).active == s.active ==>
              HandleParse(s, seen) == s.(screen := HandleParse(s, seen).screen)
    ensures HandleParseDiagram(s, seen).active == s.active ==>
              HandleParseDiagram(s, seen) == s.(screen := HandleParseDiagram(s, seen).screen)
    ensures HandleCompare(s, seen).active == s.active ==>
              HandleCompare(s, seen) == s.(screen := HandleCompare(s, seen).screen)
  {
    hide IsValidDraft, JobOf;
  }

  /** As long as nothing supersedes it, an action moves with its own answers only, whatever else happens: other answers,
      refused clicks and edits in any number and order. */
  lemma {:induction false} ActionCarriesOn(s: State, events: seq<Event>)
    requires Invariant(s) && IsRun(s, events) && Run(s, events).active == s.active
    ensures SlotOf(Run(s, events)).waiting == Waiting(SlotOf(s).waiting, AnswersTo(s.active, events))
    ensures Run(s, events).applied ==
            s.applied + if Delivers(SlotOf(s).waiting, AnswersTo(s.active, events)) then [s.active] else []
    decreases |events|
  {
    hide Step, CanHappen, Invariant, SlotOf, NextAwait;
    if events != [] {
      var next := Step(s, events[0]);
      InvariantIsKept(s, events[0]);
      StepsOnlyAdd(s, events[0]);
      EveryRunIsOrderly(next, events[1..]);
      OneStepOn(s, events[0]);
      ActionCarriesOn(next, events[1..]);
      if events[0].Resumed? && events[0].id == s.active {
        assert AnswersTo(s.active, events)[1..] == AnswersTo(s.active, events[1..]);
        NothingLeft(AnswersTo(s.active, events[1..]));
      }
    }
  }

  lemma NothingLeft(answers: seq<Reply>)
    ensures Waiting(None, answers) == None && !Delivers(None, answers)
  {
  }

  lemma {:induction false} WaitingIsNotDelivered(await: Option<Await>, answers: seq<Reply>)
    requires Waiting(await, answers).Some?
    ensures !Delivers(await, answers)
    decreases |answers|
  {
    if answers != [] && await.Some? {
      NothingLeft(answers[1..]);
      WaitingIsNotDelivered(NextAwait(await.value, answers[0]), answers[1..]);
    }
  }

  /** An action that fails, at whichever of its awaits and after any run that did not supersede it, has applied nothing;
      the failure frees the page and reports itself, and changes nothing else on the screen. */
  lemma ActionFails(s: State, events: seq<Event>, message: string)
    requires Invariant(s) && IsRun(s, events) && Run(s, events).active == s.active
    requires CanHappen(Run(s, events), Resumed(s.active, Failed(message)))
    ensures var before := Run(s, events);
            var after := Step(before, Resumed(s.active, Failed(message)));
            && after.screen == before.screen.(error := Some(CallFailed(message)))
            && after.applied == s.applied
            && after.busy == None && Quiet(after)
  {
    hide Invariant, Run, IsRun, Waiting, Delivers;
    ActionCarriesOn(s, events);
    WaitingIsNotDelivered(SlotOf(s).waiting, AnswersTo(s.active, events));
  }

  // ---- A compare from click to result ------------------------------------------------------

  ghost function Clicked(s: State, seen: Screen): State {
    Step(s, CompareClicked(seen))
  }

  lemma ClickStarts(s: State, seen: Screen)
    requires Invariant(s) && ComparesForm(seen) && IsValidDraft(seen.form)
    ensures Clicked(s, seen).active == s.active + 1 && Invariant(Clicked(s, seen))
    ensures SlotOf(Clicked(s, seen)).waiting == Some(NwsPrepared(JobOf(seen)))
    ensures Clicked(s, seen).applied == s.applied
  {
    hide Invariant, IsValidDraft, JobOf;
    InvariantIsKept(s, CompareClicked(seen));
  }

  /** In every run after the click in which nothing supersedes it, a compare carries what was seen at the click, from
      await to await; while it waits the page is busy comparing, and afterwards it is free. */
  lemma CompareCarriesOn(s: State, seen: Screen, events: seq<Event>)
    requires Invariant(s) && ComparesForm(seen) && IsValidDraft(seen.form)
    requires IsRun(Clicked(s, seen), events) && Run(Clicked(s, seen), events).active == s.active + 1
    ensures var waiting := SlotOf(Run(Clicked(s, seen), events)).waiting;
            var answers := AnswersTo(s.active + 1, events);
            && (answers == [] ==> waiting == Some(NwsPrepared(JobOf(seen))))
            && (answers == [Went] ==> waiting == Some(NwsValidated(JobOf(seen))))
            && (answers == [Went, Went] ==> waiting == Some(ComparisonCreated(JobOf(seen))))
            && Run(Clicked(s, seen), events).busy == (if waiting.Some? then Some(Compare) else None)
            && (waiting.Some? ==> answers == [] || answers == [Went] || answers == [Went, Went])
  {
    hide Invariant, IsValidDraft, JobOf, Run, IsRun, SlotOf, Clicked;
    ClickStarts(s, seen);
    ActionCarriesOn(Clicked(s, seen), events);
    EveryRunIsOrderly(Clicked(s, seen), events);
    AnswersFit(Clicked(s, seen), events);
    BusyIsWaiting(Run(Clicked(s, seen), events));
    WaitingOfCompare(JobOf(seen), AnswersTo(s.active + 1, events));
  }

  lemma BusyIsWaiting(s: State)
    requires Invariant(s)
    ensures s.busy == if SlotOf(s).waiting.Some? then Some(BusyOf(SlotOf(s).waiting.value)) else None
  {
  }

  /** Answers that an await can get, one after the other. */
  predicate Fit(await: Option<Await>, answers: seq<Reply>)
    decreases |answers|
  {
    answers == [] ||
      (await.Some? && Answers(answers[0], await.value) && Fit(NextAwait(await.value, answers[0]), answers[1..]))
  }

  lemma {:induction false} AnswersFit(s: State, events: seq<Event>)
    requires Invariant(s) && IsRun(s, events) && Run(s, events).active == s.active
    ensures Fit(SlotOf(s).waiting, AnswersTo(s.active, events))
    decreases |events|
  {
    hide Step, Invariant, NextAwait, Answers;
    if events != [] {
      var next := Step(s, events[0]);
      InvariantIsKept(s, events[0]);
      StepsOnlyAdd(s, events[0]);
      EveryRunIsOrderly(next, events[1..]);
      OneStepOn(s, events[0]);
      AnswersFit(next, events[1..]);
      if events[0].Resumed? && events[0].id == s.active {
        assert AnswersTo(s.active, events)[1..] == AnswersTo(s.active, events[1..]);
      }
    }
  }

  lemma WaitingForComparison(job: Job, answers: seq<Reply>)
    requires Fit(Some(ComparisonCreated(job)), answers)
    ensures |answers| <= 1
    ensures Waiting(Some(ComparisonCreated(job)), answers) ==
            if answers == [] then Some(ComparisonCreated(job)) else None
  {
  }

  lemma WaitingForValidation(job: Job, answers: seq<Reply>)
    requires Fit(Some(NwsValidated(job)), answers)
    ensures var waiting := Waiting(Some(NwsValidated(job)), answers);
            && (answers == [] ==> waiting == Some(NwsValidated(job)))
            && (answers == [Went] ==> waiting == Some(ComparisonCreated(job)))
            && (answers != [] && answers != [Went] ==> waiting == None)
  {
    if answers != [] {
      assert answers == [answers[0]] + answers[1..];
      if answers[0] == Went {
        WaitingForComparison(job, answers[1..]);
      }
    }
  }

  lemma WaitingOfCompare(job: Job, answers: seq<Reply>)
    requires Fit(Some(NwsPrepared(job)), answers)
    ensures var waiting := Waiting(Some(NwsPrepared(job)), answers);
            && (answers == [] ==> waiting == Some(NwsPrepared(job)))
            && (answers == [Went] ==> waiting == Some(NwsValidated(job)))
            && (answers == [Went, Went] ==> waiting == Some(ComparisonCreated(job)))
            && (waiting.Some? ==> answers == [] || answers == [Went] || answers == [Went, Went])
            && (waiting.Some? ==> BusyOf(waiting.value) == Compare)
  {
    if answers != [] {
      assert answers == [answers[0]] + answers[1..];
      assert answers[0] == Went;
      WaitingForValidation(job, answers[1..]);
    }
  }

  /** From click to result, in every run in which nothing supersedes the compare: when its third answer brings a
      comparison, that is on screen under the compare's id, submitted as the form that was seen, at the head of the
      history, with the form as the user has it by then, and nothing is busy. */
  lemma CompareDelivers(s: State, seen: Screen, events: seq<Event>, comparisonId: string)
    requires Invariant(s) && ComparesForm(seen) && IsValidDraft(seen.form)
    requires IsRun(Clicked(s, seen), events) && Run(Clicked(s, seen), events).active == s.active + 1
    requires AnswersTo(s.active + 1, events) == [Went, Went]
    ensures var id, before := s.active + 1, Run(Clicked(s, seen), events);
            && CanHappen(before, Resumed(id, Priced(comparisonId)))
            && var after := Step(before, Resumed(id, Priced(comparisonId)));
               && after.screen.comparison == Some(Comparison(comparisonId, id))
               && after.screen.submitted == SubmissionOf(seen)
               && after.screen.submitted.form == seen.form
               && (after.screen.submitted.mode == DiagramMode <==> seen.mode == DiagramMode)
               && (after.screen.submitted.mode == DescribeMode <==> seen.mode == FormMode && seen.awaitingReview)
               && after.screen.notice == Some(ComparisonReady(seen.mode == DiagramMode))
               && !after.screen.awaitingReview
               && after.screen.form == before.screen.form
               && after.screen.history ==
                  SaveComparisonHistoryEntry(before.screen.history, Entry(comparisonId, SubmissionOf(seen)))
               && |after.screen.history| > 0 && after.screen.history[0] == Entry(comparisonId, SubmissionOf(seen))
               && after.busy == None && Quiet(after) && !after.screen.isEditing
               && after.applied == s.applied + [id]
  {
    hide Invariant, IsValidDraft, Run, IsRun, Clicked;
    var id, before := s.active + 1, Run(Clicked(s, seen), events);
    CompareCarriesOn(s, seen, events);
    ClickStarts(s, seen);
    ActionCarriesOn(Clicked(s, seen), events);
    assert !Delivers(Some(NwsPrepared(JobOf(seen))), [Went, Went]) by { NotYet(JobOf(seen)); }
    assert before.inFlight[id] == ComparisonCreated(JobOf(seen));
  }

  lemma NotYet(job: Job)
    ensures !Delivers(Some(NwsPrepared(job)), [Went, Went])
  {
    assert [Went, Went][1..] == [Went] && [Went][1..] == [];
    assert !Delivers(Some(ComparisonCreated(job)), []);
    assert !Delivers(Some(NwsValidated(job)), [Went]);
  }

  /** A compare in diagram mode sends the requirements of exactly the services under review, after any review of a sound
      parse; and their traces, if no two nodes share a source reference. */
  lemma ReviewedIsCompared(seen: Screen, parsed: DiagramReview.ParseResult, actions: seq<DiagramReview.Action>)
    requires DiagramReview.IsSound(parsed) && DiagramReview.IsReview(parsed, actions)
    requires seen.mode == DiagramMode && seen.diagram == Some(DiagramReview.ReviewAll(parsed, actions))
    ensures var components, review := seen.diagram.value.components, JobOf(seen).nws.review;
            && review.Some?
            && review.value.requirements == DiagramReview.RequirementsOf(components)
            && (DiagramReview.RefsAreOwn(parsed) && DiagramReview.TracesFollow(parsed)
                && DiagramReview.HasFreshRefs(parsed, actions) ==>
                  review.value.traces == Some(DiagramReview.TracesOf(components)))
  {
    hide DiagramReview.IsSound, DiagramReview.RefsAreOwn, DiagramReview.TracesFollow, DiagramReview.HasFreshRefs;
    DiagramReview.EveryReviewIsSound(parsed, actions, "");
    if DiagramReview.RefsAreOwn(parsed) && DiagramReview.TracesFollow(parsed)
       && DiagramReview.HasFreshRefs(parsed, actions) {
      DiagramReview.EveryReviewKeepsTraces(parsed, actions);
    }
  }

  // ---- The history over a run --------------------------------------------------------------

  /** The entry an event saves, if any. */
  function SavedBy(s: State, event: Event): seq<Entry<Submission>>
    requires CanHappen(s, event)
  {
    if event.Resumed? && event.id == s.active && event.reply.Priced? && s.inFlight[s.active].ComparisonCreated?
    then [Entry(event.reply.comparisonId, s.inFlight[s.active].job.submission)]
    else []
  }

  ghost function Saves(s: State, events: seq<Event>): seq<Entry<Submission>>
    requires IsRun(s, events)
    decreases |events|
  {
    if events == [] then [] else SavedBy(s, events[0]) + Saves(Step(s, events[0]), events[1..])
  }

  /** Nothing else clears or rewrites the history. */
  ghost predicate LeavesHistory(s: State, events: seq<Event>)
    requires IsRun(s, events)
    decreases |events|
  {
    events != [] ==>
      && (events[0].Touched? ==> events[0].screen.history == s.screen.history)
      && LeavesHistory(Step(s, events[0]), events[1..])
  }

  lemma OneStepSaves(s: State, event: Event)
    requires CanHappen(s, event) && (event.Touched? ==> event.screen.history == s.screen.history)
    ensures var saved := SavedBy(s, event);
            Step(s, event).screen.history ==
              if saved == [] then s.screen.history else SaveComparisonHistoryEntry(s.screen.history, saved[0])
  {
    hide HandleParse, HandleParseDiagram, HandleCompare, SaveComparisonHistoryEntry;
    match event {
      case ParseClicked(seen) => HandlersLeaveResults(s, seen);
      case ParseDiagramClicked(seen) => HandlersLeaveResults(s, seen);
      case CompareClicked(seen) => HandlersLeaveResults(s, seen);
      case _ =>
    }
  }

  /** The history on screen after a run is what is stored of the comparisons delivered in it. */
  lemma {:induction false} HistoryIsStored(s: State, events: seq<Event>, log: seq<Entry<Submission>>)
    requires IsRun(s, events) && LeavesHistory(s, events) && s.screen.history == Stored(log)
    ensures Run(s, events).screen.history == Stored(log + Saves(s, events))
    decreases |events|
  {
    hide Step, CanHappen, SavedBy, Stored, SaveComparisonHistoryEntry;
    if events == [] {
      assert log + [] == log;
    } else {
      var next, saved := Step(s, events[0]), SavedBy(s, events[0]);
      OneStepSaves(s, events[0]);
      OneMoreStored(log, saved);
      OneAtMost(s, events[0]);
      assert next.screen.history == Stored(log + saved);
      HistoryIsStored(next, events[1..], log + saved);
      assert (log + saved) + Saves(next, events[1..]) == log + (saved + Saves(next, events[1..]));
    }
  }

  lemma OneAtMost(s: State, event: Event)
    requires CanHappen(s, event)
    ensures |SavedBy(s, event)| <= 1
  {
  }

  lemma OneMoreStored(log: seq<Entry<Submission>>, saved: seq<Entry<Submission>>)
    ensures saved == [] ==> log + saved == log
    ensures |saved| == 1 ==> Stored(log + saved) == SaveComparisonHistoryEntry(Stored(log), saved[0])
  {
    if |saved| == 1 {
      assert (log + saved)[..|log + saved| - 1] == log;
    }
  }

  /** So it lists the latest eight of them, most recent first, each id once. */
  lemma HistoryListsLatest(s: State, events: seq<Event>)
    requires IsRun(s, events) && LeavesHistory(s, events) && s.screen.history == []
    ensures Run(s, events).screen.history == Take(Latest(Saves(s, events)), MAX_COMPARISON_HISTORY_ENTRIES)
    ensures |Run(s, events).screen.history| <= 8
  {
    hide Run, IsRun, LeavesHistory;
    HistoryIsStored(s, events, []);
    StoredRefinesLatest(Saves(s, events));
    assert [] + Saves(s, events) == Saves(s, events);
  }
}
