/**
 * The incident-response conversation: a chat in which the user describes a security
 * incident, an external classifier names its category, and the page walks the user through
 * the matching playbook one step at a time while keeping an audit log.
 *
 * The page's state is modelled twice: as the value `Session`, with one pure function per
 * transition (the lemmas are about these), and as the class `IncidentResponsePage`, whose
 * handlers update the fields one after another as the page's handlers do and are proved to
 * produce exactly the state the pure transition describes.
 */
module IncidentResponse {
  import opened Wrappers
  import opened Strings
  import opened Playbooks
  import IncidentReport

  // ---------------------------------------------------------------------------
  // transcript entries and fixed texts

  datatype Sender = User | Bot

  /** One chat entry: plain text, or the interactive card for one step of the playbook. */
  datatype Message = Text(sender: Sender, text: string) | StepCard(step: Step, index: nat)

  /** What the external classifier answers for one description. */
  datatype Classification = Classification(incidentType: string, severity: string, summary: string)

  const WelcomeText: string :=
    "Welcome to the Incident Response AI. Please describe the security issue you're facing."
  const SorryText: string :=
    "Sorry, I couldn't analyze the incident. Please try rephrasing your description."
  const HelpText: string :=
    "I understand. It's crucial not to proceed if you're unsure. Please consult your IT security team for assistance with this step. When you have completed it, press 'Yes, Completed' to continue."
  const FinalText: string :=
    "You've completed all the steps in the playbook. The incident response is finished. You can now export a report."

  /** The bot's reply to a successful classification. */
  function AnalysisText(c: Classification): string
  {
    "Analysis complete. It looks like a potential " + c.incidentType + " incident with " + c.severity
    + " severity. Summary: \"" + c.summary
    + "\".\n\nLet's begin the response playbook. Please follow each step carefully."
  }

  // ---------------------------------------------------------------------------
  // audit log lines

  function UserReportLine(text: string): string
  {
    "User Report: " + text
  }

  function AnalysisLine(c: Classification): string
  {
    "AI Analysis: Classified as " + c.incidentType + " (" + c.severity + "). Summary: " + c.summary
  }

  /** The outcome of one confirmation of the step at (zero-based) `index`, numbered from 1. */
  function StepLine(index: nat, title: string, completed: bool): string
  {
    "Step " + DecimalString(index + 1) + " (" + title + "): "
    + (if completed then "Completed by user." else "User requested help/could not complete.")
  }

  // ---------------------------------------------------------------------------
  // the session state

  datatype Session = Session(
    messages: seq<Message>,
    isAnalyzing: bool,
    isFinished: bool,
    incidentType: Option<string>,
    playbook: Option<Playbook>,
    currentStepIndex: nat,
    reportLogs: seq<string>)

  /** The page as it opens: one welcome message and nothing else. */
  function Initial(): Session
  {
    Session([Text(Bot, WelcomeText)], false, false, None, None, 0, [])
  }

  /**
   * The cursor invariant: once a playbook is active, it is non-empty and the cursor is one of
   * its indices, and a finished session rests on the last step; before that the cursor is 0
   * and nothing is finished.
   */
  predicate CursorInvariant(s: Session)
  {
    && (s.playbook.Some? ==> |s.playbook.value| > 0 && s.currentStepIndex < |s.playbook.value|)
    && (s.playbook.None? ==> s.currentStepIndex == 0 && !s.isFinished)
    && (s.isFinished ==> s.playbook.Some? && s.currentStepIndex == |s.playbook.value| - 1)
  }

  /**
   * The whole invariant of a session over a catalog: the cursor invariant; the category and
   * the playbook are set together, the playbook being the catalog's choice for the category;
   * and a classification is in flight only before any playbook is set.
   */
  predicate Invariant(catalog: Catalog, s: Session)
    requires WellFormed(catalog)
  {
    && CursorInvariant(s)
    && (s.playbook.Some? <==> s.incidentType.Some?)
    && (s.incidentType.Some? ==> s.playbook == Some(Resolve(catalog, s.incidentType.value)))
    && (s.isAnalyzing ==> s.playbook.None?)
  }

  // ---------------------------------------------------------------------------
  // transitions

  /**
   * A description is accepted when it is not blank after trimming, no classification is in
   * flight, and no category has been recorded yet.
   */
  predicate CanSubmit(s: Session, text: string)
  {
    Trim(text) != "" && !s.isAnalyzing && s.incidentType.None?
  }

  /** Submitting a description: the user's message and the report line, then classification starts. */
  function AfterSubmit(s: Session, text: string): Session
  {
    if !CanSubmit(s, text) then s
    else s.(messages := s.messages + [Text(User, text)],
            isAnalyzing := true,
            reportLogs := s.reportLogs + [UserReportLine(text)])
  }

  /**
   * The classifier answered: record the raw category, activate the catalog's playbook for it,
   * post the summary and the card of the first step, and log the analysis.
   */
  function AfterClassified(catalog: Catalog, s: Session, c: Classification): Session
    requires WellFormed(catalog)
  {
    var playbook := Resolve(catalog, c.incidentType);
    s.(incidentType := Some(c.incidentType),
       playbook := Some(playbook),
       messages := s.messages + [Text(Bot, AnalysisText(c)), StepCard(playbook[0], 0)],
       reportLogs := s.reportLogs + [AnalysisLine(c)],
       isAnalyzing := false)
  }

  /** The classifier failed: apologise and accept a new description. */
  function AfterClassifyFailed(s: Session): Session
  {
    s.(messages := s.messages + [Text(Bot, SorryText)], isAnalyzing := false)
  }

  /**
   * The user answered the current step card. Declining logs and asks for help without moving;
   * confirming logs, then moves to the next step or, on the last step, finishes.
   * Being finished is not checked: a confirmation after the end logs the last step again.
   */
  function AfterConfirm(s: Session, completed: bool): (r: Session)
    requires CursorInvariant(s)
    ensures CursorInvariant(r)
    ensures r.playbook == s.playbook && r.incidentType == s.incidentType && r.isAnalyzing == s.isAnalyzing
    ensures s.isFinished ==> r.isFinished
  {
    if s.playbook.None? then s
    else
      var playbook := s.playbook.value;
      var i := s.currentStepIndex;
      var step := playbook[i];
      if !completed then
        s.(reportLogs := s.reportLogs + [StepLine(i, step.title, false)],
           messages := s.messages + [Text(Bot, HelpText)])
      else if i + 1 < |playbook| then
        s.(reportLogs := s.reportLogs + [StepLine(i, step.title, true)],
           currentStepIndex := i + 1,
           messages := s.messages + [StepCard(playbook[i + 1], i + 1)])
      else
        s.(reportLogs := s.reportLogs + [StepLine(i, step.title, true)],
           messages := s.messages + [Text(Bot, FinalText)],
           isFinished := true)
  }

  /** Everything that can happen to a session. */
  datatype Event =
    | Submit(text: string)
    | Succeeded(classification: Classification)
    | Failed
    | Confirm(completed: bool)

  /**
   * One event. A classifier answer only reaches a session that has a classification in
   * flight; with none in flight it is discarded.
   */
  function Apply(catalog: Catalog, s: Session, e: Event): (r: Session)
    requires WellFormed(catalog) && Invariant(catalog, s)
    ensures Invariant(catalog, r)
    ensures s.messages <= r.messages && s.reportLogs <= r.reportLogs
    ensures |r.reportLogs| <= |s.reportLogs| + 1
  {
    match e
    case Submit(text) => SubmitKeepsInvariant(catalog, s, text); AfterSubmit(s, text)
    case Succeeded(c) =>
      if s.isAnalyzing then ClassifiedKeepsInvariant(catalog, s, c); AfterClassified(catalog, s, c) else s
    case Failed => if s.isAnalyzing then FailedKeepsInvariant(catalog, s); AfterClassifyFailed(s) else s
    case Confirm(completed) => ConfirmKeepsInvariant(catalog, s, completed); AfterConfirm(s, completed)
  }

  /** A transition that keeps the invariant, only appends, and logs at most one line. */
  predicate Grows(s: Session, r: Session)
  {
    s.messages <= r.messages && s.reportLogs <= r.reportLogs && |r.reportLogs| <= |s.reportLogs| + 1
  }

  lemma SubmitKeepsInvariant(catalog: Catalog, s: Session, text: string)
    requires WellFormed(catalog) && Invariant(catalog, s)
    ensures Invariant(catalog, AfterSubmit(s, text)) && Grows(s, AfterSubmit(s, text))
  {
  }

  lemma ClassifiedKeepsInvariant(catalog: Catalog, s: Session, c: Classification)
    requires WellFormed(catalog) && Invariant(catalog, s) && s.isAnalyzing
    ensures Invariant(catalog, AfterClassified(catalog, s, c)) && Grows(s, AfterClassified(catalog, s, c))
  {
  }

  lemma FailedKeepsInvariant(catalog: Catalog, s: Session)
    requires WellFormed(catalog) && Invariant(catalog, s) && s.isAnalyzing
    ensures Invariant(catalog, AfterClassifyFailed(s)) && Grows(s, AfterClassifyFailed(s))
  {
  }

  lemma ConfirmKeepsInvariant(catalog: Catalog, s: Session, completed: bool)
    requires WellFormed(catalog) && Invariant(catalog, s)
    ensures Invariant(catalog, AfterConfirm(s, completed)) && Grows(s, AfterConfirm(s, completed))
  {
  }

  /**
   * A whole history of events. Whatever happens, the invariant holds, and the transcript and
   * the audit log only ever grow, the log by at most one line per event.
   */
  function Run(catalog: Catalog, s: Session, events: seq<Event>): (r: Session)
    requires WellFormed(catalog) && Invariant(catalog, s)
    ensures Invariant(catalog, r)
    ensures s.messages <= r.messages && s.reportLogs <= r.reportLogs
    ensures |r.reportLogs| <= |s.reportLogs| + |events|
    decreases |events|
  {
    if events == [] then s else Run(catalog, Apply(catalog, s, events[0]), events[1..])
  }

  /** The page starts in a state that satisfies the invariant, for every well-formed catalog. */
  lemma InitialInvariant(catalog: Catalog)
    requires WellFormed(catalog)
    ensures Invariant(catalog, Initial())
  {
  }

  // ---------------------------------------------------------------------------
  // properties of single transitions

  /**
   * A submission changes the session exactly when it is accepted, and it is accepted exactly
   * when the text is not all whitespace, nothing is in flight and no category is recorded.
   */
  lemma SubmitGuard(s: Session, text: string)
    ensures AfterSubmit(s, text) != s <==> CanSubmit(s, text)
    ensures CanSubmit(s, text) <==> !IsBlank(text) && !s.isAnalyzing && s.incidentType.None?
  {
    TrimEmptyIffBlank(text);
    if CanSubmit(s, text) {
      assert |AfterSubmit(s, text).messages| == |s.messages| + 1;
    }
  }

  /**
   * Submitting and then failing to classify leaves the report line in the log, adds the
   * user's message and one apology, and returns to accepting the same description.
   */
  lemma SubmitThenFail(catalog: Catalog, s: Session, text: string)
    requires WellFormed(catalog) && Invariant(catalog, s) && CanSubmit(s, text)
    ensures var r := AfterClassifyFailed(AfterSubmit(s, text));
      && r.reportLogs == s.reportLogs + [UserReportLine(text)]
      && r.messages == s.messages + [Text(User, text), Text(Bot, SorryText)]
      && r.incidentType.None? && r.playbook.None? && !r.isAnalyzing
      && r.currentStepIndex == s.currentStepIndex && r.isFinished == s.isFinished
      && CanSubmit(r, text)
  {
  }

  /**
   * Submitting and then classifying activates the catalog's playbook for the raw category
   * (the "Unknown" playbook for a category the catalog lacks) at its first step, posts the
   * user's message, the summary and the first card in that order, logs the report and the
   * analysis, and closes the session to further descriptions.
   */
  lemma SubmitThenClassify(catalog: Catalog, s: Session, text: string, c: Classification)
    requires WellFormed(catalog) && Invariant(catalog, s) && CanSubmit(s, text)
    ensures var r := AfterClassified(catalog, AfterSubmit(s, text), c);
      var playbook := if c.incidentType in catalog then catalog[c.incidentType] else catalog[FallbackCategory];
      && r.incidentType == Some(c.incidentType)
      && r.playbook == Some(playbook) && |playbook| > 0
      && r.currentStepIndex == 0 && !r.isFinished && !r.isAnalyzing
      && r.messages == s.messages + [Text(User, text), Text(Bot, AnalysisText(c)), StepCard(playbook[0], 0)]
      && r.reportLogs == s.reportLogs + [UserReportLine(text), AnalysisLine(c)]
      && forall text' :: !CanSubmit(r, text')
  {
  }

  /** Confirming, either way, does nothing exactly when no playbook is active. */
  lemma ConfirmGuard(s: Session, completed: bool)
    requires CursorInvariant(s)
    ensures AfterConfirm(s, completed) == s <==> s.playbook.None?
  {
    if s.playbook.Some? {
      assert |AfterConfirm(s, completed).reportLogs| == |s.reportLogs| + 1;
    }
  }

  /** Declining keeps the cursor and the finished flag, logs one help line and posts one help message. */
  lemma DeclineStays(s: Session)
    requires CursorInvariant(s) && s.playbook.Some?
    ensures var r := AfterConfirm(s, false);
      var i := s.currentStepIndex;
      && r.currentStepIndex == i && r.isFinished == s.isFinished
      && r.reportLogs == s.reportLogs + [StepLine(i, s.playbook.value[i].title, false)]
      && r.messages == s.messages + [Text(Bot, HelpText)]
  {
  }

  /**
   * Confirming logs the step as completed; before the last step it moves the cursor on and
   * posts the next card, on the last step it keeps the cursor, posts the final message and
   * finishes.
   */
  lemma ConfirmAdvances(s: Session)
    requires CursorInvariant(s) && s.playbook.Some?
    ensures var r := AfterConfirm(s, true);
      var playbook := s.playbook.value;
      var i := s.currentStepIndex;
      && r.reportLogs == s.reportLogs + [StepLine(i, playbook[i].title, true)]
      && (i + 1 < |playbook| ==>
            r.currentStepIndex == i + 1 && r.isFinished == s.isFinished
            && r.messages == s.messages + [StepCard(playbook[i + 1], i + 1)])
      && (i + 1 == |playbook| ==>
            r.currentStepIndex == i && r.isFinished
            && r.messages == s.messages + [Text(Bot, FinalText)])
  {
  }

  // ---------------------------------------------------------------------------
  // runs of confirmations

  /** The user's answers to successive step cards, applied in order. */
  function ConfirmAll(s: Session, answers: seq<bool>): (r: Session)
    requires CursorInvariant(s)
    ensures CursorInvariant(r)
    ensures r.playbook == s.playbook && r.incidentType == s.incidentType
    decreases |answers|
  {
    if answers == [] then s else ConfirmAll(AfterConfirm(s, answers[0]), answers[1..])
  }

  function CountTrue(answers: seq<bool>): nat
  {
    if answers == [] then 0 else (if answers[0] then 1 else 0) + CountTrue(answers[1..])
  }

  function Min(a: int, b: int): int
  {
    if a <= b then a else b
  }

  /**
   * After any sequence of answers, declines interleaved anywhere, the cursor has moved once
   * per confirmation but never past the last step, the session is finished exactly when
   * there were enough confirmations to get through the remaining steps, and the log and the
   * transcript have grown by exactly one entry per answer.
   */
  lemma {:induction false} ConfirmAllProgress(s: Session, answers: seq<bool>)
    requires CursorInvariant(s) && s.playbook.Some?
    ensures var r := ConfirmAll(s, answers);
      var n := |s.playbook.value|;
      && r.currentStepIndex == Min(s.currentStepIndex + CountTrue(answers), n - 1)
      && (r.isFinished <==> s.isFinished || s.currentStepIndex + CountTrue(answers) >= n)
      && s.reportLogs <= r.reportLogs && |r.reportLogs| == |s.reportLogs| + |answers|
      && s.messages <= r.messages && |r.messages| == |s.messages| + |answers|
    decreases |answers|
  {
    if answers != [] {
      var t := AfterConfirm(s, answers[0]);
      var n := |s.playbook.value|;
      assert ConfirmAll(s, answers) == ConfirmAll(t, answers[1..]);
      assert CountTrue(answers) == (if answers[0] then 1 else 0) + CountTrue(answers[1..]);
      OneAnswer(s, answers[0]);
      ConfirmAllProgress(t, answers[1..]);
    }
  }

  /** One answer, in the terms of `ConfirmAllProgress`. */
  lemma OneAnswer(s: Session, completed: bool)
    requires CursorInvariant(s) && s.playbook.Some?
    ensures var r := AfterConfirm(s, completed);
      var n := |s.playbook.value|;
      var moved := s.currentStepIndex + (if completed then 1 else 0);
      && r.playbook == s.playbook
      && r.currentStepIndex == Min(moved, n - 1)
      && (r.isFinished <==> s.isFinished || moved >= n)
      && s.reportLogs <= r.reportLogs && |r.reportLogs| == |s.reportLogs| + 1
      && s.messages <= r.messages && |r.messages| == |s.messages| + 1
  {
  }

  /**
   * From the first step of a fresh playbook of n steps, the session is finished exactly when
   * at least n of the answers were confirmations; the cursor then rests on the last step,
   * and before that it counts the confirmations.
   */
  lemma FinishesAfterAllSteps(s: Session, answers: seq<bool>)
    requires CursorInvariant(s) && s.playbook.Some? && s.currentStepIndex == 0 && !s.isFinished
    ensures var r := ConfirmAll(s, answers);
      var n := |s.playbook.value|;
      && (r.isFinished <==> CountTrue(answers) >= n)
      && (CountTrue(answers) >= n ==> r.currentStepIndex == n - 1)
      && (CountTrue(answers) < n ==> r.currentStepIndex == CountTrue(answers))
  {
    ConfirmAllProgress(s, answers);
  }

  /**
   * Declining the same step k times keeps the cursor and the finished flag and appends k
   * identical help lines to the log and k identical help messages to the transcript.
   */
  lemma {:induction false} RepeatedDeclines(s: Session, k: nat)
    requires CursorInvariant(s) && s.playbook.Some?
    ensures var r := ConfirmAll(s, Repeat(false, k));
      var i := s.currentStepIndex;
      && r.currentStepIndex == i && r.isFinished == s.isFinished
      && r.reportLogs == s.reportLogs + Repeat(StepLine(i, s.playbook.value[i].title, false), k)
      && r.messages == s.messages + Repeat(Text(Bot, HelpText), k)
    decreases k
  {
    var i := s.currentStepIndex;
    var line := StepLine(i, s.playbook.value[i].title, false);
    if k > 0 {
      var t := AfterConfirm(s, false);
      DeclineStays(s);
      assert Repeat(false, k) == [false] + Repeat(false, k - 1);
      assert Repeat(false, k)[1..] == Repeat(false, k - 1);
      RepeatedDeclines(t, k - 1);
      assert Repeat(line, k) == [line] + Repeat(line, k - 1);
      assert Repeat(Text(Bot, HelpText), k) == [Text(Bot, HelpText)] + Repeat(Text(Bot, HelpText), k - 1);
    }
  }

  /**
   * A three-step playbook answered confirm, decline, decline, confirm, confirm: the session
   * ends finished on the third step, and the log holds the five outcomes in that order.
   */
  lemma ThreeStepWalkthrough(s: Session, a: Step, b: Step, c: Step)
    requires CursorInvariant(s) && s.playbook == Some([a, b, c]) && s.currentStepIndex == 0 && !s.isFinished
    ensures var r := ConfirmAll(s, [true, false, false, true, true]);
      && r.isFinished && r.currentStepIndex == 2
      && r.reportLogs == s.reportLogs + [
           StepLine(0, a.title, true),
           StepLine(1, b.title, false),
           StepLine(1, b.title, false),
           StepLine(1, b.title, true),
           StepLine(2, c.title, true)]
  {
    var s1 := AfterConfirm(s, true);
    var s2 := AfterConfirm(s1, false);
    var s3 := AfterConfirm(s2, false);
    var s4 := AfterConfirm(s3, true);
    var s5 := AfterConfirm(s4, true);
    var answers := [true, false, false, true, true];
    assert answers[1..] == [false, false, true, true];
    assert answers[1..][1..] == [false, true, true];
    assert answers[1..][1..][1..] == [true, true];
    assert answers[1..][1..][1..][1..] == [true];
    assert ConfirmAll(s, answers) == s5;
  }

  // ---------------------------------------------------------------------------
  // the page

  class IncidentResponsePage {
    const catalog: Catalog
    var messages: seq<Message>
    var isAnalyzing: bool
    var isFinished: bool
    var incidentType: Option<string>
    var playbook: Option<Playbook>
    var currentStepIndex: nat
    var reportLogs: seq<string>

    /** The fields as one session value. */
    ghost function State(): Session
      reads this
    {
      Session(messages, isAnalyzing, isFinished, incidentType, playbook, currentStepIndex, reportLogs)
    }

    ghost predicate Valid()
      reads this
    {
      WellFormed(catalog) && Invariant(catalog, State())
    }

    constructor (catalog: Catalog)
      requires WellFormed(catalog)
      ensures Valid() && this.catalog == catalog && State() == Initial()
    {
      this.catalog := catalog;
      messages := [Text(Bot, WelcomeText)];
      isAnalyzing := false;
      isFinished := false;
      incidentType := None;
      playbook := None;
      currentStepIndex := 0;
      reportLogs := [];
    }

    /** The user sends a description; classification starts if it is accepted. */
    method HandleUserSubmit(text: string) returns (started: bool)
      requires Valid()
      modifies this
      ensures Valid()
      ensures started == CanSubmit(old(State()), text)
      ensures State() == AfterSubmit(old(State()), text)
    {
      if Trim(text) == "" || isAnalyzing || incidentType.Some? {
        return false;
      }
      messages := messages + [Text(User, text)];
      isAnalyzing := true;
      reportLogs := reportLogs + [UserReportLine(text)];
      started := true;
    }

    /** The classification in flight succeeded with this answer. */
    method ClassifySucceeded(c: Classification)
      requires Valid() && isAnalyzing
      modifies this
      ensures Valid()
      ensures State() == AfterClassified(catalog, old(State()), c)
    {
      ghost var before := State();
      ClassifiedKeepsInvariant(catalog, before, c);
      incidentType := Some(c.incidentType);
      var selected := Resolve(catalog, c.incidentType);
      playbook := Some(selected);
      messages := messages + [Text(Bot, AnalysisText(c))];
      reportLogs := reportLogs + [AnalysisLine(c)];
      AddNextStepMessage(selected, 0);
      isAnalyzing := false;
      assert messages == before.messages + [Text(Bot, AnalysisText(c)), StepCard(selected[0], 0)];
      assert State() == AfterClassified(catalog, before, c);
    }

    /** The classification in flight failed. */
    method ClassifyFailed()
      requires Valid() && isAnalyzing
      modifies this
      ensures Valid()
      ensures State() == AfterClassifyFailed(old(State()))
    {
      messages := messages + [Text(Bot, SorryText)];
      isAnalyzing := false;
    }

    /**
     * Posts the card of one step of a playbook. An internal helper of the two handlers above
     * and below, called part-way through their updates; the invariant does not depend on the
     * transcript, so it holds afterwards exactly when it held before.
     */
    method AddNextStepMessage(steps: Playbook, stepIndex: nat)
      requires stepIndex < |steps|
      modifies this`messages
      ensures messages == old(messages) + [StepCard(steps[stepIndex], stepIndex)]
      ensures Valid() <==> old(Valid())
    {
      messages := messages + [StepCard(steps[stepIndex], stepIndex)];
    }

    /** The user answers the current step card: `completed` is "Yes, Completed". */
    method HandleStepConfirmation(completed: bool)
      requires Valid()
      modifies this
      ensures Valid()
      ensures State() == AfterConfirm(old(State()), completed)
    {
      if playbook.None? {
        return;
      }
      var currentStep := playbook.value[currentStepIndex];
      if !completed {
        reportLogs := reportLogs + [StepLine(currentStepIndex, currentStep.title, false)];
        messages := messages + [Text(Bot, HelpText)];
        return;
      }
      reportLogs := reportLogs + [StepLine(currentStepIndex, currentStep.title, true)];
      var nextStepIndex := currentStepIndex + 1;
      if nextStepIndex < |playbook.value| {
        currentStepIndex := nextStepIndex;
        AddNextStepMessage(playbook.value, nextStepIndex);
      } else {
        messages := messages + [Text(Bot, FinalText)];
        isFinished := true;
      }
    }

    /**
     * The report download: its file name and text, for the given export time in ISO-8601 form
     * and in milliseconds. Nothing in the session changes.
     */
    method ExportReport(date: string, millis: nat) returns (fileName: string, content: string)
      ensures fileName == IncidentReport.ReportFileName(millis)
      ensures content == IncidentReport.ReportText(date, incidentType, reportLogs)
    {
      content := IncidentReport.ReportText(date, incidentType, reportLogs);
      fileName := IncidentReport.ReportFileName(millis);
    }
  }

  // ---------------------------------------------------------------------------
  // the submit guard as the page writes it

  /**
   * JavaScript truthiness of the recorded category: `null` and the empty string are both
   * falsy.
   */
  predicate IsTruthy(incidentType: Option<string>)
  {
    incidentType.Some? && incidentType.value != ""
  }

  /** The page's own guard tests the category for truthiness, not for presence. */
  predicate CanSubmitAsWritten(s: Session, text: string)
  {
    Trim(text) != "" && !s.isAnalyzing && !IsTruthy(s.incidentType)
  }

  function AfterSubmitAsWritten(s: Session, text: string): Session
  {
    if !CanSubmitAsWritten(s, text) then s
    else s.(messages := s.messages + [Text(User, text)],
            isAnalyzing := true,
            reportLogs := s.reportLogs + [UserReportLine(text)])
  }

  /**
   * With the truthiness guard, a classifier answer of "" leaves submission open. Take any
   * catalog without an entry for "", whose fallback playbook has at least two steps, and with
   * a category `other` whose playbook has one step. After one confirmed step of the fallback
   * playbook a second description is accepted, and its classification as `other` installs
   * the one-step playbook without resetting the cursor, which now points past the end: the
   * next confirmation would read a step that does not exist. The presence test of
   * `CanSubmit` refuses that second description.
   */
  lemma EmptyCategoryBreaksCursor(catalog: Catalog, other: string, first: string, second: string,
                                  severity: string, summary: string)
    requires WellFormed(catalog) && "" !in catalog
    requires |catalog[FallbackCategory]| >= 2 && other in catalog && |catalog[other]| == 1
    requires Trim(first) != "" && Trim(second) != ""
    ensures var s1 := AfterSubmitAsWritten(Initial(), first);
      var s2 := AfterClassified(catalog, s1, Classification("", severity, summary));
      var s3 := AfterConfirm(s2, true);
      var s4 := AfterSubmitAsWritten(s3, second);
      var s5 := AfterClassified(catalog, s4, Classification(other, severity, summary));
      && CanSubmitAsWritten(s3, second) && !CanSubmit(s3, second)
      && s5.playbook.Some? && s5.currentStepIndex >= |s5.playbook.value|
  {
    var s1 := AfterSubmitAsWritten(Initial(), first);
    var s2 := AfterClassified(catalog, s1, Classification("", severity, summary));
    assert s2.playbook == Some(catalog[FallbackCategory]) && s2.currentStepIndex == 0;
    var s3 := AfterConfirm(s2, true);
    assert s3.currentStepIndex == 1 && s3.incidentType == Some("") && !s3.isAnalyzing;
  }
}
