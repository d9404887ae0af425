/**
 * The two read-only projections of an incident session: the plain-text report that
 * "Export Report" downloads, with its file name, and the status of each step in the
 * "Response Plan" timeline.
 */
module IncidentReport {
  import opened Wrappers
  import opened Strings

  // ---------------------------------------------------------------------------
  // the exported report

  const ReportTitle: string := "INCIDENT RESPONSE REPORT"
  const ReportEnd: string := "End of Report"

  /** `"=".repeat(30)`, the rule above and below the body. */
  function Rule(): (r: string)
    ensures |r| == 30
  {
    Repeat('=', 30)
  }

  /** The rule is thirty equals signs. */
  lemma RuleIsEquals()
    ensures forall i :: 0 <= i < |Rule()| ==> Rule()[i] == '='
  {
  }

  /** A template literal prints a missing incident type as "null". */
  function TypeText(incidentType: Option<string>): string
  {
    match incidentType
    case None => "null"
    case Some(t) => t
  }

  /**
   * The report body: a header with the date and the incident type, every log line in the
   * order it was appended, and a footer. The date is a parameter (the page uses the
   * current time in ISO-8601 form).
   */
  function ReportText(date: string, incidentType: Option<string>, logs: seq<string>): string
  {
    ReportTitle + "\n" + Rule() + "\n\nDate: " + date + "\nIncident Type: " + TypeText(incidentType)
    + "\n\nLogs:\n" + Join(logs, '\n') + "\n\n" + Rule() + "\n" + ReportEnd
  }

  /** The lines above the log lines, in order. */
  function HeaderLines(date: string, incidentType: Option<string>): seq<string>
  {
    [ReportTitle, Rule(), "", "Date: " + date, "Incident Type: " + TypeText(incidentType), "", "Logs:"]
  }

  /** The lines below the log lines, in order. */
  function FooterLines(): seq<string>
  {
    ["", Rule(), ReportEnd]
  }

  /** `incident_report_<millis>.txt`, with the current time in milliseconds as a parameter. */
  function ReportFileName(millis: nat): string
  {
    "incident_report_" + DecimalString(millis) + ".txt"
  }

  lemma JoinCons(x: string, rest: seq<string>, sep: char)
    requires |rest| >= 1
    ensures Join([x] + rest, sep) == x + [sep] + Join(rest, sep)
  {
    assert ([x] + rest)[1..] == rest;
  }

  /** Three lines joined. */
  lemma JoinThree(a: string, b: string, c: string, sep: char)
    ensures Join([a, b, c], sep) == a + [sep] + b + [sep] + c
  {
    assert [a, b, c][1..] == [b, c];
    assert [b, c][1..] == [c];
    assert Join([b, c], sep) == b + [sep] + c;
    assert Join([a, b, c], sep) == a + [sep] + (b + [sep] + c);
  }

  /** Seven lines joined, as three, one and three. */
  lemma JoinSeven(a0: string, a1: string, a2: string, a3: string, a4: string, a5: string, a6: string, sep: char)
    ensures Join([a0, a1, a2, a3, a4, a5, a6], sep)
         == (a0 + [sep] + a1 + [sep] + a2) + [sep] + a3 + [sep] + (a4 + [sep] + a5 + [sep] + a6)
  {
    JoinThree(a0, a1, a2, sep);
    JoinThree(a4, a5, a6, sep);
    assert [a0, a1, a2, a3, a4, a5, a6] == [a0, a1, a2] + [a3] + [a4, a5, a6];
    JoinAppend([a0, a1, a2], [a3], sep);
    JoinAppend([a0, a1, a2] + [a3], [a4, a5, a6], sep);
  }

  /** The header lines joined: everything of the report before the first log line's break. */
  lemma HeaderJoin(date: string, incidentType: Option<string>)
    ensures Join(HeaderLines(date, incidentType), '\n') == HeaderText(date, incidentType)
  {
    var typeLine := "Incident Type: " + TypeText(incidentType);
    JoinSeven(ReportTitle, Rule(), "", "Date: " + date, typeLine, "", "Logs:", '\n');
    HeaderFront(ReportTitle, Rule(), date);
    HeaderBack(ReportTitle + "\n" + Rule() + "\n\nDate: " + date, TypeText(incidentType));
  }

  /** The title, rule, blank and date lines joined, regrouped as the report spells them. */
  lemma HeaderFront(title: string, rule: string, date: string)
    ensures (title + "\n" + rule + "\n" + "") + "\n" + ("Date: " + date) == title + "\n" + rule + "\n\nDate: " + date
  {
    assert "\n\nDate: " == "\n" + "\n" + "Date: ";
  }

  /** The type, blank and "Logs:" lines appended, regrouped as the report spells them. */
  lemma HeaderBack(front: string, typeText: string)
    ensures front + "\n" + (("Incident Type: " + typeText) + "\n" + "" + "\n" + "Logs:")
         == front + "\nIncident Type: " + typeText + "\n\nLogs:"
  {
    assert "\nIncident Type: " == "\n" + "Incident Type: ";
    assert "\n\nLogs:" == "\n" + "\n" + "Logs:";
  }

  /** The footer lines joined. */
  lemma FooterJoin()
    ensures Join(FooterLines(), '\n') == "\n" + Rule() + "\n" + ReportEnd
  {
    JoinThree("", Rule(), ReportEnd, '\n');
  }

  /** The header text before the log lines' break, as the report template spells it. */
  function HeaderText(date: string, incidentType: Option<string>): string
  {
    ReportTitle + "\n" + Rule() + "\n\nDate: " + date + "\nIncident Type: " + TypeText(incidentType) + "\n\nLogs:"
  }

  /** The report regrouped around its log lines. */
  lemma ReportAroundLogs(date: string, incidentType: Option<string>, logs: seq<string>)
    ensures ReportText(date, incidentType, logs)
         == HeaderText(date, incidentType) + "\n" + Join(logs, '\n') + "\n" + ("\n" + Rule() + "\n" + ReportEnd)
  {
    assert "\n\nLogs:\n" == "\n\nLogs:" + "\n";
    assert "\n\n" == "\n" + "\n";
  }

  /** Header, body and footer lines joined. */
  lemma LinesAroundBody(date: string, incidentType: Option<string>, body: seq<string>)
    requires |body| >= 1
    ensures Join(HeaderLines(date, incidentType) + body + FooterLines(), '\n')
         == HeaderText(date, incidentType) + "\n" + Join(body, '\n') + "\n" + ("\n" + Rule() + "\n" + ReportEnd)
  {
    var h, f := HeaderLines(date, incidentType), FooterLines();
    HeaderJoin(date, incidentType);
    FooterJoin();
    JoinAppend(h, body, '\n');
    JoinAppend(h + body, f, '\n');
  }

  /**
   * The report is its header lines, the log lines (an empty log shows as one empty line)
   * and its footer lines, joined by line breaks.
   */
  lemma ReportIsLines(date: string, incidentType: Option<string>, logs: seq<string>)
    ensures ReportText(date, incidentType, logs)
         == Join(HeaderLines(date, incidentType) + (if logs == [] then [""] else logs) + FooterLines(), '\n')
  {
    var body := if logs == [] then [""] else logs;
    assert Join(body, '\n') == Join(logs, '\n');
    ReportAroundLogs(date, incidentType, logs);
    LinesAroundBody(date, incidentType, body);
  }

  /**
   * When no line holds a line break, the report's lines are exactly the header lines, the log
   * lines in append order and the footer lines: the log is recoverable from the report.
   */
  lemma ReportLinesRecoverLogs(date: string, incidentType: Option<string>, logs: seq<string>)
    requires '\n' !in date && '\n' !in TypeText(incidentType)
    requires |logs| >= 1 && forall i :: 0 <= i < |logs| ==> '\n' !in logs[i]
    ensures Split(ReportText(date, incidentType, logs), '\n')
         == HeaderLines(date, incidentType) + logs + FooterLines()
  {
    ReportIsLines(date, incidentType, logs);
    var all := HeaderLines(date, incidentType) + logs + FooterLines();
    forall i | 0 <= i < |all| ensures '\n' !in all[i] {
      if i >= 7 && i < 7 + |logs| { assert all[i] == logs[i - 7]; }
      else if i == 3 { assert all[i] == "Date: " + date; }
      else if i == 4 { assert all[i] == "Incident Type: " + TypeText(incidentType); }
    }
    SplitJoin(all, '\n');
  }

  /** Exports at different milliseconds get different file names. */
  lemma ReportFileNameUnique(a: nat, b: nat)
    ensures ReportFileName(a) == ReportFileName(b) <==> a == b
  {
    if ReportFileName(a) == ReportFileName(b) {
      var fa, fb := ReportFileName(a), ReportFileName(b);
      assert |DecimalString(a)| == |DecimalString(b)|;
      assert fa[16..|fa| - 4] == DecimalString(a);
      assert fb[16..|fb| - 4] == DecimalString(b);
      DecimalStringInjective(a, b);
    }
  }

  // ---------------------------------------------------------------------------
  // the response-plan timeline

  /** The badge colour of one step: green, pulsing purple or grey. */
  datatype StepStatus = Completed | Active | Pending

  function StatusOf(index: nat, current: nat): StepStatus
  {
    if index < current then Completed else if index == current then Active else Pending
  }

  /** A step title is drawn in full colour up to and including the current step. */
  function TitleEmphasised(index: nat, current: nat): bool
  {
    index <= current
  }

  /** The statuses of a playbook of `n` steps, in step order. */
  function Timeline(n: nat, current: nat): (r: seq<StepStatus>)
    ensures |r| == n
  {
    seq(n, j requires 0 <= j < n => StatusOf(j, current))
  }

  /**
   * With the cursor inside the playbook, the timeline is every earlier step completed,
   * exactly one active step at the cursor, and every later step pending.
   */
  lemma TimelineShape(n: nat, current: nat)
    requires current < n
    ensures Timeline(n, current)
         == Repeat(Completed, current) + [Active] + Repeat(Pending, n - current - 1)
  {
    var expected := Repeat(Completed, current) + [Active] + Repeat(Pending, n - current - 1);
    forall j | 0 <= j < n ensures Timeline(n, current)[j] == expected[j] {
      if j > current { assert expected[j] == Repeat(Pending, n - current - 1)[j - current - 1]; }
    }
  }

  /** A title is emphasised exactly when its step is not pending. */
  lemma EmphasisedIffNotPending(index: nat, current: nat)
    ensures TitleEmphasised(index, current) <==> StatusOf(index, current) != Pending
  {
  }
}
