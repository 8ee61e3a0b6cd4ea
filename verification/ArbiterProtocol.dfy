/** What the arbiter engines exchange with the outside: decisions, result files,
    liveness probes and process-exit reports. */
module ArbiterProtocol {

  type Code = string

  /** A decision's canonical JSON; json.Marshal never yields the empty string. */
  type Canonical = s: string | s != "" witness "{}"

  datatype Verdict = Verdict(canonical: Canonical, safeStop: bool, code: Code)

  /** A submitted decision after parsing and validation. */
  datatype Parsed = Invalid | Accepted(verdict: Verdict)

  /** The result file as startup finds it. */
  datatype ResultFile = Absent | Unreadable | Malformed | Holds(verdict: Verdict)

  /** A process probe; `Unknown` is a probe that errs. */
  datatype Liveness = Alive | Dead | Unknown

  /** `failure` is the report's own code with the surrounding space trimmed. */
  datatype ExitReport = ExitReport(started: bool, exitCode: int, failure: Code)

  function ExitCode(report: ExitReport): Code {
    if report.failure == "" then
      if !report.started then "child_not_started"
      else if report.exitCode != 0 then "child_failed"
      else "missing_result"
    else if report.failure in {"child_not_started", "child_failed", "missing_result",
                               "malformed_result", "submit_failed", "budget_exhausted"} then
      report.failure
    else "malformed_exit_report"
  }

  const KNOWN_CODES: set<Code> := {"child_not_started", "child_failed", "missing_result",
                                   "malformed_result", "submit_failed", "budget_exhausted"}

  /** What an exit report comes to: its own code if that is a known one, what became of
      the process if it names none, and otherwise that the report is malformed. */
  lemma ExitCodeIsKnown(report: ExitReport)
    ensures var code := ExitCode(report);
      && (code in KNOWN_CODES || code == "malformed_exit_report")
      && (report.failure in KNOWN_CODES ==> code == report.failure)
      && (code == "malformed_exit_report" <==> report.failure != "" && report.failure !in KNOWN_CODES)
      && (report.failure == "" ==>
            && (code == "child_not_started" <==> !report.started)
            && (code == "child_failed" <==> report.started && report.exitCode != 0)
            && (code == "missing_result" <==> report.started && report.exitCode == 0))
  {
  }
}
