/** The rows shared by report import, retention and ticketing. */
module FindingTables {
  // The empty snapshot reference of a state whose report expired.
  const NO_SNAPSHOT: nat := 0

  // The columns of a finding that only describe it; cves is the comma-separated list as imported.
  datatype About = About(title: string, host: string, port: string, cves: string, remediation: string, nvtOid: string,
                         location: string, threat: string, qod: int, evidence: string, cvssVector: string, summary: string,
                         insight: string, impact: string, affected: string, solutionType: string, references: seq<string>)

  const NO_ABOUT: About := About("", "", "", "", "", "", "", "", 0, "", "", "", "", "", "", "", [])

  // One finding of one report. Severity in tenths.
  datatype Finding = Finding(fingerprint: string, severity: int, about: About)

  datatype TaskRef = TaskRef(customer: string, task: string) {
    predicate Managed() { customer != "" && task != "" }
  }

  datatype Report = Report(ref: TaskRef, taskName: string, scanEnd: int, findings: seq<Finding>)

  datatype Snapshot =
    | Imported(reportId: string, report: Report)
    | Failure(reportId: string, ref: TaskRef, attempts: nat)

  datatype StateKey = StateKey(ref: TaskRef, fingerprint: string)

  datatype FindingState = FindingState(firstSeen: int, lastSeen: int, lastSnapshot: nat, present: bool, severity: int)
}
