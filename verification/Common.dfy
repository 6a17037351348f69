/** Shared value types. */
module Common {

  datatype Option<+T> = None | Some(value: T)

  /** A record file as a reader finds it. A plain write truncates first and stores second,
      so a reader, or a writer that died in between, can leave it empty: `Torn`. */
  datatype File<+T> = Absent | Torn | Data(val: T)

  datatype Status = Running | Completed | Failed | Crashed

  predicate IsTerminal(status: Status) {
    status.Completed? || status.Failed? || status.Crashed?
  }

  /** How a tool process really ended. */
  datatype Outcome = Exited(status: nat) | Signaled(signal: nat)

  /** What the wait call on the child hands back. */
  datatype WaitReport =
    | NoError
    | ExitError(how: Outcome)
    | ExitErrorWithoutStatus(code: int)
    | OtherError

  function ReportOf(how: Outcome): WaitReport {
    if how == Exited(0) then NoError else ExitError(how)
  }

  function ExitCodeFromProcessState(report: WaitReport): int {
    match report
    case NoError => 0
    case ExitError(Signaled(signal)) => 128 + signal
    case ExitError(Exited(status)) => status
    case ExitErrorWithoutStatus(code) => code
    case OtherError => 1
  }

  function ExitCodeOf(how: Outcome): int {
    ExitCodeFromProcessState(ReportOf(how))
  }

  /** The shell convention: a status as it is, a signal offset by 128. */
  function ShellCode(how: Outcome): int {
    match how
    case Exited(status) => status
    case Signaled(signal) => 128 + signal
  }

  /** What is recorded is the shell's code of the real end, and 1 when waiting failed in
      another way. */
  lemma CodesByOutcome(how: Outcome)
    ensures ExitCodeOf(how) == ShellCode(how)
    ensures ExitCodeFromProcessState(OtherError) == 1
  {}

  function StatusOfCode(code: int): Status {
    if code == 0 then Completed else Failed
  }

  predicate NoDup<T(==)>(xs: seq<T>) {
    forall i, j | 0 <= i < j < |xs| :: xs[i] != xs[j]
  }
}
