/** The directory of one process record. */
module RecordDir {
  import opened Common
  import opened RecordProtocol

  class ProcDir {
    var meta: File<Meta>
    var pid: File<nat>
    var pgid: File<nat>
    var supPid: File<nat>
    var exit: File<int>
    var crashed: bool

    /** A record as Run leaves it: initial metadata and nothing else. */
    constructor ()
      ensures Files() == Dir(Data(Meta(0, false)), Absent, Absent, Absent, Absent, false)
    {
      meta := Data(Meta(0, false));
      pid, pgid, supPid, exit, crashed := Absent, Absent, Absent, Absent, false;
    }

    ghost function Files(): Dir
      reads this
    {
      Dir(meta, pid, pgid, supPid, exit, crashed)
    }
  }
}
