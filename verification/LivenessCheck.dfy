/** CheckLiveness as it is written, branch by branch, with every probe and write allowed to
    fail, proved to do what its step program in RecordProtocol does when nobody interferes: the
    step program is the code's own. */
module LivenessCheck {
  import opened Common
  import opened RecordProtocol
  import opened MarkerSafety
  import opened RecordDir

  /** Which probes are answered and which writes go through. */
  type Luck = ObsPc -> bool

  /** A check that is left alone. */
  function Solo(v: Variant, s: Shared, pc: ObsPc, luck: Luck): (r: (ObsPc, Dir))
    ensures Answered(r.0)
    decreases LooksLeft(pc)
  {
    if Answered(pc) then (pc, s.dir)
    else Solo(v, s.(dir := ObsDirNext(s.dir, pc, luck(pc))), ObsPcNext(v, s, pc, luck(pc)), luck)
  }

  lemma DoneAlone(v: Variant, s: Shared, status: Status, code: Option<int>, luck: Luck)
    ensures Solo(v, s, Done(status, code), luck) == (Done(status, code), s.dir)
  {}

  lemma MarkerAlone(v: Variant, s: Shared, luck: Luck)
    ensures Solo(v, s, MarkerCode, luck) == (Done(Crashed, CodeOf(s.dir)), s.dir)
  {}

  lemma MarkAlone(v: Variant, s: Shared, b: Branch, luck: Luck)
    ensures Solo(v, s, MarkIt(b), luck) ==
              (Done(Crashed, None), if luck(MarkIt(b)) then s.dir.(crashed := true) else s.dir)
  {}

  /** A supervisor whose state cannot be read counts as alive. */
  predicate Finalizing(d: Dir, os: Os, readable: bool) {
    d.supPid.Data? && d.supPid.val > 0 && d.supPid.val in os.table && !(readable && ZombieAt(os, d.supPid.val))
  }

  lemma NotFinalizingAlone(v: Variant, s: Shared, b: Branch, luck: Luck)
    requires !s.dir.crashed && !s.dir.exit.Data?
    ensures Solo(v, s, NotFinalizing(v, b), luck) == Solo(v, s, MarkIt(b), luck)
  {
    assert Solo(v, s, Stat2(b), luck) == Solo(v, s, RdExit2(b), luck) == Solo(v, s, MarkIt(b), luck);
  }

  lemma ProbeAlone(v: Variant, s: Shared, b: Branch, sp: nat, luck: Luck)
    requires !s.dir.crashed && !s.dir.exit.Data?
    ensures Solo(v, s, SupKill0(b, sp), luck) ==
              if sp in s.os.table && !(luck(SupZ(b, sp)) && ZombieAt(s.os, sp)) then (Done(Running, None), s.dir)
              else Solo(v, s, MarkIt(b), luck)
  {
    NotFinalizingAlone(v, s, b, luck);
    DoneAlone(v, s, Running, None, luck);
    if sp in s.os.table {
      assert Solo(v, s, SupKill0(b, sp), luck) == Solo(v, s, SupZ(b, sp), luck);
    }
  }

  /** What the supervisor probe decides for a check that is left alone. */
  lemma SearchAlone(v: Variant, s: Shared, b: Branch, luck: Luck)
    requires !s.dir.crashed && !s.dir.exit.Data?
    ensures Solo(v, s, SupRd(b), luck) ==
              if Finalizing(s.dir, s.os, luck(SupZ(b, ReadInt(s.dir.supPid)))) then (Done(Running, None), s.dir)
              else Solo(v, s, MarkIt(b), luck)
  {
    var sp := ReadInt(s.dir.supPid);
    if sp == 0 {
      NotFinalizingAlone(v, s, b, luck);
    } else {
      ProbeAlone(v, s, b, sp, luck);
    }
  }

  datatype Liveness = Liveness(status: Status, pid: nat, pgid: nat, exitCode: Option<int>)

  method StatusFromMarkers(dir: ProcDir) returns (status: Status, code: Option<int>, ok: bool)
    ensures ok == dir.crashed
    ensures ok ==> status == Crashed && code == CodeOf(dir.Files())
  {
    status, code, ok := Running, None, false;
    if dir.crashed {
      status, ok := Crashed, true;
      if dir.exit.Data? { code := Some(dir.exit.val); }
    }
  }

  method StatusFromExitCode(dir: ProcDir) returns (status: Status, code: Option<int>, ok: bool)
    ensures ok == dir.exit.Data?
    ensures ok ==> status == StatusOfCode(dir.exit.val) && code == CodeOf(dir.Files())
  {
    if !dir.exit.Data? { return Running, None, false; }
    if dir.exit.val == 0 { return Completed, Some(0), true; }
    return Failed, Some(dir.exit.val), true;
  }

  /** A live supervisor that is not a zombie may still write exit_code. */
  method IsSupervisorFinalizing(dir: ProcDir, os: Os, readable: bool) returns (finalizing: bool)
    ensures finalizing <==> Finalizing(dir.Files(), os, readable)
  {
    var sup := ReadInt(dir.supPid);
    if sup > 0 {
      if sup in os.table {
        var zombie := readable && os.table[sup].zombie;
        if !zombie { return true; }
      }
    }
    return false;
  }

  method PidRecycled(os: Os, pid: nat, handed: Option<Meta>, readable: bool) returns (recycled: bool)
    ensures recycled <==> readable && handed.Some? && StartDiffers(os, handed.value.startTime, pid)
  {
    if handed.Some? && handed.value.startTime != 0 {
      var now := if readable && pid in os.table then os.table[pid].start else 0;
      if now != 0 && now != handed.value.startTime { return true; }
    }
    return false;
  }

  /** A failed write is not reported. */
  method MarkCrashed(dir: ProcDir, written: bool)
    modifies dir`crashed
    ensures dir.Files() == if written then old(dir.Files()).(crashed := true) else old(dir.Files())
  {
    if written { dir.crashed := true; }
  }

  /** The recorded process is gone, or a zombie, and so is its supervisor. */
  predicate Vanished(d: Dir, os: Os) {
    && (ReadInt(d.pid) in os.table ==> os.table[ReadInt(d.pid)].zombie)
    && (d.supPid.Data? && d.supPid.val > 0 && d.supPid.val in os.table ==> os.table[d.supPid.val].zombie)
  }

  /** The recorded PID belongs to a live process that started at another time. */
  predicate Replaced(d: Dir, os: Os, handed: Option<Meta>) {
    var p := ReadInt(d.pid);
    && p in os.table && !os.table[p].zombie && os.table[p].start != 0
    && handed.Some? && handed.value.startTime != 0 && handed.value.startTime != os.table[p].start
  }

  /** What the probes of a record that is neither marked nor has a code decide. With all of them
      answered and the marker written: `crashed`, with the marker, exactly if the recorded
      process has vanished with its supervisor or has been replaced. A refused signal counts as
      no process; a state or a start time that cannot be read raises no suspicion. */
  ghost predicate Verdict(d: Dir, os: Os, handed: Option<Meta>, luck: Luck, crashed: bool, marked: bool) {
    var (st, p) := (if handed.Some? then handed.value.startTime else 0, ReadInt(d.pid));
    && ((forall pc :: luck(pc)) ==> marked == crashed && (crashed <==> Vanished(d, os) || Replaced(d, os, handed)))
    && (!luck(Kill0(st, p)) ==> (crashed <==> !Finalizing(d, os, luck(SupZ(Unreachable, ReadInt(d.supPid))))))
    && (luck(Kill0(st, p)) && p in os.table && !luck(ToolZ(st, p)) && !luck(Recyc(st, p)) ==> !crashed)
  }

  /** Through which branch the probes of such a record lead to the marker, if through any. */
  function Suspect(d: Dir, os: Os, st: nat, luck: Luck): Option<Branch> {
    var (p, sp) := (ReadInt(d.pid), ReadInt(d.supPid));
    if !luck(Kill0(st, p)) || p !in os.table then
      if Finalizing(d, os, luck(SupZ(Unreachable, sp))) then None else Some(Unreachable)
    else if luck(ToolZ(st, p)) && os.table[p].zombie then
      if Finalizing(d, os, luck(SupZ(ToolZombie, sp))) then None else Some(ToolZombie)
    else if luck(Recyc(st, p)) && StartDiffers(os, st, p) then Some(Recycled)
    else None
  }

  function Marked(d: Dir, b: Option<Branch>, luck: Luck): (ObsPc, Dir) {
    if b.None? then (Done(Running, None), d)
    else (Done(Crashed, None), if luck(MarkIt(b.value)) then d.(crashed := true) else d)
  }

  lemma ReachesRecyc(s: Shared, st: nat, p: nat, luck: Luck)
    requires luck(Kill0(st, p)) && p in s.os.table
    ensures Solo(AsWritten, s, Kill0(st, p), luck) ==
              if luck(ToolZ(st, p)) && s.os.table[p].zombie then Solo(AsWritten, s, SupRd(ToolZombie), luck)
              else Solo(AsWritten, s, Recyc(st, p), luck)
  {
    assert Solo(AsWritten, s, Kill0(st, p), luck) == Solo(AsWritten, s, ToolZ(st, p), luck);
  }

  lemma SearchMarks(s: Shared, b: Branch, luck: Luck)
    requires !s.dir.crashed && !s.dir.exit.Data?
    ensures Solo(AsWritten, s, SupRd(b), luck) ==
              Marked(s.dir, if Finalizing(s.dir, s.os, luck(SupZ(b, ReadInt(s.dir.supPid)))) then None else Some(b), luck)
  {
    SearchAlone(AsWritten, s, b, luck);
    MarkAlone(AsWritten, s, b, luck);
  }

  lemma RecycAlone(s: Shared, st: nat, p: nat, luck: Luck)
    ensures Solo(AsWritten, s, Recyc(st, p), luck) ==
              Marked(s.dir, if luck(Recyc(st, p)) && StartDiffers(s.os, st, p) then Some(Recycled) else None, luck)
  {
    DoneAlone(AsWritten, s, Running, None, luck);
    MarkAlone(AsWritten, s, Recycled, luck);
  }

  lemma ProbesDecide(s: Shared, st: nat, luck: Luck)
    requires !s.dir.crashed && !s.dir.exit.Data?
    ensures Solo(AsWritten, s, Kill0(st, ReadInt(s.dir.pid)), luck) == Marked(s.dir, Suspect(s.dir, s.os, st, luck), luck)
  {
    var p := ReadInt(s.dir.pid);
    if !luck(Kill0(st, p)) || p !in s.os.table {
      assert Solo(AsWritten, s, Kill0(st, p), luck) == Solo(AsWritten, s, SupRd(Unreachable), luck);
      SearchMarks(s, Unreachable, luck);
    } else {
      ReachesRecyc(s, st, p, luck);
      SearchMarks(s, ToolZombie, luck);
      RecycAlone(s, st, p, luck);
    }
  }

  lemma SuspectOk(d: Dir, os: Os, handed: Option<Meta>, luck: Luck)
    requires !d.crashed && ReadInt(d.pid) > 0
    ensures var st := if handed.Some? then handed.value.startTime else 0;
            var b := Suspect(d, os, st, luck);
            Verdict(d, os, handed, luck, b.Some?, b.Some? && luck(MarkIt(b.value)))
  {}

  /** Its second half: probes the recorded process, and the supervisor if that is gone. */
  method ProbeProcess(dir: ProcDir, os: Os, handed: Option<Meta>, luck: Luck) returns (status: Status)
    requires !dir.crashed && !dir.exit.Data? && ReadInt(dir.pid) > 0
    modifies dir`crashed
    ensures var st := if handed.Some? then handed.value.startTime else 0;
            var s := Shared(old(dir.Files()), os, Leave, Meta(0, false));
            var (pc, d) := Solo(AsWritten, s, Kill0(st, ReadInt(s.dir.pid)), luck);
            Answer(pc) == Some((status, None)) && dir.Files() == d
    ensures status.Running? || status.Crashed?
    ensures Verdict(old(dir.Files()), os, handed, luck, status == Crashed, dir.crashed)
  {
    var st := if handed.Some? then handed.value.startTime else 0;
    var p := ReadInt(dir.pid);
    ghost var d := dir.Files();
    ProbesDecide(Shared(d, os, Leave, Meta(0, false)), st, luck);
    SuspectOk(d, os, handed, luck);

    if !luck(Kill0(st, p)) || p !in os.table {
      var finalizing := IsSupervisorFinalizing(dir, os, luck(SupZ(Unreachable, ReadInt(dir.supPid))));
      if finalizing { return Running; }
      var _, _, marked := StatusFromMarkers(dir);
      if marked { assert false; }  // left alone, the second look sees what the first saw
      var _, _, coded := StatusFromExitCode(dir);
      if coded { assert false; }
      MarkCrashed(dir, luck(MarkIt(Unreachable)));
      return Crashed;
    }

    if luck(ToolZ(st, p)) && os.table[p].zombie {
      var finalizing := IsSupervisorFinalizing(dir, os, luck(SupZ(ToolZombie, ReadInt(dir.supPid))));
      if finalizing { return Running; }
      MarkCrashed(dir, luck(MarkIt(ToolZombie)));
      return Crashed;
    }

    var recycled := PidRecycled(os, p, handed, luck(Recyc(st, p)));
    if recycled {
      MarkCrashed(dir, luck(MarkIt(Recycled)));
      return Crashed;
    }
    return Running;
  }

  /** Left alone, CheckLiveness gives the answer of its step program and leaves the
      directory as that program does; `handed` is the metadata the caller read. With its probes
      answered and its write going through it answers CRASHED, and leaves the marker, exactly
      for a marked record and for one without a code whose recorded process has vanished with
      its supervisor or has been replaced. */
  method CheckLiveness(dir: ProcDir, os: Os, handed: Option<Meta>, luck: Luck) returns (lv: Liveness)
    modifies dir`crashed
    ensures var st := if handed.Some? then handed.value.startTime else 0;
            var (pc, d) := Solo(AsWritten, Shared(old(dir.Files()), os, Leave, Meta(0, false)), RdPid(st), luck);
            Answer(pc).value == (lv.status, lv.exitCode) && dir.Files() == d
    ensures lv.pid == old(ReadInt(dir.pid)) && lv.pgid == old(ReadInt(dir.pgid))
    ensures (forall pc :: luck(pc)) ==>
              var d := old(dir.Files());
              && dir.crashed == (lv.status == Crashed)
              && (lv.status == Crashed <==>
                    d.crashed || (!d.exit.Data? && lv.pid > 0 && (Vanished(d, os) || Replaced(d, os, handed))))
    ensures lv.status == Completed <==> !old(dir.crashed) && old(dir.exit) == Data(0)
    ensures lv.status == Failed <==> !old(dir.crashed) && old(dir.exit.Data?) && old(dir.exit.val) != 0
  {
    var st := if handed.Some? then handed.value.startTime else 0;
    ghost var s := Shared(dir.Files(), os, Leave, Meta(0, false));
    lv := Liveness(Running, ReadInt(dir.pid), ReadInt(dir.pgid), None);
    var p := lv.pid;
    assert Solo(AsWritten, s, RdPid(st), luck) == Solo(AsWritten, s, Stat1(st, p), luck);

    var status, code, ok := StatusFromMarkers(dir);
    if ok {
      lv := lv.(status := status, exitCode := code);
      assert Solo(AsWritten, s, Stat1(st, p), luck) == Solo(AsWritten, s, MarkerCode, luck);
      MarkerAlone(AsWritten, s, luck);
      return;
    }
    assert Solo(AsWritten, s, Stat1(st, p), luck) == Solo(AsWritten, s, RdExit(st, p), luck);
    status, code, ok := StatusFromExitCode(dir);
    if ok {
      lv := lv.(status := status, exitCode := code);
      DoneAlone(AsWritten, s, status, code, luck);
      assert Solo(AsWritten, s, RdExit(st, p), luck) == Solo(AsWritten, s, Done(status, code), luck);
      return;
    }
    DoneAlone(AsWritten, s, Running, None, luck);
    if lv.pid <= 0 { return; }
    assert Solo(AsWritten, s, RdExit(st, p), luck) == Solo(AsWritten, s, Kill0(st, p), luck);
    status := ProbeProcess(dir, os, handed, luck);
    lv := lv.(status := status);
  }
}
