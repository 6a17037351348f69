/** Supervise as it is written, with every write allowed to fail, proved to follow the
    supervisor's step program when nothing interferes. */
module SuperviseRun {
  import opened Common
  import opened RecordProtocol
  import opened RecordDir

  /** The child a supervisor will start and how it will end. */
  datatype Child = Child(pid: nat, start: nat, how: Outcome)

  /** Which writes, and which other fallible calls, go through. */
  type Luck = SupPc -> bool

  predicate Ready(os: Os, k: Child) {
    && os.alive && os.tool.NotStarted? && os.supId in os.table
    && k.pid > 0 && k.pid !in os.table
  }

  /** One step of a supervisor left alone with its child. */
  function StepAlone(s: Shared, luck: Luck, k: Child): Shared {
    if s.sup.Leave? then s
    else if s.sup.Launch? && luck(Launch) then StartTool(s, k.pid, k.start)
    else if s.sup.AwaitExit? && s.os.tool.Up? then s.(os := EndTool(s.os, k.how))
    else SupNext(s, luck(s.sup))
  }

  predicate Linked(path: seq<Shared>, luck: Luck, k: Child, i: nat)
    requires i + 1 < |path|
  {
    path[i + 1] == StepAlone(path[i], luck, k)
  }

  /** The supervisor, left alone, comes from `s` to `t` in some number of its steps. */
  ghost predicate Follows(s: Shared, t: Shared, luck: Luck, k: Child) {
    exists path: seq<Shared> ::
      && |path| > 0 && path[0] == s && path[|path| - 1] == t
      && forall i: nat | i + 1 < |path| :: Linked(path, luck, k, i)
  }

  lemma Here(s: Shared, luck: Luck, k: Child)
    ensures Follows(s, s, luck, k)
  {
    var path := [s];
    assert |path| > 0 && path[0] == s && path[|path| - 1] == s;
  }

  lemma Joined(s: Shared, t: Shared, u: Shared, luck: Luck, k: Child)
    requires Follows(s, t, luck, k) && Follows(t, u, luck, k)
    ensures Follows(s, u, luck, k)
  {
    var p: seq<Shared> :| |p| > 0 && p[0] == s && p[|p| - 1] == t
      && forall i: nat | i + 1 < |p| :: Linked(p, luck, k, i);
    var q: seq<Shared> :| |q| > 0 && q[0] == t && q[|q| - 1] == u
      && forall i: nat | i + 1 < |q| :: Linked(q, luck, k, i);
    var path := p + q[1..];
    forall i: nat | i + 1 < |path| ensures Linked(path, luck, k, i) {
      if i + 1 < |p| {
        assert Linked(p, luck, k, i);
      } else {
        var j: nat := i + 1 - |p|;
        assert Linked(q, luck, k, j);
        assert path[i] == q[j] && path[i + 1] == q[j + 1];
      }
    }
    assert |path| > 0 && path[0] == s && path[|path| - 1] == u;
  }

  /** One more step on the way. */
  lemma Onward(s: Shared, t: Shared, luck: Luck, k: Child) returns (u: Shared)
    requires Follows(s, t, luck, k)
    ensures u == StepAlone(t, luck, k) && Follows(s, u, luck, k)
  {
    u := StepAlone(t, luck, k);
    var path := [t, u];
    assert |path| > 0 && path[0] == t && path[|path| - 1] == u;
    forall i: nat | i + 1 < |path| ensures Linked(path, luck, k, i) {}
    Joined(s, t, u, luck, k);
  }

  datatype FileName = SupervisorPidFile | PidFile | PgidFile

  /** A plain write truncates and then stores; either half can fail. */
  method WriteRecord(dir: ProcDir, name: FileName, value: nat, truncated: bool, stored: bool) returns (err: bool)
    modifies dir
    ensures err == !(truncated && stored)
    ensures var content := if stored then Data(value) else Torn;
            var d := old(dir.Files());
            dir.Files() == if !truncated then d else
              match name
              case SupervisorPidFile => d.(supPid := content)
              case PidFile => d.(pid := content)
              case PgidFile => d.(pgid := content)
  {
    if !truncated { return true; }
    match name {
      case SupervisorPidFile => dir.supPid := if stored then Data(value) else Torn;
      case PidFile => dir.pid := if stored then Data(value) else Torn;
      case PgidFile => dir.pgid := if stored then Data(value) else Torn;
    }
    return !stored;
  }

  method WriteExitCode(dir: ProcDir, code: int, truncated: bool, stored: bool) returns (err: bool)
    modifies dir
    ensures err == !(truncated && stored)
    ensures dir.Files() == if !truncated then old(dir.Files())
                       else old(dir.Files()).(exit := if stored then Data(code) else Torn)
  {
    if !truncated { return true; }
    dir.exit := if stored then Data(code) else Torn;
    return !stored;
  }

  /** Starts the tool, or records 127 when it cannot be started. */
  method StartChild(dir: ProcDir, ghost s: Shared, luck: Luck, k: Child) returns (err: bool, ghost t: Shared)
    requires s.dir == dir.Files() && s.sup == Launch && Ready(s.os, k)
    modifies dir
    ensures t.dir == dir.Files() && Follows(s, t, luck, k)
    ensures err == !luck(Launch)
    ensures err ==> t.sup.Leave? && t.os == s.os && (luck(TruncFail) && luck(PutFail) ==> dir.exit == Data(127))
    ensures !err ==> t == StartTool(s, k.pid, k.start) && t.sup == TruncPid && dir.Files() == old(dir.Files())
    ensures dir.exit == old(dir.exit) || dir.exit.Torn? || dir.exit == Data(127)
  {
    if luck(Launch) {
      Here(s, luck, k);
      t := Onward(s, s, luck, k);
      return false, t;
    }
    Here(s, luck, k);
    t := Onward(s, s, luck, k);
    var _ := WriteExitCode(dir, 127, luck(TruncFail), luck(PutFail));
    t := Onward(s, t, luck, k);
    if luck(TruncFail) { t := Onward(s, t, luck, k); }
    err := true;
  }

  /** Records the PID; a child that cannot be recorded is killed. */
  method RecordPid(dir: ProcDir, ghost s: Shared, luck: Luck, k: Child) returns (err: bool, ghost t: Shared)
    requires s.dir == dir.Files() && s.sup == TruncPid && s.os.tool.Up? && s.os.tool.pid == k.pid
    modifies dir
    ensures t.dir == dir.Files() && Follows(s, t, luck, k) && t.mem == s.mem
    ensures err == !(luck(TruncPid) && luck(PutPid))
    ensures if err then t.sup.Leave? && t.os == EndTool(s.os, Signaled(9))
            else t.sup == TruncPgid && t.os == s.os && dir.pid == Data(k.pid)
    ensures dir.supPid == old(dir.supPid) && dir.exit == old(dir.exit) && dir.meta == old(dir.meta)
  {
    Here(s, luck, k);
    t := Onward(s, s, luck, k);
    err := WriteRecord(dir, PidFile, k.pid, luck(TruncPid), luck(PutPid));
    if luck(TruncPid) { t := Onward(s, t, luck, k); }
    if err { t := Onward(s, t, luck, k); }
  }

  /** Records the process group, under the same rule. */
  method RecordPgid(dir: ProcDir, ghost s: Shared, luck: Luck, k: Child) returns (err: bool, ghost t: Shared)
    requires s.dir == dir.Files() && s.sup == TruncPgid && s.os.tool.Up? && s.os.tool.pid == k.pid
    modifies dir
    ensures t.dir == dir.Files() && Follows(s, t, luck, k) && t.mem == s.mem
    ensures err == !(luck(TruncPgid) && luck(PutPgid))
    ensures if err then t.sup.Leave? && t.os == EndTool(s.os, Signaled(9))
            else t.sup == Sign && t.os == s.os && dir.pgid == Data(k.pid)
    ensures dir.pid == old(dir.pid) && dir.supPid == old(dir.supPid) && dir.exit == old(dir.exit) && dir.meta == old(dir.meta)
  {
    Here(s, luck, k);
    t := Onward(s, s, luck, k);
    err := WriteRecord(dir, PgidFile, k.pid, luck(TruncPgid), luck(PutPgid));
    if luck(TruncPgid) { t := Onward(s, t, luck, k); }
    if err { t := Onward(s, t, luck, k); }
  }

  /** Records the start-time signature in the metadata, without which the record is only
      less well guarded. `sig` is what reading the start time gave. */
  method RecordSignature(dir: ProcDir, ghost s: Shared, luck: Luck, k: Child, mem: Meta, sig: nat)
      returns (mem': Meta, ghost t: Shared)
    requires s.dir == dir.Files() && s.sup == Sign && s.mem == mem && ToolPid(s.os.tool) in s.os.table
    requires sig == if luck(Sign) then s.os.table[ToolPid(s.os.tool)].start else 0
    modifies dir
    ensures t.dir == dir.Files() && Follows(s, t, luck, k) && t.mem == mem'
    ensures t.sup == AwaitExit && t.os == s.os
    ensures dir.pid == old(dir.pid) && dir.pgid == old(dir.pgid) && dir.supPid == old(dir.supPid) && dir.exit == old(dir.exit)
    ensures sig != 0 && luck(TruncMeta) && luck(PutMeta) && mem.startTime == 0 ==>
              dir.meta == Data(mem.(startTime := sig))
  {
    mem' := mem;
    Here(s, luck, k);
    t := Onward(s, s, luck, k);
    if sig != 0 && sig != mem.startTime {
      mem' := mem.(startTime := sig);
      t := Onward(s, t, luck, k);
      if luck(TruncMeta) {
        dir.meta := if luck(PutMeta) then Data(mem') else Torn;
        t := Onward(s, t, luck, k);
      }
    }
  }

  method RecordStart(dir: ProcDir, ghost s: Shared, luck: Luck, k: Child, mem: Meta, sig: nat)
      returns (err: bool, mem': Meta, ghost t: Shared)
    requires s.dir == dir.Files() && s.sup == TruncPid && s.mem == mem
    requires s.os.tool.Up? && s.os.tool.pid == k.pid && k.pid in s.os.table
    requires sig == if luck(Sign) then s.os.table[k.pid].start else 0
    modifies dir
    ensures t.dir == dir.Files() && Follows(s, t, luck, k) && t.mem == mem'
    ensures err == !(luck(TruncPid) && luck(PutPid) && luck(TruncPgid) && luck(PutPgid))
    ensures if err then t.sup.Leave? && t.os == EndTool(s.os, Signaled(9))
            else t.sup == AwaitExit && t.os == s.os && dir.pid == dir.pgid == Data(k.pid)
    ensures dir.supPid == old(dir.supPid) && dir.exit == old(dir.exit)
  {
    mem' := mem;
    err, t := RecordPid(dir, s, luck, k);
    if err { return; }
    ghost var u := t;
    err, u := RecordPgid(dir, t, luck, k);
    Joined(s, t, u, luck, k);
    t := u;
    if err { return; }
    mem', u := RecordSignature(dir, t, luck, k, mem, sig);
    Joined(s, t, u, luck, k);
    t := u;
  }

  /** Waits for the child and records how it ended. */
  method AwaitChild(dir: ProcDir, ghost s: Shared, luck: Luck, k: Child) returns (err: bool, ghost t: Shared)
    requires s.dir == dir.Files() && s.sup == AwaitExit
    requires s.os.tool.Up? && s.os.tool.pid in s.os.table
    modifies dir
    ensures t.dir == dir.Files() && Follows(s, t, luck, k)
    ensures t.os == ReapTool(EndTool(s.os, k.how))
    ensures err == !(luck(TruncExit(ExitCodeOf(k.how))) && luck(PutExit(ExitCodeOf(k.how))))
    ensures if err then t.sup.Leave? else t.sup == Linger && dir.exit == Data(ShellCode(k.how))
    ensures !err ==> dir.exit == match k.how case Exited(n) => Data(n) case Signaled(n) => Data(128 + n)
    ensures dir.exit == old(dir.exit) || dir.exit.Torn? || dir.exit == Data(ShellCode(k.how))
    ensures dir.pid == old(dir.pid) && dir.pgid == old(dir.pgid) && dir.supPid == old(dir.supPid)
  {
    var code := ExitCodeFromProcessState(ReportOf(k.how));
    CodesByOutcome(k.how);
    Here(s, luck, k);
    t := Onward(s, s, luck, k);
    t := Onward(s, t, luck, k);
    err := WriteExitCode(dir, code, luck(TruncExit(code)), luck(PutExit(code)));
    t := Onward(s, t, luck, k);
    if luck(TruncExit(code)) { t := Onward(s, t, luck, k); }
  }

  /** MarkNotified after the hooks: reads the metadata again and sets the flag. */
  method MarkWoken(dir: ProcDir, ghost s: Shared, luck: Luck, k: Child) returns (ghost t: Shared)
    requires s.dir == dir.Files() && s.sup == HookReread
    modifies dir`meta
    ensures t.dir == dir.Files() && Follows(s, t, luck, k) && t.sup.Leave? && t.os == s.os
    ensures old(dir.meta.Data?) && luck(HookMark(old(dir.meta.val))) ==> Notified(dir.Files())
  {
    Here(s, luck, k);
    t := Onward(s, s, luck, k);
    if dir.meta.Data? && !dir.meta.val.notified {
      var copy := dir.meta.val;
      if luck(HookMark(copy)) { dir.meta := Data(copy.(notified := true)); }
      t := Onward(s, t, luck, k);
    }
  }

  /** The wake: lingers, tests the flag, starts the hooks, and marks the record notified if one
      was started. */
  method MaybeFireHooks(dir: ProcDir, ghost s: Shared, luck: Luck, k: Child) returns (ghost t: Shared)
    requires s.dir == dir.Files() && s.sup == Linger
    modifies dir`meta
    ensures t.dir == dir.Files() && Follows(s, t, luck, k) && t.sup.Leave? && t.os == s.os
    ensures old(dir.meta.Data?) && luck(HookGate) && luck(HookStart) && luck(HookMark(old(dir.meta.val))) ==>
              Notified(dir.Files())
  {
    Here(s, luck, k);
    t := Onward(s, s, luck, k);
    var notified := dir.meta.Data? && dir.meta.val.notified;
    t := Onward(s, t, luck, k);
    if notified || !luck(HookGate) { return; }
    t := Onward(s, t, luck, k);
    if !luck(HookStart) { return; }
    ghost var u := MarkWoken(dir, t, luck, k);
    Joined(s, t, u, luck, k);
    t := u;
  }

  /** Reads the metadata, records the supervisor's own PID and opens the streams. */
  method Prelude(dir: ProcDir, os: Os, luck: Luck, k: Child) returns (err: bool, mem: Meta, ghost t: Shared)
    requires Ready(os, k)
    modifies dir
    ensures Follows(Shared(old(dir.Files()), os, ReadMeta, Meta(0, false)), t, luck, k)
    ensures t.dir == dir.Files() && t.os == os
    ensures if err then t.sup.Leave?
            else t.sup == Launch && t.mem == mem && old(dir.meta) == Data(mem) && dir.supPid == Data(os.supId)
    ensures err == !(old(dir.meta.Data?) && luck(ReadMeta) && luck(TruncSup) && luck(PutSup) && luck(OpenStreams))
    ensures dir.exit == old(dir.exit) && dir.meta == old(dir.meta)
  {
    ghost var s := Shared(dir.Files(), os, ReadMeta, Meta(0, false));
    mem := Meta(0, false);
    Here(s, luck, k);
    t := Onward(s, s, luck, k);
    if !luck(ReadMeta) || !dir.meta.Data? { return true, Meta(0, false), t; }
    mem := dir.meta.val;
    t := Onward(s, t, luck, k);
    err := WriteRecord(dir, SupervisorPidFile, os.supId, luck(TruncSup), luck(PutSup));
    if luck(TruncSup) { t := Onward(s, t, luck, k); }
    if err { return; }
    t := Onward(s, t, luck, k);
    err := !luck(OpenStreams);
  }

  /** Everything after the tool was started. */
  method Track(dir: ProcDir, ghost s: Shared, luck: Luck, k: Child, mem: Meta) returns (err: bool, ghost t: Shared)
    requires s.dir == dir.Files() && s.sup == TruncPid && s.mem == mem && dir.exit.Absent?
    requires s.os.tool.Up? && s.os.tool.pid == k.pid && k.pid in s.os.table && s.os.table[k.pid].start == k.start
    modifies dir
    ensures Follows(s, t, luck, k) && t.dir == dir.Files() && t.sup.Leave?
    ensures dir.supPid == old(dir.supPid)
    ensures !err ==> dir.exit.Data? && dir.pid == dir.pgid == Data(k.pid)
    ensures dir.exit.Data? ==> dir.exit.val == ShellCode(k.how)
    ensures (forall pc :: luck(pc)) ==> !err
  {
    var sig := if luck(Sign) then k.start else 0;
    var mem' := mem;
    err, mem', t := RecordStart(dir, s, luck, k, mem, sig);
    if err { return; }
    ghost var u := t;
    err, u := AwaitChild(dir, t, luck, k);
    Joined(s, t, u, luck, k);
    t := u;
    if err { return; }
    u := MaybeFireHooks(dir, t, luck, k);
    Joined(s, t, u, luck, k);
    t := u;
  }

  /** A whole supervision that nothing interferes with ends where the step program ends.
      Its exit_code is 127 if the tool could not be started and otherwise the code of the
      child's real end; it is missing only if an error was reported. */
  method Supervise(dir: ProcDir, os: Os, luck: Luck, k: Child) returns (err: bool, ghost end: Shared)
    requires Ready(os, k) && dir.exit.Absent?
    modifies dir
    ensures Follows(Shared(old(dir.Files()), os, ReadMeta, Meta(0, false)), end, luck, k)
    ensures end.dir == dir.Files() && end.sup.Leave?
    ensures !err ==> luck(Launch) && dir.exit.Data? && dir.pid == dir.pgid == Data(k.pid) && dir.supPid == Data(os.supId)
    ensures dir.exit.Data? ==>
              dir.exit.val == if !luck(Launch) then 127
                              else match k.how case Exited(n) => n case Signaled(n) => 128 + n
    ensures (forall pc :: luck(pc)) && old(dir.meta.Data?) ==> !err
  {
    ghost var s := Shared(dir.Files(), os, ReadMeta, Meta(0, false));
    var mem: Meta;
    err, mem, end := Prelude(dir, os, luck, k);
    if err { return; }
    ghost var t := end;
    err, t := StartChild(dir, end, luck, k);
    Joined(s, end, t, luck, k);
    end := t;
    if err { return; }
    err, t := Track(dir, end, luck, k, mem);
    Joined(s, end, t, luck, k);
    end := t;
  }
}
