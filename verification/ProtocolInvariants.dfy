/** What every step of the record protocol keeps, in both variants. */
module ProtocolInvariants {
  import opened Common
  import opened RecordProtocol

  /** The supervisor may still rewrite meta.json from its in-memory copy. */
  predicate BeforeRewrite(pc: SupPc) {
    BeforeStart(pc) || (Recording(pc) && !pc.AbortChild?)
  }

  predicate Early(s: Shared) {
    s.os.alive && BeforeRewrite(s.sup)
  }

  predicate ToolUnderway(pc: SupPc) {
    Recording(pc) || pc.AwaitExit?
  }

  predicate AfterExitWrite(pc: SupPc) {
    pc.Linger? || pc.HookGate? || pc.HookStart? || pc.HookReread? || pc.HookMark? || pc.Leave?
  }

  predicate PidOnDisk(pc: SupPc) {
    pc.TruncPgid? || pc.PutPgid? || pc.Sign? || pc.TruncMeta? || pc.PutMeta?
    || pc.AwaitExit? || pc.TruncExit? || pc.PutExit?
  }

  predicate SupPidOnDisk(pc: SupPc) {
    !pc.ReadMeta? && !pc.TruncSup? && !pc.PutSup? && !pc.Leave?
  }

  ghost predicate OsOk(os: Os) {
    && os.supId > 0 && os.supInc < os.nextInc
    && (os.alive ==> os.supId in os.table && os.table[os.supId].inc == os.supInc && !os.table[os.supId].zombie)
    && (forall p <- os.table :: p > 0 && os.table[p].inc < os.nextInc)
    && (forall p <- os.table | os.table[p].inc == os.supInc :: p == os.supId)
    && (!os.alive && os.supId in os.table && os.table[os.supId].inc == os.supInc ==> os.table[os.supId].zombie)
    && (!os.tool.NotStarted? ==>
          && os.tool.pid > 0 && os.tool.pid != os.supId && os.tool.inc < os.nextInc && os.tool.inc != os.supInc
          && (forall p <- os.table | os.table[p].inc == os.tool.inc :: p == os.tool.pid)
          && (os.tool.Up? ==> os.tool.pid in os.table && os.table[os.tool.pid] == Slot(os.tool.inc, os.tool.start, false))
          && (os.tool.Ended? ==> os.tool.pid in os.table && os.table[os.tool.pid] == Slot(os.tool.inc, os.tool.start, true))
          && (os.tool.Reaped? && os.tool.pid in os.table ==> os.table[os.tool.pid].inc != os.tool.inc))
  }

  /** How the process side can move. */
  predicate OsRely(os: Os, os': Os) {
    && os.supId == os'.supId && os.supInc == os'.supInc
    && (!os.alive ==> !os'.alive)
    && (!os.tool.NotStarted? ==>
          && !os'.tool.NotStarted?
          && os'.tool.pid == os.tool.pid && os'.tool.inc == os.tool.inc && os'.tool.start == os.tool.start)
    && (os.tool.Ended? ==> (os'.tool.Ended? || os'.tool.Reaped?) && os'.tool.how == os.tool.how)
    && (os.tool.Reaped? ==> os'.tool == os.tool)
  }

  predicate PcOk(s: Shared) {
    s.os.alive ==>
      && (BeforeStart(s.sup) ==> s.os.tool.NotStarted?)
      && (ToolUnderway(s.sup) ==> Unreaped(s.os.tool))
      && (s.sup.TruncExit? ==> s.os.tool.Reaped? && s.sup.code == ExitCodeOf(s.os.tool.how))
      && (s.sup.PutExit? ==> s.os.tool.Reaped? && s.sup.code == ExitCodeOf(s.os.tool.how))
  }

  predicate FilesOk(s: Shared) {
    && (s.dir.pid.Data? ==> !s.os.tool.NotStarted? && s.dir.pid.val == s.os.tool.pid && s.dir.supPid.Data?)
    && (s.dir.supPid.Data? ==> s.dir.supPid.val == s.os.supId)
    && (s.os.alive ==>
          && (BeforeStart(s.sup) || s.sup.TruncPid? ==> !s.dir.pid.Data?)
          && (s.sup.ReadMeta? || s.sup.TruncSup? ==> !s.dir.supPid.Data?)
          && (SupPidOnDisk(s.sup) ==> s.dir.supPid.Data?)
          && (PidOnDisk(s.sup) ==> s.dir.pid.Data?)
          && (AfterExitWrite(s.sup) && !s.sup.Leave? ==> s.dir.exit.Data?))
    && (s.dir.exit.Data? ==>
          && (s.os.alive ==> AfterExitWrite(s.sup))
          && (if s.os.tool.NotStarted? then s.dir.exit.val == 127
              else s.os.tool.Reaped? && s.dir.exit.val == ExitCodeOf(s.os.tool.how)))
  }

  /** A start time in any copy of the metadata is the tool's own. */
  predicate OwnStart(os: Os, st: nat) {
    st != 0 ==> !os.tool.NotStarted? && st == os.tool.start
  }

  /** A copy of the metadata read for a read-modify-write still has the start time that is
      on disk. */
  predicate Current(d: Dir, copy: Meta) {
    d.meta.Data? && d.meta.val.startTime == copy.startTime
  }

  predicate MetaOk(s: Shared) {
    && (s.os.alive && BeforeStart(s.sup) ==> s.dir.meta.Data?)
    && (Early(s) ==> !s.dir.crashed && (s.dir.meta.Data? ==> s.dir.meta.val == Meta(0, false)))
    && (Early(s) && !s.sup.ReadMeta? ==> !s.mem.notified)
    && (Early(s) && BeforeStart(s.sup) && !s.sup.ReadMeta? ==> s.mem.startTime == 0)
    && (s.os.alive && Recording(s.sup) ==> OwnStart(s.os, s.mem.startTime))
    && (s.dir.meta.Data? ==> OwnStart(s.os, s.dir.meta.val.startTime))
    && (s.os.alive && s.sup.HookMark? ==> Current(s.dir, s.sup.copy))
  }

  ghost predicate SharedOk(s: Shared) {
    OsOk(s.os) && PcOk(s) && FilesOk(s) && MetaOk(s)
  }

  /** A start time held by a check: nonzero only once the rewrite is over. */
  predicate HeldStart(s: Shared, st: nat) {
    OwnStart(s.os, st) && (st != 0 ==> !Early(s))
  }

  /** A PID held by a check past the spawning test is the tool's, and the supervisor's
      PID was on disk before it. */
  predicate HeldPid(s: Shared, p: nat) {
    p != 0 ==> !s.os.tool.NotStarted? && p == s.os.tool.pid && s.dir.supPid.Data?
  }

  predicate Probing(v: Variant, s: Shared, b: Branch) {
    s.dir.supPid.Data? && !s.os.tool.NotStarted? && (b.Recycled? ==> v.Rechecked?)
  }

  predicate AnswerOk(s: Shared, status: Status, code: Option<int>) {
    && (IsTerminal(status) ==> !Early(s))
    && (code.Some? ==> s.dir.exit == Data(code.value))
    && (status.Completed? ==> code == Some(0))
    && (status.Failed? ==> code.Some? && code.value != 0)
    && (status.Running? ==> code.None?)
  }

  predicate ObsOk(v: Variant, s: Shared, pc: ObsPc) {
    match pc
    case Begin => true
    case RdPid(st) => HeldStart(s, st)
    case Stat1(st, p) => HeldStart(s, st) && HeldPid(s, p)
    case MarkerCode => s.dir.crashed
    case RdExit(st, p) => HeldStart(s, st) && HeldPid(s, p)
    case Kill0(st, p) => HeldStart(s, st) && HeldPid(s, p) && p != 0
    case SupRd(b) => Probing(v, s, b)
    case SupKill0(b, sp) => Probing(v, s, b) && sp == s.os.supId
    case SupZ(b, sp) => Probing(v, s, b) && sp == s.os.supId
    case Stat2(b) => !s.os.alive
    case RdExit2(b) => !s.os.alive
    case MarkIt(b) =>
      if b.Unreachable? || v.Rechecked? then Lost(s)
      else if b.ToolZombie? then !s.os.alive
      else !Early(s)
    case ToolZ(st, p) => HeldStart(s, st) && HeldPid(s, p) && p != 0
    case Recyc(st, p) => HeldStart(s, st) && HeldPid(s, p) && p != 0
    case Done(status, code) => AnswerOk(s, status, code)
    case NRead(status, code) => AnswerOk(s, status, code) && IsTerminal(status)
    case NWrite(status, code, copy) => AnswerOk(s, status, code) && IsTerminal(status) && Current(s.dir, copy)
    case Noted(status, code) => AnswerOk(s, status, code) && IsTerminal(status)
  }

  ghost predicate WorldOk(v: Variant, w: World) {
    SharedOk(w.sh) && forall o <- w.obs :: ObsOk(v, w.sh, w.obs[o])
  }

  /** The metadata differs at most in the notified flag. */
  predicate SameMeta(d: Dir, d': Dir) {
    && (d.meta.Data? <==> d'.meta.Data?)
    && (d.meta.Data? ==> d'.meta.val.startTime == d.meta.val.startTime)
  }

  /** What a check may rely on while others move. */
  predicate Rely(s: Shared, t: Shared) {
    OsRely(s.os, t.os) && RelyDir(s, t)
  }

  predicate RelyDir(s: Shared, t: Shared) {
    && (Early(t) ==> Early(s))
    && (s.dir.supPid.Data? ==> t.dir.supPid == s.dir.supPid)
    && (s.dir.pid.Data? ==> t.dir.pid == s.dir.pid)
    && (s.dir.exit.Data? ==> t.dir.exit == s.dir.exit)
    && (s.dir.crashed ==> t.dir.crashed)
    && (Lost(s) ==> Lost(t))
    && (Notified(s.dir) ==> Notified(t.dir))
    && (!Early(s) ==> SameMeta(s.dir, t.dir))
  }

  lemma ObsStable(v: Variant, s: Shared, t: Shared, pc: ObsPc)
    requires Rely(s, t) && ObsOk(v, s, pc)
    ensures ObsOk(v, t, pc)
  {}

  lemma DieOk(os: Os)
    requires OsOk(os)
    ensures OsOk(Die(os)) && OsRely(os, Die(os))
  {}

  lemma EndToolOk(os: Os, how: Outcome)
    requires OsOk(os)
    ensures OsOk(EndTool(os, how)) && OsRely(os, EndTool(os, how))
  {}

  lemma ReapToolOk(os: Os)
    requires OsOk(os)
    ensures OsOk(ReapTool(os)) && OsRely(os, ReapTool(os))
  {}

  /** The only ways a supervisor step touches the process table. */
  predicate TouchesOs(os: Os, os': Os) {
    os' == os || os' == Die(os) || os' == EndTool(os, Signaled(9)) || os' == ReapTool(os)
  }

  lemma SupTouches(s: Shared, ok: bool)
    ensures TouchesOs(s.os, SupNext(s, ok).os)
  {}

  lemma SupMoves(s: Shared, ok: bool)
    requires OsOk(s.os)
    ensures OsOk(SupNext(s, ok).os) && OsRely(s.os, SupNext(s, ok).os)
  {
    SupTouches(s, ok);
    DieOk(s.os);
    EndToolOk(s.os, Signaled(9));
    ReapToolOk(s.os);
  }

  lemma SpawnStep(s: Shared, ok: bool)
    requires SharedOk(s) && s.os.alive && BeforeStart(s.sup)
    ensures PcOk(SpawnNext(s, ok)) && FilesOk(SpawnNext(s, ok))
    ensures MetaOk(SpawnNext(s, ok)) && RelyDir(s, SpawnNext(s, ok))
  {}

  lemma RecordPc(s: Shared, ok: bool)
    requires SharedOk(s) && s.os.alive && Recording(s.sup)
    ensures PcOk(RecordNext(s, ok)) && FilesOk(RecordNext(s, ok))
  {}

  lemma RecordRest(s: Shared, ok: bool)
    requires SharedOk(s) && s.os.alive && Recording(s.sup)
    ensures MetaOk(RecordNext(s, ok)) && RelyDir(s, RecordNext(s, ok))
  {}

  lemma FinishPc(s: Shared, ok: bool)
    requires SharedOk(s) && s.os.alive && !BeforeStart(s.sup) && !Recording(s.sup)
    ensures PcOk(FinishNext(s, ok)) && FilesOk(FinishNext(s, ok))
  {}

  lemma FinishRest(s: Shared, ok: bool)
    requires SharedOk(s) && s.os.alive && !BeforeStart(s.sup) && !Recording(s.sup)
    ensures MetaOk(FinishNext(s, ok)) && RelyDir(s, FinishNext(s, ok))
  {}

  lemma SupStep(s: Shared, ok: bool)
    requires SharedOk(s) && s.os.alive
    ensures SharedOk(SupNext(s, ok)) && Rely(s, SupNext(s, ok))
  {
    SupMoves(s, ok);
    if BeforeStart(s.sup) {
      SpawnStep(s, ok);
    } else if Recording(s.sup) {
      RecordPc(s, ok);
      RecordRest(s, ok);
    } else {
      FinishPc(s, ok);
      FinishRest(s, ok);
    }
  }

  lemma SpawnOk(os: Os, pid: nat, start: nat)
    requires OsOk(os) && pid > 0 && pid !in os.table
    ensures OsOk(Spawn(os, pid, start)) && OsRely(os, Spawn(os, pid, start))
  {}

  lemma OsStep(os: Os, e: Event)
    requires OsOk(os)
    ensures OsOk(OsNext(os, e)) && OsRely(os, OsNext(os, e))
  {
    match e {
      case KillSup => DieOk(os);
      case ToolExit(how) => EndToolOk(os, how);
      case InitReap => ReapToolOk(os);
      case Fork(pid, start) => if pid > 0 && pid !in os.table { SpawnOk(os, pid, start); }
      case _ =>
    }
  }

  lemma HostStep(s: Shared, e: Event)
    requires SharedOk(s)
    ensures SharedOk(s.(os := OsNext(s.os, e))) && Rely(s, s.(os := OsNext(s.os, e)))
  {
    OsStep(s.os, e);
  }

  lemma StartStep(s: Shared, pid: nat, start: nat)
    requires SharedOk(s)
    ensures SharedOk(StartTool(s, pid, start)) && Rely(s, StartTool(s, pid, start))
  {}

  /** A check changes nothing but the crashed marker and, after a terminal answer, the
      notified flag. */
  lemma ObsWrites(v: Variant, s: Shared, pc: ObsPc, ok: bool)
    requires SharedOk(s) && ObsOk(v, s, pc)
    ensures SharedOk(s.(dir := ObsDirNext(s.dir, pc, ok))) && Rely(s, s.(dir := ObsDirNext(s.dir, pc, ok)))
  {}

  lemma ObsStep(v: Variant, s: Shared, pc: ObsPc, ok: bool)
    requires SharedOk(s) && ObsOk(v, s, pc)
    ensures ObsOk(v, s, ObsPcNext(v, s, pc, ok)) || pc.MarkIt?
    ensures ObsOk(v, s.(dir := ObsDirNext(s.dir, pc, ok)), ObsPcNext(v, s, pc, ok))
  {}

  lemma ObsAll(v: Variant, w: World, s: Shared, o: nat)
    requires WorldOk(v, w) && Rely(w.sh, s) && o in w.obs
    ensures ObsOk(v, s, w.obs[o])
  {
    ObsStable(v, w.sh, s, w.obs[o]);
  }

  lemma SharedNextStep(s: Shared, e: Event)
    requires SharedOk(s)
    ensures SharedOk(SharedNext(s, e)) && Rely(s, SharedNext(s, e))
  {
    match e {
      case Sup(ok) => if s.os.alive { SupStep(s, ok); }
      case Start(pid, start) => StartStep(s, pid, start);
      case _ => HostStep(s, e);
    }
  }

  lemma SharedStep(v: Variant, w: World, e: Event)
    requires WorldOk(v, w)
    ensures SharedOk(Next(v, w, e).sh) && Rely(w.sh, Next(v, w, e).sh)
  {
    match e {
      case New(o) =>
      case Obs(o, ok) => if o in w.obs { ObsWrites(v, w.sh, w.obs[o], ok); }
      case _ => SharedNextStep(w.sh, e);
    }
  }

  lemma Step(v: Variant, w: World, e: Event)
    requires WorldOk(v, w)
    ensures WorldOk(v, Next(v, w, e)) && Rely(w.sh, Next(v, w, e).sh)
  {
    SharedStep(v, w, e);
    var u := Next(v, w, e);
    if e.Obs? && e.o in w.obs { ObsStep(v, w.sh, w.obs[e.o], e.ok); }
    forall o <- u.obs ensures ObsOk(v, u.sh, u.obs[o]) {
      if o in w.obs && u.obs[o] == w.obs[o] { ObsAll(v, w, u.sh, o); }
    }
  }

  lemma InitOk(v: Variant, w: World)
    requires Init(w)
    ensures WorldOk(v, w)
  {}

  lemma {:induction false} RunOk(v: Variant, w: World, es: seq<Event>)
    requires WorldOk(v, w)
    ensures WorldOk(v, Exec(v, w, es)) && Rely(w.sh, Exec(v, w, es).sh)
    decreases |es|
  {
    if es != [] {
      Step(v, w, es[0]);
      RunOk(v, Next(v, w, es[0]), es[1..]);
    }
  }
}
