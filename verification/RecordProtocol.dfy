/** The protocol played over one record directory by its detached supervisor, any number of
    liveness checks and the operating system. Every file access, probe and process event is
    one step; a run is an arbitrary sequence of events. An event that cannot happen in the
    current world leaves it unchanged, so every sequence of events is a run. */
module RecordProtocol {
  import opened Common

  /** The part of meta.json the protocol reads: a start-time signature (0 stands for the
      empty string) and the notified flag. */
  datatype Meta = Meta(startTime: nat, notified: bool)

  /** An occupied process-table entry. Incarnations are never reused, PIDs are. */
  datatype Slot = Slot(inc: nat, start: nat, zombie: bool)

  datatype Tool =
    | NotStarted
    | Up(pid: nat, inc: nat, start: nat)
    | Ended(pid: nat, inc: nat, start: nat, how: Outcome)
    | Reaped(pid: nat, inc: nat, start: nat, how: Outcome)

  /** Where the supervisor is inside Supervise. */
  datatype SupPc =
    | ReadMeta | TruncSup | PutSup | OpenStreams | Launch
    | TruncFail | PutFail
    | TruncPid | PutPid | TruncPgid | PutPgid | AbortChild
    | Sign | TruncMeta | PutMeta
    | AwaitExit | TruncExit(code: int) | PutExit(code: int)
    | Linger | HookGate | HookStart | HookReread | HookMark(copy: Meta) | Leave

  /** The process table and who is who in it. `tool` remembers how the child fared. */
  datatype Os = Os(
    table: map<nat, Slot>, nextInc: nat,
    supId: nat, supInc: nat, alive: bool, tool: Tool)

  datatype Dir = Dir(
    meta: File<Meta>, pid: File<nat>, pgid: File<nat>, supPid: File<nat>,
    exit: File<int>, crashed: bool)

  /** Everything the parties share, with the supervisor's own place in its program and its
      in-memory copy of the metadata. */
  datatype Shared = Shared(dir: Dir, os: Os, sup: SupPc, mem: Meta)

  datatype Branch = Unreachable | ToolZombie | Recycled

  /** Where one liveness check is inside CheckLiveness, followed by the optional
      notified marking of a terminal answer. `st` is the start time in the metadata the
      caller handed in, `p` the PID read at entry, `sp` the supervisor PID read. */
  datatype ObsPc =
    | Begin
    | RdPid(st: nat)
    | Stat1(st: nat, p: nat)
    | MarkerCode
    | RdExit(st: nat, p: nat)
    | Kill0(st: nat, p: nat)
    | SupRd(b: Branch)
    | SupKill0(b: Branch, sp: nat)
    | SupZ(b: Branch, sp: nat)
    | Stat2(b: Branch)
    | RdExit2(b: Branch)
    | MarkIt(b: Branch)
    | ToolZ(st: nat, p: nat)
    | Recyc(st: nat, p: nat)
    | Done(status: Status, code: Option<int>)
    | NRead(status: Status, code: Option<int>)
    | NWrite(status: Status, code: Option<int>, copy: Meta)
    | Noted(status: Status, code: Option<int>)

  datatype World = World(sh: Shared, obs: map<nat, ObsPc>)

  /** AsWritten is the code. Rechecked sends all three branches through the supervisor
      probe and the second look at the markers that only the unreachable branch has. */
  datatype Variant = AsWritten | Rechecked

  /** `ok == false` is a failed write or a degraded probe answer: a signal refused for
      permission, an unreadable stat file. */
  datatype Event =
    | Sup(ok: bool)
    | Start(pid: nat, start: nat)
    | KillSup
    | ReapSup
    | ToolExit(how: Outcome)
    | InitReap
    | Fork(pid: nat, start: nat)
    | EnvExit(pid: nat)
    | EnvReap(pid: nat)
    | New(o: nat)
    | Obs(o: nat, ok: bool)

  function ReadInt(f: File<nat>): nat {
    if f.Data? then f.val else 0
  }

  predicate Notified(d: Dir) {
    d.meta.Data? && d.meta.val.notified
  }

  /** The supervisor process ends: it stays in the table until its parent reaps it. */
  function Die(os: Os): Os {
    if os.supId in os.table
    then os.(alive := false, table := os.table[os.supId := os.table[os.supId].(zombie := true)])
    else os.(alive := false)
  }

  function EndTool(os: Os, how: Outcome): Os {
    if os.tool.Up? && os.tool.pid in os.table
    then os.(table := os.table[os.tool.pid := os.table[os.tool.pid].(zombie := true)],
             tool := Ended(os.tool.pid, os.tool.inc, os.tool.start, how))
    else os
  }

  function ReapTool(os: Os): Os {
    if os.tool.Ended?
    then os.(table := os.table - {os.tool.pid},
             tool := Reaped(os.tool.pid, os.tool.inc, os.tool.start, os.tool.how))
    else os
  }

  function Spawn(os: Os, pid: nat, start: nat): Os {
    os.(table := os.table[pid := Slot(os.nextInc, start, false)], nextInc := os.nextInc + 1)
  }

  /** The tool exists but its process has not been reaped. */
  predicate Unreaped(t: Tool) {
    t.Up? || t.Ended?
  }

  /** The tool's PID, which is also its process group: it is started as a group leader. */
  function ToolPid(t: Tool): nat {
    if t.NotStarted? then 0 else t.pid
  }

  /** Still inside Supervise's prelude or startTool. */
  predicate BeforeStart(pc: SupPc) {
    pc.ReadMeta? || pc.TruncSup? || pc.PutSup? || pc.OpenStreams? || pc.Launch?
    || pc.TruncFail? || pc.PutFail?
  }

  /** Inside recordStart. */
  predicate Recording(pc: SupPc) {
    pc.TruncPid? || pc.PutPid? || pc.TruncPgid? || pc.PutPgid? || pc.AbortChild?
    || pc.Sign? || pc.TruncMeta? || pc.PutMeta?
  }

  function SpawnNext(s: Shared, ok: bool): Shared
    requires BeforeStart(s.sup)
  {
    var d := s.dir;
    match s.sup
    case ReadMeta => if ok && d.meta.Data? then s.(sup := TruncSup, mem := d.meta.val) else s.(sup := Leave)
    case TruncSup => if ok then s.(dir := d.(supPid := Torn), sup := PutSup) else s.(sup := Leave)
    case PutSup => if ok then s.(dir := d.(supPid := Data(s.os.supId)), sup := OpenStreams) else s.(sup := Leave)
    case OpenStreams => if ok then s.(sup := Launch) else s.(sup := Leave)
    case Launch => if ok then s else s.(sup := TruncFail)
    case TruncFail => if ok then s.(dir := d.(exit := Torn), sup := PutFail) else s.(sup := Leave)
    case PutFail => if ok then s.(dir := d.(exit := Data(127)), sup := Leave) else s.(sup := Leave)
  }

  function RecordNext(s: Shared, ok: bool): Shared
    requires Recording(s.sup)
  {
    var d := s.dir;
    var pid := ToolPid(s.os.tool);
    match s.sup
    case TruncPid => if ok then s.(dir := d.(pid := Torn), sup := PutPid) else s.(sup := AbortChild)
    case PutPid => if ok then s.(dir := d.(pid := Data(pid)), sup := TruncPgid) else s.(sup := AbortChild)
    case TruncPgid => if ok then s.(dir := d.(pgid := Torn), sup := PutPgid) else s.(sup := AbortChild)
    case PutPgid => if ok then s.(dir := d.(pgid := Data(pid)), sup := Sign) else s.(sup := AbortChild)
    case AbortChild => s.(os := EndTool(s.os, Signaled(9)), sup := Leave)
    case Sign =>
      var sig := if ok && pid in s.os.table then s.os.table[pid].start else 0;
      if sig != 0 && sig != s.mem.startTime
      then s.(mem := s.mem.(startTime := sig), sup := TruncMeta)
      else s.(sup := AwaitExit)
    case TruncMeta => if ok then s.(dir := d.(meta := Torn), sup := PutMeta) else s.(sup := AwaitExit)
    case PutMeta => if ok then s.(dir := d.(meta := Data(s.mem)), sup := AwaitExit) else s.(sup := AwaitExit)
  }

  function FinishNext(s: Shared, ok: bool): Shared
    requires !BeforeStart(s.sup) && !Recording(s.sup)
  {
    var d := s.dir;
    match s.sup
    case AwaitExit =>
      if s.os.tool.Ended?
      then s.(os := ReapTool(s.os), sup := TruncExit(ExitCodeOf(s.os.tool.how)))
      else s
    case TruncExit(code) => if ok then s.(dir := d.(exit := Torn), sup := PutExit(code)) else s.(sup := Leave)
    case PutExit(code) => if ok then s.(dir := d.(exit := Data(code)), sup := Linger) else s.(sup := Leave)
    case Linger => s.(sup := HookGate)
    case HookGate => if ok && !Notified(d) then s.(sup := HookStart) else s.(sup := Leave)
    case HookStart => s.(sup := if ok then HookReread else Leave)
    case HookReread =>
      if d.meta.Data? && !d.meta.val.notified then s.(sup := HookMark(d.meta.val)) else s.(sup := Leave)
    case HookMark(copy) =>
      if ok then s.(dir := d.(meta := Data(copy.(notified := true))), sup := Leave) else s.(sup := Leave)
    case Leave => s.(os := Die(s.os))
  }

  function SupNext(s: Shared, ok: bool): Shared {
    if BeforeStart(s.sup) then SpawnNext(s, ok)
    else if Recording(s.sup) then RecordNext(s, ok)
    else FinishNext(s, ok)
  }

  /** A process that is neither the supervisor nor the unreaped tool. */
  predicate Foreign(os: Os, pid: nat) {
    && pid in os.table
    && os.table[pid].inc != os.supInc
    && !(Unreaped(os.tool) && os.table[pid].inc == os.tool.inc)
  }

  /** What the operating system does on its own. */
  function OsNext(os: Os, e: Event): Os {
    match e
    case KillSup => if os.alive then Die(os) else os
    case ReapSup =>
      if !os.alive && os.supId in os.table && os.table[os.supId].inc == os.supInc
      then os.(table := os.table - {os.supId})
      else os
    case ToolExit(how) => EndTool(os, how)
    case InitReap => if os.alive then os else ReapTool(os)
    case Fork(pid, start) => if pid > 0 && pid !in os.table then Spawn(os, pid, start) else os
    case EnvExit(pid) =>
      if Foreign(os, pid) then os.(table := os.table[pid := os.table[pid].(zombie := true)]) else os
    case EnvReap(pid) =>
      if Foreign(os, pid) && os.table[pid].zombie then os.(table := os.table - {pid}) else os
    case _ => os
  }

  /** The tool process comes into being under the supervisor. */
  function StartTool(s: Shared, pid: nat, start: nat): Shared {
    if s.os.alive && s.sup.Launch? && pid > 0 && pid !in s.os.table
    then s.(os := Spawn(s.os, pid, start).(tool := Up(pid, s.os.nextInc, start)), sup := TruncPid)
    else s
  }

  function CodeOf(d: Dir): Option<int> {
    if d.exit.Data? then Some(d.exit.val) else None
  }

  predicate ZombieAt(os: Os, pid: nat) {
    pid in os.table && os.table[pid].zombie
  }

  predicate StartDiffers(os: Os, st: nat, p: nat) {
    st != 0 && p in os.table && os.table[p].start != 0 && os.table[p].start != st
  }

  /** What follows a supervisor probe that found nobody left to write exit_code. */
  function NotFinalizing(v: Variant, b: Branch): ObsPc {
    if b.Unreachable? || v.Rechecked? then Stat2(b) else MarkIt(b)
  }

  /** The next place of a check: it only looks. */
  function ObsPcNext(v: Variant, s: Shared, pc: ObsPc, ok: bool): ObsPc {
    var d, os := s.dir, s.os;
    match pc
    case Begin => RdPid(if d.meta.Data? then d.meta.val.startTime else 0)
    case RdPid(st) => Stat1(st, ReadInt(d.pid))
    case Stat1(st, p) => if d.crashed then MarkerCode else RdExit(st, p)
    case MarkerCode => Done(Crashed, CodeOf(d))
    case RdExit(st, p) =>
      if d.exit.Data? then Done(StatusOfCode(d.exit.val), CodeOf(d))
      else if p == 0 then Done(Running, None) else Kill0(st, p)
    case Kill0(st, p) => if !ok || p !in os.table then SupRd(Unreachable) else ToolZ(st, p)
    case SupRd(b) => if ReadInt(d.supPid) == 0 then NotFinalizing(v, b) else SupKill0(b, ReadInt(d.supPid))
    case SupKill0(b, sp) => if sp !in os.table then NotFinalizing(v, b) else SupZ(b, sp)
    case SupZ(b, sp) => if ok && ZombieAt(os, sp) then NotFinalizing(v, b) else Done(Running, None)
    case Stat2(b) => if d.crashed then MarkerCode else RdExit2(b)
    case RdExit2(b) => if d.exit.Data? then Done(StatusOfCode(d.exit.val), CodeOf(d)) else MarkIt(b)
    case MarkIt(b) => Done(Crashed, None)
    case ToolZ(st, p) => if ok && ZombieAt(os, p) then SupRd(ToolZombie) else Recyc(st, p)
    case Recyc(st, p) =>
      if ok && StartDiffers(os, st, p)
      then if v.AsWritten? then MarkIt(Recycled) else SupRd(Recycled)
      else Done(Running, None)
    case Done(status, code) => if IsTerminal(status) then NRead(status, code) else pc
    case NRead(status, code) =>
      if d.meta.Data? && !d.meta.val.notified then NWrite(status, code, d.meta.val) else Noted(status, code)
    case NWrite(status, code, copy) => Noted(status, code)
    case Noted(_, _) => pc
  }

  /** The two writes a check can make: the crashed marker, and the notified flag through a
      temporary file and a rename. */
  function ObsDirNext(d: Dir, pc: ObsPc, ok: bool): Dir {
    match pc
    case MarkIt(_) => if ok then d.(crashed := true) else d
    case NWrite(_, _, copy) => if ok then d.(meta := Data(copy.(notified := true))) else d
    case _ => d
  }

  /** A step of the supervisor or of the operating system. */
  function SharedNext(s: Shared, e: Event): Shared {
    match e
    case Sup(ok) => if s.os.alive then SupNext(s, ok) else s
    case Start(pid, start) => StartTool(s, pid, start)
    case _ => s.(os := OsNext(s.os, e))
  }

  function Next(v: Variant, w: World, e: Event): World
  {
    match e
    case New(o) => if o in w.obs then w else w.(obs := w.obs[o := Begin])
    case Obs(o, ok) =>
      if o in w.obs
      then World(w.sh.(dir := ObsDirNext(w.sh.dir, w.obs[o], ok)),
                 w.obs[o := ObsPcNext(v, w.sh, w.obs[o], ok)])
      else w
    case _ => w.(sh := SharedNext(w.sh, e))
  }

  function Exec(v: Variant, w: World, es: seq<Event>): World
    decreases |es|
  {
    if es == [] then w else Exec(v, Next(v, w, es[0]), es[1..])
  }

  /** The world right after the supervisor process was launched: initial metadata on disk,
      no other record file, no check under way, any other processes in the table. */
  ghost predicate Init(w: World) {
    && w.obs == map[]
    && w.sh.dir == Dir(Data(Meta(0, false)), Absent, Absent, Absent, Absent, false)
    && w.sh.sup == ReadMeta
    && var os := w.sh.os;
    && os.alive && os.tool == NotStarted
    && os.supId > 0 && os.supInc < os.nextInc
    && os.supId in os.table && os.table[os.supId].inc == os.supInc && !os.table[os.supId].zombie
    && (forall p <- os.table :: p > 0 && os.table[p].inc < os.nextInc)
    && (forall p <- os.table | os.table[p].inc == os.supInc :: p == os.supId)
  }

  /** The supervisor is gone and left no usable exit code. */
  predicate Lost(s: Shared) {
    !s.os.alive && !s.dir.exit.Data?
  }

  /** The answer a check has given, if it has given one. */
  function Answer(pc: ObsPc): Option<(Status, Option<int>)> {
    match pc
    case Done(status, code) => Some((status, code))
    case NRead(status, code) => Some((status, code))
    case NWrite(status, code, _) => Some((status, code))
    case Noted(status, code) => Some((status, code))
    case _ => None
  }

  lemma {:induction false} ExecAppend(v: Variant, w: World, a: seq<Event>, b: seq<Event>)
    ensures Exec(v, w, a + b) == Exec(v, Exec(v, w, a), b)
    decreases |a|
  {
    if a == [] {
      assert a + b == b;
    } else {
      assert (a + b)[0] == a[0] && (a + b)[1..] == a[1..] + b;
      ExecAppend(v, Next(v, w, a[0]), a[1..], b);
    }
  }
}
