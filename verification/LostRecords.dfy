/** A record without a usable exit code whose tool and supervisor are both gone: a check does
    not answer RUNNING for it, but CRASHED, and leaves the marker. */
module LostRecords {
  import opened Common
  import opened RecordProtocol
  import opened ProtocolInvariants
  import opened MarkerSafety

  /** No process at the recorded PID, a zombie there, or another process, known by its start
      time. */
  predicate ToolGone(s: Shared, b: Branch) {
    s.dir.pid.Data? &&
    var (p, table) := (s.dir.pid.val, s.os.table);
    match b
    case Unreachable => p !in table
    case ToolZombie => p in table && table[p].zombie
    case Recycled =>
      && p in table && !table[p].zombie && table[p].start != 0
      && s.dir.meta.Data? && s.dir.meta.val.startTime != 0 && s.dir.meta.val.startTime != table[p].start
  }

  /** No process at the supervisor's recorded PID, or a zombie. */
  predicate SupervisorGone(s: Shared) {
    s.dir.supPid.Data? && s.dir.supPid.val in s.os.table ==> s.os.table[s.dir.supPid.val].zombie
  }

  /** The record is lost for good and the process table shows it. */
  predicate Deserted(s: Shared, b: Branch) {
    !s.os.alive && !s.dir.exit.Data? && ToolGone(s, b) && SupervisorGone(s)
  }

  predicate SameSlot(os: Os, os': Os, pid: nat) {
    if pid in os.table then pid in os'.table && os'.table[pid] == os.table[pid] else pid !in os'.table
  }

  /** The condition on an event: it does not touch the process-table entries of the two recorded
      PIDs, and the probes of check `o` are answered. Whatever else happens, other checks, their
      marks and other processes included, is allowed; `written` says that no marker write of `o`
      fails. */
  predicate Steady(v: Variant, w: World, e: Event, o: nat, written: bool) {
    && SameSlot(w.sh.os, Next(v, w, e).sh.os, ReadInt(w.sh.dir.pid))
    && SameSlot(w.sh.os, Next(v, w, e).sh.os, ReadInt(w.sh.dir.supPid))
    && (e.Obs? && e.o == o && o in w.obs ==> e.ok || (w.obs[o].MarkIt? && !written))
  }

  predicate SteadyRun(v: Variant, w: World, es: seq<Event>, o: nat, written: bool)
    decreases |es|
  {
    es == [] || (Steady(v, w, es[0], o, written) && SteadyRun(v, Next(v, w, es[0]), es[1..], o, written))
  }

  /** The check carries what is on disk. */
  predicate Carries(s: Shared, b: Branch, st: nat, p: nat) {
    && s.dir.pid == Data(p)
    && (b.Recycled? ==> s.dir.meta.Data? && s.dir.meta.val.startTime == st)
  }

  /** The check is on its way to CRASHED. */
  predicate Closing(s: Shared, pc: ObsPc, b: Branch, written: bool) {
    match pc
    case Begin => true
    case RdPid(st) => Carries(s, b, st, ReadInt(s.dir.pid))
    case Stat1(st, p) => Carries(s, b, st, p)
    case RdExit(st, p) => Carries(s, b, st, p)
    case Kill0(st, p) => Carries(s, b, st, p)
    case ToolZ(st, p) => Carries(s, b, st, p) && !b.Unreachable?
    case Recyc(st, p) => Carries(s, b, st, p) && b.Recycled?
    case MarkerCode => s.dir.crashed
    case SupRd(_) => true
    case SupKill0(_, sp) => s.dir.supPid == Data(sp)
    case SupZ(_, sp) => s.dir.supPid == Data(sp) && sp in s.os.table
    case Stat2(_) => true
    case RdExit2(_) => true
    case MarkIt(_) => true
    case _ => Answer(pc) == Some((Crashed, None)) && (written ==> s.dir.crashed)
  }

  lemma ClosingMove(v: Variant, s: Shared, pc: ObsPc, b: Branch, written: bool, ok: bool)
    requires Deserted(s, b) && s.dir.pid.val > 0 && Closing(s, pc, b, written)
    requires ok || (pc.MarkIt? && !written)
    ensures Closing(s.(dir := ObsDirNext(s.dir, pc, ok)), ObsPcNext(v, s, pc, ok), b, written)
    ensures LooksLeft(ObsPcNext(v, s, pc, ok)) <= if LooksLeft(pc) > 0 then LooksLeft(pc) - 1 else 0
  {}

  lemma DesertedStays(v: Variant, w: World, e: Event, b: Branch, o: nat, written: bool)
    requires WorldOk(v, w) && Deserted(w.sh, b) && Steady(v, w, e, o, written)
    ensures var t := Next(v, w, e).sh;
            && Deserted(t, b) && t.dir.pid == w.sh.dir.pid && t.dir.supPid == w.sh.dir.supPid
            && SameMeta(w.sh.dir, t.dir) && (w.sh.dir.crashed ==> t.dir.crashed)
  {
    SharedStep(v, w, e);
  }

  lemma ClosingStep(v: Variant, w: World, e: Event, b: Branch, o: nat, written: bool)
    requires WorldOk(v, w) && Deserted(w.sh, b) && Steady(v, w, e, o, written)
    requires o in w.obs && Closing(w.sh, w.obs[o], b, written)
    ensures var u := Next(v, w, e);
            && o in u.obs && Deserted(u.sh, b) && Closing(u.sh, u.obs[o], b, written)
            && LooksLeft(u.obs[o]) + (if e.Obs? && e.o == o && LooksLeft(w.obs[o]) > 0 then 1 else 0) <= LooksLeft(w.obs[o])
  {
    DesertedStays(v, w, e, b, o, written);
    if e.Obs? && e.o == o {
      ClosingMove(v, w.sh, w.obs[o], b, written, e.ok);
    } else {
      assert Next(v, w, e).obs[o] == w.obs[o];
    }
  }

  lemma {:induction false} ClosingRun(v: Variant, w: World, es: seq<Event>, b: Branch, o: nat, written: bool)
    requires WorldOk(v, w) && Deserted(w.sh, b) && SteadyRun(v, w, es, o, written)
    requires o in w.obs && Closing(w.sh, w.obs[o], b, written)
    ensures var u := Exec(v, w, es);
            && o in u.obs && Deserted(u.sh, b) && Closing(u.sh, u.obs[o], b, written)
            && (Turns(es, o) >= LooksLeft(w.obs[o]) ==> LooksLeft(u.obs[o]) == 0)
    decreases |es|
  {
    if es != [] {
      Step(v, w, es[0]);
      ClosingStep(v, w, es[0], b, o, written);
      ClosingRun(v, Next(v, w, es[0]), es[1..], b, o, written);
    }
  }

  /** In every interleaving that leaves the two recorded PIDs alone, a check of a lost record
      answers CRASHED within thirteen of its own steps, and can give no other answer; if its
      marker write goes through, the marker is there. */
  lemma LostIsReported(v: Variant, w0: World, pre: seq<Event>, b: Branch, o: nat, post: seq<Event>, written: bool)
    requires Init(w0) && Deserted(Exec(v, w0, pre).sh, b)
    requires o in Exec(v, w0, pre).obs && Exec(v, w0, pre).obs[o] == Begin
    requires SteadyRun(v, Exec(v, w0, pre), post, o, written)
    ensures var u := Exec(v, Exec(v, w0, pre), post);
            && o in u.obs
            && (Turns(post, o) >= 13 ==> Answered(u.obs[o]))
            && (Answered(u.obs[o]) ==> Answer(u.obs[o]).value == (Crashed, None) && (written ==> u.sh.dir.crashed))
  {
    InitOk(v, w0);
    RunOk(v, w0, pre);
    ClosingRun(v, Exec(v, w0, pre), post, b, o, written);
  }

  /** The looks of check `o` and nothing else. */
  function Looks(o: nat, n: nat): seq<Event> {
    if n == 0 then [] else [Obs(o, true)] + Looks(o, n - 1)
  }

  lemma {:induction false} LooksAreSteady(v: Variant, w: World, o: nat, n: nat)
    ensures SteadyRun(v, w, Looks(o, n), o, true) && Turns(Looks(o, n), o) == n
    decreases n
  {
    if n > 0 {
      assert Looks(o, n)[1..] == Looks(o, n - 1);
      LooksAreSteady(v, Next(v, w, Obs(o, true)), o, n - 1);
    }
  }

  /** So a check that nobody disturbs answers CRASHED in thirteen steps and leaves the
      marker. */
  lemma UndisturbedCheckReportsLoss(v: Variant, w0: World, pre: seq<Event>, b: Branch, o: nat)
    requires Init(w0) && Deserted(Exec(v, w0, pre).sh, b)
    requires o in Exec(v, w0, pre).obs && Exec(v, w0, pre).obs[o] == Begin
    ensures var u := Exec(v, Exec(v, w0, pre), Looks(o, 13));
            o in u.obs && Answer(u.obs[o]) == Some((Crashed, None)) && u.sh.dir.crashed
  {
    LooksAreSteady(v, Exec(v, w0, pre), o, 13);
    LostIsReported(v, w0, pre, b, o, Looks(o, 13), true);
  }
}
