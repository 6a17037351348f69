/** The protocol as written: the zombie and recycled-PID branches mark without a second
    look, so a marker can shadow a recorded exit code. The condition under which it cannot:
    every benign schedule is safe. */
module SideConditions {
  import opened Common
  import opened RecordProtocol
  import opened ProtocolInvariants
  import opened MarkerSafety

  /** A check that read "no exit code" and would mistake a new process at the tool's PID,
      started at `start`, for evidence of a crash. */
  predicate Exposed(pc: ObsPc, start: nat) {
    || pc.Kill0? || pc.ToolZ?
    || (pc.Recyc? && pc.st != 0 && start != 0 && start != pc.st)
  }

  /** A check that saw a zombie tool and has not finished looking for the supervisor. */
  predicate SeekingSupervisor(pc: ObsPc) {
    (pc.SupRd? || pc.SupKill0? || pc.SupZ?) && pc.b.ToolZombie?
  }

  predicate SupervisorDies(s: Shared, e: Event) {
    s.os.alive && (e.KillSup? || (e.Sup? && s.sup.Leave?))
  }

  predicate ReusesToolPid(os: Os, e: Event) {
    e.Fork? && os.tool.Reaped? && e.pid == os.tool.pid && e.pid !in os.table
  }

  /** The ways an event can break the side condition, in the world in which it is about to
      happen. */
  datatype Clause = EndUnderSearch | ReuseBeforeWrite | ReuseUnderCheck

  predicate Breaks(w: World, e: Event, clause: Clause) {
    match clause
    // the supervisor ends, with the code written, between a check's look at a zombie tool and
    // the end of its look for the supervisor
    case EndUnderSearch =>
      SupervisorDies(w.sh, e) && w.sh.dir.exit.Data? && exists o <- w.obs :: SeekingSupervisor(w.obs[o])
    // the tool's PID is reused between the reap and the exit_code write
    case ReuseBeforeWrite => ReusesToolPid(w.sh.os, e) && !w.sh.dir.exit.Data? && !Doomed(w.sh)
    // it is reused after the write, while a check that read exit_code before that is still to
    // look at the PID
    case ReuseUnderCheck =>
      ReusesToolPid(w.sh.os, e) && w.sh.dir.exit.Data? && exists o <- w.obs :: Exposed(w.obs[o], e.start)
  }

  /** The side condition on an event. */
  predicate Benign(w: World, e: Event) {
    !Breaks(w, e, EndUnderSearch) && !Breaks(w, e, ReuseBeforeWrite) && !Breaks(w, e, ReuseUnderCheck)
  }

  predicate BenignRun(w: World, es: seq<Event>)
    decreases |es|
  {
    es == [] || (Benign(w, es[0]) && BenignRun(Next(AsWritten, w, es[0]), es[1..]))
  }

  lemma {:induction false} BenignAppend(w: World, a: seq<Event>, b: seq<Event>)
    ensures BenignRun(w, a + b) <==> BenignRun(w, a) && BenignRun(Exec(AsWritten, w, a), b)
    decreases |a|
  {
    if a == [] {
      assert a + b == b;
    } else {
      assert (a + b)[0] == a[0] && (a + b)[1..] == a[1..] + b;
      BenignAppend(Next(AsWritten, w, a[0]), a[1..], b);
    }
  }

  /** The marker stands beside a usable exit code. */
  predicate Shadowed(s: Shared) {
    s.dir.crashed && s.dir.exit.Data?
  }

  predicate Harmless(s: Shared, pc: ObsPc) {
    && (SeekingSupervisor(pc) ==> s.os.alive)
    && !pc.MarkIt?
    && (s.os.tool.Reaped? && s.os.tool.pid in s.os.table ==>
          !Exposed(pc, s.os.table[s.os.tool.pid].start))
  }

  /** Kept by benign schedules. */
  ghost predicate Safe(w: World) {
    !Doomed(w.sh) ==>
      && !w.sh.dir.crashed
      && (w.sh.os.tool.Reaped? && w.sh.os.tool.pid in w.sh.os.table ==> w.sh.dir.exit.Data?)
      && forall o <- w.obs :: Harmless(w.sh, w.obs[o])
  }

  lemma HarmlessObs(s: Shared, pc: ObsPc, ok: bool)
    requires SharedOk(s) && ObsOk(AsWritten, s, pc) && Harmless(s, pc) && !Doomed(s)
    requires s.os.tool.Reaped? && s.os.tool.pid in s.os.table ==> s.dir.exit.Data?
    ensures Harmless(s, ObsPcNext(AsWritten, s, pc, ok))
    ensures ObsDirNext(s.dir, pc, ok).crashed == s.dir.crashed
  {}

  lemma HarmlessOthers(s: Shared, e: Event, pc: ObsPc)
    requires SharedOk(s) && ObsOk(AsWritten, s, pc) && Harmless(s, pc) && !Doomed(s)
    requires SupervisorDies(s, e) && s.dir.exit.Data? ==> !SeekingSupervisor(pc)
    requires ReusesToolPid(s.os, e) ==> s.dir.exit.Data? && !Exposed(pc, e.start)
    ensures Doomed(SharedNext(s, e)) || Harmless(SharedNext(s, e), pc)
  {}

  lemma SupUnmarked(s: Shared, ok: bool)
    requires SharedOk(s) && s.os.alive && !Doomed(s) && !s.dir.crashed
    requires s.os.tool.Reaped? && s.os.tool.pid in s.os.table ==> s.dir.exit.Data?
    ensures var t := SupNext(s, ok);
            !t.dir.crashed && (t.os.tool.Reaped? && t.os.tool.pid in t.os.table ==> t.dir.exit.Data? || Doomed(t))
  {}

  lemma UnmarkedOthers(s: Shared, e: Event)
    requires SharedOk(s) && !Doomed(s) && !s.dir.crashed
    requires s.os.tool.Reaped? && s.os.tool.pid in s.os.table ==> s.dir.exit.Data?
    requires ReusesToolPid(s.os, e) ==> s.dir.exit.Data?
    ensures var t := SharedNext(s, e);
            !t.dir.crashed && (t.os.tool.Reaped? && t.os.tool.pid in t.os.table ==> t.dir.exit.Data? || Doomed(t))
  {
    if e.Sup? && s.os.alive { SupUnmarked(s, e.ok); }
  }

  lemma SafeStep(w: World, e: Event)
    requires WorldOk(AsWritten, w) && Safe(w) && Benign(w, e)
    ensures Safe(Next(AsWritten, w, e))
  {
    var u := Next(AsWritten, w, e);
    if Doomed(w.sh) {
      DoomedStep(AsWritten, w, e);
    } else if e.Obs? {
      if e.o in w.obs { HarmlessObs(w.sh, w.obs[e.o], e.ok); }
    } else if !e.New? {
      UnmarkedOthers(w.sh, e);
      forall o <- u.obs ensures Doomed(u.sh) || Harmless(u.sh, u.obs[o]) {
        HarmlessOthers(w.sh, e, w.obs[o]);
      }
    }
  }

  /** Sufficient: on a benign schedule the marker never stands beside a usable code, now or
      later. */
  lemma {:induction false} BenignRunsAreSafe(w: World, es: seq<Event>)
    requires WorldOk(AsWritten, w) && Safe(w) && BenignRun(w, es)
    ensures Safe(Exec(AsWritten, w, es)) && !Shadowed(Exec(AsWritten, w, es).sh)
    decreases |es|
  {
    if es != [] {
      Step(AsWritten, w, es[0]);
      SafeStep(w, es[0]);
      BenignRunsAreSafe(Next(AsWritten, w, es[0]), es[1..]);
    }
  }

  /** End-to-end fidelity of the code as written, on benign schedules. */
  lemma BenignFidelity(w0: World, pre: seq<Event>, o: nat, post: seq<Event>)
    requires Init(w0) && BenignRun(w0, pre + post)
    requires BeginsAfterWrite(Exec(AsWritten, w0, pre), o)
    ensures var u := Exec(AsWritten, Exec(AsWritten, w0, pre), post);
            && o in u.obs
            && (Turns(post, o) >= 4 ==> Answered(u.obs[o]))
            && (Answered(u.obs[o]) ==> TrueReport(u.sh, Answer(u.obs[o]).value))
  {
    InitOk(AsWritten, w0);
    RunOk(AsWritten, w0, pre);
    var w := Exec(AsWritten, w0, pre);
    RunOk(AsWritten, w, post);
    BenignAppend(w0, pre, post);
    BenignRunsAreSafe(w0, pre);
    BenignRunsAreSafe(w, post);
    CodeIsReported(AsWritten, w, post, o);
  }
}
