/** What the crashed marker, the exit code and the notified flag mean over whole runs. */
module MarkerSafety {
  import opened Common
  import opened RecordProtocol
  import opened ProtocolInvariants

  /** No exit code is on disk and the supervisor can no longer produce one. */
  predicate Doomed(s: Shared) {
    !s.dir.exit.Data? && (!s.os.alive || s.sup.Leave? || s.sup.AbortChild?)
  }

  lemma DoomedStep(v: Variant, w: World, e: Event)
    requires WorldOk(v, w) && Doomed(w.sh)
    ensures Doomed(Next(v, w, e).sh)
  {}

  lemma {:induction false} DoomedForever(v: Variant, w: World, es: seq<Event>)
    requires WorldOk(v, w) && Doomed(w.sh)
    ensures Doomed(Exec(v, w, es).sh)
    decreases |es|
  {
    if es != [] {
      Step(v, w, es[0]);
      DoomedStep(v, w, es[0]);
      DoomedForever(v, Next(v, w, es[0]), es[1..]);
    }
  }

  /** Distance of a supervisor that can still write exit_code from having written it. */
  function ToGo(s: Shared): nat {
    match s.sup
    case ReadMeta => 8 case TruncSup => 7 case PutSup => 6 case OpenStreams => 5
    case Launch => 4 case TruncFail => 2 case PutFail => 1
    case TruncPid => 12 case PutPid => 11 case TruncPgid => 10 case PutPgid => 9
    case Sign => 8 case TruncMeta => 7 case PutMeta => 6
    case AwaitExit => if s.os.tool.Up? then 5 else 4
    case TruncExit(_) => 2 case PutExit(_) => 1
    case _ => 0
  }

  function Urge(s: Shared): Event {
    if s.sup.Launch? then Sup(false)
    else if s.sup.AwaitExit? && s.os.tool.Up? then ToolExit(Exited(0))
    else Sup(true)
  }

  function Urged(s: Shared): Shared {
    if s.sup.AwaitExit? && s.os.tool.Up? then s.(os := EndTool(s.os, Exited(0)))
    else SupNext(s, !s.sup.Launch?)
  }

  lemma UrgeHelps(s: Shared)
    requires PcOk(s) && FilesOk(s) && MetaOk(s) && OsOk(s.os)
    requires !Doomed(s) && !s.dir.exit.Data?
    ensures Urged(s).dir.exit.Data? || (!Doomed(Urged(s)) && ToGo(Urged(s)) < ToGo(s))
  {}

  lemma {:induction false} CanFinish(v: Variant, w: World) returns (es: seq<Event>)
    requires WorldOk(v, w) && !Doomed(w.sh)
    ensures Exec(v, w, es).sh.dir.exit.Data?
    decreases ToGo(w.sh)
  {
    if w.sh.dir.exit.Data? {
      es := [];
    } else {
      var e := Urge(w.sh);
      Step(v, w, e);
      UrgeHelps(w.sh);
      var u := Next(v, w, e);
      assert u.sh == Urged(w.sh);
      var rest := [];
      if !u.sh.dir.exit.Data? { rest := CanFinish(v, u); }
      es := [e] + rest;
      assert es[0] == e && es[1..] == rest;
    }
  }

  /** The guard is exact: an exit code is out of reach in every future precisely in the
      doomed worlds. */
  lemma DoomedExactly(v: Variant, w: World)
    requires WorldOk(v, w)
    ensures Doomed(w.sh) <==> forall es :: !Exec(v, w, es).sh.dir.exit.Data?
  {
    if Doomed(w.sh) {
      forall es ensures !Exec(v, w, es).sh.dir.exit.Data? { DoomedForever(v, w, es); }
    } else {
      var es := CanFinish(v, w);
    }
  }

  /** In every interleaving, a check about to write the marker because the tool's PID was
      unreachable does so only when the supervisor is gone and no usable exit code exists
      or ever will. */
  lemma UnreachableMarkIsFinal(v: Variant, w0: World, pre: seq<Event>, o: nat)
    requires Init(w0)
    requires o in Exec(v, w0, pre).obs && Exec(v, w0, pre).obs[o] == MarkIt(Unreachable)
    ensures Lost(Exec(v, w0, pre).sh)
    ensures forall post :: Lost(Exec(v, w0, pre + post).sh)
  {
    InitOk(v, w0);
    RunOk(v, w0, pre);
    var w := Exec(v, w0, pre);
    forall post ensures Lost(Exec(v, w0, pre + post).sh) {
      ExecAppend(v, w0, pre, post);
      RunOk(v, w, post);
    }
  }

  /** The marker never shadows an exit code. */
  ghost predicate MarkerSound(s: Shared) {
    s.dir.crashed ==> Lost(s)
  }

  lemma {:induction false} RecheckedKeepsMarkerSound(w: World, es: seq<Event>)
    requires WorldOk(Rechecked, w) && MarkerSound(w.sh)
    ensures MarkerSound(Exec(Rechecked, w, es).sh)
    decreases |es|
  {
    if es != [] {
      Step(Rechecked, w, es[0]);
      var u := Next(Rechecked, w, es[0]);
      assert MarkerSound(u.sh);
      RecheckedKeepsMarkerSound(u, es[1..]);
    }
  }

  /** What exit_code should hold once the supervisor wrote it: 127 for a tool that was never
      started, else the shell's code of its end. */
  function TrueCode(t: Tool): int {
    match t
    case Ended(_, _, _, how) => ShellCode(how)
    case Reaped(_, _, _, how) => ShellCode(how)
    case _ => 127
  }

  predicate EndedWell(t: Tool) {
    t.Reaped? && t.how == Exited(0)
  }

  function Turns(es: seq<Event>, o: nat): nat
    decreases |es|
  {
    if es == [] then 0 else (if es[0].Obs? && es[0].o == o then 1 else 0) + Turns(es[1..], o)
  }

  predicate Answered(pc: ObsPc) {
    Answer(pc).Some?
  }

  /** A bound on the looks a check still takes. */
  function LooksLeft(pc: ObsPc): nat {
    match pc
    case Begin => 13 case RdPid(_) => 12 case Stat1(_, _) => 11 case RdExit(_, _) => 10
    case Kill0(_, _) => 9 case ToolZ(_, _) => 8 case Recyc(_, _) => 7
    case SupRd(_) => 6 case SupKill0(_, _) => 5 case SupZ(_, _) => 4
    case Stat2(_) => 3 case RdExit2(_) => 2 case MarkerCode => 1
    case MarkIt(_) => 1
    case _ => 0
  }

  /** How far a check that finds its answer in the markers has come. */
  function TurnsTaken(pc: ObsPc): int {
    match pc
    case Begin => 0 case RdPid(_) => 1 case Stat1(_, _) => 2 case RdExit(_, _) => 3
    case MarkerCode => 3
    case _ => 4
  }

  predicate Routine(pc: ObsPc) {
    pc.Begin? || pc.RdPid? || pc.Stat1? || pc.RdExit? || Answered(pc)
  }

  /** The check is on its way to the recorded code, or has reported it. */
  predicate Tracking(s: Shared, pc: ObsPc) {
    && s.dir.exit.Data? && Routine(pc)
    && (Answered(pc) ==> Answer(pc).value == (StatusOfCode(s.dir.exit.val), Some(s.dir.exit.val)))
  }

  lemma TrackingMove(v: Variant, s: Shared, pc: ObsPc, ok: bool)
    requires Tracking(s, pc) && !s.dir.crashed
    ensures Tracking(s.(dir := ObsDirNext(s.dir, pc, ok)), ObsPcNext(v, s, pc, ok))
    ensures TurnsTaken(ObsPcNext(v, s, pc, ok)) >= if TurnsTaken(pc) < 4 then TurnsTaken(pc) + 1 else 4
  {}

  lemma TrackingStep(v: Variant, w: World, e: Event, o: nat)
    requires WorldOk(v, w) && o in w.obs && Tracking(w.sh, w.obs[o]) && !w.sh.dir.crashed
    ensures o in Next(v, w, e).obs && Tracking(Next(v, w, e).sh, Next(v, w, e).obs[o])
    ensures TurnsTaken(Next(v, w, e).obs[o]) >=
              (if e.Obs? && e.o == o && TurnsTaken(w.obs[o]) < 4 then TurnsTaken(w.obs[o]) + 1 else TurnsTaken(w.obs[o]))
  {
    SharedStep(v, w, e);
    if e.Obs? && e.o == o {
      TrackingMove(v, w.sh, w.obs[o], e.ok);
    } else {
      assert Next(v, w, e).obs[o] == w.obs[o];
    }
  }

  /** With a code on disk and no marker, a check that starts now can only answer with that
      code, and does so within four of its own steps. */
  lemma {:induction false} CodeIsReported(v: Variant, w: World, es: seq<Event>, o: nat)
    requires WorldOk(v, w) && o in w.obs && Tracking(w.sh, w.obs[o])
    requires !Exec(v, w, es).sh.dir.crashed
    ensures var u := Exec(v, w, es);
            && o in u.obs && Tracking(u.sh, u.obs[o])
            && (TurnsTaken(w.obs[o]) + Turns(es, o) >= 4 ==> Answered(u.obs[o]))
    decreases |es|
  {
    if es != [] {
      var u := Next(v, w, es[0]);
      Step(v, w, es[0]);
      RunOk(v, u, es[1..]);
      TrackingStep(v, w, es[0], o);
      CodeIsReported(v, u, es[1..], o);
    }
  }

  /** A check is about to begin, with the code on disk. */
  predicate BeginsAfterWrite(w: World, o: nat) {
    w.sh.dir.exit.Data? && o in w.obs && w.obs[o] == Begin
  }

  /** The answer names the tool's own code, and COMPLETED exactly when it exited with 0. */
  predicate TrueReport(s: Shared, answer: (Status, Option<int>)) {
    && answer.1 == Some(TrueCode(s.os.tool))
    && (answer.0 == Completed <==> EndedWell(s.os.tool))
    && (answer.0 == Failed <==> !EndedWell(s.os.tool))
  }

  /** End-to-end fidelity, with the second look in all three branches and no condition on
      the schedule: every check that starts after exit_code was written reports it. */
  lemma RecheckedFidelity(w0: World, pre: seq<Event>, o: nat, post: seq<Event>)
    requires Init(w0)
    requires BeginsAfterWrite(Exec(Rechecked, w0, pre), o)
    ensures var u := Exec(Rechecked, Exec(Rechecked, w0, pre), post);
            && o in u.obs
            && (Turns(post, o) >= 4 ==> Answered(u.obs[o]))
            && (Answered(u.obs[o]) ==> TrueReport(u.sh, Answer(u.obs[o]).value))
  {
    InitOk(Rechecked, w0);
    RunOk(Rechecked, w0, pre);
    var w := Exec(Rechecked, w0, pre);
    RunOk(Rechecked, w, post);
    RecheckedKeepsMarkerSound(w0, pre);
    RecheckedKeepsMarkerSound(w, post);
    CodeIsReported(Rechecked, w, post, o);
  }

  /** The flag never goes back to false, whatever the supervisor's blind rewrite meets, and
      after that rewrite the concurrent read-modify-write marks lose no other update. */
  lemma NotifiedNeverCleared(v: Variant, w0: World, pre: seq<Event>, post: seq<Event>)
    requires Init(w0)
    ensures Notified(Exec(v, w0, pre).sh.dir) ==> Notified(Exec(v, w0, pre + post).sh.dir)
    ensures !Early(Exec(v, w0, pre).sh) ==>
              SameMeta(Exec(v, w0, pre).sh.dir, Exec(v, w0, pre + post).sh.dir)
  {
    InitOk(v, w0);
    RunOk(v, w0, pre);
    ExecAppend(v, w0, pre, post);
    RunOk(v, Exec(v, w0, pre), post);
  }

  /** Why: a terminal answer, which is what a reader needs before it marks, cannot be had
      while the rewrite is still to come. */
  lemma NoTerminalAnswerBeforeRewrite(v: Variant, w0: World, es: seq<Event>, o: nat)
    requires Init(w0)
    requires o in Exec(v, w0, es).obs && Answered(Exec(v, w0, es).obs[o])
    requires Early(Exec(v, w0, es).sh)
    ensures Answer(Exec(v, w0, es).obs[o]).value == (Running, None)
  {
    InitOk(v, w0);
    RunOk(v, w0, es);
  }

  /** Every marker write of the run succeeds. */
  predicate MarksSucceed(v: Variant, w: World, es: seq<Event>)
    decreases |es|
  {
    es == [] ||
    (&& !(es[0].Obs? && !es[0].ok && es[0].o in w.obs && w.obs[es[0].o].MarkIt?)
     && MarksSucceed(v, Next(v, w, es[0]), es[1..]))
  }

  /** Every CRASHED answer has left its marker. */
  predicate CrashesMarked(w: World) {
    forall o <- w.obs | Answered(w.obs[o]) && Answer(w.obs[o]).value.0 == Crashed :: w.sh.dir.crashed
  }

  lemma CrashesMarkedStep(v: Variant, w: World, e: Event)
    requires CrashesMarked(w)
    requires !(e.Obs? && !e.ok && e.o in w.obs && w.obs[e.o].MarkIt?)
    requires Rely(w.sh, Next(v, w, e).sh)
    requires forall o <- w.obs :: ObsOk(v, w.sh, w.obs[o])
    ensures CrashesMarked(Next(v, w, e))
  {
    var u := Next(v, w, e);
    forall o <- u.obs | Answered(u.obs[o]) && Answer(u.obs[o]).value.0 == Crashed
      ensures u.sh.dir.crashed
    {
      if o in w.obs && Answered(w.obs[o]) {
        assert Answer(w.obs[o]) == Answer(u.obs[o]);
      }
    }
  }

  lemma {:induction false} MarksKept(v: Variant, w: World, es: seq<Event>)
    requires WorldOk(v, w) && CrashesMarked(w) && MarksSucceed(v, w, es)
    ensures CrashesMarked(Exec(v, w, es))
    decreases |es|
  {
    if es != [] {
      Step(v, w, es[0]);
      CrashesMarkedStep(v, w, es[0]);
      MarksKept(v, Next(v, w, es[0]), es[1..]);
    }
  }

  /** What an earlier report settled, and how a later check has to respect it: `known` if a
      code was reported, `marked` if CRASHED was. */
  predicate Agrees(d: Dir, pc: ObsPc, known: bool, marked: bool) {
    && (d.crashed || d.exit.Data?)
    && (known ==> d.exit.Data?)
    && (marked ==> d.crashed)
    && match pc
       case Begin => true
       case RdPid(_) => true
       case Stat1(_, _) => true
       case MarkerCode => d.crashed
       case RdExit(_, _) => d.exit.Data? && !marked
       case _ =>
         Answered(pc) &&
         var (status, code) := Answer(pc).value;
         && (known ==> code == Some(d.exit.val))
         && (if marked then status == Crashed
             else status == Crashed || (d.exit.Data? && status == StatusOfCode(d.exit.val)))
  }

  lemma AgreesMove(v: Variant, s: Shared, pc: ObsPc, ok: bool, known: bool, marked: bool)
    requires Agrees(s.dir, pc, known, marked)
    ensures Agrees(ObsDirNext(s.dir, pc, ok), ObsPcNext(v, s, pc, ok), known, marked)
    ensures TurnsTaken(ObsPcNext(v, s, pc, ok)) >= if TurnsTaken(pc) < 4 then TurnsTaken(pc) + 1 else 4
  {}

  lemma AgreesStep(v: Variant, w: World, e: Event, o: nat, known: bool, marked: bool)
    requires Rely(w.sh, Next(v, w, e).sh) && o in w.obs && Agrees(w.sh.dir, w.obs[o], known, marked)
    ensures o in Next(v, w, e).obs && Agrees(Next(v, w, e).sh.dir, Next(v, w, e).obs[o], known, marked)
    ensures TurnsTaken(Next(v, w, e).obs[o]) >=
              (if e.Obs? && e.o == o && TurnsTaken(w.obs[o]) < 4 then TurnsTaken(w.obs[o]) + 1 else TurnsTaken(w.obs[o]))
  {
    if e.Obs? && e.o == o {
      AgreesMove(v, w.sh, w.obs[o], e.ok, known, marked);
    } else {
      assert Next(v, w, e).obs[o] == w.obs[o];
    }
  }

  lemma {:induction false} SettledStays(v: Variant, w: World, es: seq<Event>, o: nat, known: bool, marked: bool)
    requires WorldOk(v, w) && o in w.obs && Agrees(w.sh.dir, w.obs[o], known, marked)
    ensures var u := Exec(v, w, es);
            && o in u.obs && Agrees(u.sh.dir, u.obs[o], known, marked)
            && (TurnsTaken(w.obs[o]) + Turns(es, o) >= 4 ==> Answered(u.obs[o]))
    decreases |es|
  {
    if es != [] {
      Step(v, w, es[0]);
      AgreesStep(v, w, es[0], o, known, marked);
      SettledStays(v, Next(v, w, es[0]), es[1..], o, known, marked);
    }
  }

  /** Terminality is absorbing: after any check answered with a terminal status, a check
      started later answers with a terminal status too, repeats a reported exit code, and
      differs at most by calling CRASHED what was COMPLETED or FAILED. */
  lemma TerminalIsAbsorbing(v: Variant, w0: World, pre: seq<Event>, first: nat, later: nat, post: seq<Event>)
    requires Init(w0) && MarksSucceed(v, w0, pre)
    requires var w := Exec(v, w0, pre);
             && first in w.obs && Answered(w.obs[first]) && IsTerminal(Answer(w.obs[first]).value.0)
             && later in w.obs && w.obs[later] == Begin
    ensures var w := Exec(v, w0, pre);
            var u := Exec(v, w, post);
            var (status, code) := Answer(w.obs[first]).value;
            && later in u.obs
            && (Turns(post, later) >= 4 ==> Answered(u.obs[later]))
            && (Answered(u.obs[later]) ==>
                  var (status', code') := Answer(u.obs[later]).value;
                  && IsTerminal(status')
                  && (code.Some? ==> code' == code)
                  && (status' == status || status' == Crashed))
  {
    InitOk(v, w0);
    RunOk(v, w0, pre);
    MarksKept(v, w0, pre);
    var w := Exec(v, w0, pre);
    var (status, code) := Answer(w.obs[first]).value;
    RunOk(v, w, post);
    SettledStays(v, w, post, later, code.Some?, status == Crashed);
  }
}
