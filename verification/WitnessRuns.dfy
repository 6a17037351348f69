/** Concrete runs of the protocol as written, from the launch of the supervisor to an event
    that breaks the side condition: each clause of the condition is needed, for a tool that
    exits with 0. */
module WitnessRuns {
  import opened Common
  import opened RecordProtocol
  import opened ProtocolInvariants
  import opened MarkerSafety
  import opened SideConditions
  import opened ConditionIsNeeded
  import HandOvers

  /** PID 1 supervises, PID 2 will be the tool. */
  const IDLE_OS := Os(map[1 := Slot(0, 5, false)], 1, 1, 0, true, NotStarted)
  const UP_OS := Os(map[1 := Slot(0, 5, false), 2 := Slot(1, 7, false)], 2, 1, 0, true, Up(2, 1, 7))
  const ENDED_OS := Os(map[1 := Slot(0, 5, false), 2 := Slot(1, 7, true)], 2, 1, 0, true, Ended(2, 1, 7, Exited(0)))
  const REAPED_OS := Os(map[1 := Slot(0, 5, false)], 2, 1, 0, true, Reaped(2, 1, 7, Exited(0)))

  const FRESH := Meta(0, false)
  const SIGNED := Meta(7, false)

  function Disk(meta: File<Meta>, pid: File<nat>, pgid: File<nat>, supPid: File<nat>): Dir {
    Dir(meta, pid, pgid, supPid, Absent, false)
  }

  const LAUNCHED := World(Shared(Disk(Data(FRESH), Absent, Absent, Absent), IDLE_OS, ReadMeta, FRESH), map[])

  /** The record is fully written and the supervisor is waiting, or later. */
  function Tracked(os: Os, exit: File<int>, sup: SupPc): Shared {
    Shared(Dir(Data(SIGNED), Data(2), Data(2), Data(1), exit, false), os, sup, SIGNED)
  }

  /** One more benign event at the end of a run. */
  lemma Then(es: seq<Event>, w: World, e: Event, u: World) returns (more: seq<Event>)
    requires Reaches(LAUNCHED, es, w) && Benign(w, e) && Next(AsWritten, w, e) == u
    ensures Reaches(LAUNCHED, more, u)
  {
    more := es + [e];
    One(w, e);
    Onward(LAUNCHED, es, w, [e], u);
  }

  lemma SupThen(es: seq<Event>, w: World, t: Shared) returns (more: seq<Event>, u: World)
    requires Reaches(LAUNCHED, es, w) && w.sh.os.alive && !w.sh.sup.Leave? && SupNext(w.sh, true) == t
    ensures u == World(t, w.obs) && Reaches(LAUNCHED, more, u)
  {
    u := World(t, w.obs);
    more := Then(es, w, Sup(true), u);
  }

  /** A look of check `o`, the only one in these runs. */
  lemma OneLook(w: World, o: nat, pc: ObsPc, pc': ObsPc)
    requires w.obs == map[o := pc] && !pc.MarkIt? && !pc.NWrite? && ObsPcNext(AsWritten, w.sh, pc, true) == pc'
    ensures Reaches(w, [Obs(o, true)], World(w.sh, map[o := pc']))
  {
    One(w, Obs(o, true));
  }

  lemma LookThen(es: seq<Event>, w: World, o: nat, pc: ObsPc, pc': ObsPc) returns (more: seq<Event>, u: World)
    requires Reaches(LAUNCHED, es, w) && w.obs == map[o := pc] && !pc.MarkIt? && !pc.NWrite?
    requires ObsPcNext(AsWritten, w.sh, pc, true) == pc'
    ensures u == World(w.sh, map[o := pc']) && Reaches(LAUNCHED, more, u)
  {
    u := World(w.sh, map[o := pc']);
    OneLook(w, o, pc, pc');
    more := es + [Obs(o, true)];
    Onward(LAUNCHED, es, w, [Obs(o, true)], u);
  }

  lemma Spawns() returns (es: seq<Event>)
    ensures Reaches(LAUNCHED, es, World(Shared(Disk(Data(FRESH), Absent, Absent, Data(1)), UP_OS, TruncPid, FRESH), map[]))
  {
    es := [];
    var w := LAUNCHED;
    assert Reaches(LAUNCHED, es, w);
    es, w := SupThen(es, w, Shared(Disk(Data(FRESH), Absent, Absent, Absent), IDLE_OS, TruncSup, FRESH));
    es, w := SupThen(es, w, Shared(Disk(Data(FRESH), Absent, Absent, Torn), IDLE_OS, PutSup, FRESH));
    es, w := SupThen(es, w, Shared(Disk(Data(FRESH), Absent, Absent, Data(1)), IDLE_OS, OpenStreams, FRESH));
    es, w := SupThen(es, w, Shared(Disk(Data(FRESH), Absent, Absent, Data(1)), IDLE_OS, Launch, FRESH));
    es := Then(es, w, Start(2, 7), World(Shared(w.sh.dir, UP_OS, TruncPid, FRESH), map[]));
  }

  lemma RecordsIds() returns (es: seq<Event>)
    ensures Reaches(LAUNCHED, es, World(Shared(Disk(Data(FRESH), Data(2), Data(2), Data(1)), UP_OS, Sign, FRESH), map[]))
  {
    es := Spawns();
    var w := Exec(AsWritten, LAUNCHED, es);
    es, w := SupThen(es, w, Shared(Disk(Data(FRESH), Torn, Absent, Data(1)), UP_OS, PutPid, FRESH));
    es, w := SupThen(es, w, Shared(Disk(Data(FRESH), Data(2), Absent, Data(1)), UP_OS, TruncPgid, FRESH));
    es, w := SupThen(es, w, Shared(Disk(Data(FRESH), Data(2), Torn, Data(1)), UP_OS, PutPgid, FRESH));
    es, w := SupThen(es, w, Shared(Disk(Data(FRESH), Data(2), Data(2), Data(1)), UP_OS, Sign, FRESH));
  }

  lemma Signs()
    ensures SupNext(Shared(Disk(Data(FRESH), Data(2), Data(2), Data(1)), UP_OS, Sign, FRESH), true)
         == Shared(Disk(Data(FRESH), Data(2), Data(2), Data(1)), UP_OS, TruncMeta, SIGNED)
  {}

  lemma RecordsStart() returns (es: seq<Event>)
    ensures Reaches(LAUNCHED, es, World(Tracked(UP_OS, Absent, AwaitExit), map[]))
  {
    es := RecordsIds();
    var w := Exec(AsWritten, LAUNCHED, es);
    Signs();
    es, w := SupThen(es, w, Shared(Disk(Data(FRESH), Data(2), Data(2), Data(1)), UP_OS, TruncMeta, SIGNED));
    es, w := SupThen(es, w, Shared(Disk(Torn, Data(2), Data(2), Data(1)), UP_OS, PutMeta, SIGNED));
    es, w := SupThen(es, w, Tracked(UP_OS, Absent, AwaitExit));
  }

  lemma CheckStarts(o: nat) returns (es: seq<Event>)
    ensures Reaches(LAUNCHED, es, World(Tracked(UP_OS, Absent, AwaitExit), map[o := Begin]))
  {
    es := RecordsStart();
    var w := World(Tracked(UP_OS, Absent, AwaitExit), map[]);
    es := Then(es, w, New(o), World(w.sh, map[o := Begin]));
  }

  /** A check starts while the tool runs and reads "no exit code yet". */
  lemma CheckUnderWay() returns (es: seq<Event>)
    ensures Reaches(LAUNCHED, es, World(Tracked(UP_OS, Absent, AwaitExit), map[0 := Kill0(7, 2)]))
  {
    es := CheckStarts(0);
    var w := World(Tracked(UP_OS, Absent, AwaitExit), map[0 := Begin]);
    es, w := LookThen(es, w, 0, Begin, RdPid(7));
    es, w := LookThen(es, w, 0, RdPid(7), Stat1(7, 2));
    es, w := LookThen(es, w, 0, Stat1(7, 2), RdExit(7, 2));
    es, w := LookThen(es, w, 0, RdExit(7, 2), Kill0(7, 2));
  }

  lemma ToolEnds(es0: seq<Event>, obs: map<nat, ObsPc>) returns (es: seq<Event>, w: World)
    requires Reaches(LAUNCHED, es0, World(Tracked(UP_OS, Absent, AwaitExit), obs))
    ensures w == World(Tracked(ENDED_OS, Absent, AwaitExit), obs) && Reaches(LAUNCHED, es, w)
  {
    w := World(Tracked(ENDED_OS, Absent, AwaitExit), obs);
    es := Then(es0, World(Tracked(UP_OS, Absent, AwaitExit), obs), ToolExit(Exited(0)), w);
  }

  lemma Reaps()
    ensures SupNext(Tracked(ENDED_OS, Absent, AwaitExit), true) == Tracked(REAPED_OS, Absent, TruncExit(0))
  {}

  /** The supervisor reaps a tool that exited with 0 and records the code. */
  lemma Finalizes(es0: seq<Event>, o: nat, pc: ObsPc) returns (es: seq<Event>)
    requires Reaches(LAUNCHED, es0, World(Tracked(ENDED_OS, Absent, AwaitExit), map[o := pc]))
    ensures Reaches(LAUNCHED, es, World(Tracked(REAPED_OS, Data(0), Linger), map[o := pc]))
  {
    es := es0;
    var w := Exec(AsWritten, LAUNCHED, es);
    Reaps();
    es, w := SupThen(es, w, Tracked(REAPED_OS, Absent, TruncExit(0)));
    es, w := SupThen(es, w, Tracked(REAPED_OS, Torn, PutExit(0)));
    es, w := SupThen(es, w, Tracked(REAPED_OS, Data(0), Linger));
  }

  /** The check's answer is CRASHED for good, although the tool exited with 0 and the
      supervisor recorded that. */
  predicate Falsified(s: Shared) {
    s.dir.crashed && s.dir.exit == Data(0) && EndedWell(s.os.tool)
  }

  /** A run from launch in which exactly one event breaks the side condition, and that only by
      one clause. */
  predicate SingleFault(es: seq<Event>, e: Event, more: seq<Event>, clause: Clause) {
    var w := Exec(AsWritten, LAUNCHED, es);
    && BenignRun(LAUNCHED, es)
    && (forall c: Clause :: Breaks(w, e, c) <==> c == clause)
    && BenignRun(Next(AsWritten, w, e), more)
  }

  function EndOf(es: seq<Event>, e: Event, more: seq<Event>): Shared {
    Exec(AsWritten, LAUNCHED, es + ([e] + more)).sh
  }

  lemma ShadowIsFalse(w: World, more: seq<Event>)
    requires WorldOk(AsWritten, w) && w.sh.os.tool.Reaped? && w.sh.os.tool.how == Exited(0)
    requires Shadowed(Exec(AsWritten, w, more).sh)
    ensures Falsified(Exec(AsWritten, w, more).sh)
  {
    RunOk(AsWritten, w, more);
  }

  /** After a single breach some benign continuation ends with the marker beside the code 0. */
  lemma Loses(es: seq<Event>, w: World, e: Event, clause: Clause) returns (more: seq<Event>)
    requires Reaches(LAUNCHED, es, w) && forall c: Clause :: Breaks(w, e, c) <==> c == clause
    requires w.sh.os.tool.Reaped? && w.sh.os.tool.how == Exited(0)
    ensures SingleFault(es, e, more, clause) && Falsified(EndOf(es, e, more))
  {
    InitOk(AsWritten, LAUNCHED);
    RunOk(AsWritten, LAUNCHED, es);
    match clause {
      case EndUnderSearch => DeathHurts(w, e);
      case ReuseBeforeWrite => EarlyReuseHurts(w, e);
      case ReuseUnderCheck => LateReuseHurts(w, e);
    }
    var u := Next(AsWritten, w, e);
    more :| BenignRun(u, more) && Shadowed(Exec(AsWritten, u, more).sh);
    Ends(es, w, e, more);
  }

  lemma Ends(es: seq<Event>, w: World, e: Event, more: seq<Event>)
    requires Reaches(LAUNCHED, es, w) && WorldOk(AsWritten, w)
    requires w.sh.os.tool.Reaped? && w.sh.os.tool.how == Exited(0)
    requires Shadowed(Exec(AsWritten, Next(AsWritten, w, e), more).sh)
    ensures Falsified(EndOf(es, e, more))
  {
    RunOfThree(LAUNCHED, es, e, more);
    ExecAppend(AsWritten, w, [e], more);
    One(w, e);
    ShadowIsFalse(w, [e] + more);
  }

  /** A check sees the zombie, then the supervisor reaps it and records the code. */
  lemma SeesZombie() returns (es: seq<Event>)
    ensures Reaches(LAUNCHED, es, World(Tracked(REAPED_OS, Data(0), Linger), map[0 := SupRd(ToolZombie)]))
  {
    es := CheckUnderWay();
    var w;
    es, w := ToolEnds(es, map[0 := Kill0(7, 2)]);
    es, w := LookThen(es, w, 0, Kill0(7, 2), ToolZ(7, 2));
    es, w := LookThen(es, w, 0, ToolZ(7, 2), SupRd(ToolZombie));
    es := Finalizes(es, 0, SupRd(ToolZombie));
  }

  /** The supervisor finishes between the look at the zombie and the look for the supervisor;
      no PID is ever reused. */
  lemma ZombieRace()
    ensures exists es, e, more :: SingleFault(es, e, more, EndUnderSearch) && e == KillSup && Falsified(EndOf(es, e, more))
  {
    var es := SeesZombie();
    var w := Exec(AsWritten, LAUNCHED, es);
    assert 0 in w.obs && SeekingSupervisor(w.obs[0]);
    var more := Loses(es, w, KillSup, EndUnderSearch);
  }

  /** The tool's PID goes to another process between the reap and the exit_code write, and
      nothing else breaks the condition. */
  lemma ReuseBeforeTheWrite()
    ensures exists es, e, more :: SingleFault(es, e, more, ReuseBeforeWrite) && Falsified(EndOf(es, e, more))
  {
    var es := RecordsStart();
    var w;
    es, w := ToolEnds(es, map[]);
    Reaps();
    es, w := SupThen(es, w, Tracked(REAPED_OS, Absent, TruncExit(0)));
    var more := Loses(es, w, Fork(2, 9), ReuseBeforeWrite);
  }

  const REUSED_OS := Os(map[1 := Slot(0, 5, false), 2 := Slot(2, 9, false)], 3, 1, 0, true, Reaped(2, 1, 7, Exited(0)))

  lemma MarksFalsely() returns (u: World)
    ensures Reaches(World(Tracked(REUSED_OS, Data(0), Linger), map[0 := MarkIt(Recycled)]), [Obs(0, true)], u)
    ensures Falsified(u.sh) && u.sh.os.alive
  {
    var w := World(Tracked(REUSED_OS, Data(0), Linger), map[0 := MarkIt(Recycled)]);
    u := Next(AsWritten, w, Obs(0, true));
    One(w, Obs(0, true));
  }

  /** From the reuse on, the check alone moves, and the supervisor lives. */
  lemma MeetsNewHolder() returns (more: seq<Event>, u: World)
    ensures Reaches(World(Tracked(REUSED_OS, Data(0), Linger), map[0 := Kill0(7, 2)]), more, u)
    ensures Falsified(u.sh) && u.sh.os.alive
  {
    var sh := Tracked(REUSED_OS, Data(0), Linger);
    var a, b, c, d := World(sh, map[0 := Kill0(7, 2)]), World(sh, map[0 := ToolZ(7, 2)]),
                      World(sh, map[0 := Recyc(7, 2)]), World(sh, map[0 := MarkIt(Recycled)]);
    var look := Obs(0, true);
    OneLook(a, 0, Kill0(7, 2), ToolZ(7, 2));
    OneLook(b, 0, ToolZ(7, 2), Recyc(7, 2));
    OneLook(c, 0, Recyc(7, 2), MarkIt(Recycled));
    u := MarksFalsely();
    Onward(a, [look], b, [look], c);
    Onward(a, [look] + [look], c, [look], d);
    Onward(a, [look] + [look] + [look], d, [look], u);
    more := [look] + [look] + [look] + [look];
  }

  /** No reuse before the write and a supervisor that never ends do not suffice: a check that
      read exit_code too early meets the next holder of the PID. */
  lemma ReuseAfterTheWrite()
    ensures exists es, e, more :: SingleFault(es, e, more, ReuseUnderCheck) && Falsified(EndOf(es, e, more)) && EndOf(es, e, more).os.alive
  {
    var es := CheckUnderWay();
    var w;
    es, w := ToolEnds(es, map[0 := Kill0(7, 2)]);
    es := Finalizes(es, 0, Kill0(7, 2));
    w := World(Tracked(REAPED_OS, Data(0), Linger), map[0 := Kill0(7, 2)]);
    assert 0 in w.obs && Exposed(w.obs[0], 9);
    assert Next(AsWritten, w, Fork(2, 9)) == World(Tracked(REUSED_OS, Data(0), Linger), map[0 := Kill0(7, 2)]);
    var more, u := MeetsNewHolder();
    RunOfThree(LAUNCHED, es, Fork(2, 9), more);
    assert SingleFault(es, Fork(2, 9), more, ReuseUnderCheck);
  }

  /** A check begins while the tool runs and takes no step until the code is recorded. */
  lemma BeginsEarly(o: nat) returns (es: seq<Event>)
    ensures Reaches(LAUNCHED, es, World(Tracked(REAPED_OS, Data(0), Linger), map[o := Begin]))
  {
    var w;
    es := CheckStarts(o);
    es, w := ToolEnds(es, map[o := Begin]);
    es := Finalizes(es, o, Begin);
  }

  /** The wake has found the flag unset and has not started its hooks. */
  lemma PassesGate(o: nat) returns (es: seq<Event>, w: World)
    ensures w == World(Tracked(REAPED_OS, Data(0), HookStart), map[o := Begin]) && Reaches(LAUNCHED, es, w)
  {
    es := BeginsEarly(o);
    w := World(Tracked(REAPED_OS, Data(0), Linger), map[o := Begin]);
    es, w := SupThen(es, w, Tracked(REAPED_OS, Data(0), HookGate));
    es, w := SupThen(es, w, Tracked(REAPED_OS, Data(0), HookStart));
  }

  /** The wake has started its hooks and is about to set the flag. */
  lemma WakesUnmarked() returns (es: seq<Event>, w: World)
    ensures w == World(Tracked(REAPED_OS, Data(0), HookMark(SIGNED)), map[0 := Begin]) && Reaches(LAUNCHED, es, w)
  {
    es, w := PassesGate(0);
    es, w := SupThen(es, w, Tracked(REAPED_OS, Data(0), HookReread));
    es, w := SupThen(es, w, Tracked(REAPED_OS, Data(0), HookMark(SIGNED)));
  }

  /** Setting the flag is not one step with the test for it: between the start of the wake's
      hooks and its mark a piggyback can list the same job as pending, and both hand it over. */
  lemma BothHandOver()
    ensures exists es :: !HandOvers.Once(HandOvers.HubExec(HandOvers.Hub(LAUNCHED, {}, []), es).log)
  {
    var es, w := WakesUnmarked();
    HandOvers.ReachedBy(LAUNCHED, es, w);
    var h := HandOvers.HubExec(HandOvers.Hub(LAUNCHED, {}, []), es);
    assert HandOvers.Documented(h) && HandOvers.Lists(w, Obs(0, true)) && HandOvers.WakeUnderWay(w.sh);
    HandOvers.DisorderIsFatal(LAUNCHED, es, Obs(0, true));
  }

  lemma AnswersAtGate() returns (es: seq<Event>, w: World)
    ensures w == World(Tracked(REAPED_OS, Data(0), HookStart), map[1 := Done(Completed, Some(0))])
    ensures Reaches(LAUNCHED, es, w)
  {
    es, w := PassesGate(1);
    es, w := LookThen(es, w, 1, Begin, RdPid(7));
    es, w := LookThen(es, w, 1, RdPid(7), Stat1(7, 2));
    es, w := LookThen(es, w, 1, Stat1(7, 2), RdExit(7, 2));
    es, w := LookThen(es, w, 1, RdExit(7, 2), Done(Completed, Some(0)));
  }

  /** A read is about to set the flag while the wake is between its gate and its hooks. */
  lemma ReadsAtGate() returns (es: seq<Event>, w: World)
    ensures w == World(Tracked(REAPED_OS, Data(0), HookStart), map[1 := NWrite(Completed, Some(0), SIGNED)])
    ensures Reaches(LAUNCHED, es, w)
  {
    es, w := AnswersAtGate();
    es, w := LookThen(es, w, 1, Done(Completed, Some(0)), NRead(Completed, Some(0)));
    es, w := LookThen(es, w, 1, NRead(Completed, Some(0)), NWrite(Completed, Some(0), SIGNED));
  }

  /** Nor does a read suppress the wake: it can mark the job between the wake's test of the
      flag and the start of the hooks. */
  lemma ReadThenWake()
    ensures exists es :: HandOvers.HubExec(HandOvers.Hub(LAUNCHED, {}, []), es).log == [HandOvers.Read(1), HandOvers.Wake]
  {
    var es, w := ReadsAtGate();
    var run := HandOvers.ReadThenWakeFrom(LAUNCHED, es, w, 1);
  }
}
