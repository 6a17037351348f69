/** Who hands a finished job over to its agent when the delivery paths interleave: the idle
    wake, end-of-turn piggybacks and manual reads, over the step machine of one record. */
module HandOvers {
  import opened Common
  import opened RecordProtocol
  import opened ProtocolInvariants
  import opened MarkerSafety
  import ConditionIsNeeded

  datatype Hand = Wake | Piggyback(o: nat) | Read(o: nat)

  /** The world, the piggyback checks that found the flag unset when they listed the job, and
      the hand-overs so far. */
  datatype Hub = Hub(w: World, listed: set<nat>, log: seq<Hand>)

  /** Which checks belong to a piggyback; the others are reads. Their numbers mean nothing
      else. */
  predicate Piggybacks(o: nat) {
    o % 2 == 0
  }

  /** A piggyback lists the job and finds its flag unset. That is its test: it asks for the
      mark later, but does not mind finding it set then. */
  predicate Lists(w: World, e: Event) {
    e.Obs? && e.o in w.obs && w.obs[e.o].Begin? && Piggybacks(e.o) && !Notified(w.sh.dir)
  }

  /** The wake has passed its gate, where it found the flag unset, and has not started its
      hooks. It does not look at the flag again before it does. */
  predicate WakeDue(s: Shared) {
    s.os.alive && s.sup.HookStart?
  }

  /** The wake starts its hooks. */
  predicate Wakes(w: World, e: Event) {
    e.Sup? && e.ok && WakeDue(w.sh)
  }

  /** A check's request for the mark comes back, and whether without an error. */
  predicate MarkReturns(w: World, e: Event) {
    e.Obs? && e.o in w.obs
    && (w.obs[e.o].NWrite? || (w.obs[e.o].NRead? && !(w.sh.dir.meta.Data? && !w.sh.dir.meta.val.notified)))
  }

  predicate MarkFine(w: World, e: Event)
    requires MarkReturns(w, e)
  {
    if w.obs[e.o].NWrite? then e.ok else Notified(w.sh.dir)
  }

  function HandsOver(h: Hub, e: Event): Option<Hand> {
    if Wakes(h.w, e) then Some(Wake)
    else if !MarkReturns(h.w, e) then None
    else if !Piggybacks(e.o) then Some(Read(e.o))
    else if e.o in h.listed && MarkFine(h.w, e) then Some(Piggyback(e.o))
    else None
  }

  function HubNext(h: Hub, e: Event): Hub {
    Hub(Next(AsWritten, h.w, e),
        if Lists(h.w, e) then h.listed + {e.o} else h.listed,
        if HandsOver(h, e).Some? then h.log + [HandsOver(h, e).value] else h.log)
  }

  function HubExec(h: Hub, es: seq<Event>): Hub
    decreases |es|
  {
    if es == [] then h else HubExec(HubNext(h, es[0]), es[1..])
  }

  predicate Surfaced(hand: Hand) {
    hand.Wake? || hand.Piggyback?
  }

  /** No hook path hands the job over once anybody has. */
  predicate Once(log: seq<Hand>) {
    forall j | 1 <= j < |log| :: !Surfaced(log[j])
  }

  // ---- what every run keeps

  predicate WakeUnderWay(s: Shared) {
    s.os.alive && (s.sup.HookReread? || s.sup.HookMark?)
  }

  predicate HandOk(s: Shared, obs: map<nat, ObsPc>, hand: Hand) {
    match hand
    case Wake => s.dir.exit.Data? && (s.os.alive ==> WakeUnderWay(s) || s.sup.Leave?)
    case Piggyback(o) => o in obs && obs[o].Noted?
    case Read(o) => o in obs && obs[o].Noted?
  }

  ghost predicate HubOk(h: Hub) {
    && WorldOk(AsWritten, h.w)
    && (forall o <- h.listed :: Piggybacks(o) && o in h.w.obs && !h.w.obs[o].Begin?)
    && (WakeUnderWay(h.w.sh) ==> Wake in h.log)
    && (forall hand <- h.log :: HandOk(h.w.sh, h.w.obs, hand))
  }

  predicate Begun(obs: map<nat, ObsPc>, o: nat) {
    o in obs && !obs[o].Begin?
  }

  lemma BegunStays(w: World, e: Event, o: nat)
    requires Begun(w.obs, o)
    ensures Begun(Next(AsWritten, w, e).obs, o)
  {}

  lemma HandStays(w: World, e: Event, hand: Hand)
    requires WorldOk(AsWritten, w) && HandOk(w.sh, w.obs, hand)
    ensures HandOk(Next(AsWritten, w, e).sh, Next(AsWritten, w, e).obs, hand)
  {
    SharedStep(AsWritten, w, e);
  }

  lemma NewHandOk(h: Hub, e: Event)
    requires WorldOk(AsWritten, h.w) && HandsOver(h, e).Some?
    ensures HandOk(HubNext(h, e).w.sh, HubNext(h, e).w.obs, HandsOver(h, e).value)
  {}

  lemma WakeIsLogged(h: Hub, e: Event)
    requires WakeUnderWay(Next(AsWritten, h.w, e).sh)
    ensures WakeUnderWay(h.w.sh) || HandsOver(h, e) == Some(Wake)
  {}

  lemma HubStep(h: Hub, e: Event)
    requires HubOk(h)
    ensures HubOk(HubNext(h, e))
  {
    var t := HubNext(h, e);
    Step(AsWritten, h.w, e);
    forall o <- t.listed ensures Piggybacks(o) && Begun(t.w.obs, o) {
      if o in h.listed { BegunStays(h.w, e, o); }
    }
    if WakeUnderWay(t.w.sh) { WakeIsLogged(h, e); }
    forall hand <- t.log ensures HandOk(t.w.sh, t.w.obs, hand) {
      if hand in h.log { HandStays(h.w, e, hand); } else { NewHandOk(h, e); }
    }
  }

  lemma {:induction false} HubRun(h: Hub, es: seq<Event>)
    requires HubOk(h)
    ensures HubOk(HubExec(h, es)) && HubExec(h, es).w == Exec(AsWritten, h.w, es)
    ensures h.log <= HubExec(h, es).log && h.listed <= HubExec(h, es).listed
    decreases |es|
  {
    if es != [] {
      HubStep(h, es[0]);
      HubRun(HubNext(h, es[0]), es[1..]);
    }
  }

  lemma HandedIsPastRewrite(h: Hub)
    requires HubOk(h) && h.log != []
    ensures !Early(h.w.sh)
  {
    assert HandOk(h.w.sh, h.w.obs, h.log[0]);
    match h.log[0] {
      case Wake =>
      case Piggyback(o) => assert ObsOk(AsWritten, h.w.sh, h.w.obs[o]);
      case Read(o) => assert ObsOk(AsWritten, h.w.sh, h.w.obs[o]);
    }
  }

  /** What can still surface the job once the flag is set. */
  predicate TestedBefore(h: Hub, hand: Hand) {
    match hand
    case Wake => WakeDue(h.w.sh)
    case Piggyback(o) => o in h.listed
    case Read(_) => true
  }

  /** Once the flag is set, no path passes its test any more: in every run, hook paths that
      hand the job over afterwards are piggybacks that had listed it before, or a wake that was
      past its gate before. */
  lemma {:induction false} FlagStopsNewPaths(h: Hub, es: seq<Event>)
    requires HubOk(h) && Notified(h.w.sh.dir)
    ensures var t := HubExec(h, es);
            && t.listed == h.listed && |h.log| <= |t.log|
            && forall j | |h.log| <= j < |t.log| :: TestedBefore(h, t.log[j])
    decreases |es|
  {
    if es != [] {
      var m := HubNext(h, es[0]);
      HubStep(h, es[0]);
      Step(AsWritten, h.w, es[0]);
      FlagStopsNewPaths(m, es[1..]);
      HubRun(m, es[1..]);
      var t := HubExec(h, es);
      forall j | |h.log| <= j < |t.log| ensures TestedBefore(h, t.log[j]) {
        if j >= |m.log| { assert TestedBefore(m, t.log[j]); } else { assert t.log[j] == m.log[j]; }
      }
    }
  }

  // ---- the condition

  /** The check has a terminal answer, or can still come to one. */
  predicate Open(s: Shared, pc: ObsPc) {
    match pc
    case Done(status, _) => IsTerminal(status)
    case Noted(_, _) => false
    case Recyc(st, _) => st != 0
    case RdExit(_, p) => p != 0 || s.dir.exit.Data? || !Doomed(s)
    case _ => true
  }

  /** A hand-over loses its mark: a read that cannot write it while no wake is about to, or a
      wake that started its hooks and is killed or cannot write it. */
  predicate LosesMark(w: World, e: Event) {
    && !Notified(w.sh.dir)
    && if WakeUnderWay(w.sh)
       then e.KillSup? || (e.Sup? && if w.sh.sup.HookMark? then !e.ok else !w.sh.dir.meta.Data?)
       else MarkReturns(w, e) && !Piggybacks(e.o) && !MarkFine(w, e)
  }

  /** A piggyback other than `first` has listed the job and can still come to a terminal
      answer. */
  predicate PiggybackDue(h: Hub, first: Hand) {
    exists o <- h.listed :: o in h.w.obs && Piggyback(o) != first && Open(h.w.sh, h.w.obs[o])
  }

  /** The first hand-over of the job happens while another path is between its test and its
      own hand-over. */
  predicate Overlaps(h: Hub, e: Event) {
    && h.log == [] && HandsOver(h, e).Some?
    && (PiggybackDue(h, HandsOver(h, e).value) || (WakeDue(h.w.sh) && !Wakes(h.w, e)))
  }

  /** The condition on an event: it loses no mark, it is no listing between the start of the
      hooks and the wake's mark, and it does not overlap. */
  predicate Orderly(h: Hub, e: Event) {
    !LosesMark(h.w, e) && !(Lists(h.w, e) && WakeUnderWay(h.w.sh)) && !Overlaps(h, e)
  }

  predicate OrderlyRun(h: Hub, es: seq<Event>)
    decreases |es|
  {
    es == [] || (Orderly(h, es[0]) && OrderlyRun(HubNext(h, es[0]), es[1..]))
  }

  /** Kept by orderly runs. */
  ghost predicate Calm(h: Hub) {
    && HubOk(h) && Once(h.log)
    && (h.log != [] ==> (Notified(h.w.sh.dir) || WakeUnderWay(h.w.sh)) && !WakeDue(h.w.sh))
    && (h.log != [] ==> forall o <- h.listed | o in h.w.obs && Piggyback(o) !in h.log :: !Open(h.w.sh, h.w.obs[o]))
  }

  lemma ClosedStays(w: World, e: Event, o: nat)
    requires WorldOk(AsWritten, w) && o in w.obs && !w.obs[o].Begin? && !Open(w.sh, w.obs[o])
    ensures o in Next(AsWritten, w, e).obs && !Open(Next(AsWritten, w, e).sh, Next(AsWritten, w, e).obs[o])
  {
    if w.obs[o].RdExit? { DoomedStep(AsWritten, w, e); }
  }

  lemma MarkStays(h: Hub, e: Event)
    requires HubOk(h) && !LosesMark(h.w, e)
    requires Notified(h.w.sh.dir) || WakeUnderWay(h.w.sh) || HandsOver(h, e).Some?
    ensures var s := HubNext(h, e).w.sh; Notified(s.dir) || WakeUnderWay(s)
  {
    SharedStep(AsWritten, h.w, e);
  }

  /** A hook path that hands over in an orderly run is the first to do so. */
  lemma SurfacesFirst(h: Hub, e: Event)
    requires Calm(h) && HandsOver(h, e).Some? && Surfaced(HandsOver(h, e).value)
    ensures h.log == []
  {}

  lemma CalmStep(h: Hub, e: Event)
    requires Calm(h) && Orderly(h, e)
    ensures Calm(HubNext(h, e))
  {
    var t := HubNext(h, e);
    HubStep(h, e);
    if HandsOver(h, e).Some? && Surfaced(HandsOver(h, e).value) { SurfacesFirst(h, e); }
    if t.log != [] {
      MarkStays(h, e);
      forall o <- t.listed | o in t.w.obs && Piggyback(o) !in t.log ensures !Open(t.w.sh, t.w.obs[o]) {
        assert o in h.listed && o in h.w.obs && !h.w.obs[o].Begin?;
        if HandsOver(h, e).Some? { assert HandsOver(h, e).value in t.log; }
        assert Piggyback(o) !in h.log;
        ClosedStays(h.w, e, o);
      }
    }
  }

  /** Sufficient: in an orderly run no hook path hands the job over once anybody has. */
  lemma {:induction false} OrderlyRunsAreOnce(h: Hub, es: seq<Event>)
    requires Calm(h) && OrderlyRun(h, es)
    ensures Calm(HubExec(h, es)) && Once(HubExec(h, es).log)
    decreases |es|
  {
    if es != [] {
      CalmStep(h, es[0]);
      OrderlyRunsAreOnce(HubNext(h, es[0]), es[1..]);
    }
  }

  // ---- the condition is needed

  /** From `h` the orderly events lead to `t`. */
  predicate Leads(h: Hub, es: seq<Event>, t: Hub) {
    OrderlyRun(h, es) && HubExec(h, es) == t
  }

  /** The events `es` are orderly and end with a hook path handing the job over again. */
  predicate Hurts(h: Hub, es: seq<Event>) {
    OrderlyRun(h, es) && !Once(HubExec(h, es).log)
  }

  /** Some orderly continuation does. */
  ghost predicate CanHurt(h: Hub) {
    exists es :: Hurts(h, es)
  }

  lemma {:induction false} Joined(h: Hub, a: seq<Event>, b: seq<Event>)
    ensures HubExec(h, a + b) == HubExec(HubExec(h, a), b)
    ensures OrderlyRun(h, a + b) <==> OrderlyRun(h, a) && OrderlyRun(HubExec(h, a), b)
    decreases |a|
  {
    if a == [] {
      assert a + b == b;
    } else {
      assert (a + b)[0] == a[0] && (a + b)[1..] == a[1..] + b;
      Joined(HubNext(h, a[0]), a[1..], b);
    }
  }

  lemma HurtAhead(h: Hub, es: seq<Event>, t: Hub)
    requires Leads(h, es, t) && CanHurt(t)
    ensures CanHurt(h)
  {
    var more :| Hurts(t, more);
    Joined(h, es, more);
    assert Hurts(h, es + more);
  }

  lemma Once1(h: Hub, e: Event)
    requires Orderly(h, e)
    ensures Leads(h, [e], HubNext(h, e))
  {
    assert [e][1..] == [] && HubExec(HubNext(h, e), [e][1..]) == HubNext(h, e) && OrderlyRun(HubNext(h, e), [e][1..]);
  }

  /** A piggyback that listed the unmarked job, whose metadata can be read, when somebody has
      handed it over. The record is settled: a marker or an exit code is on disk. No wake is
      about to set the flag. */
  ghost predicate Straggler(h: Hub, o: nat) {
    && HubOk(h) && h.log != [] && o in h.listed && o in h.w.obs
    && h.w.sh.dir.meta.Data? && (h.w.sh.dir.crashed || h.w.sh.dir.exit.Data?)
    && (Notified(h.w.sh.dir) || !WakeUnderWay(h.w.sh))
  }

  /** One event of the operating system or of the check itself, or of a supervisor that has not
      written the exit code. */
  lemma Meanwhile(h: Hub, e: Event, o: nat) returns (es: seq<Event>, t: Hub)
    requires Straggler(h, o) && !e.New? && (e.Obs? ==> e.o == o) && (e.Sup? ==> !h.w.sh.dir.exit.Data?)
    ensures t == HubNext(h, e) && Leads(h, es, t) && Straggler(t, o) && Rely(h.w.sh, t.w.sh)
  {
    es, t := [e], HubNext(h, e);
    Once1(h, e);
    HubStep(h, e);
    Step(AsWritten, h.w, e);
    HandedIsPastRewrite(h);
  }

  predicate OfOs(e: Event) {
    e.KillSup? || e.ToolExit? || e.InitReap? || e.Fork? || e.EnvExit? || e.EnvReap?
  }

  /** An event of the operating system: only the process table changes. */
  lemma Elsewhere(h: Hub, e: Event, o: nat) returns (es: seq<Event>, t: Hub)
    requires Straggler(h, o) && OfOs(e)
    ensures Leads(h, es, t) && Straggler(t, o)
    ensures t.w == h.w.(sh := h.w.sh.(os := OsNext(h.w.sh.os, e)))
  {
    es, t := Meanwhile(h, e, o);
  }

  /** A supervisor that can still write the exit code does. */
  lemma {:induction false} CodeComes(h: Hub, o: nat) returns (es: seq<Event>, t: Hub)
    requires Straggler(h, o) && !Doomed(h.w.sh)
    ensures Leads(h, es, t) && Straggler(t, o) && t.w.sh.dir.exit.Data? && t.w.obs == h.w.obs
    decreases ToGo(h.w.sh)
  {
    if h.w.sh.dir.exit.Data? {
      es, t := [], h;
    } else {
      var e := Urge(h.w.sh);
      UrgeHelps(h.w.sh);
      var m;
      es, m := Meanwhile(h, e, o);
      assert m.w == World(Urged(h.w.sh), h.w.obs);
      if m.w.sh.dir.exit.Data? {
        t := m;
      } else {
        var rest;
        rest, t := CodeComes(m, o);
        Joined(h, es, rest);
        es := es + rest;
      }
    }
  }

  predicate Terminal(pc: ObsPc) {
    pc.Done? && IsTerminal(pc.status)
  }

  /** A straggler with its answer in hand asks for the mark and hands the job over again. */
  lemma {:induction false} HandsOverAgain(h: Hub, o: nat)
    requires Straggler(h, o) && (Terminal(h.w.obs[o]) || h.w.obs[o].NRead? || h.w.obs[o].NWrite?)
    ensures CanHurt(h)
    decreases if Terminal(h.w.obs[o]) then 2 else if h.w.obs[o].NRead? then 1 else 0
  {
    var es, t := Meanwhile(h, Obs(o, true), o);
    if HandsOver(h, Obs(o, true)).Some? {
      assert t.log[|h.log|] == Piggyback(o);
      assert Hurts(h, es);
    } else {
      HandsOverAgain(t, o);
      HurtAhead(h, es, t);
    }
  }

  /** Looks after which a settled record, or the end of a search, gives the answer. */
  predicate NearAnswer(s: Shared, pc: ObsPc) {
    match pc
    case RdPid(_) => true
    case Stat1(_, _) => true
    case RdExit(_, _) => s.dir.exit.Data?
    case MarkerCode => true
    case Stat2(_) => true
    case RdExit2(_) => true
    case MarkIt(_) => true
    case _ => Terminal(pc) || pc.NRead? || pc.NWrite?
  }

  function NearSteps(pc: ObsPc): nat {
    match pc
    case RdPid(_) => 5 case Stat1(_, _) => 4 case RdExit(_, _) => 3 case Stat2(_) => 3
    case RdExit2(_) => 2 case MarkerCode => 1 case MarkIt(_) => 1
    case _ => 0
  }

  lemma {:induction false} NearHurts(h: Hub, o: nat)
    requires Straggler(h, o) && NearAnswer(h.w.sh, h.w.obs[o])
    ensures CanHurt(h)
    decreases NearSteps(h.w.obs[o])
  {
    if NearSteps(h.w.obs[o]) == 0 {
      HandsOverAgain(h, o);
    } else {
      var es, t := Meanwhile(h, Obs(o, true), o);
      NearHurts(t, o);
      HurtAhead(h, es, t);
    }
  }

  predicate Searching(pc: ObsPc) {
    pc.SupRd? || pc.SupKill0? || pc.SupZ?
  }

  /** The supervisor is gone and its PID does not answer as a live process. */
  predicate Buried(os: Os) {
    !os.alive && (os.supId in os.table ==> ZombieAt(os, os.supId))
  }

  lemma GhostIsZombie(os: Os)
    requires OsOk(os) && !os.alive && os.supId !in os.table
    ensures var t := OsNext(OsNext(os, Fork(os.supId, 1)), EnvExit(os.supId));
            ZombieAt(t, t.supId) && t.supId == os.supId && !t.alive
  {
    OsStep(os, Fork(os.supId, 1));
  }

  /** If the supervisor's process has vanished under the last look at it, a stranger takes its
      PID and dies. */
  lemma {:induction false} BuriedHurts(h: Hub, o: nat)
    requires Straggler(h, o) && Searching(h.w.obs[o]) && Buried(h.w.sh.os)
    ensures CanHurt(h)
    decreases if h.w.obs[o].SupRd? then 3 else if h.w.obs[o].SupKill0? then 2
              else if h.w.obs[o].sp !in h.w.sh.os.table then 1 else 0
  {
    assert ObsOk(AsWritten, h.w.sh, h.w.obs[o]);
    var sp := h.w.sh.os.supId;
    if h.w.obs[o].SupZ? && sp !in h.w.sh.os.table {
      GhostIsZombie(h.w.sh.os);
      var a, m := Elsewhere(h, Fork(sp, 1), o);
      var b, t := Elsewhere(m, EnvExit(sp), o);
      BuriedHurts(t, o);
      HurtAhead(m, b, t);
      HurtAhead(h, a, m);
    } else {
      var es, t := Meanwhile(h, Obs(o, true), o);
      if Searching(t.w.obs[o]) { BuriedHurts(t, o); } else { NearHurts(t, o); }
      HurtAhead(h, es, t);
    }
  }

  lemma SearchHurts(h: Hub, o: nat)
    requires Straggler(h, o) && Searching(h.w.obs[o])
    ensures CanHurt(h)
  {
    var a, m := Elsewhere(h, KillSup, o);
    var b, t := Elsewhere(m, EnvExit(h.w.sh.os.supId), o);
    assert Buried(t.w.sh.os);
    BuriedHurts(t, o);
    HurtAhead(m, b, t);
    HurtAhead(h, a, m);
  }

  lemma ZombieByThen(os: Os, p: nat)
    requires OsOk(os) && !os.tool.NotStarted? && p == os.tool.pid
    ensures ZombieAt(OsNext(OsNext(OsNext(os, Fork(p, 1)), ToolExit(Exited(0))), EnvExit(p)), p)
  {
    var a := OsNext(os, Fork(p, 1));
    OsStep(os, Fork(p, 1));
    OsStep(a, ToolExit(Exited(0)));
    assert p in a.table && p in OsNext(a, ToolExit(Exited(0))).table;
  }

  /** Whoever holds the PID that a check is about to look at can be a zombie by then. */
  lemma ZombieHurts(h: Hub, o: nat)
    requires Straggler(h, o) && h.w.obs[o].ToolZ?
    ensures CanHurt(h)
  {
    assert ObsOk(AsWritten, h.w.sh, h.w.obs[o]);
    var p := h.w.obs[o].p;
    ZombieByThen(h.w.sh.os, p);
    var a, m := Elsewhere(h, Fork(p, 1), o);
    var b, n := Elsewhere(m, ToolExit(Exited(0)), o);
    var c, q := Elsewhere(n, EnvExit(p), o);
    var d, t := Meanwhile(q, Obs(o, true), o);
    SearchHurts(t, o);
    HurtAhead(q, d, t);
    HurtAhead(n, c, q);
    HurtAhead(m, b, n);
    HurtAhead(h, a, m);
  }

  /** Without a supervisor the tool is reaped once it has ended. */
  lemma ToolIsGone(os: Os)
    requires OsOk(os) && !os.tool.NotStarted?
    ensures var gone := OsNext(OsNext(OsNext(os, KillSup), ToolExit(Exited(0))), InitReap);
            !gone.alive && gone.tool.Reaped?
  {
    OsStep(os, KillSup);
    assert os.tool.Up? ==> OsNext(os, KillSup).tool.Up? && os.tool.pid in OsNext(os, KillSup).table;
  }

  /** A check that compares start times meets a different holder of the PID. */
  lemma RecycledHurts(h: Hub, o: nat)
    requires Straggler(h, o) && h.w.obs[o].Recyc? && h.w.obs[o].st != 0
    ensures CanHurt(h)
  {
    assert ObsOk(AsWritten, h.w.sh, h.w.obs[o]);
    var a, m := Elsewhere(h, KillSup, o);
    var b, n := Elsewhere(m, ToolExit(Exited(0)), o);
    var c, t := Elsewhere(n, InitReap, o);
    ToolIsGone(h.w.sh.os);
    AbandonedHurts(t, o);
    HurtAhead(n, c, t);
    HurtAhead(m, b, n);
    HurtAhead(h, a, m);
  }

  /** The tool is reaped; its PID is free, or somebody else's who ends and is reaped too. */
  lemma AbandonedHurts(h: Hub, o: nat)
    requires Straggler(h, o) && h.w.obs[o].Recyc? && h.w.obs[o].st != 0
    requires !h.w.sh.os.alive && h.w.sh.os.tool.Reaped?
    ensures CanHurt(h)
  {
    assert ObsOk(AsWritten, h.w.sh, h.w.obs[o]);
    var p := h.w.obs[o].p;
    var a, m := Elsewhere(h, EnvExit(p), o);
    var b, t := Elsewhere(m, EnvReap(p), o);
    NewHolderHurts(t, o);
    HurtAhead(m, b, t);
    HurtAhead(h, a, m);
  }

  lemma NewHolderHurts(h: Hub, o: nat)
    requires Straggler(h, o) && h.w.obs[o].Recyc? && h.w.obs[o].st != 0
    requires h.w.obs[o].p !in h.w.sh.os.table
    ensures CanHurt(h)
  {
    assert ObsOk(AsWritten, h.w.sh, h.w.obs[o]);
    var a, m := Elsewhere(h, Fork(h.w.obs[o].p, h.w.obs[o].st + 1), o);
    var b, t := Meanwhile(m, Obs(o, true), o);
    NearHurts(t, o);
    HurtAhead(m, b, t);
    HurtAhead(h, a, m);
  }

  /** A straggler that can still come to a terminal answer can hand the job over again. */
  lemma {:induction false} StragglerHurts(h: Hub, o: nat)
    requires Straggler(h, o) && Open(h.w.sh, h.w.obs[o]) && !h.w.obs[o].Begin?
    ensures CanHurt(h)
    decreases if h.w.obs[o].RdExit? then 1 else 0
  {
    var pc := h.w.obs[o];
    assert ObsOk(AsWritten, h.w.sh, pc);
    if NearAnswer(h.w.sh, pc) {
      NearHurts(h, o);
    } else if Searching(pc) {
      SearchHurts(h, o);
    } else if pc.ToolZ? {
      ZombieHurts(h, o);
    } else if pc.Recyc? {
      RecycledHurts(h, o);
    } else if pc.Kill0? {
      var es, t := Meanwhile(h, Obs(o, false), o);
      SearchHurts(t, o);
      HurtAhead(h, es, t);
    } else if pc.RdExit? && pc.p != 0 {
      var es, t := Meanwhile(h, Obs(o, true), o);
      StragglerHurts(t, o);
      HurtAhead(h, es, t);
    } else {
      var es, t := CodeComes(h, o);
      NearHurts(t, o);
      HurtAhead(h, es, t);
    }
  }

  /** The metadata can be read, and every CRASHED answer has its marker. */
  ghost predicate Documented(h: Hub) {
    h.w.sh.dir.meta.Data? && CrashesMarked(h.w)
  }

  /** Whoever handed the job over had found it ended, and the record says so. */
  lemma HandedIsSettled(h: Hub)
    requires HubOk(h) && h.log != [] && CrashesMarked(h.w)
    ensures h.w.sh.dir.crashed || h.w.sh.dir.exit.Data?
  {
    assert HandOk(h.w.sh, h.w.obs, h.log[0]);
    match h.log[0] {
      case Wake =>
      case Piggyback(o) => assert ObsOk(AsWritten, h.w.sh, h.w.obs[o]);
      case Read(o) => assert ObsOk(AsWritten, h.w.sh, h.w.obs[o]);
    }
  }

  lemma HandingIsSettled(h: Hub, e: Event)
    requires HubOk(h) && Documented(h) && (h.log != [] || HandsOver(h, e).Some?)
    ensures var s := HubNext(h, e).w.sh; s.dir.meta.Data? && (s.dir.crashed || s.dir.exit.Data?)
  {
    HubStep(h, e);
    Step(AsWritten, h.w, e);
    if h.log != [] {
      HandedIsPastRewrite(h);
      HandedIsSettled(h);
    } else if MarkReturns(h.w, e) {
      assert ObsOk(AsWritten, h.w.sh, h.w.obs[e.o]);
    }
  }

  /** The wake's own steps up to its mark. */
  lemma {:induction false} WakeMarks(h: Hub) returns (es: seq<Event>, t: Hub)
    requires HubOk(h) && h.log != [] && h.w.sh.dir.meta.Data?
    ensures Leads(h, es, t) && HubOk(t) && t.w.obs == h.w.obs && t.listed == h.listed && t.log == h.log
    ensures t.w.sh.dir == h.w.sh.dir.(meta := t.w.sh.dir.meta) && t.w.sh.dir.meta.Data? && t.w.sh.os == h.w.sh.os
    ensures Notified(t.w.sh.dir) || !WakeUnderWay(t.w.sh)
    ensures Doomed(t.w.sh) <==> Doomed(h.w.sh)
    decreases if !WakeUnderWay(h.w.sh) then 0 else if h.w.sh.sup.HookMark? then 1 else 2
  {
    if Notified(h.w.sh.dir) || !WakeUnderWay(h.w.sh) {
      es, t := [], h;
    } else {
      var m := HubNext(h, Sup(true));
      Once1(h, Sup(true));
      HubStep(h, Sup(true));
      assert h.w.sh.dir.exit.Data? by { assert HandOk(h.w.sh, h.w.obs, Wake); }
      var rest;
      rest, t := WakeMarks(m);
      Joined(h, [Sup(true)], rest);
      es := [Sup(true)] + rest;
    }
  }

  /** An open piggyback that listed the job hands it over after somebody did, even if a wake
      is still to set the flag. */
  lemma OpenHurts(h: Hub, o: nat)
    requires HubOk(h) && h.log != [] && o in h.listed && Open(h.w.sh, h.w.obs[o])
    requires h.w.sh.dir.meta.Data? && (h.w.sh.dir.crashed || h.w.sh.dir.exit.Data?)
    ensures CanHurt(h)
  {
    var es, t := WakeMarks(h);
    StragglerHurts(t, o);
    HurtAhead(h, es, t);
  }

  /** Needed, first: the first hand-over while a piggyback that listed the job is open, or
      while a wake is about to start its hooks. */
  lemma OverlapHurts(h: Hub, e: Event)
    requires HubOk(h) && Documented(h) && Overlaps(h, e)
    ensures CanHurt(HubNext(h, e))
  {
    if PiggybackDue(h, HandsOver(h, e).value) {
      var o :| o in h.listed && o in h.w.obs && Piggyback(o) != HandsOver(h, e).value && Open(h.w.sh, h.w.obs[o]);
      HubStep(h, e);
      HandingIsSettled(h, e);
      StaysOpen(h, e, o);
      OpenHurts(HubNext(h, e), o);
    } else {
      DueWakeHurts(HubNext(h, e));
    }
  }

  /** A wake past its gate starts its hooks, whatever the flag says by then. */
  lemma DueWakeHurts(h: Hub)
    requires h.log != [] && WakeDue(h.w.sh)
    ensures CanHurt(h)
  {
    Once1(h, Sup(true));
    assert HubNext(h, Sup(true)).log[|h.log|] == Wake;
    assert Hurts(h, [Sup(true)]);
  }

  lemma StaysOpen(h: Hub, e: Event, o: nat)
    requires HubOk(h) && HandsOver(h, e).Some? && o in h.listed
    requires Piggyback(o) != HandsOver(h, e).value && Open(h.w.sh, h.w.obs[o])
    ensures Open(HubNext(h, e).w.sh, HubNext(h, e).w.obs[o])
  {}

  /** Needed, second: a piggyback that lists the job between the start of the hooks and the
      wake's mark. */
  lemma LateListingHurts(h: Hub, e: Event)
    requires HubOk(h) && Documented(h) && Lists(h.w, e) && WakeUnderWay(h.w.sh)
    ensures CanHurt(HubNext(h, e))
  {
    HubStep(h, e);
    HandingIsSettled(h, e);
    OpenHurts(HubNext(h, e), e.o);
  }

  /** Needed, third: a lost mark, after which a new piggyback lists the job. */
  lemma LostMarkHurts(h: Hub, e: Event)
    requires HubOk(h) && Documented(h) && LosesMark(h.w, e)
    ensures CanHurt(HubNext(h, e))
  {
    var t := HubNext(h, e);
    HubStep(h, e);
    HandingIsSettled(h, e);
    assert !Notified(t.w.sh.dir) && t.log != [] && !WakeUnderWay(t.w.sh);
    NewcomerHurts(t);
  }

  lemma NewcomerHurts(h: Hub)
    requires HubOk(h) && h.log != [] && !Notified(h.w.sh.dir) && !WakeUnderWay(h.w.sh)
    requires h.w.sh.dir.meta.Data? && (h.w.sh.dir.crashed || h.w.sh.dir.exit.Data?)
    ensures CanHurt(h)
  {
    var b := ConditionIsNeeded.Bounded(h.w.obs.Keys);
    var o := 2 * b;
    var m := HubNext(h, New(o));
    assert o !in h.w.obs && m == h.(w := h.w.(obs := h.w.obs[o := Begin]));
    Once1(h, New(o));
    HubStep(h, New(o));
    BeginnerHurts(m, o);
    HurtAhead(h, [New(o)], m);
  }

  lemma BeginnerHurts(h: Hub, o: nat)
    requires HubOk(h) && h.log != [] && !Notified(h.w.sh.dir) && !WakeUnderWay(h.w.sh)
    requires h.w.sh.dir.meta.Data? && (h.w.sh.dir.crashed || h.w.sh.dir.exit.Data?)
    requires Piggybacks(o) && o in h.w.obs && h.w.obs[o].Begin?
    ensures CanHurt(h)
  {
    var t := HubNext(h, Obs(o, true));
    Once1(h, Obs(o, true));
    HubStep(h, Obs(o, true));
    assert Straggler(t, o) && t.w.obs[o].RdPid?;
    NearHurts(t, o);
    HurtAhead(h, [Obs(o, true)], t);
  }

  /** The condition is exact. In every run from a launch in which it holds no hook path hands
      the job over once anybody has; and in every reachable world in which the metadata can be
      read and crashes have been recorded, an event that breaks it is followed by some orderly
      continuation in which one does: the break alone does the harm. */
  lemma OrderlyIsExact(w0: World, pre: seq<Event>, e: Event)
    requires Init(w0)
    ensures var h := HubExec(Hub(w0, {}, []), pre);
            && (OrderlyRun(Hub(w0, {}, []), pre) ==> Once(h.log))
            && (Documented(h) && !Orderly(h, e) ==> CanHurt(HubNext(h, e)))
  {
    var start := Hub(w0, {}, []);
    InitOk(AsWritten, w0);
    HubRun(start, pre);
    var h := HubExec(start, pre);
    if OrderlyRun(start, pre) { OrderlyRunsAreOnce(start, pre); }
    if Documented(h) && !Orderly(h, e) {
      if LosesMark(h.w, e) {
        LostMarkHurts(h, e);
      } else if Lists(h.w, e) && WakeUnderWay(h.w.sh) {
        LateListingHurts(h, e);
      } else {
        OverlapHurts(h, e);
      }
    }
  }

  /** The same as one run from the launch. */
  lemma DisorderIsFatal(w0: World, pre: seq<Event>, e: Event)
    requires Init(w0)
    requires var h := HubExec(Hub(w0, {}, []), pre); Documented(h) && !Orderly(h, e)
    ensures exists es :: !Once(HubExec(Hub(w0, {}, []), es).log)
  {
    var start := Hub(w0, {}, []);
    var h := HubExec(start, pre);
    OrderlyIsExact(w0, pre, e);
    var more :| Hurts(HubNext(h, e), more);
    Joined(start, pre, [e] + more);
    assert ([e] + more)[0] == e && ([e] + more)[1..] == more;
    assert !Once(HubExec(start, pre + ([e] + more)).log);
  }

  lemma ReachedBy(w0: World, pre: seq<Event>, w: World)
    requires Init(w0) && Exec(AsWritten, w0, pre) == w
    ensures HubExec(Hub(w0, {}, []), pre).w == w
  {
    InitOk(AsWritten, w0);
    HubRun(Hub(w0, {}, []), pre);
  }

  /** While a wake is due and no check has finished, nobody has handed the job over. */
  lemma NobodyYet(h: Hub)
    requires HubOk(h) && WakeDue(h.w.sh) && forall o <- h.w.obs :: !h.w.obs[o].Noted?
    ensures h.log == []
  {
    assert h.log != [] ==> HandOk(h.w.sh, h.w.obs, h.log[0]);
  }

  /** A read that marks the job while a wake is due, and then the wake. */
  lemma ReadPreempts(h: Hub, o: nat)
    requires WakeDue(h.w.sh) && h.log == [] && !Piggybacks(o) && o in h.w.obs && h.w.obs[o].NWrite?
    ensures HubExec(h, [Obs(o, true), Sup(true)]).log == [Read(o), Wake]
  {
    var a := HubNext(h, Obs(o, true));
    var t := HubNext(a, Sup(true));
    assert [Obs(o, true), Sup(true)][1..] == [Sup(true)] && [Sup(true)][1..] == [];
    assert HubExec(a, [Sup(true)]) == HubExec(t, []) == t;
  }

  /** The same as one run from the launch. */
  lemma ReadThenWakeFrom(w0: World, pre: seq<Event>, w: World, o: nat) returns (es: seq<Event>)
    requires Init(w0) && Exec(AsWritten, w0, pre) == w
    requires WakeDue(w.sh) && w.obs.Keys == {o} && w.obs[o].NWrite? && !Piggybacks(o)
    ensures HubExec(Hub(w0, {}, []), es).log == [Read(o), Wake]
  {
    var start := Hub(w0, {}, []);
    InitOk(AsWritten, w0);
    HubRun(start, pre);
    var h := HubExec(start, pre);
    NobodyYet(h);
    ReadPreempts(h, o);
    es := pre + [Obs(o, true), Sup(true)];
    Joined(start, pre, [Obs(o, true), Sup(true)]);
  }
}
