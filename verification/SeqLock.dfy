/** The sequence counter behind Meta.Gen: any number of processes taking the mkdir lock,
    stealing it when stale, and replacing the counter file, with crashes anywhere. */
module SeqLock {
  import opened Common

  const TIMEOUT_MS: nat := 3000
  const STALE_MS: nat := 10000
  const MAX_GEN: nat := 0xFFFF_FFFF_FFFF_FFFF

  /** Where a process is inside nextSeq. `recovered` is its one-shot stale recovery. */
  datatype Pc =
    | Idle
    | Dead
    | TryMkdir(deadline: nat, recovered: bool)
    | Late(deadline: nat, recovered: bool)
    | Stat(deadline: nat)
    | Steal(deadline: nat)
    | ReadSeq
    | WriteTmp(next: nat)
    | Rename(next: nat)
    | Release(result: Option<nat>)

  /** The lock directory, with the process that made it and when. */
  datatype LockDir = LockDir(owner: nat, made: nat)

  /** `issued` lists the numbers handed to callers, in order. */
  datatype State = State(lock: Option<LockDir>, file: File<nat>, procs: map<nat, Pc>, now: nat, issued: seq<nat>)

  /** `ok == false` is a failing file operation. */
  datatype Event = Call(p: nat) | Go(p: nat, ok: bool) | Crash(p: nat) | Tick(ms: nat)

  function PcOf(s: State, p: nat): Pc {
    if p in s.procs then s.procs[p] else Idle
  }

  /** The counter's value; the file is absent before the first call. */
  function Counter(file: File<nat>): nat {
    if file.Data? then file.val else 0
  }

  /** uint64 addition wraps around. */
  function Successor(current: nat): nat {
    if current < MAX_GEN then current + 1 else 0
  }

  function Move(s: State, p: nat, ok: bool): State {
    var pc := PcOf(s, p);
    match pc
    case TryMkdir(deadline, recovered) =>
      if s.lock.None? && ok then s.(lock := Some(LockDir(p, s.now)), procs := s.procs[p := ReadSeq])
      else if s.lock.None? then s.(procs := s.procs[p := Idle])
      else s.(procs := s.procs[p := Late(deadline, recovered)])
    case Late(deadline, recovered) =>
      if s.now <= deadline then s.(procs := s.procs[p := TryMkdir(deadline, recovered)])
      else if recovered then s.(procs := s.procs[p := Idle])
      else s.(procs := s.procs[p := Stat(deadline)])
    case Stat(deadline) =>
      if ok && s.lock.Some? && s.now > s.lock.value.made + STALE_MS
      then s.(procs := s.procs[p := Steal(deadline)])
      else s.(procs := s.procs[p := Idle])
    case Steal(deadline) =>
      s.(lock := if ok then None else s.lock, procs := s.procs[p := TryMkdir(deadline, true)])
    case ReadSeq =>
      if !ok || s.file.Torn? then s.(procs := s.procs[p := Release(None)])
      else s.(procs := s.procs[p := WriteTmp(Successor(Counter(s.file)))])
    case WriteTmp(next) => s.(procs := s.procs[p := if ok then Rename(next) else Release(None)])
    case Rename(next) =>
      if ok then s.(file := Data(next), procs := s.procs[p := Release(Some(next))])
      else s.(procs := s.procs[p := Release(None)])
    case Release(result) =>
      s.(lock := if ok then None else s.lock,
         procs := s.procs[p := Idle],
         issued := if result.Some? then s.issued + [result.value] else s.issued)
    case _ => s
  }

  function Next(s: State, e: Event): State {
    match e
    case Call(p) =>
      if PcOf(s, p).Idle? then s.(procs := s.procs[p := TryMkdir(s.now + TIMEOUT_MS, false)]) else s
    case Go(p, ok) => Move(s, p, ok)
    case Crash(p) => s.(procs := s.procs[p := Dead])
    case Tick(ms) => s.(now := s.now + ms)
  }

  function Exec(s: State, es: seq<Event>): State
    decreases |es|
  {
    if es == [] then s else Exec(Next(s, es[0]), es[1..])
  }

  /** Inside the critical section and alive. */
  predicate Holding(s: State, p: nat) {
    var pc := PcOf(s, p);
    pc.ReadSeq? || pc.WriteTmp? || pc.Rename? || pc.Release?
  }

  /** Any leftovers on disk, nobody inside yet. */
  ghost predicate Init(s: State) {
    s.issued == [] && forall p :: !Holding(s, p)
  }

  /** A removal for staleness that takes away the directory of a process inside. */
  predicate StealsFromHolder(s: State, e: Event) {
    e.Go? && e.ok && PcOf(s, e.p).Steal? && s.lock.Some? && Holding(s, s.lock.value.owner)
  }

  predicate Overflows(s: State, e: Event) {
    e.Go? && e.ok && PcOf(s, e.p).ReadSeq? && s.file.Data? && s.file.val >= MAX_GEN
  }

  predicate Fair(s: State, es: seq<Event>)
    decreases |es|
  {
    es == [] || (!StealsFromHolder(s, es[0]) && !Overflows(s, es[0]) && Fair(Next(s, es[0]), es[1..]))
  }

  ghost predicate Exclusive(s: State) {
    forall p, q | Holding(s, p) && Holding(s, q) :: p == q
  }

  predicate Increasing(xs: seq<nat>) {
    forall i, j | 0 <= i < j < |xs| :: xs[i] < xs[j]
  }

  predicate Above(xs: seq<nat>, g: nat) {
    forall i | 0 <= i < |xs| :: xs[i] < g
  }

  ghost predicate Inv(s: State) {
    && (forall p | Holding(s, p) :: s.lock.Some? && s.lock.value.owner == p && Fits(s, PcOf(s, p)))
    && Increasing(s.issued)
    && (s.issued != [] ==> s.file.Data?) && Above(s.issued, Counter(s.file) + 1)
  }

  /** What a holder carries agrees with the counter on disk. */
  predicate Fits(s: State, pc: Pc) {
    match pc
    case WriteTmp(next) => next == Counter(s.file) + 1 && !s.file.Torn?
    case Rename(next) => next == Counter(s.file) + 1 && !s.file.Torn?
    case Release(Some(g)) => s.file == Data(g) && Above(s.issued, g)
    case _ => true
  }

  lemma HolderStep(s: State, e: Event, p: nat)
    requires Inv(s) && !StealsFromHolder(s, e) && !Overflows(s, e) && Holding(Next(s, e), p)
    ensures var t := Next(s, e); t.lock.Some? && t.lock.value.owner == p && Fits(t, PcOf(t, p))
  {
    if e.Go? && e.p == p {
      assert Holding(s, p) || PcOf(s, p).TryMkdir?;
    } else {
      assert PcOf(Next(s, e), p) == PcOf(s, p) && Holding(s, p);
    }
  }

  lemma InvStep(s: State, e: Event)
    requires Inv(s) && !StealsFromHolder(s, e) && !Overflows(s, e)
    ensures Inv(Next(s, e))
  {
    var t := Next(s, e);
    forall p | Holding(t, p) ensures t.lock.Some? && t.lock.value.owner == p && Fits(t, PcOf(t, p)) {
      HolderStep(s, e, p);
    }
  }

  lemma {:induction false} InvRun(s: State, es: seq<Event>)
    requires Inv(s) && Fair(s, es)
    ensures Inv(Exec(s, es))
    decreases |es|
  {
    if es != [] {
      InvStep(s, es[0]);
      InvRun(Next(s, es[0]), es[1..]);
    }
  }

  /** Over any number of processes with crashes anywhere: as long as no stale removal takes
      the directory of a process inside and the counter does not overflow, there is at most
      one holder, every number returned exceeds all earlier ones, and the counter on disk is
      never behind a returned number. */
  lemma FairRunsAreExclusive(s0: State, es: seq<Event>)
    requires Init(s0) && Fair(s0, es)
    ensures var s := Exec(s0, es);
            Exclusive(s) && Increasing(s.issued) && Above(s.issued, Counter(s.file) + 1)
  {
    InvRun(s0, es);
  }

  /** The deadline a process carries while it waits for the lock. */
  function DeadlineOf(pc: Pc): Option<nat> {
    match pc
    case TryMkdir(deadline, _) => Some(deadline)
    case Late(deadline, _) => Some(deadline)
    case Stat(deadline) => Some(deadline)
    case Steal(deadline) => Some(deadline)
    case _ => None
  }

  /** It is 3 seconds after the call, from the call on. */
  lemma DeadlineIsKept(s: State, e: Event, p: nat)
    requires DeadlineOf(PcOf(Next(s, e), p)).Some?
    ensures DeadlineOf(PcOf(Next(s, e), p)) ==
              if PcOf(s, p).Idle? then Some(s.now + 3000) else DeadlineOf(PcOf(s, p))
    ensures PcOf(s, p).Idle? ==> e == Call(p)
  {
    assert e == Call(p) || e.Go? || PcOf(Next(s, e), p) == PcOf(s, p);
  }

  /** A process inspects a directory, or is about to remove one, only past its deadline. */
  ghost predicate Patient(s: State) {
    forall p | PcOf(s, p).Stat? || PcOf(s, p).Steal? :: s.now > PcOf(s, p).deadline
  }

  lemma {:induction false} PatientRun(s: State, es: seq<Event>)
    requires Patient(s)
    ensures Patient(Exec(s, es))
    decreases |es|
  {
    if es != [] {
      var t := Next(s, es[0]);
      forall p | PcOf(t, p).Stat? || PcOf(t, p).Steal? ensures t.now > PcOf(t, p).deadline {
        assert PcOf(t, p) == PcOf(s, p) || (es[0].Go? && es[0].p == p);
      }
      PatientRun(t, es[1..]);
    }
  }

  /** In every run a process comes to remove a lock directory only if it has just seen one more
      than 10 seconds old, and its own deadline has passed. */
  lemma StealsOnlyStaleLocks(s0: State, es: seq<Event>, e: Event, p: nat)
    requires s0.procs == map[]
    requires var s := Exec(s0, es); !PcOf(s, p).Steal? && PcOf(Next(s, e), p).Steal?
    ensures var s := Exec(s0, es);
            && s.lock.Some? && s.now > s.lock.value.made + 10000
            && s.now > PcOf(Next(s, e), p).deadline
  {
    PatientRun(s0, es);
    var s := Exec(s0, es);
    assert e.Go? && e.p == p && PcOf(s, p).Stat?;
  }

  /** The condition is needed at every point: a stale removal that takes a holder's
      directory lets the remover in beside it with its very next step. */
  lemma StealingBreaksExclusion(s: State, p: nat)
    requires StealsFromHolder(s, Go(p, true))
    ensures var t := Exec(s, [Go(p, true), Go(p, true)]);
            Holding(t, p) && Holding(t, s.lock.value.owner) && !Exclusive(t)
  {
    var es := [Go(p, true), Go(p, true)];
    var q := s.lock.value.owner;
    assert q != p;
    var a := Next(s, es[0]);
    var t := Next(a, es[1]);
    assert es[1..][0] == Go(p, true) && es[1..][1..] == [];
    assert Exec(s, es) == Exec(a, es[1..]) == Exec(t, []) == t;
    assert PcOf(t, q) == PcOf(s, q);
    assert Holding(t, p) && Holding(t, q);
  }

  /** The whole critical section of one undisturbed call. */
  lemma SoloCall(s: State, p: nat)
    requires PcOf(s, p).ReadSeq? && !s.file.Torn?
    ensures var next := Successor(Counter(s.file));
            var t := Next(Next(Next(Next(s, Go(p, true)), Go(p, true)), Go(p, true)), Go(p, true));
            t.file == Data(next) && t.issued == s.issued + [next] && t.lock.None? && PcOf(t, p).Idle?
  {}

  /** So is the bound: at the largest uint64 the next number returned is 0. */
  lemma OverflowRestarts(s: State, p: nat)
    requires PcOf(s, p).ReadSeq? && s.file == Data(MAX_GEN)
    ensures var t := Next(Next(Next(Next(s, Go(p, true)), Go(p, true)), Go(p, true)), Go(p, true));
            t.issued == s.issued + [0] && t.file == Data(0)
  {
    SoloCall(s, p);
  }

  /** A read, a write or a rename that fails leaves the counter, returns nothing and frees the
      lock. */
  lemma FailureChangesNothing(s: State, p: nat)
    requires PcOf(s, p).ReadSeq? || PcOf(s, p).WriteTmp? || PcOf(s, p).Rename?
    ensures var t := Next(Next(s, Go(p, false)), Go(p, true));
            t.file == s.file && t.issued == s.issued && t.lock.None? && PcOf(t, p).Idle?
  {}

  /** A counter file that does not parse stops every caller and is left as it is. */
  lemma UnparseableFileStops(s: State, p: nat, ok: bool)
    requires PcOf(s, p).ReadSeq? && s.file.Torn?
    ensures var t := Next(Next(s, Go(p, ok)), Go(p, true)); t.file == s.file && t.issued == s.issued && t.lock.None?
  {}

  lemma ExecOne(s: State, es: seq<Event>, e: Event)
    ensures Exec(s, es + [e]) == Next(Exec(s, es), e)
    decreases |es|
  {
    if es == [] {
      assert es + [e] == [e] && [e][1..] == [];
    } else {
      assert (es + [e])[0] == es[0] && (es + [e])[1..] == es[1..] + [e];
      ExecOne(Next(s, es[0]), es[1..], e);
    }
  }

  lemma Then(s0: State, es: seq<Event>, s: State, e: Event, t: State) returns (more: seq<Event>)
    requires Exec(s0, es) == s && Next(s, e) == t
    ensures more == es + [e] && Exec(s0, more) == t
  {
    more := es + [e];
    ExecOne(s0, es, e);
  }

  /** A process in the critical section runs through it undisturbed. */
  lemma ThenSolo(s0: State, es: seq<Event>, s: State, p: nat) returns (more: seq<Event>, t: State)
    requires Exec(s0, es) == s && PcOf(s, p).ReadSeq? && !s.file.Torn?
    ensures Exec(s0, more) == t
    ensures var next := Successor(Counter(s.file));
            t == State(None, Data(next), s.procs[p := Idle], s.now, s.issued + [next])
  {
    more := es;
    t := s;
    for i := 0 to 4
      invariant Exec(s0, more) == t
      invariant t == [s, Next(s, Go(p, true)), Next(Next(s, Go(p, true)), Go(p, true)),
                      Next(Next(Next(s, Go(p, true)), Go(p, true)), Go(p, true)),
                      Next(Next(Next(Next(s, Go(p, true)), Go(p, true)), Go(p, true)), Go(p, true))][i]
    {
      more := Then(s0, more, t, Go(p, true), Next(t, Go(p, true)));
      t := Next(t, Go(p, true));
    }
    SoloCall(s, p);
  }

  const LEFT := Some(LockDir(9, 0))

  /** Two processes outwait an abandoned lock and both find it stale. */
  lemma BothStale() returns (es: seq<Event>)
    ensures Exec(State(LEFT, Data(5), map[], 0, []), es)
         == State(LEFT, Data(5), map[1 := Steal(3000), 2 := Steal(3000)], 20000, [])
  {
    var s0 := State(LEFT, Data(5), map[], 0, []);
    var first := map[1 := TryMkdir(3000, false)];
    var waiting := map[1 := TryMkdir(3000, false), 2 := TryMkdir(3000, false)];
    es := [];
    es := Then(s0, es, s0, Call(1), State(LEFT, Data(5), first, 0, []));
    es := Then(s0, es, Exec(s0, es), Call(2), State(LEFT, Data(5), waiting, 0, []));
    es := Then(s0, es, Exec(s0, es), Tick(20000), State(LEFT, Data(5), waiting, 20000, []));
    es := ToSteal(s0, es, LEFT, 1, waiting);
    es := ToSteal(s0, es, LEFT, 2, map[1 := Steal(3000), 2 := TryMkdir(3000, false)]);
  }

  /** The slower of two processes that found a lock stale removes what the faster one has
      meanwhile made. Every directory was inspected before its removal. */
  lemma TwoStealers()
    ensures exists s0, es :: Init(s0) && StealsFromHolder(Exec(s0, es), Go(2, true))
    ensures exists s0, es :: Init(s0) && !Exclusive(Exec(s0, es))
  {
    var s0 := State(LEFT, Data(5), map[], 0, []);
    var es := BothStale();
    es := Then(s0, es, Exec(s0, es), Go(1, true), State(None, Data(5), map[1 := TryMkdir(3000, true), 2 := Steal(3000)], 20000, []));
    var s := State(Some(LockDir(1, 20000)), Data(5), map[1 := ReadSeq, 2 := Steal(3000)], 20000, []);
    es := Then(s0, es, Exec(s0, es), Go(1, true), s);
    StealingBreaksExclusion(s, 2);
    var both := [Go(2, true), Go(2, true)];
    ExecBoth(s0, es, both);
    assert Init(s0) && StealsFromHolder(Exec(s0, es), Go(2, true)) && !Exclusive(Exec(s0, es + both));
  }

  lemma {:induction false} ExecBoth(s: State, a: seq<Event>, b: seq<Event>)
    ensures Exec(s, a + b) == Exec(Exec(s, a), b)
    decreases |a|
  {
    if a == [] {
      assert a + b == b;
    } else {
      assert (a + b)[0] == a[0] && (a + b)[1..] == a[1..] + b;
      ExecBoth(Next(s, a[0]), a[1..], b);
    }
  }

  /** Past its deadline, a waiting process finds the directory stale. */
  lemma ToSteal(s0: State, es0: seq<Event>, lock: Option<LockDir>, p: nat, procs: map<nat, Pc>)
      returns (es: seq<Event>)
    requires p in procs && procs[p] == TryMkdir(3000, false)
    requires lock.Some? && lock.value.made == 0
    requires Exec(s0, es0) == State(lock, Data(5), procs, 20000, [])
    ensures Exec(s0, es) == State(lock, Data(5), procs[p := Steal(3000)], 20000, [])
  {
    es := Then(s0, es0, Exec(s0, es0), Go(p, true), State(lock, Data(5), procs[p := Late(3000, false)], 20000, []));
    es := Then(s0, es, Exec(s0, es), Go(p, true), State(lock, Data(5), procs[p := Stat(3000)], 20000, []));
    es := Then(s0, es, Exec(s0, es), Go(p, true), State(lock, Data(5), procs[p := Steal(3000)], 20000, []));
  }

  const PAUSED := Some(LockDir(1, 0))

  /** Process 1 stops just before its rename. */
  lemma Pauses() returns (es: seq<Event>)
    ensures Exec(State(None, Data(5), map[], 0, []), es) == State(PAUSED, Data(5), map[1 := Rename(6)], 0, [])
  {
    var s0 := State(None, Data(5), map[], 0, []);
    es := [];
    es := Then(s0, es, s0, Call(1), State(None, Data(5), map[1 := TryMkdir(3000, false)], 0, []));
    es := Then(s0, es, Exec(s0, es), Go(1, true), State(PAUSED, Data(5), map[1 := ReadSeq], 0, []));
    es := Then(s0, es, Exec(s0, es), Go(1, true), State(PAUSED, Data(5), map[1 := WriteTmp(6)], 0, []));
    es := Then(s0, es, Exec(s0, es), Go(1, true), State(PAUSED, Data(5), map[1 := Rename(6)], 0, []));
  }

  /** Process 2 outwaits it, steals the lock and gets the next number. */
  lemma Overtakes() returns (es: seq<Event>)
    ensures Exec(State(None, Data(5), map[], 0, []), es)
         == State(None, Data(6), map[1 := Rename(6), 2 := Idle], 20000, [6])
  {
    var s0 := State(None, Data(5), map[], 0, []);
    es := Pauses();
    es := Then(s0, es, Exec(s0, es), Call(2), State(PAUSED, Data(5), map[1 := Rename(6), 2 := TryMkdir(3000, false)], 0, []));
    es := Then(s0, es, Exec(s0, es), Tick(20000), State(PAUSED, Data(5), map[1 := Rename(6), 2 := TryMkdir(3000, false)], 20000, []));
    es := ToSteal(s0, es, PAUSED, 2, map[1 := Rename(6), 2 := TryMkdir(3000, false)]);
    es := Then(s0, es, Exec(s0, es), Go(2, true), State(None, Data(5), map[1 := Rename(6), 2 := TryMkdir(3000, true)], 20000, []));
    var s := State(Some(LockDir(2, 20000)), Data(5), map[1 := Rename(6), 2 := ReadSeq], 20000, []);
    es := Then(s0, es, Exec(s0, es), Go(2, true), s);
    var t: State;
    es, t := ThenSolo(s0, es, s, 2);
    assert s.procs[2 := Idle] == map[1 := Rename(6), 2 := Idle];
  }

  /** And the number after it. */
  lemma OvertakesAgain() returns (es: seq<Event>)
    ensures Exec(State(None, Data(5), map[], 0, []), es)
         == State(None, Data(7), map[1 := Rename(6), 2 := Idle], 20000, [6, 7])
  {
    var s0 := State(None, Data(5), map[], 0, []);
    es := Overtakes();
    es := Then(s0, es, Exec(s0, es), Call(2), State(None, Data(6), map[1 := Rename(6), 2 := TryMkdir(23000, false)], 20000, [6]));
    var s := State(Some(LockDir(2, 20000)), Data(6), map[1 := Rename(6), 2 := ReadSeq], 20000, [6]);
    es := Then(s0, es, Exec(s0, es), Go(2, true), s);
    var t: State;
    es, t := ThenSolo(s0, es, s, 2);
    assert s.procs[2 := Idle] == map[1 := Rename(6), 2 := Idle] && [6] + [7] == [6, 7];
  }

  /** A holder paused longer than the stale age: when it resumes, the counter on disk goes
      back and a number is handed out twice. */
  lemma PausedHolder()
    ensures exists s0, es, e :: Init(s0) && Exec(s0, es).file == Data(7) && Next(Exec(s0, es), e).file == Data(6)
    ensures exists s0, es :: Init(s0) && Exec(s0, es).issued == [6, 7, 6]
  {
    var s0 := State(None, Data(5), map[], 0, []);
    var es := OvertakesAgain();
    var back := State(None, Data(6), map[1 := Release(Some(6)), 2 := Idle], 20000, [6, 7]);
    var resumed := Then(s0, es, Exec(s0, es), Go(1, true), back);
    assert Init(s0) && Exec(s0, es).file == Data(7) && Next(Exec(s0, es), Go(1, true)).file == Data(6);
    var end := Then(s0, resumed, back, Go(1, true), Next(back, Go(1, true)));
    assert Exec(s0, end).issued == [6, 7, 6];
  }

  datatype MkdirAnswer = Made | Exists | Refused

  datatype Acquired = Holds | TimedOut | MkdirFailed

  /** The clock never goes back, and advances where the loop sleeps: before the deadline. */
  ghost predicate ClockRuns(start: nat, clock: nat -> nat) {
    && start <= clock(0)
    && (forall i: nat :: clock(i) <= clock(i + 1))
    && (forall i: nat :: clock(i) <= start + TIMEOUT_MS ==> clock(i) < clock(i + 1))
  }

  /** The lock loop of one process, entered at `start`. Attempt `i` gets `mkdir(i)`; if the
      directory exists the deadline is checked at `clock(i)` and, past it, the directory's
      age, once. */
  method AcquireSeqLock(mkdir: nat -> MkdirAnswer, start: nat, clock: nat -> nat, stale: nat -> bool)
      returns (result: Acquired, attempts: nat, removals: nat)
    requires ClockRuns(start, clock)
    ensures attempts > 0 && removals <= 1
    ensures forall i: nat | i < attempts - 1 :: mkdir(i).Exists?
    ensures result.Holds? <==> mkdir(attempts - 1).Made?
    ensures result.MkdirFailed? <==> mkdir(attempts - 1).Refused?
    ensures result.TimedOut? ==> clock(attempts - 1) > start + TIMEOUT_MS && (removals == 0 ==> !stale(attempts - 1))
    ensures removals == 1 ==> exists i: nat | i < attempts :: stale(i) && clock(i) > start + TIMEOUT_MS
  {
    var deadline := start + TIMEOUT_MS;
    var staleRecovered := false;
    attempts, removals := 0, 0;
    while true
      invariant forall i: nat | i < attempts :: mkdir(i).Exists?
      invariant staleRecovered <==> removals == 1
      invariant removals <= 1
      invariant removals == 1 ==> exists i: nat | i < attempts :: stale(i) && clock(i) > deadline
      invariant staleRecovered ==> clock(attempts) > deadline
      decreases !staleRecovered, if clock(attempts) <= deadline then deadline + 1 - clock(attempts) else 0
    {
      var i := attempts;
      attempts := attempts + 1;
      assert clock(i) <= clock(i + 1);
      if mkdir(i).Made? { return Holds, attempts, removals; }
      if mkdir(i).Refused? { return MkdirFailed, attempts, removals; }
      if clock(i) > deadline {
        if !staleRecovered {
          if stale(i) {
            removals := 1;
            staleRecovered := true;
            continue;
          }
        }
        return TimedOut, attempts, removals;
      }
    }
  }

  class SeqDir {
    var file: File<nat>
    var locked: bool

    constructor ()
      ensures file.Absent? && !locked
    {
      file, locked := Absent, false;
    }
  }

  /** The critical section: read, increment, replace, release. An unparseable file is an
      error that leaves it in place. `stored` says whether temporary file and rename went
      through. */
  method NextUnderLock(dir: SeqDir, stored: bool) returns (next: Option<nat>)
    requires dir.locked
    modifies dir
    ensures !dir.locked
    ensures next.Some? <==> stored && !old(dir.file.Torn?)
    ensures if next.Some? then dir.file == Data(next.value) else dir.file == old(dir.file)
    ensures next.Some? ==> next.value == Successor(Counter(old(dir.file)))
    ensures next.Some? && old(dir.file.Absent?) ==> next.value == 1
    ensures next.Some? && old(dir.file.Data?) && old(dir.file.val) < 0xFFFF_FFFF_FFFF_FFFF ==>
              next.value == old(dir.file.val) + 1
  {
    var current := 0;
    if dir.file.Torn? {
      dir.locked := false;
      return None;
    }
    if dir.file.Data? { current := dir.file.val; }
    var value := Successor(current);
    if stored {
      dir.file := Data(value);
      next := Some(value);
    } else {
      next := None;
    }
    dir.locked := false;
  }
}
