/** Whole runs of Run, List, Prune and Remove, each atomic, next to supervisors that outlive
    their records: no supervisor is ever left writing into another job's directory. */
module IdentityProtocol {
  import opened Common
  import opened DisposedIds

  /** A record directory: the job it was made for and the ID in its metadata. */
  datatype Record = Record(job: nat, readable: bool, metaId: string)

  /** `live` maps each job whose supervisor runs to the directory name that supervisor
      writes to; `history` is every disposal that reached the list. */
  datatype State = State(dirs: map<string, Record>, disposed: seq<string>, history: seq<string>,
                         live: map<nat, string>, nextJob: nat)

  /** A job whose preparation or launch failed has no supervisor; its directory is removed
      without a record in the list, unless the removal fails too. */
  datatype Spawn = Launched | Aborted(cleaned: bool, written: bool)

  /** Evict is a retirement, which records the ID in the metadata; Discard is a removal by
      Prune or Remove, which records the directory name. `stored` is whether the write of the
      list went through. */
  datatype Event =
    | Run(candidates: seq<string>, spawn: Spawn)
    | Evict(name: string, stored: bool)
    | Discard(name: string, stored: bool)
    | SupervisorEnds(job: nat)

  /** The first candidate that is neither listed as disposed nor taken. */
  function Pick(candidates: seq<string>, recorded: seq<string>, dirs: set<string>): Option<string> {
    if candidates == [] then None
    else if Free(recorded, dirs, candidates[0]) then Some(candidates[0])
    else Pick(candidates[1..], recorded, dirs)
  }

  function Recorded(s: State, id: string, stored: bool): State {
    if stored
    then s.(disposed := Dispose(s.disposed, id, MAX_DISPOSED), history := s.history + [id])
    else s
  }

  function Next(s: State, e: Event): State {
    match e
    case Run(candidates, spawn) =>
      (match Pick(candidates, s.disposed, s.dirs.Keys)
       case None => s
       case Some(id) =>
         match spawn
         case Launched => s.(dirs := s.dirs[id := Record(s.nextJob, true, id)],
                             live := s.live[s.nextJob := id], nextJob := s.nextJob + 1)
         case Aborted(cleaned, written) =>
           if cleaned then s.(nextJob := s.nextJob + 1)
           else s.(dirs := s.dirs[id := Record(s.nextJob, written, if written then id else "")],
                   nextJob := s.nextJob + 1))
    case Evict(name, stored) =>
      if name in s.dirs && s.dirs[name].readable
      then Recorded(s.(dirs := s.dirs - {name}), s.dirs[name].metaId, stored)
      else s
    case Discard(name, stored) =>
      if name in s.dirs then Recorded(s.(dirs := s.dirs - {name}), name, stored) else s
    case SupervisorEnds(job) => s.(live := s.live - {job})
  }

  function Exec(s: State, es: seq<Event>): State
    decreases |es|
  {
    if es == [] then s else Exec(Next(s, es[0]), es[1..])
  }

  /** A supervisor still runs for a record that was removed. */
  predicate Orphan(s: State, job: nat) {
    job in s.live && s.live[job] !in s.dirs
  }

  /** A running supervisor writes into its own job's directory or into none. */
  predicate NoForeignWrites(s: State) {
    forall job <- s.live | s.live[job] in s.dirs :: s.dirs[s.live[job]].job == job
  }

  /** The conditions of a run: removing the record of a running supervisor gets recorded, and
      when an ID is claimed the list still holds every orphan's ID. */
  predicate Allowed(s: State, e: Event) {
    match e
    case Run(_, _) => forall job <- s.live | Orphan(s, job) :: s.live[job] in s.disposed
    case Evict(name, stored) => !stored ==> forall job <- s.live :: s.live[job] != name
    case Discard(name, stored) => !stored ==> forall job <- s.live :: s.live[job] != name
    case SupervisorEnds(_) => true
  }

  predicate AllowedRun(s: State, es: seq<Event>)
    decreases |es|
  {
    es == [] || (Allowed(s, es[0]) && AllowedRun(Next(s, es[0]), es[1..]))
  }

  predicate Init(s: State) {
    s.dirs == map[] && s.disposed == [] && s.history == [] && s.live == map[]
  }

  predicate Inv(s: State) {
    && s.disposed == Window(s.history, MAX_DISPOSED)
    && (forall name <- s.dirs | s.dirs[name].readable :: s.dirs[name].metaId == name)
    && (forall job <- s.live :: job < s.nextJob)
    && NoForeignWrites(s)
    && (forall job <- s.live | Orphan(s, job) :: s.live[job] in s.history)
    && (forall j <- s.live, k <- s.live | s.live[j] == s.live[k] :: j == k)
  }

  lemma {:induction false} PickOk(candidates: seq<string>, recorded: seq<string>, dirs: set<string>)
    ensures var pick := Pick(candidates, recorded, dirs);
            && (pick.Some? ==> pick.value in candidates && Free(recorded, dirs, pick.value))
            && (pick.None? <==> forall c <- candidates :: !Free(recorded, dirs, c))
  {
    if candidates != [] { PickOk(candidates[1..], recorded, dirs); }
  }

  lemma RecordedKeepsWindow(s: State, id: string, stored: bool)
    requires s.disposed == Window(s.history, MAX_DISPOSED)
    ensures var t := Recorded(s, id, stored); t.disposed == Window(t.history, MAX_DISPOSED)
  {
    if stored {
      ListRefinesHistory(s.history, [id], MAX_DISPOSED);
      assert [id][1..] == [];
      assert DisposeAll(Dispose(s.disposed, id, MAX_DISPOSED), [], MAX_DISPOSED) == Dispose(s.disposed, id, MAX_DISPOSED);
    }
  }

  /** A new directory under an ID that nobody writes to. */
  lemma NewDirectory(s: State, id: string, record: Record)
    requires Inv(s) && id !in s.dirs && record.job == s.nextJob && (record.readable ==> record.metaId == id)
    requires forall job <- s.live :: s.live[job] != id
    ensures Inv(s.(dirs := s.dirs[id := record], nextJob := s.nextJob + 1))
  {
    var t := s.(dirs := s.dirs[id := record], nextJob := s.nextJob + 1);
    forall job <- t.live | Orphan(t, job) ensures t.live[job] in t.history { assert Orphan(s, job); }
  }

  lemma NewSupervisor(s: State, id: string)
    requires Inv(s) && id in s.dirs && s.dirs[id].job + 1 == s.nextJob && s.dirs[id].job !in s.live
    requires forall job <- s.live :: s.live[job] != id
    ensures Inv(s.(live := s.live[s.dirs[id].job := id]))
  {
    var t := s.(live := s.live[s.dirs[id].job := id]);
    forall job <- t.live | Orphan(t, job) ensures t.live[job] in t.history { assert Orphan(s, job); }
  }

  lemma ClaimStep(s: State, candidates: seq<string>, spawn: Spawn)
    requires Inv(s) && Allowed(s, Run(candidates, spawn))
    ensures Inv(Next(s, Run(candidates, spawn)))
  {
    PickOk(candidates, s.disposed, s.dirs.Keys);
    var pick := Pick(candidates, s.disposed, s.dirs.Keys);
    if pick.Some? {
      var id := pick.value;
      forall job <- s.live ensures s.live[job] != id {
        if s.live[job] == id { assert Orphan(s, job); }
      }
      var readable := spawn.Launched? || spawn.written;
      var record := Record(s.nextJob, readable, if readable then id else "");
      NewDirectory(s, id, record);
      var t := s.(dirs := s.dirs[id := record], nextJob := s.nextJob + 1);
      if spawn.Launched? { NewSupervisor(t, id); }
    }
  }

  /** Removing a directory, recorded if anybody still writes to it. */
  lemma RemovalStep(s: State, name: string, stored: bool)
    requires Inv(s) && name in s.dirs
    requires !stored ==> forall job <- s.live :: s.live[job] != name
    ensures Inv(Recorded(s.(dirs := s.dirs - {name}), name, stored))
  {
    var m := s.(dirs := s.dirs - {name});
    RecordedKeepsWindow(m, name, stored);
    var t := Recorded(m, name, stored);
    forall job <- t.live | Orphan(t, job) ensures t.live[job] in t.history {
      if t.live[job] != name { assert Orphan(s, job); }
    }
  }

  lemma InvStep(s: State, e: Event)
    requires Inv(s) && Allowed(s, e)
    ensures Inv(Next(s, e))
  {
    match e {
      case Run(candidates, spawn) => ClaimStep(s, candidates, spawn);
      case Evict(name, stored) => if name in s.dirs && s.dirs[name].readable { RemovalStep(s, name, stored); }
      case Discard(name, stored) => if name in s.dirs { RemovalStep(s, name, stored); }
      case SupervisorEnds(job) =>
        var t := Next(s, e);
        forall j <- t.live | Orphan(t, j) ensures t.live[j] in t.history { assert Orphan(s, j); }
    }
  }

  lemma {:induction false} InvRun(s: State, es: seq<Event>)
    requires Inv(s) && AllowedRun(s, es)
    ensures Inv(Exec(s, es))
    decreases |es|
  {
    if es != [] {
      InvStep(s, es[0]);
      InvRun(Next(s, es[0]), es[1..]);
    }
  }

  /** Over whole runs, a running supervisor only ever writes into its own job's directory. */
  lemma SupervisorsKeepToTheirJobs(s0: State, es: seq<Event>)
    requires Init(s0) && AllowedRun(s0, es)
    ensures NoForeignWrites(Exec(s0, es))
  {
    InvRun(s0, es);
  }

  lemma WindowStep(s: State, e: Event)
    requires s.disposed == Window(s.history, MAX_DISPOSED)
    ensures Next(s, e).disposed == Window(Next(s, e).history, MAX_DISPOSED)
  {
    match e {
      case Evict(name, stored) =>
        if name in s.dirs { RecordedKeepsWindow(s.(dirs := s.dirs - {name}), s.dirs[name].metaId, stored); }
      case Discard(name, stored) => RecordedKeepsWindow(s.(dirs := s.dirs - {name}), name, stored);
      case _ =>
    }
  }

  /** In every run, whatever is lost or unrecorded, the list is the last 2048 distinct disposed
      IDs. */
  lemma {:induction false} ListIsWindow(s: State, es: seq<Event>)
    requires s.disposed == Window(s.history, MAX_DISPOSED)
    ensures Exec(s, es).disposed == Window(Exec(s, es).history, MAX_DISPOSED)
    decreases |es|
  {
    if es != [] {
      WindowStep(s, es[0]);
      ListIsWindow(Next(s, es[0]), es[1..]);
    }
  }

  /** In every run, no claim returns an ID that still has a directory or is among the last 2048
      distinct disposed IDs. */
  lemma ClaimsAreFresh(s0: State, es: seq<Event>, candidates: seq<string>)
    requires Init(s0)
    ensures var s := Exec(s0, es);
            var pick := Pick(candidates, s.disposed, s.dirs.Keys);
            pick.Some? ==> pick.value !in s.dirs && pick.value !in Window(s.history, MAX_DISPOSED)
  {
    ListIsWindow(s0, es);
    PickOk(candidates, Exec(s0, es).disposed, Exec(s0, es).dirs.Keys);
  }

  /** The window in disposals: an orphan whose ID was disposed within the last 2048 disposals
      is still listed, so every claim is allowed. */
  lemma RecentOrphansAreListed(s: State, before: seq<string>, recent: seq<string>, job: nat)
    requires Inv(s) && Orphan(s, job)
    requires s.history == before + recent && |recent| <= 2048 && s.live[job] in recent
    ensures s.live[job] in s.disposed
  {
    RecentIsInWindow(before, recent, s.live[job], MAX_DISPOSED);
  }

  /** A claim is safe whatever candidates are drawn exactly when the list holds every
      orphan's ID: one that fell off the front can be claimed, and its old supervisor then
      writes into the new job's directory. */
  lemma ClaimSafeExactly(s: State)
    requires Inv(s)
    ensures (forall candidates :: NoForeignWrites(Next(s, Run(candidates, Launched)))) <==>
              (forall job <- s.live | Orphan(s, job) :: s.live[job] in s.disposed)
  {
    if forall job <- s.live | Orphan(s, job) :: s.live[job] in s.disposed {
      forall candidates ensures NoForeignWrites(Next(s, Run(candidates, Launched))) {
        InvStep(s, Run(candidates, Launched));
      }
    } else {
      var job :| job in s.live && Orphan(s, job) && s.live[job] !in s.disposed;
      var t := Next(s, Run([s.live[job]], Launched));
      assert Pick([s.live[job]], s.disposed, s.dirs.Keys) == Some(s.live[job]);
      assert job in t.live && t.dirs[t.live[job]].job == s.nextJob;
    }
  }

  /** So is a removal: unrecorded, it lets the next claim have the ID at once. */
  lemma UnrecordedRemovalIsUnsafe(s: State, job: nat)
    requires Inv(s) && job in s.live && s.live[job] in s.dirs && s.live[job] !in s.disposed
    ensures var name := s.live[job];
            !NoForeignWrites(Next(Next(s, Discard(name, false)), Run([name], Launched)))
  {
    var name := s.live[job];
    var t := Next(s, Discard(name, false));
    assert Pick([name], t.disposed, t.dirs.Keys) == Some(name);
    var u := Next(t, Run([name], Launched));
    assert job in u.live && u.live[job] == name && u.dirs[name].job == t.nextJob;
  }

  /** The condition on an event in terms of disposals alone: removing the record of a running
      supervisor gets recorded, and when an ID is claimed, every orphan's ID is among the last
      2048 disposals. */
  predicate Timely(s: State, e: Event) {
    match e
    case Run(_, _) => forall job <- s.live | Orphan(s, job) :: s.live[job] in LastN(s.history, 2048)
    case _ => Allowed(s, e)
  }

  predicate TimelyRun(s: State, es: seq<Event>)
    decreases |es|
  {
    es == [] || (Timely(s, es[0]) && TimelyRun(Next(s, es[0]), es[1..]))
  }

  lemma TimelyIsAllowed(s: State, e: Event)
    requires Inv(s) && Timely(s, e)
    ensures Allowed(s, e)
  {
    if e.Run? {
      forall job <- s.live | Orphan(s, job) ensures s.live[job] in s.disposed {
        var recent := LastN(s.history, MAX_DISPOSED);
        var before := s.history[..|s.history| - |recent|];
        assert s.history == before + recent;
        RecentOrphansAreListed(s, before, recent, job);
      }
    }
  }

  lemma {:induction false} TimelyRunsKeepInv(s: State, es: seq<Event>)
    requires Inv(s) && TimelyRun(s, es)
    ensures Inv(Exec(s, es))
    decreases |es|
  {
    if es != [] {
      TimelyIsAllowed(s, es[0]);
      InvStep(s, es[0]);
      TimelyRunsKeepInv(Next(s, es[0]), es[1..]);
    }
  }

  /** Within the window the guarantee holds over whole runs: if at every claim each surviving
      supervisor's record was removed within the last 2048 disposals, no supervisor ever writes
      into another job's directory. */
  lemma SafeWithinTheWindow(s0: State, es: seq<Event>)
    requires Init(s0) && TimelyRun(s0, es)
    ensures NoForeignWrites(Exec(s0, es))
  {
    TimelyRunsKeepInv(s0, es);
  }

  // ---- an orphan that falls off the list

  /** The k-th of a supply of different IDs. */
  function Name(k: nat): string {
    seq(k + 1, (i: nat) => 'a')
  }

  function Names(n: nat): (names: seq<string>)
    ensures |names| == n
  {
    seq(n, (k: nat) => Name(k))
  }

  lemma NamesDiffer(j: nat, k: nat)
    ensures Name(j) == Name(k) ==> j == k
  {
    assert |Name(j)| == j + 1 && |Name(k)| == k + 1;
  }

  lemma {:induction false} DifferentAreDistinct(h: seq<string>)
    requires NoDup(h)
    ensures Distinct(h) == h
  {
    if h != [] {
      assert h[0] !in h[1..];
      assert NoDup(h[1..]);
      DifferentAreDistinct(h[1..]);
    }
  }

  lemma NamesWindow(n: nat)
    ensures Window(Names(n), MAX_DISPOSED) == LastN(Names(n), MAX_DISPOSED)
    ensures n <= MAX_DISPOSED ==> Window(Names(n), MAX_DISPOSED) == Names(n)
    ensures n == MAX_DISPOSED + 1 ==> Name(0) !in Window(Names(n), MAX_DISPOSED)
    ensures Name(n) !in Window(Names(n), MAX_DISPOSED)
  {
    forall i, j | 0 <= i < j < n ensures Names(n)[i] != Names(n)[j] { NamesDiffer(i, j); }
    DifferentAreDistinct(Names(n));
    var w := Window(Names(n), MAX_DISPOSED);
    var skipped: nat := n - |w|;
    forall i | 0 <= i < |w| ensures w[i] != Name(n) && (n == MAX_DISPOSED + 1 ==> w[i] != Name(0)) {
      assert w[i] == Names(n)[skipped + i];
      NamesDiffer(skipped + i, n);
      NamesDiffer(skipped + i, 0);
    }
  }

  const EMPTY := State(map[], [], [], map[], 0)

  /** Job 0 was removed while its supervisor runs; then `n` jobs came, ended and were pruned. */
  function Forgetting(n: nat): State {
    State(map[], Window(Names(n + 1), MAX_DISPOSED), Names(n + 1), map[0 := Name(0)], n + 1)
  }

  /** The life of one job: launched, ended, pruned. */
  function Life(k: nat): seq<Event> {
    [Run([Name(k)], Launched), SupervisorEnds(k), Discard(Name(k), true)]
  }

  lemma {:induction false} AllowedAppend(s: State, a: seq<Event>, b: seq<Event>)
    ensures Exec(s, a + b) == Exec(Exec(s, a), b)
    ensures AllowedRun(s, a + b) <==> AllowedRun(s, a) && AllowedRun(Exec(s, a), b)
    decreases |a|
  {
    if a == [] {
      assert a + b == b;
    } else {
      assert (a + b)[0] == a[0] && (a + b)[1..] == a[1..] + b;
      AllowedAppend(Next(s, a[0]), a[1..], b);
    }
  }

  lemma ThreeEvents(s: State, a: Event, b: Event, c: Event)
    ensures Exec(s, [a, b, c]) == Next(Next(Next(s, a), b), c)
    ensures AllowedRun(s, [a, b, c]) <==> Allowed(s, a) && Allowed(Next(s, a), b) && Allowed(Next(Next(s, a), b), c)
  {
    var (t, u) := (Next(s, a), Next(Next(s, a), b));
    assert [a, b, c][1..] == [b, c] && [b, c][1..] == [c] && [c][1..] == [];
    assert Exec(Next(u, c), [c][1..]) == Next(u, c) && AllowedRun(Next(u, c), [c][1..]);
    assert Exec(u, [c]) == Next(u, c) && (AllowedRun(u, [c]) <==> Allowed(u, c));
    assert Exec(t, [b, c]) == Exec(u, [c]) && (AllowedRun(t, [b, c]) <==> Allowed(t, b) && AllowedRun(u, [c]));
  }

  /** The same, with job `n + 1` on disk. */
  function Holding(n: nat): State {
    Forgetting(n).(dirs := map[Name(n + 1) := Record(n + 1, true, Name(n + 1))], nextJob := n + 2)
  }

  lemma LifeBegins(n: nat)
    requires n < MAX_DISPOSED
    ensures Allowed(Forgetting(n), Run([Name(n + 1)], Launched))
    ensures Next(Next(Forgetting(n), Run([Name(n + 1)], Launched)), SupervisorEnds(n + 1)) == Holding(n)
  {
    var s, id := Forgetting(n), Name(n + 1);
    NamesWindow(n + 1);
    assert Names(n + 1)[0] == Name(0);
    assert Pick([id], s.disposed, s.dirs.Keys) == Some(id);
    var a := Next(s, Run([id], Launched));
    assert a == Holding(n).(live := s.live[n + 1 := id]);
    assert a.live - {n + 1} == s.live;
  }

  lemma LifeEnds(n: nat)
    ensures Next(Holding(n), Discard(Name(n + 1), true)) == Forgetting(n + 1)
  {
    var s, drop := Holding(n), Discard(Name(n + 1), true);
    WindowStep(s, drop);
    assert Names(n + 2) == Names(n + 1) + [Name(n + 1)];
    assert s.dirs - {Name(n + 1)} == map[];
  }

  lemma OneMoreLife(n: nat)
    requires n < MAX_DISPOSED
    ensures Exec(Forgetting(n), Life(n + 1)) == Forgetting(n + 1) && AllowedRun(Forgetting(n), Life(n + 1))
  {
    LifeBegins(n);
    LifeEnds(n);
    ThreeEvents(Forgetting(n), Run([Name(n + 1)], Launched), SupervisorEnds(n + 1), Discard(Name(n + 1), true));
  }

  lemma {:induction false} Forgets(n: nat) returns (es: seq<Event>)
    requires n <= MAX_DISPOSED
    ensures Exec(EMPTY, es) == Forgetting(n) && AllowedRun(EMPTY, es)
  {
    if n == 0 {
      var run, drop := Run([Name(0)], Launched), Discard(Name(0), true);
      assert Pick([Name(0)], [], EMPTY.dirs.Keys) == Some(Name(0));
      var a := Next(EMPTY, run);
      assert a == State(map[Name(0) := Record(0, true, Name(0))], [], [], map[0 := Name(0)], 1);
      var b := Next(a, drop);
      WindowStep(a, drop);
      assert Names(1) == [] + [Name(0)];
      assert b.dirs == map[] && b == Forgetting(0);
      ThreeEvents(EMPTY, run, SupervisorEnds(1), drop);
      assert Next(a, SupervisorEnds(1)) == a;
      es := [run, SupervisorEnds(1), drop];
    } else {
      var before := Forgets(n - 1);
      OneMoreLife(n - 1);
      AllowedAppend(EMPTY, before, Life(n));
      es := before + Life(n);
    }
  }

  /** It happens: from an empty base, after every step has been allowed, a supervisor outlives
      2048 further disposals, a claim draws its ID again, and from then on the old supervisor
      writes into the new job's directory. */
  lemma ForgottenOrphan()
    ensures exists s0, es, job: nat ::
              && Init(s0) && AllowedRun(s0, es)
              && Orphan(Exec(s0, es), job) && Exec(s0, es).live[job] !in Exec(s0, es).disposed
              && !NoForeignWrites(Next(Exec(s0, es), Run([Exec(s0, es).live[job]], Launched)))
  {
    var es := Forgets(MAX_DISPOSED);
    var s := Exec(EMPTY, es);
    NamesWindow(MAX_DISPOSED + 1);
    assert Init(EMPTY) && Orphan(s, 0) && s.live[0] == Name(0) && Name(0) !in s.disposed;
    assert Pick([Name(0)], s.disposed, s.dirs.Keys) == Some(Name(0));
    var t := Next(s, Run([Name(0)], Launched));
    assert 0 in t.live && t.dirs[t.live[0]].job == MAX_DISPOSED + 1;
  }
}
