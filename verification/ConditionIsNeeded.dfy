/** The side condition is exact: each event that breaks it can be continued, without breaking
    it again, into a run that leaves the marker beside a usable exit code. */
module ConditionIsNeeded {
  import opened Common
  import opened RecordProtocol
  import opened ProtocolInvariants
  import opened MarkerSafety
  import opened SideConditions

  lemma One(w: World, e: Event)
    ensures Exec(AsWritten, w, [e]) == Next(AsWritten, w, e)
    ensures BenignRun(w, [e]) <==> Benign(w, e)
  {
    assert Exec(AsWritten, Next(AsWritten, w, e), [e][1..]) == Next(AsWritten, w, e);
    assert BenignRun(Next(AsWritten, w, e), [e][1..]);
  }

  /** The benign events `es` lead from `w` to `u`. */
  predicate Reaches(w: World, es: seq<Event>, u: World) {
    BenignRun(w, es) && Exec(AsWritten, w, es) == u
  }

  lemma Onward(w: World, es: seq<Event>, u: World, more: seq<Event>, t: World)
    requires Reaches(w, es, u) && Reaches(u, more, t)
    ensures Reaches(w, es + more, t)
  {
    ExecAppend(AsWritten, w, es, more);
    BenignAppend(w, es, more);
  }

  /** A look of a check is benign. */
  lemma Look(w: World, o: nat, ok: bool) returns (es: seq<Event>, u: World)
    requires WorldOk(AsWritten, w)
    ensures u == Next(AsWritten, w, Obs(o, ok)) && Reaches(w, es, u) && WorldOk(AsWritten, u)
  {
    es, u := [Obs(o, ok)], Next(AsWritten, w, Obs(o, ok));
    Step(AsWritten, w, Obs(o, ok));
    One(w, Obs(o, ok));
  }

  lemma Do(w: World, e: Event) returns (es: seq<Event>, u: World)
    requires WorldOk(AsWritten, w) && Benign(w, e)
    ensures u == Next(AsWritten, w, e) && Reaches(w, es, u) && WorldOk(AsWritten, u)
  {
    es, u := [e], Next(AsWritten, w, e);
    Step(AsWritten, w, e);
    One(w, e);
  }

  /** Some benign continuation leaves the marker beside a usable exit code. */
  ghost predicate CanShadow(w: World) {
    exists es :: BenignRun(w, es) && Shadowed(Exec(AsWritten, w, es).sh)
  }

  lemma ShadowAhead(w: World, es: seq<Event>, u: World)
    requires Reaches(w, es, u) && CanShadow(u)
    ensures CanShadow(w)
  {
    var more :| BenignRun(u, more) && Shadowed(Exec(AsWritten, u, more).sh);
    Onward(w, es, u, more, Exec(AsWritten, u, more));
    assert BenignRun(w, es + more) && Shadowed(Exec(AsWritten, w, es + more).sh);
  }

  lemma MarkNow(w: World, o: nat)
    requires WorldOk(AsWritten, w) && w.sh.dir.exit.Data? && o in w.obs && w.obs[o].MarkIt?
    ensures CanShadow(w)
  {
    var es, u := Look(w, o, true);
    assert BenignRun(w, es) && Shadowed(Exec(AsWritten, w, es).sh);
  }

  /** A check still looking for a supervisor that has just gone marks the record. */
  lemma {:induction false} SearchFails(w: World, o: nat)
    requires WorldOk(AsWritten, w) && w.sh.dir.exit.Data? && !w.sh.os.alive
    requires w.sh.os.supId in w.sh.os.table ==> ZombieAt(w.sh.os, w.sh.os.supId)
    requires o in w.obs && SeekingSupervisor(w.obs[o])
    requires w.obs[o].SupZ? ==> w.sh.os.supId in w.sh.os.table
    ensures CanShadow(w)
    decreases if w.obs[o].SupRd? then 2 else if w.obs[o].SupKill0? then 1 else 0
  {
    assert ObsOk(AsWritten, w.sh, w.obs[o]);
    var es, u := Look(w, o, true);
    if u.obs[o].MarkIt? { MarkNow(u, o); } else { SearchFails(u, o); }
    ShadowAhead(w, es, u);
  }

  /** Necessary, first: the supervisor ending under a check's search. */
  lemma DeathHurts(w: World, e: Event)
    requires WorldOk(AsWritten, w) && Breaks(w, e, EndUnderSearch)
    ensures CanShadow(Next(AsWritten, w, e))
  {
    var o :| o in w.obs && SeekingSupervisor(w.obs[o]);
    Step(AsWritten, w, e);
    var u := Next(AsWritten, w, e);
    assert u.obs[o] == w.obs[o] && u.sh.os == Die(w.sh.os);
    SearchFails(u, o);
  }

  function Seekers(w: World): set<nat> {
    set o | o in w.obs && SeekingSupervisor(w.obs[o])
  }

  lemma NoSeekers(w: World)
    ensures Seekers(w) == {} ==> forall o <- w.obs :: !SeekingSupervisor(w.obs[o])
  {
    if o :| o in w.obs && SeekingSupervisor(w.obs[o]) { assert o in Seekers(w); }
  }

  /** A check that looks for a live supervisor finds it. */
  lemma {:induction false} SearchEnds(w: World, o: nat) returns (es: seq<Event>, u: World)
    requires WorldOk(AsWritten, w) && w.sh.os.alive && o in w.obs && SeekingSupervisor(w.obs[o])
    ensures Reaches(w, es, u) && WorldOk(AsWritten, u) && u.sh == w.sh
    ensures u.obs.Keys == w.obs.Keys && !SeekingSupervisor(u.obs[o]) && forall p <- w.obs | p != o :: u.obs[p] == w.obs[p]
    decreases if w.obs[o].SupRd? then 2 else if w.obs[o].SupKill0? then 1 else 0
  {
    assert ObsOk(AsWritten, w.sh, w.obs[o]);
    es, u := Look(w, o, true);
    if SeekingSupervisor(u.obs[o]) {
      var m := u;
      var rest;
      rest, u := SearchEnds(m, o);
      Onward(w, es, m, rest, u);
      es := es + rest;
    }
  }

  /** All searches for a live supervisor can end before anything else happens. */
  lemma {:induction false} SearchesEnd(w: World, keep: nat) returns (es: seq<Event>, u: World)
    requires WorldOk(AsWritten, w) && w.sh.os.alive && keep in w.obs && !SeekingSupervisor(w.obs[keep])
    ensures Reaches(w, es, u) && WorldOk(AsWritten, u) && u.sh == w.sh
    ensures keep in u.obs && u.obs[keep] == w.obs[keep] && Seekers(u) == {}
    decreases |Seekers(w)|
  {
    if Seekers(w) == {} {
      es, u := [], w;
    } else {
      var o :| o in Seekers(w);
      var m;
      es, m := SearchEnds(w, o);
      assert Seekers(m) == Seekers(w) - {o};
      var rest;
      rest, u := SearchesEnd(m, keep);
      Onward(w, es, m, rest, u);
      es := es + rest;
    }
  }

  /** The supervisor can leave without anybody being misled: it is gone, and its PID does not
      answer as a live process. */
  lemma Bury(w: World, keep: nat) returns (es: seq<Event>, u: World)
    requires WorldOk(AsWritten, w) && w.sh.dir.exit.Data? && keep in w.obs && !SeekingSupervisor(w.obs[keep])
    ensures Reaches(w, es, u) && WorldOk(AsWritten, u)
    ensures keep in u.obs && u.obs[keep] == w.obs[keep] && u.sh.dir == w.sh.dir && u.sh.os.tool == w.sh.os.tool
    ensures !u.sh.os.alive && (u.sh.os.supId in u.sh.os.table ==> ZombieAt(u.sh.os, u.sh.os.supId))
    ensures w.sh.os.tool.Reaped? && w.sh.os.tool.pid in w.sh.os.table ==> u.sh.os.tool.pid in u.sh.os.table
  {
    var calm := w;
    es := [];
    if w.sh.os.alive { es, calm := SearchesEnd(w, keep); }
    NoSeekers(calm);
    var kill, m := Do(calm, KillSup);
    var stop;
    stop, u := Do(m, EnvExit(w.sh.os.supId));
    Onward(w, es, calm, kill, m);
    Onward(w, es + kill, m, stop, u);
    es := es + kill + stop;
  }

  /** A check about to ask whether the PID it read is a zombie, while another process holds
      that PID and the code is on disk. */
  lemma ImpostorHurts(w: World, o: nat)
    requires WorldOk(AsWritten, w) && w.sh.dir.exit.Data?
    requires w.sh.os.tool.Reaped? && w.sh.os.tool.pid in w.sh.os.table
    requires o in w.obs && w.obs[o].ToolZ?
    ensures CanShadow(w)
  {
    var bury, m := Bury(w, o);
    assert ObsOk(AsWritten, m.sh, m.obs[o]);
    var stop, m' := Do(m, EnvExit(w.sh.os.tool.pid));
    var look, u := Look(m', o, true);
    SearchFails(u, o);
    ShadowAhead(m', look, u);
    ShadowAhead(m, stop, m');
    ShadowAhead(w, bury, m);
  }

  lemma ExposedHurts(w: World, e: Event, o: nat)
    requires WorldOk(AsWritten, w) && ReusesToolPid(w.sh.os, e) && w.sh.dir.exit.Data?
    requires o in w.obs && Exposed(w.obs[o], e.start) && !w.obs[o].ToolZ?
    ensures CanShadow(Next(AsWritten, w, e))
  {
    assert ObsOk(AsWritten, w.sh, w.obs[o]);
    Step(AsWritten, w, e);
    var n := Next(AsWritten, w, e);
    assert n.obs[o] == w.obs[o];
    var es, u := Look(n, o, true);
    if w.obs[o].Kill0? { ImpostorHurts(u, o); } else { MarkNow(u, o); }
    ShadowAhead(n, es, u);
  }

  /** Necessary, second: the PID reused under a check whose read of exit_code came
      before the write. */
  lemma LateReuseHurts(w: World, e: Event)
    requires WorldOk(AsWritten, w) && Breaks(w, e, ReuseUnderCheck)
    ensures CanShadow(Next(AsWritten, w, e))
  {
    var o :| o in w.obs && Exposed(w.obs[o], e.start);
    if w.obs[o].ToolZ? {
      Step(AsWritten, w, e);
      ImpostorHurts(Next(AsWritten, w, e), o);
    } else {
      ExposedHurts(w, e, o);
    }
  }

  lemma {:induction false} Bounded(s: set<nat>) returns (b: nat)
    ensures forall x <- s :: x < b
    decreases |s|
  {
    if s == {} {
      b := 0;
    } else {
      var x :| x in s;
      var c := Bounded(s - {x});
      b := if c > x then c else x + 1;
      assert forall y <- s :: y == x || y in s - {x};
    }
  }

  lemma {:induction false} FreshCheck(w: World, o: nat) returns (es: seq<Event>, u: World)
    requires WorldOk(AsWritten, w) && !w.sh.dir.exit.Data? && !w.sh.dir.crashed && w.sh.dir.pid.Data?
    requires w.sh.os.tool.Reaped? && w.sh.os.tool.pid in w.sh.os.table
    requires o in w.obs
    requires var pc := w.obs[o]; pc.Begin? || pc.RdPid? || ((pc.Stat1? || pc.RdExit? || pc.Kill0?) && pc.p != 0)
    ensures Reaches(w, es, u) && WorldOk(AsWritten, u)
    ensures u.sh == w.sh && o in u.obs && u.obs[o].ToolZ?
    decreases var pc := w.obs[o]; if pc.Begin? then 5 else if pc.RdPid? then 4 else if pc.Stat1? then 3 else if pc.RdExit? then 2 else 1
  {
    assert ObsOk(AsWritten, w.sh, w.obs[o]);
    es, u := Look(w, o, true);
    if !u.obs[o].ToolZ? {
      var m := u;
      var rest;
      rest, u := FreshCheck(m, o);
      Onward(w, es, m, rest, u);
      es := es + rest;
    }
  }

  lemma {:induction false} WritesCode(w: World) returns (es: seq<Event>, u: World)
    requires WorldOk(AsWritten, w) && !w.sh.dir.exit.Data? && w.sh.os.alive
    requires w.sh.sup.TruncExit? || w.sh.sup.PutExit?
    ensures Reaches(w, es, u) && WorldOk(AsWritten, u)
    ensures u.sh.dir.exit.Data? && u.sh.dir.crashed == w.sh.dir.crashed && u.sh.os == w.sh.os && u.obs == w.obs
    decreases if w.sh.sup.TruncExit? then 1 else 0
  {
    es, u := Do(w, Sup(true));
    if !u.sh.dir.exit.Data? {
      var m := u;
      var rest;
      rest, u := WritesCode(m);
      Onward(w, es, m, rest, u);
      es := es + rest;
    }
  }

  /** Necessary, third: the PID reused between the reap and the exit_code write. */
  lemma EarlyReuseHurts(w: World, e: Event)
    requires WorldOk(AsWritten, w) && Breaks(w, e, ReuseBeforeWrite)
    ensures CanShadow(Next(AsWritten, w, e))
  {
    Step(AsWritten, w, e);
    var n := Next(AsWritten, w, e);
    if n.sh.dir.crashed {
      var es, u := WritesCode(n);
      assert BenignRun(n, es) && Shadowed(Exec(AsWritten, n, es).sh);
    } else {
      var o := Bounded(n.obs.Keys);
      var start, m := Do(n, New(o));
      var looks, m' := FreshCheck(m, o);
      var write, u := WritesCode(m');
      ImpostorHurts(u, o);
      ShadowAhead(m', write, u);
      ShadowAhead(m, looks, m');
      ShadowAhead(n, start, m);
    }
  }

  /** The side condition is exact. A benign run shadows nothing; and from any reachable
      world each event that breaks the condition is followed by some benign continuation at
      the end of which the crashed marker stands beside a usable exit code: the break alone
      does the harm. */
  lemma BenignIsExact(w0: World, pre: seq<Event>, e: Event)
    requires Init(w0)
    ensures BenignRun(w0, pre) ==> !Shadowed(Exec(AsWritten, w0, pre).sh)
    ensures var w := Exec(AsWritten, w0, pre);
            !Benign(w, e) ==>
              exists es :: BenignRun(Next(AsWritten, w, e), es) && Shadowed(Exec(AsWritten, w0, pre + ([e] + es)).sh)
  {
    InitOk(AsWritten, w0);
    RunOk(AsWritten, w0, pre);
    var w := Exec(AsWritten, w0, pre);
    if BenignRun(w0, pre) { BenignRunsAreSafe(w0, pre); }
    if !Benign(w, e) {
      if Breaks(w, e, EndUnderSearch) {
        DeathHurts(w, e);
      } else if Breaks(w, e, ReuseUnderCheck) {
        LateReuseHurts(w, e);
      } else {
        EarlyReuseHurts(w, e);
      }
      var u := Next(AsWritten, w, e);
      var es :| BenignRun(u, es) && Shadowed(Exec(AsWritten, u, es).sh);
      RunOfThree(w0, pre, e, es);
    }
  }

  lemma RunOfThree(w0: World, pre: seq<Event>, e: Event, es: seq<Event>)
    ensures Exec(AsWritten, w0, pre + ([e] + es)) == Exec(AsWritten, Next(AsWritten, Exec(AsWritten, w0, pre), e), es)
  {
    var w := Exec(AsWritten, w0, pre);
    ExecAppend(AsWritten, w0, pre, [e] + es);
    ExecAppend(AsWritten, w, [e], es);
    One(w, e);
  }
}
