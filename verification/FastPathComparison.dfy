/** The pidfd fast path of wait against polling. */
module FastPathComparison {
  import opened Common
  import opened PollRamp
  import opened PidfdWait
  import opened WaitLoop

  /** `later` could be listed at `time`: a record with a live tool when `list` was taken has
      turned terminal only if that tool has exited. */
  ghost predicate ListedAt(k: Kernel, list: Listing, later: Listing, time: int) {
    forall id | id in list && id in later ::
      list[id].pid > 0 && !IsTerminal(list[id].status) && IsTerminal(later[id].status) ==> By(k.exitAt(list[id].pid), time)
  }

  /** An expired wait that began before its deadline has polled, and up to `slack` before the
      deadline no armed process had exited. */
  lemma ExpiredMeansNoneExited(k: Kernel, pids: seq<nat>, start: nat, timeout: nat, slack: nat)
    requires Prompt(k, slack) && timeout > 0 && WaitFor(k, pids, start, timeout).0.Expired?
    ensures !AnyExited(k, pids, start + timeout - slack)
  {
    var (first, deadline) := (FirstExit(k, pids), start + timeout);
    assert WaitFor(k, pids, start, timeout).0 == Slices(k, first, deadline, start, 0, None).answer;
    SlicesInTime(k, first, deadline, start, 0, None, slack);
    SlicesOk(k, first, deadline, start, 0, None);
    FirstExitOk(k, pids, deadline - slack);
  }

  lemma ArmedAndExited(k: Kernel, list: Listing, ids: seq<string>, later: Listing, time: int, id: string)
    requires ListedAt(k, list, later, time) && id in TerminalIn(later, ids)
    requires id in list && !IsTerminal(list[id].status) && list[id].pid > 0
    ensures AnyExited(k, RunningPids(list, ids, TerminalIn(list, ids)), time)
  {
    RunningPidsOk(list, ids, TerminalIn(list, ids), id);
  }

  /** If every listed ID that was not terminal had its PID recorded when the fast path was
      armed, then a timeout loses nothing: no listing up to `slack` before the deadline could
      have shown a terminal ID that the first one did not. */
  lemma ExpiryLosesNothing(seen: Seen, c: Call, list: Listing, now: nat, slack: nat, later: Listing)
    requires forall id <- c.ids :: id in list && (IsTerminal(list[id].status) || list[id].pid > 0)
    requires now < c.deadline && Prompt(seen.kernel, slack)
    requires FastPath(seen, c, RunningPids(list, c.ids, TerminalIn(list, c.ids)), now).0.Expired?
    requires ListedAt(seen.kernel, list, later, c.deadline - slack)
    ensures forall id <- c.ids :: id in later && later[id].status != Running ==> list[id].status != Running
  {
    var pids := RunningPids(list, c.ids, TerminalIn(list, c.ids));
    var kernel := seen.kernel.(cancelAt := c.cancelAt);
    assert Prompt(kernel, slack);
    ExpiredMeansNoneExited(kernel, pids, now, c.deadline - now, slack);
    forall id <- c.ids | id in later && later[id].status != Running ensures list[id].status != Running {
      if !IsTerminal(list[id].status) { ArmedAndExited(kernel, list, c.ids, later, c.deadline - slack, id); }
    }
  }

  /** A barrier wait loses nothing either way: as long as one process was armed, a timeout
      means that it had not exited, so no listing up to `slack` before the deadline could have
      shown every listed ID terminal, whatever the IDs that were still spawning did. */
  lemma BarrierLosesNothing(seen: Seen, c: Call, list: Listing, now: nat, slack: nat, later: Listing)
    requires now < c.deadline && Prompt(seen.kernel, slack)
    requires var pids := RunningPids(list, c.ids, TerminalIn(list, c.ids));
             pids != [] && FastPath(seen, c, pids, now).0.Expired?
    requires ListedAt(seen.kernel, list, later, c.deadline - slack)
    ensures exists id <- c.ids :: !(id in later && later[id].status != Running)
  {
    var pids := RunningPids(list, c.ids, TerminalIn(list, c.ids));
    var kernel := seen.kernel.(cancelAt := c.cancelAt);
    assert Prompt(kernel, slack);
    ExpiredMeansNoneExited(kernel, pids, now, c.deadline - now, slack);
    var id := SomeArmed(list, c.ids, TerminalIn(list, c.ids));
    if id in TerminalIn(later, c.ids) { ArmedAndExited(kernel, list, c.ids, later, c.deadline - slack, id); }
  }

  lemma {:induction false} SomeArmed(list: Listing, ids: seq<string>, terminal: set<string>) returns (id: string)
    requires RunningPids(list, ids, terminal) != []
    ensures id in ids && id !in terminal && id in list && list[id].pid > 0
  {
    id := ids[|ids| - 1];
    if !(id !in terminal && id in list && list[id].pid > 0) { id := SomeArmed(list, ids[..|ids| - 1], terminal); }
  }

  /** A kernel under which nothing exits and nothing goes wrong. */
  const QUIET := Kernel((pid: nat) => Opened, (pid: nat) => None, (n: nat) => 0, (n: nat) => 0, (n: nat) => false, None)

  /** What is answered when `id`, spawning at first, is completed by the second listing and
      nothing else changes: the fast path watches only the others. */
  function SpawnedMeanwhile(list: Listing, id: string): Env {
    (i: nat) => Seen(Some(if i == 0 then list else list[id := Info(Completed, 1)]), 0, QUIET, 0)
  }

  lemma {:induction false} QuietExpires(deadline: int, now: nat, n: nat, seen: Option<nat>)
    ensures Slices(QUIET, None, deadline, now, n, seen).answer == Expired
    decreases deadline - now
  {
    if now < deadline {
      var turn := PollTurn(QUIET, None, deadline - now, now, n);
      QuietExpires(deadline, turn.back, n + 1, Some(turn.done));
    }
  }

  lemma {:induction false} QuietArms(list: Listing, ids: seq<string>, terminal: set<string>)
    ensures var pids := RunningPids(list, ids, terminal); FirstExit(QUIET, pids) == None && forall pid <- pids :: pid > 0
  {
    if ids != [] {
      QuietArms(list, ids[..|ids| - 1], terminal);
      var pids := RunningPids(list, ids, terminal);
      if pids != [] { QuietFirst(pids); }
    }
  }

  lemma {:induction false} QuietFirst(pids: seq<nat>)
    ensures FirstExit(QUIET, pids) == None
  {
    if pids != [] { QuietFirst(pids[..|pids| - 1]); }
  }

  lemma {:induction false} QuietOpens(pids: seq<nat>)
    requires forall pid <- pids :: pid > 0
    ensures ArmFailure(QUIET, pids) == None
  {
    if pids != [] {
      assert pids[0] in pids && forall pid <- pids[1..] :: pid in pids;
      QuietOpens(pids[1..]);
    }
  }

  lemma {:induction false} OnlyNew(ids: seq<string>, id: string)
    requires id in ids && id != ""
    ensures LastNew(ids, {id}, {}) == id
  {
    assert ids == ids[..|ids| - 1] + [ids[|ids| - 1]];
    if id != ids[|ids| - 1] { OnlyNew(ids[..|ids| - 1], id); }
  }

  /** And whenever some listed ID has a PID while another is still spawning, the second can
      complete and the wait still reports a timeout, where polling would have returned it. */
  lemma SpawningIdIsMissed(list: Listing, c: Call, id: string)
    requires Proper(c) && !c.all && c.usePidfd && c.deadline > 0 && c.cancelAt.None?
    requires forall x <- c.ids :: x in list && !IsTerminal(list[x].status)
    requires id in c.ids && list[id].pid == 0 && RunningPids(list, c.ids, {}) != []
    ensures var env := SpawnedMeanwhile(list, id);
            && Run(env, c, FIRST).0 == TimedOut
            && Run(env, c.(usePidfd := false), FIRST).0 == Finished(id)
  {
    MissedByFastPath(list, c, id);
    FoundByPolling(list, c.(usePidfd := false), id);
  }

  lemma MissedByFastPath(list: Listing, c: Call, id: string)
    requires Proper(c) && !c.all && c.usePidfd && c.deadline > 0 && c.cancelAt.None?
    requires forall x <- c.ids :: x in list && !IsTerminal(list[x].status)
    requires RunningPids(list, c.ids, {}) != []
    ensures Run(SpawnedMeanwhile(list, id), c, FIRST).0 == TimedOut
  {
    var seen := SpawnedMeanwhile(list, id)(0);
    NoneMissing(list, c.ids);
    NothingNew(c.ids);
    assert TerminalIn(list, c.ids) == {};
    var pids := RunningPids(list, c.ids, {});
    QuietArms(list, c.ids, {});
    QuietOpens(pids);
    QuietExpires(c.deadline, 1, 0, None);
    assert seen.kernel.(cancelAt := c.cancelAt) == QUIET;
    assert FastPath(seen, c, pids, 1).0 == Expired;
    assert Taken(seen, c, FIRST) == FIRST;
    assert Iterate(seen, c, FIRST) == Decide(seen, c, FIRST, list, 1);
  }

  lemma FoundByPolling(list: Listing, c: Call, id: string)
    requires Proper(c) && !c.all && !c.usePidfd && c.deadline > 0 && c.cancelAt.None?
    requires forall x <- c.ids :: x in list && !IsTerminal(list[x].status)
    requires id in c.ids
    ensures Run(SpawnedMeanwhile(list, id), c, FIRST).0 == Finished(id)
  {
    var env := SpawnedMeanwhile(list, id);
    var later := list[id := Info(Completed, 1)];
    NoneMissing(list, c.ids);
    NoneMissing(later, c.ids);
    NothingNew(c.ids);
    OnlyNew(c.ids, id);
    assert TerminalIn(list, c.ids) == {};
    assert TerminalIn(later, c.ids) == {id};
    assert Taken(env(0), c, FIRST) == FIRST;
    assert Iterate(env(0), c, FIRST) == Poll(env(0), c, FIRST, 1);
    var next := Iterate(env(0), c, FIRST).next;
    assert next.i == 1 && next.prev == {} && next.last == "";
    assert Iterate(env(1), c, next).Return? && Iterate(env(1), c, next).result == Finished(id);
  }
}
