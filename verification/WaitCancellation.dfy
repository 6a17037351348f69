/** How wait answers a cancellation: at the next select of the polling tail or the next return of
    a pidfd poll, and not at all while it only spins. */
module WaitCancellation {
  import opened Common
  import opened PollRamp
  import opened PidfdWait
  import opened WaitLoop

  /** A listing in which some ID of the call is running and none of those has a PID yet. */
  predicate OnlySpawning(seen: Seen, c: Call) {
    seen.listing.Some? &&
    var list := seen.listing.value;
    && (exists id <- c.ids :: id in list && list[id].status == Running)
    && (forall id <- c.ids | id in list && list[id].status == Running :: list[id].pid == 0)
  }

  lemma {:induction false} NoPids(list: Listing, ids: seq<string>, terminal: set<string>)
    requires forall id <- ids | id in list && id !in terminal :: list[id].pid == 0
    ensures RunningPids(list, ids, terminal) == []
  {
    if ids != [] { NoPids(list, ids[..|ids| - 1], terminal); }
  }

  // ---- one iteration

  lemma PollCancels(seen: Seen, c: Call, st: Loop, now: nat)
    ensures var r := Poll(seen, c, st, now);
            if r.Again? then r.next.now - seen.late >= now && !By(c.cancelAt, r.next.now - seen.late)
            else r.result.Cancelled? && By(c.cancelAt, r.at) && r.at == Max(now, c.cancelAt.value) + seen.late
  {}

  /** Once the cancellation has come, no poll is completed: no listing follows on a tick. */
  lemma NoPollOnceCancelled(seen: Seen, c: Call, st: Loop)
    requires Proper(c) && Iterate(seen, c, st).Again? && Iterate(seen, c, st).next.polls > st.polls
    ensures !By(c.cancelAt, Iterate(seen, c, st).next.now - seen.late)
    ensures Iterate(seen, c, st).next.now - seen.late >= st.now + 1 + seen.listCost
  {}

  /** The iteration spins although the cancellation has come by the end of its listing. */
  predicate SpinsOn(seen: Seen, c: Call, st: Loop)
    requires c.ids != []
  {
    var now := st.now + 1 + seen.listCost;
    && By(c.cancelAt, now) && now <= c.deadline && c.usePidfd && !st.pidfdTried
    && Complete(seen.listing, c.ids) && OnlySpawning(seen, c) && (c.all || Taken(seen, c, st).last == "")
  }

  /** An iteration whose listing ends after the cancellation goes on only if the fast path wakes
      or finds a process gone, which it does once, or if no process could be armed because all
      that is left is spawning. */
  lemma GoesOnCancelled(seen: Seen, c: Call, st: Loop)
    requires Proper(c) && By(c.cancelAt, st.now + 1 + seen.listCost) && Iterate(seen, c, st).Again?
    ensures c.usePidfd && !st.pidfdTried
    ensures Iterate(seen, c, st).next.pidfdTried || SpinsOn(seen, c, st)
  {
    if Iterate(seen, c, st).next.polls > st.polls {
      NoPollOnceCancelled(seen, c, st);
    } else {
      Unpolled(seen, c, st);
    }
  }

  /** A spinning iteration goes on at once. */
  lemma SpinsAgain(seen: Seen, c: Call, st: Loop)
    requires Proper(c) && SpinsOn(seen, c, st)
    ensures Iterate(seen, c, st).Again? && Iterate(seen, c, st).next.now == st.now + 1 + seen.listCost
  {
    var (t, list, now) := (Taken(seen, c, st), seen.listing.value, st.now + 1 + seen.listCost);
    NoneMissing(list, c.ids);
    NoPids(list, c.ids, t.prev);
    assert Iterate(seen, c, st) == Decide(seen, c, t, list, now);
    DecideSpins(seen, c, t, list, now);
  }

  lemma Unpolled(seen: Seen, c: Call, st: Loop)
    requires Proper(c) && Iterate(seen, c, st).Again? && Iterate(seen, c, st).next.polls <= st.polls
    ensures c.usePidfd && !st.pidfdTried
    ensures !Iterate(seen, c, st).next.pidfdTried ==>
              && OnlySpawning(seen, c) && Complete(seen.listing, c.ids) && st.now + 1 + seen.listCost <= c.deadline
              && (c.all || Taken(seen, c, st).last == "")
  {
    IterateDecides(seen, c, st);
    IterateFails(seen, c, st);
    IterateAgain(seen, c, st);
    if !Iterate(seen, c, st).next.pidfdTried {
      Spun(seen, c, Taken(seen, c, st), seen.listing.value, st.now + 1 + seen.listCost);
      NobodyArmed(seen, c);
    }
  }

  lemma NobodyArmed(seen: Seen, c: Call)
    requires Proper(c) && seen.listing.Some? && FirstMissing(seen.listing.value, c.ids) == ""
    requires RunningPids(seen.listing.value, c.ids, TerminalSeen(seen, c)) == [] && !AllIn(c.ids, TerminalSeen(seen, c))
    ensures OnlySpawning(seen, c)
  {
    var list, terminal := seen.listing.value, TerminalSeen(seen, c);
    var id :| id in c.ids && id !in terminal;
    assert id in list && list[id].status == Running;
    forall x <- c.ids | x in list && list[x].status == Running ensures list[x].pid == 0 {
      if list[x].pid > 0 { RunningPidsOk(list, c.ids, terminal, x); }
    }
  }

  lemma DecideSpins(seen: Seen, c: Call, st: Loop, list: Listing, now: nat)
    requires c.ids != [] && c.usePidfd && !st.pidfdTried
    requires RunningPids(list, c.ids, st.prev) == [] && !AllIn(c.ids, st.prev)
    ensures var r := Decide(seen, c, st, list, now); if r.Return? then r.at == now else r.next.now == now
    ensures Decide(seen, c, st, list, now).Again? <==> now <= c.deadline && (c.all || st.last == "")
  {}

  lemma Spun(seen: Seen, c: Call, st: Loop, list: Listing, now: nat)
    requires Proper(c) && Decide(seen, c, st, list, now).Again? && !Decide(seen, c, st, list, now).next.pidfdTried
    requires Decide(seen, c, st, list, now).next.polls <= st.polls
    ensures RunningPids(list, c.ids, st.prev) == [] && !AllIn(c.ids, st.prev) && now <= c.deadline
  {}

  // ---- the whole wait

  /** What the fast path adds: a listing and a pidfd slice can have been under way. */
  function Grace(c: Call, listing: nat, slack: nat): nat {
    if c.usePidfd then listing + 100 * MS + slack else 0
  }

  /** The next iteration begins by `limit`, or after the one wake of the fast path. */
  predicate Held(c: Call, st: Loop, listing: nat, slack: nat, limit: nat) {
    st.now <= limit || (st.pidfdTried && st.now <= limit + Grace(c, listing, slack))
  }

  /** A round that returns in time, or from which the next one can. */
  predicate Reined(c: Call, r: Round, listing: nat, slack: nat, limit: nat) {
    if r.Return? then r.at <= limit + Grace(c, listing, slack) + listing + slack
    else Held(c, r.next, listing, slack, limit)
  }

  /** `limit` is past the cancellation by at least what a tick can be late. */
  predicate Past(c: Call, slack: nat, limit: nat) {
    c.cancelAt.Some? && c.cancelAt.value + slack <= limit
  }

  lemma PollReined(seen: Seen, c: Call, st: Loop, now: nat, listing: nat, slack: nat, limit: nat)
    requires Past(c, slack, limit) && seen.late <= slack && now <= limit + Grace(c, listing, slack) + listing
    ensures Reined(c, Poll(seen, c, st, now), listing, slack, limit)
  {
    PollCancels(seen, c, st, now);
  }

  lemma AwaitReined(seen: Seen, c: Call, st: Loop, now: nat, pids: seq<nat>, pending: bool,
                    listing: nat, slack: nat, limit: nat)
    requires Past(c, slack, limit) && seen.late <= slack && Prompt(seen.kernel, slack) && now <= c.deadline
    requires pids != [] || !pending || st.pidfdTried || !c.usePidfd
    requires now <= limit + listing + if st.pidfdTried then Grace(c, listing, slack) else 0
    ensures Reined(c, AwaitNext(seen, c, st, now, pids, pending), listing, slack, limit)
  {
    if st.pidfdTried || !c.usePidfd || pids == [] {
      PollReined(seen, c, st, now, listing, slack, limit);
    } else {
      var kernel := seen.kernel.(cancelAt := c.cancelAt);
      assert Prompt(kernel, slack);
      WaitForCancelled(kernel, pids, now, c.deadline - now, slack);
      PollReined(seen, c, st.(pidfdTried := true), FastPath(seen, c, pids, now).1, listing, slack, limit);
    }
  }

  lemma DecideReined(seen: Seen, c: Call, st: Loop, list: Listing, now: nat, listing: nat, slack: nat, limit: nat)
    requires c.ids != [] && Past(c, slack, limit) && seen.late <= slack && Prompt(seen.kernel, slack)
    requires RunningPids(list, c.ids, st.prev) != [] || AllIn(c.ids, st.prev) || st.pidfdTried || !c.usePidfd
    requires now <= limit + listing + if st.pidfdTried then Grace(c, listing, slack) else 0
    ensures Reined(c, Decide(seen, c, st, list, now), listing, slack, limit)
  {
    if now <= c.deadline {
      AwaitReined(seen, c, st, now, RunningPids(list, c.ids, st.prev), !AllIn(c.ids, st.prev), listing, slack, limit);
    }
  }

  lemma SpinReined(c: Call, r: Round, now: nat, listing: nat, slack: nat, limit: nat)
    requires now <= limit + listing && if r.Return? then r.at == now else r.next.now == now <= limit
    ensures Reined(c, r, listing, slack, limit)
  {}

  /** The guard of the spin, once the listing has been taken in. */
  predicate Unarmed(c: Call, st: Loop, list: Listing, now: nat) {
    && c.usePidfd && !st.pidfdTried && now <= c.deadline && (c.all || st.last == "")
    && RunningPids(list, c.ids, st.prev) == [] && !AllIn(c.ids, st.prev)
  }

  lemma TakenReined(seen: Seen, c: Call, st: Loop, list: Listing, now: nat, listing: nat, slack: nat, limit: nat)
    requires c.ids != [] && Past(c, slack, limit) && seen.late <= slack && Prompt(seen.kernel, slack)
    requires now <= limit + listing + if st.pidfdTried then Grace(c, listing, slack) else 0
    requires Unarmed(c, st, list, now) ==> now <= limit
    ensures Reined(c, Decide(seen, c, st, list, now), listing, slack, limit)
  {
    if c.usePidfd && !st.pidfdTried && RunningPids(list, c.ids, st.prev) == [] && !AllIn(c.ids, st.prev) {
      DecideSpins(seen, c, st, list, now);
      SpinReined(c, Decide(seen, c, st, list, now), now, listing, slack, limit);
    } else {
      DecideReined(seen, c, st, list, now, listing, slack, limit);
    }
  }

  /** Nobody could be armed only up to the limit. */
  predicate ArmsBy(seen: Seen, c: Call, st: Loop, limit: nat) {
    seen.listing.Some? && FirstMissing(seen.listing.value, c.ids) == "" ==>
      var now := st.now + 1 + seen.listCost;
      Unarmed(c, Taken(seen, c, st), seen.listing.value, now) ==> now <= limit
  }

  /** A listing in which nobody can be armed past the limit is one of a spin. */
  lemma UnarmedSpins(seen: Seen, c: Call, st: Loop, limit: nat)
    requires Proper(c) && c.cancelAt.Some? && c.cancelAt.value <= limit
    requires !(SpinsOn(seen, c, st) && st.now + 1 + seen.listCost > limit)
    ensures ArmsBy(seen, c, st, limit)
  {
    if seen.listing.Some? && FirstMissing(seen.listing.value, c.ids) == ""
      && RunningPids(seen.listing.value, c.ids, Taken(seen, c, st).prev) == [] && !AllIn(c.ids, Taken(seen, c, st).prev) {
      NobodyArmed(seen, c);
    }
  }

  lemma IterateReined(seen: Seen, c: Call, st: Loop, listing: nat, slack: nat, limit: nat)
    requires Proper(c) && Past(c, slack, limit) && Held(c, st, listing, slack, limit)
    requires seen.listCost < listing && seen.late <= slack && Prompt(seen.kernel, slack)
    requires ArmsBy(seen, c, st, limit)
    ensures Reined(c, Iterate(seen, c, st), listing, slack, limit)
  {
    var now := st.now + 1 + seen.listCost;
    if seen.listing.Some? && FirstMissing(seen.listing.value, c.ids) == "" {
      TakenReined(seen, c, Taken(seen, c, st), seen.listing.value, now, listing, slack, limit);
      assert Iterate(seen, c, st) == Decide(seen, c, Taken(seen, c, st), seen.listing.value, now);
    } else {
      assert Iterate(seen, c, st).Return? && Iterate(seen, c, st).at == now;
    }
  }

  /** Some iteration from `st` on spins although the cancellation has come, at a time past
      `limit`. */
  predicate SpinsPast(env: Env, c: Call, st: Loop, limit: nat)
    requires c.ids != []
    decreases Left(c, st.now)
  {
    var round := Iterate(env(st.i), c, st);
    || (SpinsOn(env(st.i), c, st) && st.now + 1 + env(st.i).listCost > limit)
    || (round.Again? && SpinsPast(env, c, round.next, limit))
  }

  lemma {:induction false} RunReined(env: Env, c: Call, st: Loop, listing: nat, slack: nat, limit: nat)
    requires Proper(c) && Past(c, slack, limit) && Timely(env, listing, slack) && Held(c, st, listing, slack, limit)
    requires !SpinsPast(env, c, st, limit)
    ensures Run(env, c, st).1 <= limit + Grace(c, listing, slack) + listing + slack
    decreases Left(c, st.now)
  {
    UnarmedSpins(env(st.i), c, st, limit);
    IterateReined(env(st.i), c, st, listing, slack, limit);
    match Iterate(env(st.i), c, st) {
      case Return(result, at) =>
      case Again(next) => RunReined(env, c, next, listing, slack, limit);
    }
  }

  lemma IterateEnds(seen: Seen, c: Call, st: Loop)
    requires c.ids != [] && Iterate(seen, c, st).Return?
    ensures Iterate(seen, c, st).at >= st.now + 1 + seen.listCost
  {}

  lemma {:induction false} RunEnds(env: Env, c: Call, st: Loop)
    requires c.ids != []
    ensures Run(env, c, st).1 > st.now
    decreases Left(c, st.now)
  {
    match Iterate(env(st.i), c, st) {
      case Return(result, at) => IterateEnds(env(st.i), c, st);
      case Again(next) => RunEnds(env, c, next);
    }
  }

  lemma {:induction false} SpunPast(env: Env, c: Call, st: Loop, limit: nat)
    requires Proper(c) && SpinsPast(env, c, st, limit)
    ensures Run(env, c, st).1 > limit
    decreases Left(c, st.now)
  {
    var round := Iterate(env(st.i), c, st);
    if SpinsOn(env(st.i), c, st) && st.now + 1 + env(st.i).listCost > limit {
      SpinsAgain(env(st.i), c, st);
      RunEnds(env, c, round.next);
    } else {
      SpunPast(env, c, round.next, limit);
    }
  }

  /** When a cancelled wait is over, for any time past its cancellation: if some iteration spins
      after that time, later; if none does, no more than the end of a listing and the lateness
      of a tick after it, and with the fast path one slice and one listing more. */
  lemma CancelledInTime(env: Env, c: Call, listing: nat, slack: nat, limit: nat)
    requires Proper(c) && c.cancelAt.Some? && Timely(env, listing, slack) && limit >= c.cancelAt.value + slack
    ensures var at := Run(env, c, FIRST).1;
            if SpinsPast(env, c, FIRST, limit) then at > limit
            else at <= limit + listing + slack + if c.usePidfd then listing + 100 * MS + slack else 0
  {
    if SpinsPast(env, c, FIRST, limit) {
      SpunPast(env, c, FIRST, limit);
    } else {
      RunReined(env, c, FIRST, listing, slack, limit);
    }
  }

  /** If the round ends the wait as cancelled, the cancellation has come and the listing taken in
      with `st` did not satisfy it. */
  predicate CancelledOk(c: Call, st: Loop, r: Round) {
    r.Return? && r.result.Cancelled? ==>
      By(c.cancelAt, r.at) && if c.all then !AllIn(c.ids, st.prev) else st.last == ""
  }

  lemma DecideCancelled(seen: Seen, c: Call, st: Loop, list: Listing, now: nat)
    requires c.ids != []
    ensures CancelledOk(c, st, Decide(seen, c, st, list, now))
  {}

  lemma IterateCancelled(seen: Seen, c: Call, st: Loop)
    requires c.ids != []
    ensures CancelledOk(c, Taken(seen, c, st), Iterate(seen, c, st))
  {
    var now := st.now + 1 + seen.listCost;
    if seen.listing.Some? && FirstMissing(seen.listing.value, c.ids) == "" {
      DecideCancelled(seen, c, Taken(seen, c, st), seen.listing.value, now);
      assert Iterate(seen, c, st) == Decide(seen, c, Taken(seen, c, st), seen.listing.value, now);
    } else {
      assert Iterate(seen, c, st).Return? && Iterate(seen, c, st).at == now;
    }
  }

  lemma CancelledEnds(env: Env, c: Call, end: Loop)
    requires Proper(c) && Remembers(env, c, end)
    requires Iterate(env(end.i), c, end).Return? && Iterate(env(end.i), c, end).result.Cancelled?
    ensures By(c.cancelAt, Iterate(env(end.i), c, end).at)
    ensures forall j: nat | j <= end.i :: Complete(env(j).listing, c.ids) && !Satisfied(env, c, j)
  {
    TakenRemembers(env, c, end);
    IterateCancelled(env(end.i), c, end);
    IterateFails(env(end.i), c, end);
  }

  /** Cancelled means that the cancellation had come, and that no listing satisfied the wait. */
  lemma CancelledMeansUnsatisfied(env: Env, c: Call)
    requires Proper(c) && Run(env, c, FIRST).0.Cancelled?
    ensures var (_, at, end) := Run(env, c, FIRST);
            && c.cancelAt.Some? && at >= c.cancelAt.value
            && forall j: nat | j <= end.i :: Complete(env(j).listing, c.ids) && !Satisfied(env, c, j)
  {
    EndRemembers(env, c, FIRST);
    CancelledEnds(env, c, Run(env, c, FIRST).2);
  }

  /** And a wait that is cancelled well before its deadline, with every listing complete and none
      that satisfies it, ends as cancelled. */
  lemma CancellationIsReported(env: Env, c: Call, listing: nat, slack: nat)
    requires Proper(c) && c.cancelAt.Some? && Timely(env, listing, slack)
    requires var limit := c.cancelAt.value + slack;
             !SpinsPast(env, c, FIRST, limit) && limit + Grace(c, listing, slack) + listing + slack < c.deadline
    requires var end := Run(env, c, FIRST).2;
             forall j: nat | j <= end.i :: Complete(env(j).listing, c.ids) && !Satisfied(env, c, j)
    ensures Run(env, c, FIRST).0 == Cancelled
  {
    var (result, at, end) := Run(env, c, FIRST);
    CancelledInTime(env, c, listing, slack, c.cancelAt.value + slack);
    FailsFast(env, c);
    NeverNoIds(env, c, FIRST);
    if result.Finished? { FinishedSatisfies(env, c); }
    if result.TimedOut? { TimeoutMeansUnsatisfied(env, c); }
  }

  lemma FinishedSatisfies(env: Env, c: Call)
    requires Proper(c) && Run(env, c, FIRST).0.Finished?
    ensures Satisfied(env, c, Run(env, c, FIRST).2.i)
  {
    if c.all { AllCompleted(env, c); } else { FirstCompleted(env, c); }
  }

  lemma {:induction false} NeverNoIds(env: Env, c: Call, st: Loop)
    requires c.ids != []
    ensures !Run(env, c, st).0.NoIds?
    decreases Left(c, st.now)
  {
    match Iterate(env(st.i), c, st) {
      case Return(result, at) =>
      case Again(next) => NeverNoIds(env, c, next);
    }
  }

  // ---- spinning

  /** Every listing shows every ID of the call still spawning. */
  ghost predicate AlwaysSpawning(env: Env, c: Call) {
    forall i: nat :: Complete(env(i).listing, c.ids) && forall id <- c.ids :: env(i).listing.value[id] == Info(Running, 0)
  }

  /** Nothing has been seen to finish and nothing was armed. */
  predicate Fresh(st: Loop) {
    st.last == "" && st.prev == {} && !st.pidfdTried
  }

  lemma IterateSpins(seen: Seen, c: Call, st: Loop)
    requires Proper(c) && c.usePidfd && Fresh(st) && Complete(seen.listing, c.ids)
    requires forall id <- c.ids :: seen.listing.value[id] == Info(Running, 0)
    ensures var (r, now) := (Iterate(seen, c, st), st.now + 1 + seen.listCost);
            if now > c.deadline then r == Return(TimedOut, now) else r.Again? && Fresh(r.next) && r.next.i == st.i + 1
  {
    var list := seen.listing.value;
    NoneMissing(list, c.ids);
    assert TerminalIn(list, c.ids) == {};
    NothingNew(c.ids);
    NoPids(list, c.ids, {});
    assert c.ids[0] in c.ids;
  }

  /** A wait that spins does not look at the cancellation: as long as every ID is still spawning
      it lists on to its deadline, whenever it was cancelled. */
  lemma {:induction false} SpinningIgnoresCancellation(env: Env, c: Call, st: Loop)
    requires Proper(c) && c.usePidfd && AlwaysSpawning(env, c) && Fresh(st)
    ensures Run(env, c, st).0 == TimedOut && Run(env, c, st).1 > c.deadline
    decreases Left(c, st.now)
  {
    IterateSpins(env(st.i), c, st);
    match Iterate(env(st.i), c, st) {
      case Return(result, at) =>
      case Again(next) => SpinningIgnoresCancellation(env, c, next);
    }
  }
}
