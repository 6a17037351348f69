/** The loop behind wait: re-listing, the two result modes, the one-shot pidfd fast path, the
    polling ramp on its ticker, and the deadline. Times are nanoseconds since the call. */
module WaitLoop {
  import opened Common
  import opened PollRamp
  import opened PidfdWait

  const MAX_WAIT_SECONDS := 500

  datatype Info = Info(status: Status, pid: nat)

  type Listing = map<string, Info>

  /** What the world answers in one iteration: the listing (None if listing fails), which took
      `listCost` and a nanosecond; what the kernel would make of a pidfd wait; and how much
      later than its tick a poll resumes. */
  datatype Seen = Seen(listing: Option<Listing>, listCost: nat, kernel: Kernel, late: nat)

  type Env = nat -> Seen

  /** `usePidfd` is off where the platform has none and in the polling fallback. */
  datatype Call = Call(ids: seq<string>, all: bool, deadline: nat, usePidfd: bool, cancelAt: Option<nat>)

  datatype WaitResult = NoIds | NotFound(id: string) | ListFailed | Cancelled | TimedOut | Finished(id: string)

  /** Before iteration `i`. The ticker's interval is `interval` ms and `tick` is its next tick,
      or the oldest one nobody has taken. `last` is the latest newly terminal ID, or empty. */
  datatype Loop = Loop(i: nat, now: nat, pidfdTried: bool, pendingWake: bool, polls: nat,
                       interval: nat, tick: nat, last: string, prev: set<string>)

  datatype Round = Return(result: WaitResult, at: nat) | Again(next: Loop)

  function ClampWaitSeconds(requested: int): (r: nat)
    ensures 1 <= r <= MAX_WAIT_SECONDS
    ensures 1 <= requested <= 500 ==> r == requested
    ensures (requested <= 0 ==> r == 1) && (requested > 500 ==> r == 500)
  {
    if requested <= 0 then 1 else if requested > MAX_WAIT_SECONDS then MAX_WAIT_SECONDS else requested
  }

  // ---- the pieces as values

  function Dedupe(ids: seq<string>): seq<string> {
    if ids == [] then []
    else
      var init, id := Dedupe(ids[..|ids| - 1]), ids[|ids| - 1];
      if id == "" || id in init then init else init + [id]
  }

  function FirstMissing(list: Listing, ids: seq<string>): (r: string)
    ensures r == "" ==> forall id <- ids :: id in list || id == ""
    ensures r != "" ==> r in ids && r !in list
  {
    if ids == [] then ""
    else if ids[0] !in list && ids[0] != "" then ids[0]
    else FirstMissing(list, ids[1..])
  }

  /** The listed IDs that are terminal in a listing. */
  function TerminalIn(list: Listing, ids: seq<string>): set<string> {
    set id | id in ids && id in list && IsTerminal(list[id].status)
  }

  /** The last ID in caller order that has just become terminal, or the empty string. */
  function LastNew(ids: seq<string>, now: set<string>, before: set<string>): string {
    if ids == [] then ""
    else
      var id := ids[|ids| - 1];
      if id in now && id !in before then id else LastNew(ids[..|ids| - 1], now, before)
  }

  function RunningPids(list: Listing, ids: seq<string>, terminal: set<string>): seq<nat> {
    if ids == [] then []
    else
      var init, id := RunningPids(list, ids[..|ids| - 1], terminal), ids[|ids| - 1];
      if id !in terminal && id in list && list[id].pid > 0 then init + [list[id].pid] else init
  }

  lemma {:induction false} RunningPidsOk(list: Listing, ids: seq<string>, terminal: set<string>, id: string)
    requires id in ids && id in list && id !in terminal && list[id].pid > 0
    ensures list[id].pid in RunningPids(list, ids, terminal)
  {
    assert ids == ids[..|ids| - 1] + [ids[|ids| - 1]];
    if id != ids[|ids| - 1] { RunningPidsOk(list, ids[..|ids| - 1], terminal, id); }
  }

  lemma {:induction false} NoneMissing(list: Listing, ids: seq<string>)
    requires forall id <- ids :: id in list
    ensures FirstMissing(list, ids) == ""
  {
    if ids != [] { NoneMissing(list, ids[1..]); }
  }

  lemma {:induction false} NothingNew(ids: seq<string>)
    ensures LastNew(ids, {}, {}) == ""
  {
    if ids != [] { NothingNew(ids[..|ids| - 1]); }
  }

  function AllIn(ids: seq<string>, s: set<string>): bool {
    forall id <- ids :: id in s
  }

  function Interval(polls: nat, pendingWake: bool): (ms: nat)
    ensures ms > 0
  {
    if pendingWake && Ramp(polls) > 5 then 5 else Ramp(polls)
  }

  /** The first of the ticks from `tick` on that is after `now`. A tick nobody waits for is
      kept until it is taken; those due after it are dropped. */
  function TickAfter(tick: nat, period: nat, now: nat): (r: nat)
    requires period > 0
    ensures r > now && r >= tick && (tick > now ==> r == tick) && (tick <= now ==> tick + period <= r <= now + period)
    decreases if tick > now then 0 else now + 1 - tick
  {
    if tick > now then tick else TickAfter(tick + period, period, now)
  }

  /** The polling tail of an iteration: a tick is taken, at once if it is due. Changing the
      interval starts the ticker anew. */
  function Poll(seen: Seen, c: Call, st: Loop, now: nat): (r: Round)
    ensures r.Again? ==> r.next.now >= now
  {
    var polls := st.polls + 1;
    var iv := Interval(polls, st.pendingWake);
    var tick := if iv != st.interval then now + MS * iv else st.tick;
    var taken := Max(now, tick);
    if By(c.cancelAt, taken) then Return(Cancelled, Max(now, c.cancelAt.value) + seen.late)
    else Again(st.(i := st.i + 1, polls := polls, interval := iv, tick := TickAfter(tick, MS * iv, taken),
                   now := taken + seen.late))
  }

  /** The fast path of an iteration: armed processes and the time left, under the caller's
      cancellation. */
  function FastPath(seen: Seen, c: Call, pids: seq<nat>, now: nat): (r: (PidfdAnswer, nat))
    ensures r.1 >= now
  {
    WaitFor(seen.kernel.(cancelAt := c.cancelAt), pids, now, c.deadline - now)
  }

  /** The rest of an iteration whose listing left the wait unsatisfied before its deadline. */
  function AwaitNext(seen: Seen, c: Call, st: Loop, now: nat, pids: seq<nat>, pending: bool): (r: Round)
    ensures r.Again? ==> r.next.now >= now
  {
    if st.pidfdTried || !c.usePidfd then Poll(seen, c, st, now)
    else if pids != [] then
      var (answer, later) := FastPath(seen, c, pids, now);
      match answer
      case Woke => Again(st.(i := st.i + 1, now := later, pidfdTried := true, pendingWake := true))
      case Gone => Again(st.(i := st.i + 1, now := later, pidfdTried := true, pendingWake := true))
      case Unusable => Poll(seen, c, st.(pidfdTried := true), later)
      case Expired => Return(TimedOut, later)
    else if pending then Again(st.(i := st.i + 1, now := now))
    else Poll(seen, c, st, now)
  }

  /** The loop variables once the listing of an iteration has been taken in. */
  function Taken(seen: Seen, c: Call, st: Loop): Loop {
    var terminal := TerminalSeen(seen, c);
    var newest := LastNew(c.ids, terminal, st.prev);
    st.(last := if newest != "" then newest else st.last, prev := terminal)
  }

  function TerminalSeen(seen: Seen, c: Call): set<string> {
    if seen.listing.Some? then TerminalIn(seen.listing.value, c.ids) else {}
  }

  /** An iteration from the point where its listing has been taken in. */
  function Decide(seen: Seen, c: Call, st: Loop, list: Listing, now: nat): (r: Round)
    requires c.ids != []
    ensures r.Again? ==> r.next.now >= now && now <= c.deadline
  {
    if !c.all && st.last != "" then Return(Finished(st.last), now)
    else if c.all && AllIn(c.ids, st.prev)
    then Return(Finished(if st.last == "" then c.ids[|c.ids| - 1] else st.last), now)
    else if now > c.deadline then Return(TimedOut, now)
    else AwaitNext(seen, c, st, now, RunningPids(list, c.ids, st.prev), !AllIn(c.ids, st.prev))
  }

  function Left(c: Call, now: nat): nat {
    if now <= c.deadline then c.deadline + 1 - now else 0
  }

  /** One iteration. It goes on only before the deadline, and later than it began. */
  function Iterate(seen: Seen, c: Call, st: Loop): (r: Round)
    requires c.ids != []
    ensures r.Again? ==> r.next.now > st.now && Left(c, r.next.now) < Left(c, st.now)
  {
    var now := st.now + 1 + seen.listCost;
    match seen.listing
    case None => Return(ListFailed, now)
    case Some(list) =>
      var missing := FirstMissing(list, c.ids);
      if missing != "" then Return(NotFound(missing), now)
      else Decide(seen, c, Taken(seen, c, st), list, now)
  }

  /** The rest of the wait from an iteration on: its result, when, and the number of the
      iteration that returned. */
  function Run(env: Env, c: Call, st: Loop): (r: (WaitResult, nat, Loop))
    requires c.ids != []
    ensures r.2.i >= st.i
    decreases Left(c, st.now)
  {
    match Iterate(env(st.i), c, st)
    case Return(result, at) => (result, at, st)
    case Again(next) => Run(env, c, next)
  }

  const FIRST := Loop(0, 0, false, false, 0, Ramp(0), MS * Ramp(0), "", {})

  // ---- what the results mean

  /** The IDs of the call that listing `i` shows as no longer running. */
  function TerminalAt(env: Env, c: Call, i: nat): set<string> {
    if env(i).listing.None? then {}
    else var list := env(i).listing.value; set id | id in c.ids && id in list && list[id].status != Running
  }

  lemma TerminalAtSeen(env: Env, c: Call, i: nat)
    ensures TerminalAt(env, c, i) == TerminalSeen(env(i), c)
  {}

  predicate Proper(c: Call) {
    c.ids != [] && NoDup(c.ids) && "" !in c.ids
  }

  /** `id` is the last, in caller order, of the IDs that listing `i` shows terminal and the
      listing before it did not. */
  predicate NewestAt(env: Env, c: Call, i: nat, id: string) {
    var before := if i == 0 then {} else TerminalAt(env, c, i - 1);
    && id in c.ids && id in TerminalAt(env, c, i) && id !in before
    && exists k | 0 <= k < |c.ids| ::
         c.ids[k] == id && forall m | k < m < |c.ids| :: c.ids[m] in TerminalAt(env, c, i) ==> c.ids[m] in before
  }

  predicate NothingNewAt(env: Env, c: Call, i: nat) {
    TerminalAt(env, c, i) <= if i == 0 then {} else TerminalAt(env, c, i - 1)
  }

  lemma {:induction false} LastNewOk(ids: seq<string>, now: set<string>, before: set<string>)
    requires "" !in ids
    ensures var id := LastNew(ids, now, before);
            if id == "" then forall x <- ids :: x in now ==> x in before
            else id in ids && id in now && id !in before
                 && exists k | 0 <= k < |ids| :: ids[k] == id && forall m | k < m < |ids| :: ids[m] in now ==> ids[m] in before
  {
    if ids != [] {
      var init, id := ids[..|ids| - 1], ids[|ids| - 1];
      assert ids == init + [id];
      LastNewOk(init, now, before);
      if id in now && id !in before {
        assert ids[|ids| - 1] == id;
      } else if LastNew(init, now, before) != "" {
        var k :| 0 <= k < |init| && init[k] == LastNew(init, now, before)
          && forall m | k < m < |init| :: init[m] in now ==> init[m] in before;
        assert ids[k] == init[k];
        forall m | k < m < |ids| ensures ids[m] in now ==> ids[m] in before {
          if m < |init| { assert ids[m] == init[m]; }
        }
      }
    }
  }

  /** Whether listing `i` satisfies the wait. */
  predicate Satisfied(env: Env, c: Call, i: nat) {
    if c.all then forall id <- c.ids :: id in TerminalAt(env, c, i) else TerminalAt(env, c, i) != {}
  }

  /** A listing that succeeded and has every ID. */
  predicate Complete(listing: Option<Listing>, ids: seq<string>) {
    listing.Some? && forall id <- ids :: id in listing.value
  }

  /** A failed listing fails the wait, and one that lacks an ID names such an ID; nothing else
      does either. */
  predicate FailsFor(listing: Option<Listing>, ids: seq<string>, result: WaitResult) {
    && (result.ListFailed? <==> listing.None?)
    && (result.NotFound? <==> listing.Some? && exists id <- ids :: id !in listing.value)
    && (result.NotFound? ==> result.id in ids && result.id !in listing.value)
  }

  /** What the loop remembers: the terminal IDs of the listing before, and the newest of the
      latest listing that had a new one. No listing so far satisfied the wait. */
  ghost predicate Remembers(env: Env, c: Call, st: Loop) {
    && st.prev == (if st.i == 0 then {} else TerminalAt(env, c, st.i - 1))
    && (st.last == "" ==> forall j: nat | j < st.i :: TerminalAt(env, c, j) == {})
    && (st.last != "" ==> Latest(env, c, st.i, st.last))
    && (!c.all ==> st.last == "")
    && (forall j: nat | j < st.i :: !Satisfied(env, c, j))
    && forall j: nat | j < st.i :: Complete(env(j).listing, c.ids)
  }

  /** `id` was the newest of the latest listing before `i` that had a new terminal ID. */
  ghost predicate Latest(env: Env, c: Call, i: nat, id: string) {
    exists m: nat | m < i :: NewestAt(env, c, m, id) && forall j: nat | m < j < i :: NothingNewAt(env, c, j)
  }

  lemma TakenRemembers(env: Env, c: Call, st: Loop)
    requires Proper(c) && Remembers(env, c, st)
    ensures var t := Taken(env(st.i), c, st);
            && (t.last == "" ==> forall j: nat | j <= st.i :: TerminalAt(env, c, j) == {})
            && (t.last != "" ==> Latest(env, c, st.i + 1, t.last))
            && t.prev == TerminalAt(env, c, st.i)
  {
    var t := Taken(env(st.i), c, st);
    var now := TerminalAt(env, c, st.i);
    TerminalAtSeen(env, c, st.i);
    LastNewOk(c.ids, now, st.prev);
    var newest := LastNew(c.ids, now, st.prev);
    if newest != "" {
      assert NewestAt(env, c, st.i, newest);
    } else if st.last != "" {
      var m: nat :| m < st.i && NewestAt(env, c, m, st.last) && forall j: nat | m < j < st.i :: NothingNewAt(env, c, j);
      assert NothingNewAt(env, c, st.i);
      assert forall j: nat | m < j < st.i + 1 :: NothingNewAt(env, c, j);
    } else {
      assert forall x :: x !in now;
    }
  }

  /** A round that goes on has not been satisfied by the listing taken in with `st`, and forgets
      nothing of it. */
  predicate AgainOk(c: Call, st: Loop, r: Round) {
    r.Again? ==>
      && r.next.i == st.i + 1 && r.next.last == st.last && r.next.prev == st.prev
      && if c.all then !AllIn(c.ids, st.prev) else st.last == ""
  }

  lemma DecideAgain(seen: Seen, c: Call, st: Loop, list: Listing, now: nat)
    requires c.ids != []
    ensures AgainOk(c, st, Decide(seen, c, st, list, now))
  {}

  lemma DecideFinished(seen: Seen, c: Call, st: Loop, list: Listing, now: nat)
    requires c.ids != [] && Decide(seen, c, st, list, now).Return? && Decide(seen, c, st, list, now).result.Finished?
    ensures Decide(seen, c, st, list, now).result.id == (if st.last != "" then st.last else c.ids[|c.ids| - 1])
    ensures if c.all then AllIn(c.ids, st.prev) else st.last != ""
  {}

  /** An iteration whose listing has all the IDs decides on what it took in. */
  lemma ListedDecides(seen: Seen, c: Call, st: Loop)
    requires c.ids != [] && seen.listing.Some? && FirstMissing(seen.listing.value, c.ids) == ""
    ensures Iterate(seen, c, st) == Decide(seen, c, Taken(seen, c, st), seen.listing.value, st.now + 1 + seen.listCost)
  {}

  lemma UnlistedReturns(seen: Seen, c: Call, st: Loop)
    requires c.ids != [] && (seen.listing.Some? ==> FirstMissing(seen.listing.value, c.ids) != "")
    ensures var r := Iterate(seen, c, st);
            r.Return? && r.at == st.now + 1 + seen.listCost && (r.result.ListFailed? || r.result.NotFound?)
  {}

  lemma IterateDecides(seen: Seen, c: Call, st: Loop)
    requires c.ids != []
    ensures var now := st.now + 1 + seen.listCost;
            if seen.listing.Some? && FirstMissing(seen.listing.value, c.ids) == ""
            then Iterate(seen, c, st) == Decide(seen, c, Taken(seen, c, st), seen.listing.value, now)
            else Iterate(seen, c, st).Return? && Iterate(seen, c, st).at == now
                 && (Iterate(seen, c, st).result.ListFailed? || Iterate(seen, c, st).result.NotFound?)
  {
    if seen.listing.Some? && FirstMissing(seen.listing.value, c.ids) == "" {
      ListedDecides(seen, c, st);
    } else {
      UnlistedReturns(seen, c, st);
    }
  }

  lemma IterateAgain(seen: Seen, c: Call, st: Loop)
    requires c.ids != []
    ensures AgainOk(c, Taken(seen, c, st), Iterate(seen, c, st))
  {
    var now := st.now + 1 + seen.listCost;
    if seen.listing.Some? && FirstMissing(seen.listing.value, c.ids) == "" {
      DecideAgain(seen, c, Taken(seen, c, st), seen.listing.value, now);
      assert Iterate(seen, c, st) == Decide(seen, c, Taken(seen, c, st), seen.listing.value, now);
    } else {
      assert Iterate(seen, c, st).Return? && Iterate(seen, c, st).at == now;
    }
  }

  lemma IterateFinished(seen: Seen, c: Call, st: Loop)
    requires c.ids != [] && Iterate(seen, c, st).Return? && Iterate(seen, c, st).result.Finished?
    ensures var (result, t) := (Iterate(seen, c, st).result, Taken(seen, c, st));
            && result.id == (if t.last != "" then t.last else c.ids[|c.ids| - 1])
            && if c.all then AllIn(c.ids, t.prev) else t.last != ""
  {
    IterateDecides(seen, c, st);
    DecideFinished(seen, c, Taken(seen, c, st), seen.listing.value, st.now + 1 + seen.listCost);
  }

  lemma DecideNoFailure(seen: Seen, c: Call, st: Loop, list: Listing, now: nat)
    requires c.ids != []
    ensures var r := Decide(seen, c, st, list, now); r.Return? ==> !r.result.NotFound? && !r.result.ListFailed?
  {}

  lemma IterateFails(seen: Seen, c: Call, st: Loop)
    requires Proper(c)
    ensures var r := Iterate(seen, c, st);
            if r.Again? then Complete(seen.listing, c.ids) else FailsFor(seen.listing, c.ids, r.result)
  {
    IterateDecides(seen, c, st);
    if seen.listing.Some? && FirstMissing(seen.listing.value, c.ids) == "" {
      DecideNoFailure(seen, c, Taken(seen, c, st), seen.listing.value, st.now + 1 + seen.listCost);
    }
  }

  lemma StepRemembers(env: Env, c: Call, st: Loop)
    requires Proper(c) && Remembers(env, c, st) && Iterate(env(st.i), c, st).Again?
    ensures Remembers(env, c, Iterate(env(st.i), c, st).next)
  {
    TakenRemembers(env, c, st);
    IterateAgain(env(st.i), c, st);
    IterateFails(env(st.i), c, st);
  }

  /** No listing before the last iteration satisfied the wait, and that iteration still
      remembers what came before it. */
  lemma {:induction false} EndRemembers(env: Env, c: Call, st: Loop)
    requires Proper(c) && Remembers(env, c, st)
    ensures var (result, at, end) := Run(env, c, st);
            Remembers(env, c, end) && Iterate(env(end.i), c, end) == Return(result, at)
    decreases Left(c, st.now)
  {
    match Iterate(env(st.i), c, st) {
      case Return(result, at) =>
      case Again(next) =>
        StepRemembers(env, c, st);
        EndRemembers(env, c, next);
    }
  }

  /** The wait goes on from a listing only if it succeeded and has all the IDs, and the last
      listing explains a failure. */
  lemma FailsFast(env: Env, c: Call)
    requires Proper(c)
    ensures var (result, _, end) := Run(env, c, FIRST);
            && (forall j: nat | j < end.i :: Complete(env(j).listing, c.ids))
            && FailsFor(env(end.i).listing, c.ids, result)
  {
    EndRemembers(env, c, FIRST);
    IterateFails(env(Run(env, c, FIRST).2.i), c, Run(env, c, FIRST).2);
  }

  /** A first-completed wait returns an ID that is terminal, and the last in caller order of
      those terminal in the first listing that shows any. */
  lemma FirstCompleted(env: Env, c: Call)
    requires Proper(c) && !c.all
    requires Run(env, c, FIRST).0.Finished?
    ensures var (result, _, end) := Run(env, c, FIRST);
            && (forall j: nat | j < end.i :: TerminalAt(env, c, j) == {})
            && NewestAt(env, c, end.i, result.id)
  {
    EndRemembers(env, c, FIRST);
    var end := Run(env, c, FIRST).2;
    TakenRemembers(env, c, end);
    IterateFinished(env(end.i), c, end);
    LastNewOk(c.ids, TerminalAt(env, c, end.i), end.prev);
  }

  lemma BarrierEnds(env: Env, c: Call, end: Loop)
    requires Proper(c) && c.all && Remembers(env, c, end)
    requires Iterate(env(end.i), c, end).Return? && Iterate(env(end.i), c, end).result.Finished?
    ensures Satisfied(env, c, end.i)
    ensures Taken(env(end.i), c, end).last != "" && Latest(env, c, end.i + 1, Iterate(env(end.i), c, end).result.id)
  {
    TakenRemembers(env, c, end);
    IterateFinished(env(end.i), c, end);
    assert c.ids[0] in c.ids && c.ids[0] in TerminalAt(env, c, end.i);
  }

  /** A barrier wait returns at the first listing in which every listed ID is terminal, with
      the newest of the latest listing that had a new one; so the fallback for an empty
      result is never taken. */
  lemma AllCompleted(env: Env, c: Call)
    requires Proper(c) && c.all
    requires Run(env, c, FIRST).0.Finished?
    ensures var (result, _, end) := Run(env, c, FIRST);
            && Satisfied(env, c, end.i)
            && (forall j: nat | j < end.i :: !Satisfied(env, c, j))
            && Latest(env, c, end.i + 1, result.id)
            && Taken(env(end.i), c, end).last != ""
  {
    EndRemembers(env, c, FIRST);
    var end := Run(env, c, FIRST).2;
    BarrierEnds(env, c, end);
  }

  /** The next tick is never further off than the interval. */
  predicate Ticking(st: Loop) {
    st.tick <= st.now + MS * st.interval
  }

  /** No listing takes longer than `listing`, and no pidfd poll and no tick is later than
      `slack`. */
  ghost predicate Timely(env: Env, listing: nat, slack: nat) {
    forall i: nat :: env(i).listCost < listing && Prompt(env(i).kernel, slack) && env(i).late <= slack
  }

  /** A round that returns by `limit`, or goes on by `bound` with its ticker in order. */
  predicate Settled(r: Round, bound: nat, limit: nat) {
    if r.Return? then r.at <= limit
    else Ticking(r.next) && r.next.interval <= SETTLE_MS && r.next.now <= bound
  }

  function Bound(c: Call, slack: nat): nat {
    c.deadline + slack + MS * SETTLE_MS + slack
  }

  lemma PollInTime(seen: Seen, c: Call, st: Loop, now: nat)
    requires Ticking(st) && st.now <= now && st.interval <= SETTLE_MS
    ensures var bound := now + MS * SETTLE_MS + seen.late; Settled(Poll(seen, c, st, now), bound, bound)
  {
    RampShape(st.polls + 1, st.polls + 1);
  }

  lemma AwaitInTime(seen: Seen, c: Call, st: Loop, now: nat, pids: seq<nat>, pending: bool, slack: nat)
    requires Ticking(st) && st.interval <= SETTLE_MS && st.now <= now <= c.deadline
    requires Prompt(seen.kernel, slack) && seen.late <= slack
    ensures Settled(AwaitNext(seen, c, st, now, pids, pending), Bound(c, slack), Bound(c, slack))
  {
    var kernel := seen.kernel.(cancelAt := c.cancelAt);
    assert Prompt(kernel, slack);
    WaitForInTime(kernel, pids, now, c.deadline - now, slack);
    PollInTime(seen, c, st, now);
    PollInTime(seen, c, st.(pidfdTried := true), FastPath(seen, c, pids, now).1);
  }

  lemma DecideInTime(seen: Seen, c: Call, st: Loop, list: Listing, now: nat, slack: nat, limit: nat)
    requires c.ids != [] && Ticking(st) && st.interval <= SETTLE_MS && st.now <= now <= limit
    requires Prompt(seen.kernel, slack) && seen.late <= slack && Bound(c, slack) <= limit
    ensures Settled(Decide(seen, c, st, list, now), Bound(c, slack), limit)
  {
    if now <= c.deadline {
      AwaitInTime(seen, c, st, now, RunningPids(list, c.ids, st.prev), !AllIn(c.ids, st.prev), slack);
    }
  }

  lemma IterateInTime(seen: Seen, c: Call, st: Loop, listing: nat, slack: nat)
    requires c.ids != [] && Ticking(st) && st.interval <= SETTLE_MS
    requires seen.listCost < listing && Prompt(seen.kernel, slack) && seen.late <= slack
    requires st.now <= Bound(c, slack)
    ensures Settled(Iterate(seen, c, st), Bound(c, slack), Bound(c, slack) + listing)
  {
    var (now, limit) := (st.now + 1 + seen.listCost, Bound(c, slack) + listing);
    if seen.listing.Some? && FirstMissing(seen.listing.value, c.ids) == "" {
      var t := Taken(seen, c, st);
      DecideInTime(seen, c, t, seen.listing.value, now, slack, limit);
      assert Iterate(seen, c, st) == Decide(seen, c, t, seen.listing.value, now);
    } else {
      assert Iterate(seen, c, st).Return? && Iterate(seen, c, st).at == now;
    }
  }

  /** The wait is over no later than one settled interval and one listing past the deadline,
      give or take what the kernel is late; the pidfd wait is the real one. */
  lemma {:induction false} ReturnsInTime(env: Env, c: Call, st: Loop, listing: nat, slack: nat)
    requires c.ids != [] && Timely(env, listing, slack) && Ticking(st) && st.interval <= SETTLE_MS
    requires st.now <= Bound(c, slack)
    ensures Run(env, c, st).1 <= c.deadline + slack + MS * SETTLE_MS + slack + listing
    decreases Left(c, st.now)
  {
    IterateInTime(env(st.i), c, st, listing, slack);
    match Iterate(env(st.i), c, st) {
      case Return(result, at) =>
      case Again(next) => ReturnsInTime(env, c, next, listing, slack);
    }
  }

  lemma FastPoll(seen: Seen, c: Call, st: Loop, now: nat)
    requires st.pendingWake && st.now <= now && (st.interval == 5 ==> Ticking(st))
    ensures var r := Poll(seen, c, st, now);
            r.Again? ==> r.next.interval == 5 && Ticking(r.next) && r.next.now <= now + 5 * MS + seen.late
  {
    RampShape(st.polls + 1, st.polls + 1);
  }

  /** Every iteration from a wake on: the fast path is not tried again, and the next listing
      begins within 5 ms of the end of this one, and the lateness of the tick, unless the wait
      returns. */
  lemma AfterWake(seen: Seen, c: Call, st: Loop)
    requires c.ids != [] && st.pidfdTried && st.pendingWake && (st.interval == 5 ==> Ticking(st))
    ensures Iterate(seen, c, st).Again? ==>
              var next := Iterate(seen, c, st).next;
              && next.pidfdTried && next.pendingWake && next.interval == 5 && Ticking(next)
              && next.now <= st.now + 1 + seen.listCost + 5 * MS + seen.late
  {
    FastPoll(seen, c, Taken(seen, c, st), st.now + 1 + seen.listCost);
  }

  /** The same round, after which the fast path stays tried. */
  predicate SameUnasked(r: Round, r': Round) {
    r == r' && (r.Again? ==> r.next.pidfdTried)
  }

  lemma DecideUnasked(seen: Seen, c: Call, st: Loop, list: Listing, now: nat, kernel: Kernel)
    requires c.ids != [] && st.pidfdTried
    ensures SameUnasked(Decide(seen, c, st, list, now), Decide(seen.(kernel := kernel), c, st, list, now))
  {}

  lemma UnlistedUnasked(seen: Seen, c: Call, st: Loop, kernel: Kernel)
    requires c.ids != [] && (seen.listing.Some? ==> FirstMissing(seen.listing.value, c.ids) != "")
    ensures Iterate(seen, c, st) == Iterate(seen.(kernel := kernel), c, st) && Iterate(seen, c, st).Return?
  {}

  /** The fast path is tried once: after that the kernel is not asked. */
  lemma FastPathIsOneShot(seen: Seen, c: Call, st: Loop, kernel: Kernel)
    requires c.ids != [] && st.pidfdTried
    ensures SameUnasked(Iterate(seen, c, st), Iterate(seen.(kernel := kernel), c, st))
  {
    if seen.listing.Some? && FirstMissing(seen.listing.value, c.ids) == "" {
      var other := seen.(kernel := kernel);
      ListedDecides(seen, c, st);
      ListedDecides(other, c, st);
      assert Taken(other, c, st) == Taken(seen, c, st);
      DecideUnasked(seen, c, Taken(seen, c, st), seen.listing.value, st.now + 1 + seen.listCost, kernel);
    } else {
      UnlistedUnasked(seen, c, st, kernel);
    }
  }

  /** When an iteration goes on without a poll: the fast path woke or found a process gone
      before the deadline had been seen to pass, which disables it; or nothing could be armed
      because every listed ID that is not terminal is still spawning. */
  lemma GoesOnUnpolled(seen: Seen, c: Call, st: Loop)
    requires c.ids != [] && Iterate(seen, c, st).Again? && Iterate(seen, c, st).next.polls == st.polls
    ensures var next := Iterate(seen, c, st).next;
            && !st.pidfdTried && c.usePidfd && next.i == st.i + 1 && next.tick == st.tick
            && seen.listing.Some? && st.now + seen.listCost < c.deadline
            && var pids := RunningPids(seen.listing.value, c.ids, TerminalSeen(seen, c));
               if pids == [] then !next.pidfdTried && !AllIn(c.ids, TerminalSeen(seen, c))
               else next.pidfdTried && next.pendingWake
                    && (FastPath(seen, c, pids, st.now + 1 + seen.listCost).0.Woke?
                        || FastPath(seen, c, pids, st.now + 1 + seen.listCost).0.Gone?)
  {}

  /** What a listing that leaves the wait unsatisfied leads to while the fast path is untried. A
      wake, or a process already gone, goes straight into the next listing and turns to the fast
      cadence; an unusable fast path is replaced by polling; and if nothing could be armed
      because everything left is spawning, the next listing follows at once. */
  lemma FastPathDecides(seen: Seen, c: Call, st: Loop, list: Listing, now: nat)
    requires c.ids != [] && c.usePidfd && !st.pidfdTried && now <= c.deadline
    requires if c.all then !AllIn(c.ids, st.prev) else st.last == ""
    ensures var (r, pids) := (Decide(seen, c, st, list, now), RunningPids(list, c.ids, st.prev));
            if pids == [] then
              !AllIn(c.ids, st.prev) ==> r == Again(st.(i := st.i + 1, now := now))
            else
              var (answer, later) := FastPath(seen, c, pids, now);
              && (answer.Woke? || answer.Gone? ==>
                    r == Again(st.(i := st.i + 1, now := later, pidfdTried := true, pendingWake := true)))
              && (answer.Expired? ==> r == Return(TimedOut, later))
              && (answer.Unusable? && r.Again? ==>
                    r.next.pidfdTried && r.next.pendingWake == st.pendingWake && r.next.polls == st.polls + 1)
  {}

  /** What the polls so far leave on the ticker: the next tick is due no sooner than all the
      intervals asked for, and one more, allow. */
  ghost predicate Paced(c: Call, st: Loop) {
    && !st.pendingWake && st.interval == Ramp(st.polls)
    && MS * Requested(st.polls) <= st.now && MS * (Requested(st.polls) + st.interval) <= st.tick
    && (st.polls > 0 ==> MS * Requested(st.polls - 1) <= c.deadline)
  }

  lemma PollPaces(seen: Seen, c: Call, st: Loop, now: nat)
    requires Paced(c, st) && st.now <= now <= c.deadline
    ensures var r := Poll(seen, c, st, now); r.Again? ==> Paced(c, r.next)
  {
    var polls := st.polls + 1;
    assert Requested(polls) == Requested(st.polls) + Ramp(polls);
    assert Interval(polls, false) == Ramp(polls);
  }

  lemma DecidePaces(seen: Seen, c: Call, st: Loop, list: Listing, now: nat)
    requires c.ids != [] && !c.usePidfd && Paced(c, st) && st.now <= now
    ensures var r := Decide(seen, c, st, list, now); r.Again? ==> Paced(c, r.next)
  {
    if now <= c.deadline { PollPaces(seen, c, st, now); }
  }

  lemma IteratePaces(seen: Seen, c: Call, st: Loop)
    requires c.ids != [] && !c.usePidfd && Paced(c, st)
    ensures Iterate(seen, c, st).Again? ==> Paced(c, Iterate(seen, c, st).next)
  {
    var now := st.now + 1 + seen.listCost;
    if seen.listing.Some? && FirstMissing(seen.listing.value, c.ids) == "" {
      var t := Taken(seen, c, st);
      assert Iterate(seen, c, st) == Decide(seen, c, t, seen.listing.value, now);
      DecidePaces(seen, c, t, seen.listing.value, now);
    } else {
      assert Iterate(seen, c, st).Return?;
    }
  }

  /** Without the fast path, however long listings take and however late ticks are: at most
      12 polls, or one per second of the deadline and 10.7 more. */
  lemma {:induction false} PollsAreBounded(env: Env, c: Call, st: Loop)
    requires c.ids != [] && !c.usePidfd && Paced(c, st)
    ensures var end := Run(env, c, st).2;
            end.polls <= 12 || 1000 * MS * end.polls <= c.deadline + 10700 * MS
    decreases Left(c, st.now)
  {
    match Iterate(env(st.i), c, st) {
      case Return(result, at) =>
        if st.polls > 0 { PollsInBudget(st.polls, c.deadline / MS); }
      case Again(next) =>
        IteratePaces(env(st.i), c, st);
        PollsAreBounded(env, c, next);
    }
  }

  /** The two bounds for a whole wait. */
  lemma WaitIsBounded(env: Env, c: Call, listing: nat, slack: nat)
    requires c.ids != []
    ensures Timely(env, listing, slack) ==>
              Run(env, c, FIRST).1 <= c.deadline + slack + MS * SETTLE_MS + slack + listing
    ensures !c.usePidfd ==>
              var polls := Run(env, c, FIRST).2.polls; polls <= 12 || 1000 * MS * polls <= c.deadline + 10700 * MS
  {
    if Timely(env, listing, slack) { ReturnsInTime(env, c, FIRST, listing, slack); }
    if !c.usePidfd { PollsAreBounded(env, c, FIRST); }
  }

  lemma IterateTimesOut(seen: Seen, c: Call, st: Loop)
    requires c.ids != [] && Iterate(seen, c, st).Return? && Iterate(seen, c, st).result.TimedOut?
    ensures Iterate(seen, c, st).at >= c.deadline
    ensures var t := Taken(seen, c, st); if c.all then !AllIn(c.ids, t.prev) else t.last == ""
  {
    var now := st.now + 1 + seen.listCost;
    if now <= c.deadline {
      var pids := RunningPids(seen.listing.value, c.ids, TerminalSeen(seen, c));
      WaitForOk(seen.kernel.(cancelAt := c.cancelAt), pids, now, c.deadline - now);
    }
  }

  lemma TimeoutEnds(env: Env, c: Call, end: Loop)
    requires Proper(c) && Remembers(env, c, end)
    requires Iterate(env(end.i), c, end).Return? && Iterate(env(end.i), c, end).result.TimedOut?
    ensures Iterate(env(end.i), c, end).at >= c.deadline
    ensures forall j: nat | j <= end.i :: !Satisfied(env, c, j)
  {
    TakenRemembers(env, c, end);
    IterateTimesOut(env(end.i), c, end);
  }

  /** A timeout is never reported before the deadline, by whichever path, and no listing up to
      then satisfied the wait. */
  lemma TimeoutMeansUnsatisfied(env: Env, c: Call)
    requires Proper(c) && Run(env, c, FIRST).0.TimedOut?
    ensures var (_, at, end) := Run(env, c, FIRST);
            at >= c.deadline && forall j: nat | j <= end.i :: !Satisfied(env, c, j)
  {
    EndRemembers(env, c, FIRST);
    TimeoutEnds(env, c, Run(env, c, FIRST).2);
  }

  // ---- the loop as it is written

  lemma {:induction false} DedupeOk(ids: seq<string>)
    ensures NoDup(Dedupe(ids)) && "" !in Dedupe(ids)
    ensures forall x :: x in Dedupe(ids) <==> x in ids && x != ""
  {
    if ids != [] {
      DedupeOk(ids[..|ids| - 1]);
      assert ids == ids[..|ids| - 1] + [ids[|ids| - 1]];
    }
  }

  /** `x` is first mentioned at place `i`. */
  predicate FirstAt(ids: seq<string>, i: nat, x: string) {
    i < |ids| && ids[i] == x && x !in ids[..i]
  }

  lemma {:induction false} FirstMention(ids: seq<string>, x: string) returns (i: nat)
    requires x in ids
    ensures FirstAt(ids, i, x)
  {
    var init := ids[..|ids| - 1];
    assert ids == init + [ids[|ids| - 1]];
    if x in init {
      i := FirstMention(init, x);
      assert ids[..i] == init[..i];
    } else {
      i := |init|;
    }
  }

  /** Deduped IDs come in the order of their first mentions. */
  lemma {:induction false} DedupeInOrder(ids: seq<string>, a: nat, b: nat)
    requires a < b < |Dedupe(ids)|
    ensures exists i, j | 0 <= i < j :: FirstAt(ids, i, Dedupe(ids)[a]) && FirstAt(ids, j, Dedupe(ids)[b])
  {
    var init, id := ids[..|ids| - 1], ids[|ids| - 1];
    assert ids == init + [id];
    DedupeOk(init);
    if b < |Dedupe(init)| {
      DedupeInOrder(init, a, b);
      var i, j :| 0 <= i < j && FirstAt(init, i, Dedupe(init)[a]) && FirstAt(init, j, Dedupe(init)[b]);
      assert ids[..i] == init[..i] && ids[..j] == init[..j];
      assert FirstAt(ids, i, Dedupe(ids)[a]) && FirstAt(ids, j, Dedupe(ids)[b]);
    } else {
      var i := FirstMention(init, Dedupe(init)[a]);
      var j := |init|;
      assert Dedupe(ids) == Dedupe(init) + [id] && id !in init;
      assert ids[..i] == init[..i] && ids[..j] == init && ids[i] == init[i];
      assert 0 <= i < j && FirstAt(ids, i, Dedupe(ids)[a]) && FirstAt(ids, j, Dedupe(ids)[b]);
    }
  }

  method FindCompleted(list: Listing, ids: seq<string>) returns (terminal: set<string>, missing: string)
    requires "" !in ids
    ensures missing == FirstMissing(list, ids)
    ensures missing == "" ==> terminal == TerminalIn(list, ids)
  {
    terminal := {};
    for k := 0 to |ids|
      invariant terminal == TerminalIn(list, ids[..k])
      invariant FirstMissing(list, ids) == FirstMissing(list, ids[k..])
    {
      var id := ids[k];
      assert id in ids;
      assert ids[k..][1..] == ids[k + 1..];
      assert forall x :: x in ids[..k + 1] <==> x in ids[..k] || x == id;
      if id !in list { return terminal, id; }
      if IsTerminal(list[id].status) { terminal := terminal + {id}; }
    }
    assert ids[..|ids|] == ids;
    return terminal, "";
  }

  method RunningPidsFor(list: Listing, ids: seq<string>, terminal: set<string>) returns (pids: seq<nat>, anyPending: bool)
    requires forall id <- ids :: id in list
    ensures pids == RunningPids(list, ids, terminal)
    ensures anyPending <==> !AllIn(ids, terminal)
  {
    pids, anyPending := [], false;
    for k := 0 to |ids|
      invariant pids == RunningPids(list, ids[..k], terminal)
      invariant anyPending <==> !AllIn(ids[..k], terminal)
    {
      assert ids[..k + 1][..k] == ids[..k];
      assert forall x :: x in ids[..k + 1] <==> x in ids[..k] || x == ids[k];
      if ids[k] in terminal { continue; }
      anyPending := true;
      assert ids[k] in ids;
      if list[ids[k]].pid > 0 { pids := pids + [list[ids[k]].pid]; }
    }
    assert ids[..|ids|] == ids;
  }

  method NewlyCompleted(ids: seq<string>, terminal: set<string>, prev: set<string>, last: string) returns (r: string)
    requires "" !in ids
    ensures r == if LastNew(ids, terminal, prev) != "" then LastNew(ids, terminal, prev) else last
  {
    r := last;
    for k := 0 to |ids|
      invariant r == if LastNew(ids[..k], terminal, prev) != "" then LastNew(ids[..k], terminal, prev) else last
    {
      assert ids[..k + 1][..k] == ids[..k] && ids[k] in ids;
      if ids[k] in terminal && ids[k] !in prev { r := ids[k]; }
    }
    assert ids[..|ids|] == ids;
  }

  /** From `st` on, the wait ends in `ending`. */
  ghost predicate Ends(env: Env, c: Call, st: Loop, ending: (WaitResult, nat, Loop))
    requires c.ids != []
  {
    Run(env, c, st) == ending
  }

  lemma EndsStep(env: Env, c: Call, st: Loop, ending: (WaitResult, nat, Loop))
    requires c.ids != [] && Ends(env, c, st, ending)
    ensures var round := Iterate(env(st.i), c, st);
            if round.Return? then ending.0 == round.result
            else Ends(env, c, round.next, ending) && Left(c, round.next.now) < Left(c, st.now)
  {}

  /** The polling tail. */
  method TakeTick(seen: Seen, c: Call, st: Loop, now: nat) returns (round: Round)
    ensures round == Poll(seen, c, st, now)
  {
    var polls := st.polls + 1;
    var iv := WaitPollIntervalMs(polls);
    if st.pendingWake && iv > 5 { iv := 5; }
    var tick := st.tick;
    if iv != st.interval { tick := now + MS * iv; }
    var taken := Max(now, tick);
    if By(c.cancelAt, taken) { return Return(Cancelled, Max(now, c.cancelAt.value) + seen.late); }
    return Again(st.(i := st.i + 1, polls := polls, interval := iv, tick := TickAfter(tick, MS * iv, taken),
                     now := taken + seen.late));
  }

  /** The half of an iteration that waits: the fast path, tried until it has answered once,
      or a poll. `st` has taken in the listing. */
  method AwaitWake(seen: Seen, c: Call, table: Descriptors, st: Loop, list: Listing, now: nat) returns (round: Round)
    requires table.Valid() && forall id <- c.ids :: id in list
    modifies table
    ensures table.Valid() && table.open == old(table.open)
    ensures round == AwaitNext(seen, c, st, now, RunningPids(list, c.ids, st.prev), !AllIn(c.ids, st.prev))
  {
    var now, pidfdTried := now, st.pidfdTried;
    if !pidfdTried && c.usePidfd {
      var pids, anyPending := RunningPidsFor(list, c.ids, st.prev);
      if |pids| > 0 {
        var answer, later := WaitPidfds(seen.kernel.(cancelAt := c.cancelAt), table, pids, now, c.deadline - now);
        match answer {
          case Gone =>
            return Again(st.(i := st.i + 1, now := later, pidfdTried := true, pendingWake := true));
          case Unusable =>
            now, pidfdTried := later, true;
          case Woke =>
            return Again(st.(i := st.i + 1, now := later, pidfdTried := true, pendingWake := true));
          case Expired =>
            return Return(TimedOut, later);
        }
      } else if anyPending {
        return Again(st.(i := st.i + 1, now := now));
      }
    }
    round := TakeTick(seen, c, st.(pidfdTried := pidfdTried), now);
  }

  /** Takes in a listing that has all the IDs. */
  method TakeListing(c: Call, st: Loop, list: Listing) returns (missing: string, taken: Loop)
    requires "" !in c.ids
    ensures missing == FirstMissing(list, c.ids)
    ensures missing == "" ==> forall seen: Seen | seen.listing == Some(list) :: taken == Taken(seen, c, st)
  {
    var terminal;
    taken := st;
    terminal, missing := FindCompleted(list, c.ids);
    if missing != "" { return; }
    var lastCompleted := NewlyCompleted(c.ids, terminal, st.prev, st.last);
    taken := st.(last := lastCompleted, prev := terminal);
  }

  /** The body of the loop. `marked` are the IDs whose records it marks notified. */
  method OneIteration(seen: Seen, c: Call, table: Descriptors, st: Loop) returns (round: Round, marked: seq<string>)
    requires table.Valid() && c.ids != [] && "" !in c.ids
    modifies table
    ensures table.Valid() && table.open == old(table.open)
    ensures round == Iterate(seen, c, st) && marked == MarkedBy(c, round)
  {
    var now := st.now + 1 + seen.listCost;
    if seen.listing.None? { return Return(ListFailed, now), []; }
    var list := seen.listing.value;
    var missing, taken := TakeListing(c, st, list);
    if missing != "" { return Return(NotFound(missing), now), []; }
    assert taken == Taken(seen, c, st);
    round, marked := Settle(seen, c, table, taken, list, now);
  }

  /** The rest of the body. */
  method Settle(seen: Seen, c: Call, table: Descriptors, st: Loop, list: Listing, now: nat)
      returns (round: Round, marked: seq<string>)
    requires table.Valid() && c.ids != [] && forall id <- c.ids :: id in list
    modifies table
    ensures table.Valid() && table.open == old(table.open)
    ensures round == Decide(seen, c, st, list, now) && marked == MarkedBy(c, round)
  {
    if !c.all {
      if st.last != "" { return Return(Finished(st.last), now), [st.last]; }
    } else {
      if AllIn(c.ids, st.prev) {
        var lastCompleted := st.last;
        if lastCompleted == "" { lastCompleted := c.ids[|c.ids| - 1]; }
        return Return(Finished(lastCompleted), now), c.ids;
      }
    }
    if now > c.deadline { return Return(TimedOut, now), []; }
    round := AwaitWake(seen, c, table, st, list, now);
    marked := [];
  }

  function MarkedBy(c: Call, round: Round): seq<string> {
    if round.Again? || !round.result.Finished? then [] else if c.all then c.ids else [round.result.id]
  }

  /** The loop, for IDs that are named once each. */
  method WaitLoop(env: Env, c: Call, table: Descriptors) returns (result: WaitResult, marked: seq<string>)
    requires Proper(c) && table.Valid()
    modifies table
    ensures table.Valid() && table.open == old(table.open)
    ensures result == Run(env, c, FIRST).0
    ensures marked == if !result.Finished? then [] else if c.all then c.ids else [result.id]
  {
    var st := FIRST;
    ghost var ending := Run(env, c, st);
    while true
      invariant table.Valid() && table.open == old(table.open)
      invariant Ends(env, c, st, ending)
      decreases Left(c, st.now)
    {
      EndsStep(env, c, st, ending);
      var round, notified := OneIteration(env(st.i), c, table, st);
      match round {
        case Return(answer, _) => return answer, notified;
        case Again(next) => st := next;
      }
    }
  }

  /** The IDs of a call, each once, in caller order. */
  method DedupeIds(ids: seq<string>) returns (named: seq<string>)
    ensures named == Dedupe(ids)
  {
    var seen: set<string> := {};
    named := [];
    for k := 0 to |ids|
      invariant named == Dedupe(ids[..k]) && seen == set x | x in named
    {
      assert ids[..k + 1][..k] == ids[..k];
      if ids[k] == "" || ids[k] in seen { continue; }
      seen := seen + {ids[k]};
      named := named + [ids[k]];
    }
    assert ids[..|ids|] == ids;
  }

  /** wait, in both modes. `existing` are the record directories at entry, `marked` the IDs
      whose finished records are marked notified. A call that names only existing records
      ends as the outcome of its iterations says. */
  method WaitSet(env: Env, table: Descriptors, all: bool, timeoutSeconds: int, usePidfd: bool, cancelAt: Option<nat>,
                 ids: seq<string>, existing: set<string>)
      returns (result: WaitResult, marked: seq<string>)
    requires table.Valid()
    modifies table
    ensures table.Valid() && table.open == old(table.open)
    ensures var named := Dedupe(ids);
            var c := Call(named, all, 1000 * MS * ClampWaitSeconds(timeoutSeconds), usePidfd, cancelAt);
            if named == [] then result == NoIds
            else if exists id :: id in named && id !in existing
            then result.NotFound? && result.id in named && result.id !in existing
            else result == Run(env, c, FIRST).0
    ensures marked == if !result.Finished? then [] else if all then Dedupe(ids) else [result.id]
  {
    if |ids| == 0 { return NoIds, []; }
    var named := DedupeIds(ids);
    if |named| == 0 { return NoIds, []; }
    DedupeOk(ids);
    for k := 0 to |named|
      invariant table.Valid() && table.open == old(table.open)
      invariant forall j | 0 <= j < k :: named[j] in existing
    {
      if named[k] !in existing { return NotFound(named[k]), []; }
    }
    var deadline := 1000 * MS * ClampWaitSeconds(timeoutSeconds);
    result, marked := WaitLoop(env, Call(named, all, deadline, usePidfd, cancelAt), table);
  }
}
