/** The fast path of wait: one pidfd per running process, polled in slices so that a
    cancellation is seen, until one is ready or the time is up. Times are nanoseconds. */
module PidfdWait {
  import opened Common
  import opened PollRamp

  const SLICE_MS: nat := 100

  datatype OpenAnswer = Opened | NoSuchProcess | Refused

  /** How the wait came out: an armed process exited, one was gone before it could be armed,
      the mechanism failed or the caller cancelled, or time ran out. */
  datatype PidfdAnswer = Woke | Gone | Unusable | Expired

  /** What the kernel does. A pidfd latches: it is ready from the exit of its process on. Poll
      `k` loses `pause(k)` to interruptions, after each of which it starts over, and comes back
      `lag(k)` and a nanosecond after it was done. */
  datatype Kernel = Kernel(
    opens: nat -> OpenAnswer, exitAt: nat -> Option<nat>,
    pause: nat -> nat, lag: nat -> nat, fails: nat -> bool, cancelAt: Option<nat>)

  /** `at` is when the wait returned; `seen` the time at which its last quiet poll, if it had
      one, found nothing ready; `polls` how many were quiet. */
  datatype Ending = Ending(answer: PidfdAnswer, at: nat, seen: Option<nat>, polls: nat)

  predicate By(moment: Option<nat>, time: int) {
    moment.Some? && moment.value <= time
  }

  predicate AnyExited(k: Kernel, pids: seq<nat>, time: int) {
    exists pid <- pids :: By(k.exitAt(pid), time)
  }

  /** The first of the armed processes to exit, if any does. */
  function FirstExit(k: Kernel, pids: seq<nat>): Option<nat> {
    if pids == [] then None
    else
      var init, last := FirstExit(k, pids[..|pids| - 1]), k.exitAt(pids[|pids| - 1]);
      if init.None? then last
      else if last.None? || init.value <= last.value then init
      else last
  }

  lemma {:induction false} FirstExitOk(k: Kernel, pids: seq<nat>, time: int)
    ensures AnyExited(k, pids, time) <==> By(FirstExit(k, pids), time)
  {
    if pids != [] {
      FirstExitOk(k, pids[..|pids| - 1], time);
      assert pids == pids[..|pids| - 1] + [pids[|pids| - 1]];
    }
  }

  /** When a poll that began at `now` stopped waiting. */
  function PollDone(first: Option<nat>, begun: nat, slice: nat): nat {
    if By(first, begun) then begun
    else if By(first, begun + slice) then first.value
    else begun + slice
  }

  /** Whole milliseconds of what remains, at most a slice; possibly none. */
  function Slice(remaining: nat): (slice: nat)
    ensures slice <= remaining
  {
    MS * Min(remaining / MS, SLICE_MS)
  }

  datatype Turn = Turn(stop: Option<PidfdAnswer>, done: nat, back: nat)

  /** The `n`-th poll, begun at `now`, and what ends the wait with it, if anything does. */
  function PollTurn(k: Kernel, first: Option<nat>, remaining: nat, now: nat, n: nat): (turn: Turn)
    ensures turn.back > turn.done >= now && !(turn.stop.Some? && (turn.stop.value.Gone? || turn.stop.value.Expired?))
  {
    var done := PollDone(first, now + k.pause(n), Slice(remaining));
    var back := done + 1 + k.lag(n);
    var stop := if k.fails(n) then Some(Unusable) else if By(first, done) then Some(Woke)
                else if By(k.cancelAt, back) then Some(Unusable) else None;
    Turn(stop, done, back)
  }

  /** The wait from its `n`-th poll on. */
  function Slices(k: Kernel, first: Option<nat>, deadline: int, now: nat, n: nat, seen: Option<nat>): (e: Ending)
    ensures e.at >= now && !e.answer.Gone?
    decreases deadline - now
  {
    if now >= deadline then Ending(Expired, now, seen, n)
    else
      var turn := PollTurn(k, first, deadline - now, now, n);
      if turn.stop.Some? then Ending(turn.stop.value, turn.back, seen, n)
      else Slices(k, first, deadline, turn.back, n + 1, Some(turn.done))
  }

  /** The first process that could not be armed decides. */
  function ArmFailure(k: Kernel, pids: seq<nat>): (failure: Option<PidfdAnswer>)
    ensures failure.Some? ==> failure.value.Gone? || failure.value.Unusable?
  {
    if pids == [] then None
    else if pids[0] == 0 then Some(Unusable)
    else if k.opens(pids[0]).NoSuchProcess? then Some(Gone)
    else if k.opens(pids[0]).Refused? then Some(Unusable)
    else ArmFailure(k, pids[1..])
  }

  /** All slices of a wait: its answer and when it came. */
  function Polling(k: Kernel, first: Option<nat>, start: nat, timeout: int): (r: (PidfdAnswer, nat))
    ensures r.1 >= start
  {
    var e := Slices(k, first, start + timeout, start, 0, None);
    (e.answer, e.at)
  }

  /** The whole wait. */
  function WaitFor(k: Kernel, pids: seq<nat>, start: nat, timeout: int): (r: (PidfdAnswer, nat))
    ensures r.1 >= start
  {
    if ArmFailure(k, pids).Some? then (ArmFailure(k, pids).value, start)
    else if pids == [] then (Unusable, start)
    else Polling(k, FirstExit(k, pids), start, timeout)
  }

  // ---- as it is written

  /** The descriptors this process holds open. */
  class Descriptors {
    var open: set<nat>
    var unused: nat

    ghost predicate Valid() reads this {
      forall fd <- open :: fd < unused
    }

    method Open() returns (fd: nat)
      requires Valid()
      modifies this
      ensures Valid() && fd !in old(open) && open == old(open) + {fd}
    {
      fd := unused;
      open, unused := open + {fd}, unused + 1;
    }

    method CloseAll(fds: seq<nat>)
      requires Valid()
      modifies this
      ensures Valid() && open == old(open) - set fd | fd in fds
    {
      for i := 0 to |fds|
        invariant Valid() && open == old(open) - set fd | fd in fds[..i]
      {
        open := open - {fds[i]};
        assert fds[..i + 1] == fds[..i] + [fds[i]];
      }
      assert fds[..|fds|] == fds;
    }
  }

  method OpenPidfd(k: Kernel, table: Descriptors, pid: nat) returns (fd: nat, failure: Option<PidfdAnswer>)
    requires table.Valid()
    modifies table
    ensures table.Valid() && failure == ArmFailure(k, [pid])
    ensures if failure.None? then fd !in old(table.open) && table.open == old(table.open) + {fd}
            else table.open == old(table.open)
  {
    fd := 0;
    if pid == 0 { return fd, Some(Unusable); }
    match k.opens(pid) {
      case NoSuchProcess => return fd, Some(Gone);
      case Refused => return fd, Some(Unusable);
      case Opened =>
        fd := table.Open();
        failure := None;
    }
  }

  method ArmAll(k: Kernel, table: Descriptors, pids: seq<nat>) returns (fds: seq<nat>, failure: Option<PidfdAnswer>)
    requires table.Valid()
    modifies table
    ensures table.Valid() && failure == ArmFailure(k, pids)
    ensures failure.Some? ==> table.open == old(table.open)
    ensures failure.None? ==> |fds| == |pids| && table.open - (set fd | fd in fds) == old(table.open)
  {
    fds := [];
    for i := 0 to |pids|
      invariant table.Valid() && table.open == old(table.open) + (set fd | fd in fds)
      invariant old(table.open) !! (set fd | fd in fds) && |fds| == i
      invariant ArmFailure(k, pids) == ArmFailure(k, pids[i..])
    {
      assert pids[i..][1..] == pids[i + 1..];
      var fd, refusal := OpenPidfd(k, table, pids[i]);
      if refusal.Some? {
        table.CloseAll(fds);
        return fds, refusal;
      }
      fds := fds + [fd];
    }
    failure := None;
  }

  /** From poll `n` on, the wait ends in `ending`. */
  ghost predicate Ends(k: Kernel, first: Option<nat>, deadline: int, now: nat, n: nat, seen: Option<nat>,
                       ending: (PidfdAnswer, nat))
  {
    var e := Slices(k, first, deadline, now, n, seen);
    ending == (e.answer, e.at)
  }

  lemma EndsExpired(k: Kernel, first: Option<nat>, deadline: int, now: nat, n: nat, seen: Option<nat>,
                    ending: (PidfdAnswer, nat))
    requires Ends(k, first, deadline, now, n, seen, ending) && now >= deadline
    ensures ending == (Expired, now)
  {}

  lemma EndsAfter(k: Kernel, first: Option<nat>, deadline: int, now: nat, n: nat, seen: Option<nat>, turn: Turn,
                  ending: (PidfdAnswer, nat))
    requires Ends(k, first, deadline, now, n, seen, ending)
    requires now < deadline && turn == PollTurn(k, first, deadline - now, now, n)
    ensures if turn.stop.Some? then ending == (turn.stop.value, turn.back)
            else Ends(k, first, deadline, turn.back, n + 1, Some(turn.done), ending)
  {}

  /** One poll and the look at the caller's cancellation after it. */
  method PollOnce(k: Kernel, first: Option<nat>, remaining: nat, now: nat, n: nat) returns (turn: Turn)
    ensures turn == PollTurn(k, first, remaining, now, n)
  {
    var sliceMs := remaining / MS;
    if sliceMs > SLICE_MS { sliceMs := SLICE_MS; }
    var done := PollDone(first, now + k.pause(n), MS * sliceMs);
    var back := done + 1 + k.lag(n);
    if k.fails(n) { return Turn(Some(Unusable), done, back); }
    if By(first, done) { return Turn(Some(Woke), done, back); }
    if By(k.cancelAt, back) { return Turn(Some(Unusable), done, back); }
    return Turn(None, done, back);
  }

  method PollSlices(k: Kernel, first: Option<nat>, start: nat, timeout: int) returns (answer: PidfdAnswer, at: nat)
    ensures (answer, at) == Polling(k, first, start, timeout)
  {
    at := start;
    var deadline := start + timeout;
    var n := 0;
    ghost var seen: Option<nat> := None;
    ghost var ending := Polling(k, first, start, timeout);
    while true
      invariant at >= start
      invariant Ends(k, first, deadline, at, n, seen, ending)
      decreases deadline - at
    {
      if at >= deadline { EndsExpired(k, first, deadline, at, n, seen, ending); }
      if timeout <= 0 { return Expired, at; }
      var remaining := deadline - at;
      if remaining <= 0 { return Expired, at; }
      var turn := PollOnce(k, first, remaining, at, n);
      EndsAfter(k, first, deadline, at, n, seen, turn, ending);
      at := turn.back;
      if turn.stop.Some? { return turn.stop.value, at; }
      seen, n := Some(turn.done), n + 1;
    }
  }

  /** Waits until an armed process exits, for at most `timeout`. However it ends, it holds no
      descriptor it did not hold before. */
  method WaitPidfds(k: Kernel, table: Descriptors, pids: seq<nat>, start: nat, timeout: int)
      returns (answer: PidfdAnswer, at: nat)
    requires table.Valid()
    modifies table
    ensures table.Valid() && table.open == old(table.open)
    ensures (answer, at) == WaitFor(k, pids, start, timeout)
  {
    at := start;
    var fds, failure := ArmAll(k, table, pids);
    if failure.Some? { return failure.value, at; }
    if |fds| == 0 { return Unusable, at; }
    answer, at := PollSlices(k, FirstExit(k, pids), start, timeout);
    table.CloseAll(fds);
  }

  // ---- what the answers mean

  /** One poll begins where its interruptions end and waits no longer than 100 ms, nor than
      what remains; if nothing becomes ready it uses all whole milliseconds of that. A failed
      poll outranks a ready descriptor, and that a cancellation. */
  lemma PollTurnOk(k: Kernel, first: Option<nat>, remaining: nat, now: nat, n: nat)
    ensures var (turn, begun) := (PollTurn(k, first, remaining, now, n), now + k.pause(n));
            && begun <= turn.done <= begun + Min(remaining, 100 * MS)
            && (!By(first, turn.done) ==> turn.done == begun + 100 * MS || turn.done > begun + remaining - MS)
            && (forall t: nat | begun <= t < turn.done :: !By(first, t))
            && (k.fails(n) ==> turn.stop == Some(Unusable))
            && (turn.stop == Some(Woke) <==> !k.fails(n) && By(first, turn.done))
            && (turn.stop.None? <==> !k.fails(n) && !By(first, turn.done) && !By(k.cancelAt, turn.back))
  {}

  predicate Armable(k: Kernel, pid: nat) {
    pid > 0 && k.opens(pid).Opened?
  }

  /** Arming stops at the first process that cannot be armed: a PID that is not positive or that
      the kernel refuses makes the mechanism unusable, one without a process is gone. */
  lemma {:induction false} ArmFailureOk(k: Kernel, pids: seq<nat>)
    ensures ArmFailure(k, pids).None? <==> forall pid <- pids :: Armable(k, pid)
    ensures ArmFailure(k, pids).Some? ==>
              exists i | 0 <= i < |pids| ::
                && !Armable(k, pids[i]) && (forall j | 0 <= j < i :: Armable(k, pids[j]))
                && (ArmFailure(k, pids).value.Gone? <==> pids[i] > 0 && k.opens(pids[i]).NoSuchProcess?)
                && (ArmFailure(k, pids).value.Unusable? <==> pids[i] == 0 || k.opens(pids[i]).Refused?)
  {
    if pids != [] {
      ArmFailureOk(k, pids[1..]);
      if Armable(k, pids[0]) && ArmFailure(k, pids[1..]).Some? {
        var i :| 0 <= i < |pids[1..]|
          && !Armable(k, pids[1..][i]) && (forall j | 0 <= j < i :: Armable(k, pids[1..][j]))
          && (ArmFailure(k, pids[1..]).value.Gone? <==> pids[1..][i] > 0 && k.opens(pids[1..][i]).NoSuchProcess?);
        assert pids[i + 1] == pids[1..][i];
        forall j | 0 <= j < i + 1 ensures Armable(k, pids[j]) {
          if j > 0 { assert pids[j] == pids[1..][j - 1]; }
        }
      }
    }
  }

  /** The last quiet poll found none exited, and the wait came back from it. */
  ghost predicate QuietSoFar(k: Kernel, first: Option<nat>, now: nat, n: nat, seen: Option<nat>) {
    && (n == 0 <==> seen.None?)
    && (seen.Some? ==> now == seen.value + 1 + k.lag(n - 1) && !By(first, seen.value))
  }

  /** Time runs out only once it has, and then no armed process had exited by the last poll,
      which was no longer ago than it took to come back from it. A wake means that one had
      exited, and none by the poll before. A failed poll ends the wait, and so does a
      cancellation that has come by the return of a quiet one, and nothing else makes the
      mechanism unusable. */
  lemma {:induction false} SlicesOk(k: Kernel, first: Option<nat>, deadline: int, now: nat, n: nat, seen: Option<nat>)
    requires QuietSoFar(k, first, now, n, seen)
    ensures var e := Slices(k, first, deadline, now, n, seen);
            && (e.answer.Expired? ==> e.at >= deadline && QuietSoFar(k, first, e.at, e.polls, e.seen))
            && e.polls >= n && (e.answer.Expired? && now < deadline ==> e.polls > n)
            && (e.answer.Woke? ==> By(first, e.at) && (e.seen.Some? ==> !By(first, e.seen.value)))
            && (forall i: nat | n <= i < e.polls :: !k.fails(i))
            && (e.answer.Woke? ==> !k.fails(e.polls))
            && (e.answer.Unusable? ==> k.fails(e.polls) || By(k.cancelAt, e.at))
            && (e.answer.Expired? && e.polls > n ==> !By(k.cancelAt, e.at))
    decreases deadline - now
  {
    if now < deadline {
      var turn := PollTurn(k, first, deadline - now, now, n);
      if turn.stop.None? {
        SlicesOk(k, first, deadline, turn.back, n + 1, Some(turn.done));
      }
    }
  }

  /** No poll loses more than `slack` to interruptions and to coming back. */
  ghost predicate Prompt(k: Kernel, slack: nat) {
    forall i: nat :: k.pause(i) + 1 + k.lag(i) <= slack
  }

  /** On a machine that takes no longer than `slack` to be interrupted and to come back, the
      wait is over within `slack` of its deadline, and an exit that leaves that much time is
      never missed. */
  lemma {:induction false} SlicesInTime(k: Kernel, first: Option<nat>, deadline: int, now: nat, n: nat, seen: Option<nat>, slack: nat)
    requires QuietSoFar(k, first, now, n, seen)
    requires Prompt(k, slack)
    requires now <= deadline + slack
    ensures var e := Slices(k, first, deadline, now, n, seen);
            && now <= e.at <= deadline + slack
            && (e.answer.Expired? && e.seen.Some? ==> !By(first, deadline - slack))
    decreases deadline - now
  {
    if now < deadline {
      assert k.pause(n) + 1 + k.lag(n) <= slack;
      var turn := PollTurn(k, first, deadline - now, now, n);
      if turn.stop.None? {
        SlicesInTime(k, first, deadline, turn.back, n + 1, Some(turn.done), slack);
      }
    } else if n > 0 {
      assert k.pause(n - 1) + 1 + k.lag(n - 1) <= slack;
    }
  }

  /** A cancellation is noticed within one slice. */
  lemma {:induction false} SlicesCancelled(k: Kernel, first: Option<nat>, deadline: int, now: nat, n: nat, seen: Option<nat>, slack: nat)
    requires Prompt(k, slack) && k.cancelAt.Some?
    ensures Slices(k, first, deadline, now, n, seen).at <= Max(now, k.cancelAt.value) + 100 * MS + slack
    decreases deadline - now
  {
    if now < deadline {
      assert k.pause(n) + 1 + k.lag(n) <= slack;
      var turn := PollTurn(k, first, deadline - now, now, n);
      if turn.stop.None? {
        SlicesCancelled(k, first, deadline, turn.back, n + 1, Some(turn.done), slack);
      }
    }
  }

  lemma WaitForCancelled(k: Kernel, pids: seq<nat>, start: nat, timeout: nat, slack: nat)
    requires Prompt(k, slack) && k.cancelAt.Some?
    ensures WaitFor(k, pids, start, timeout).1 <= Max(start, k.cancelAt.value) + 100 * MS + slack
  {
    if ArmFailure(k, pids).None? && pids != [] {
      SlicesCancelled(k, FirstExit(k, pids), start + timeout, start, 0, None, slack);
    }
  }

  /** The whole wait: time runs out no sooner than asked for. */
  lemma WaitForOk(k: Kernel, pids: seq<nat>, start: nat, timeout: nat)
    ensures WaitFor(k, pids, start, timeout).0.Expired? ==> WaitFor(k, pids, start, timeout).1 >= start + timeout
    ensures pids == [] ==> WaitFor(k, pids, start, timeout) == (Unusable, start)
  {
    if ArmFailure(k, pids).None? && pids != [] {
      SlicesOk(k, FirstExit(k, pids), start + timeout, start, 0, None);
    }
  }

  /** And whatever its answer, it comes no later than that plus `slack`. */
  lemma WaitForInTime(k: Kernel, pids: seq<nat>, start: nat, timeout: nat, slack: nat)
    requires Prompt(k, slack)
    ensures WaitFor(k, pids, start, timeout).1 <= start + timeout + slack
  {
    if ArmFailure(k, pids).None? && pids != [] {
      SlicesInTime(k, FirstExit(k, pids), start + timeout, start, 0, None, slack);
    }
  }
}
