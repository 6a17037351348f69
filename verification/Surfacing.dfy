/** The notified flag shared by manual reads, the idle wake and the end-of-turn piggyback,
    over runs of operations that do not overlap. */
module Surfacing {
  import opened Common

  /** What a listing shows of one record. */
  datatype Rec = Rec(terminal: bool, notified: bool)

  /** How a finished job reached its agent. */
  datatype Hand = Wake(id: string) | Piggyback(id: string) | Read(id: string)

  /** `order` is the order of listings, by start, and `log` every hand-over so far. */
  datatype State = State(records: map<string, Rec>, order: seq<string>, log: seq<Hand>)

  /** `ok` holds the IDs whose mark can be written during the operation. An end-of-turn
      payload is None if it does not parse, else its can_continue. */
  datatype Event =
    | Spawn(id: string)
    | Finish(id: string)
    | Dispose(id: string)
    | Get(id: string, ok: set<string>)
    | WaitReturns(ids: seq<string>, ok: set<string>)
    | SupervisorEnd(id: string, fired: bool, ok: set<string>)
    | EndOfTurn(payload: Option<bool>, ok: set<string>)

  /** The flag of one record, if its write goes through. */
  function Mark(records: map<string, Rec>, id: string, ok: set<string>): map<string, Rec> {
    if id in records && id in ok then records[id := records[id].(notified := true)] else records
  }

  predicate Marks(records: map<string, Rec>, id: string, ok: set<string>) {
    id in records && (id in ok || records[id].notified)
  }

  /** A manual read hands over a terminal record and marks it. */
  function ReadOne(s: State, id: string, ok: set<string>): State {
    if id in s.records && s.records[id].terminal
    then s.(records := Mark(s.records, id, ok), log := s.log + [Read(id)])
    else s
  }

  function ReadAll(s: State, ids: seq<string>, ok: set<string>): State {
    if ids == [] then s else ReadOne(ReadAll(s, ids[..|ids| - 1], ok), ids[|ids| - 1], ok)
  }

  predicate IsPending(records: map<string, Rec>, id: string) {
    id in records && records[id].terminal && !records[id].notified
  }

  /** Terminal, not yet notified, nothing else. */
  function Pending(records: map<string, Rec>, order: seq<string>): seq<string> {
    if order == [] then []
    else
      var id := order[|order| - 1];
      Pending(records, order[..|order| - 1]) + (if IsPending(records, id) then [id] else [])
  }

  function HandOne(s: State, id: string, ok: set<string>): State {
    if Marks(s.records, id, ok)
    then s.(records := Mark(s.records, id, ok), log := s.log + [Piggyback(id)])
    else s
  }

  function HandAll(s: State, ids: seq<string>, ok: set<string>): State {
    if ids == [] then s else HandOne(HandAll(s, ids[..|ids| - 1], ok), ids[|ids| - 1], ok)
  }

  function Next(s: State, e: Event): State {
    match e
    case Spawn(id) =>
      if id in s.records then s
      else s.(records := s.records[id := Rec(false, false)], order := s.order + [id])
    case Finish(id) =>
      if id in s.records then s.(records := s.records[id := s.records[id].(terminal := true)]) else s
    case Dispose(id) => s.(records := s.records - {id})
    case Get(id, ok) => ReadOne(s, id, ok)
    case WaitReturns(ids, ok) => ReadAll(s, ids, ok)
    case SupervisorEnd(id, fired, ok) =>
      if IsPending(s.records, id) && fired
      then s.(records := Mark(s.records, id, ok), log := s.log + [Wake(id)])
      else s
    case EndOfTurn(payload, ok) =>
      if payload == Some(true) then HandAll(s, Pending(s.records, s.order), ok) else s
  }

  function Exec(s: State, es: seq<Event>): State
    decreases |es|
  {
    if es == [] then s else Exec(Next(s, es[0]), es[1..])
  }

  const START := State(map[], [], [])

  /** Handed over by a hook path. */
  predicate Surfaced(h: Hand, id: string) {
    h == Wake(id) || h == Piggyback(id)
  }

  /** A record is surfaced at most once, and never after any hand-over of it. */
  predicate OnceOnly(log: seq<Hand>) {
    forall i, j | 0 <= i < j < |log| :: !Surfaced(log[j], log[i].id)
  }

  predicate Handed(log: seq<Hand>, id: string) {
    exists i | 0 <= i < |log| :: log[i].id == id
  }

  predicate Inv(s: State) {
    && NoDup(s.order) && (forall id <- s.records :: id in s.order)
    && OnceOnly(s.log)
    && (forall id <- s.records :: s.records[id].notified <==> Handed(s.log, id))
    && (forall id <- s.records | s.records[id].notified :: s.records[id].terminal)
  }

  /** Every mark of the operation is written, and a new job has a new ID. */
  predicate Smooth(s: State, e: Event) {
    match e
    case Spawn(id) => id !in s.order && !Handed(s.log, id)
    case Get(id, ok) => id in ok
    case WaitReturns(ids, ok) => forall id <- ids :: id in ok
    case SupervisorEnd(id, _, ok) => id in ok
    case EndOfTurn(_, ok) => forall id <- s.records :: id in ok
    case _ => true
  }

  predicate SmoothRun(s: State, es: seq<Event>)
    decreases |es|
  {
    es == [] || (Smooth(s, es[0]) && SmoothRun(Next(s, es[0]), es[1..]))
  }

  lemma HandedSnoc(log: seq<Hand>, h: Hand)
    ensures forall id :: Handed(log + [h], id) <==> Handed(log, id) || h.id == id
  {
    forall id ensures Handed(log + [h], id) <==> Handed(log, id) || h.id == id {
      if Handed(log, id) {
        var i :| 0 <= i < |log| && log[i].id == id;
        assert (log + [h])[i].id == id;
      }
      assert (log + [h])[|log|] == h;
    }
  }

  /** Marking a terminal record together with a hand-over keeps the invariant, provided a
      surfacing only happens to a record that has not been handed over. */
  lemma HandOverStep(s: State, id: string, ok: set<string>, h: Hand)
    requires Inv(s) && id in s.records && id in ok && s.records[id].terminal && h.id == id
    requires h.Read? || !s.records[id].notified
    ensures Inv(s.(records := Mark(s.records, id, ok), log := s.log + [h]))
  {
    HandedSnoc(s.log, h);
    var log := s.log + [h];
    assert !Handed(s.log, id) || h.Read?;
    forall i, j | 0 <= i < j < |log| ensures !Surfaced(log[j], log[i].id) {
      if j < |log| - 1 { assert log[j] == s.log[j] && log[i] == s.log[i]; }
    }
  }

  lemma {:induction false} ReadAllStep(s: State, ids: seq<string>, ok: set<string>)
    requires Inv(s) && forall id <- ids :: id in ok
    ensures Inv(ReadAll(s, ids, ok))
  {
    if ids != [] {
      ReadAllStep(s, ids[..|ids| - 1], ok);
      var t, id := ReadAll(s, ids[..|ids| - 1], ok), ids[|ids| - 1];
      if id in t.records && t.records[id].terminal { HandOverStep(t, id, ok, Read(id)); }
    }
  }

  // ---- what a read does

  /** A read of a terminal record is a hand-over and marks it if the mark can be written; a read
      of any other changes nothing. */
  lemma GetMarks(s: State, id: string, ok: set<string>)
    ensures var t := Next(s, Get(id, ok));
            if id in s.records && s.records[id].terminal
            then && t.log == s.log + [Read(id)] && t.order == s.order
                 && t.records == s.records[id := Rec(true, s.records[id].notified || id in ok)]
            else t == s
  {
    if id in s.records && s.records[id].terminal {
      assert s.records[id := s.records[id]] == s.records;
    }
  }

  /** The end of a supervision wakes the agent exactly for a job nobody has been told of and a
      hook that starts; the wake is a hand-over, and marks the record if the mark can be
      written. Any other end changes nothing. */
  lemma WakeMarks(s: State, id: string, fired: bool, ok: set<string>)
    ensures var t := Next(s, SupervisorEnd(id, fired, ok));
            if fired && id in s.records && s.records[id] == Rec(true, false)
            then t == State(s.records[id := Rec(true, id in ok)], s.order, s.log + [Wake(id)])
            else t == s
  {
    if id in s.records { assert s.records[id := s.records[id]] == s.records; }
  }

  /** The record of `id` after the returned `ids` have been marked. */
  function MarkedRec(r: Rec, id: string, ids: seq<string>, ok: set<string>): Rec {
    if id in ids && id in ok && r.terminal then Rec(true, true) else r
  }

  /** A wait that returns `ids` marks the terminal ones whose mark can be written, touches no
      other record, and hands over exactly the terminal ones. */
  lemma {:induction false} WaitReturnsMarks(s: State, ids: seq<string>, ok: set<string>)
    ensures var t := Next(s, WaitReturns(ids, ok));
            && t.records.Keys == s.records.Keys && t.order == s.order
            && (forall id <- s.records :: t.records[id] == MarkedRec(s.records[id], id, ids, ok))
            && s.log <= t.log && (forall j | |s.log| <= j < |t.log| :: t.log[j].Read?)
            && (forall id :: Read(id) in t.log[|s.log|..] <==> id in ids && id in s.records && s.records[id].terminal)
  {
    if ids != [] {
      var init, last := ids[..|ids| - 1], ids[|ids| - 1];
      assert ids == init + [last];
      WaitReturnsMarks(s, init, ok);
      var m := Next(s, WaitReturns(init, ok));
      if last in m.records && m.records[last].terminal {
        assert (m.log + [Read(last)])[|s.log|..] == m.log[|s.log|..] + [Read(last)];
      }
    }
  }

  /** A hook path has nothing to do with the record any more. */
  predicate Settled(s: State, id: string) {
    id in s.records ==> s.records[id].notified
  }

  /** The log grew, and not by a surfacing of `id`. */
  predicate Unsurfaced(s: State, t: State, id: string) {
    s.log <= t.log && forall j | |s.log| <= j < |t.log| :: !Surfaced(t.log[j], id)
  }

  lemma {:induction false} HandAllElsewhere(s: State, ids: seq<string>, ok: set<string>, id: string)
    requires Settled(s, id) && id !in ids
    ensures Settled(HandAll(s, ids, ok), id) && Unsurfaced(s, HandAll(s, ids, ok), id)
  {
    if ids != [] { HandAllElsewhere(s, ids[..|ids| - 1], ok, id); }
  }

  lemma {:induction false} PendingMembers(records: map<string, Rec>, order: seq<string>)
    ensures forall id :: id in Pending(records, order) <==> id in order && IsPending(records, id)
  {
    if order != [] {
      assert order == order[..|order| - 1] + [order[|order| - 1]];
      PendingMembers(records, order[..|order| - 1]);
    }
  }

  lemma SettledStep(s: State, e: Event, id: string)
    requires Settled(s, id) && e != Spawn(id)
    ensures Settled(Next(s, e), id) && Unsurfaced(s, Next(s, e), id)
  {
    match e {
      case WaitReturns(ids, ok) => WaitReturnsMarks(s, ids, ok);
      case EndOfTurn(payload, ok) =>
        PendingMembers(s.records, s.order);
        HandAllElsewhere(s, Pending(s.records, s.order), ok, id);
      case _ =>
    }
  }

  lemma {:induction false} SettledRun(s: State, es: seq<Event>, id: string)
    requires Settled(s, id) && Spawn(id) !in es
    ensures Unsurfaced(s, Exec(s, es), id)
    decreases |es|
  {
    if es != [] {
      SettledStep(s, es[0], id);
      SettledRun(Next(s, es[0]), es[1..], id);
    }
  }

  /** From any state: once a terminal record has been returned by get or wait, and marked, no
      wake and no piggyback ever surfaces it, whatever happens to other marks, as long as its
      ID does not go to a new job. */
  lemma ReadSuppressesHooks(s: State, read: Event, es: seq<Event>, id: string)
    requires id in s.records && s.records[id].terminal && Spawn(id) !in es
    requires match read
             case Get(x, ok) => x == id && id in ok
             case WaitReturns(ids, ok) => id in ids && id in ok
             case _ => false
    ensures var t := Next(s, read);
            Read(id) in t.log && id in t.records && t.records[id].notified && Unsurfaced(t, Exec(t, es), id)
  {
    var t := Next(s, read);
    match read {
      case Get(_, ok) => GetMarks(s, id, ok);
      case WaitReturns(ids, ok) =>
        WaitReturnsMarks(s, ids, ok);
        assert Read(id) in t.log[|s.log|..];
    }
    SettledRun(t, es, id);
  }

  /** A listing's pending records, each once. */
  lemma {:induction false} PendingFacts(records: map<string, Rec>, order: seq<string>)
    requires NoDup(order)
    ensures forall id :: id in Pending(records, order) <==> id in order && IsPending(records, id)
    ensures NoDup(Pending(records, order))
  {
    if order != [] {
      var init := order[..|order| - 1];
      assert order == init + [order[|order| - 1]];
      PendingFacts(records, init);
    }
  }

  function Piggybacked(ids: seq<string>): seq<Hand> {
    if ids == [] then [] else Piggybacked(ids[..|ids| - 1]) + [Piggyback(ids[|ids| - 1])]
  }

  lemma {:induction false} PiggybackedMembers(ids: seq<string>)
    ensures |Piggybacked(ids)| == |ids|
    ensures forall id :: Piggyback(id) in Piggybacked(ids) <==> id in ids
  {
    if ids != [] {
      assert ids == ids[..|ids| - 1] + [ids[|ids| - 1]];
      PiggybackedMembers(ids[..|ids| - 1]);
    }
  }

  /** Handing over a run of pending records. */
  lemma {:induction false} HandAllStep(s: State, ids: seq<string>, ok: set<string>)
    requires Inv(s) && NoDup(ids) && forall id <- ids :: id in ok && IsPending(s.records, id)
    ensures var t := HandAll(s, ids, ok);
            && Inv(t) && t.records.Keys == s.records.Keys && t.order == s.order
            && (forall id <- s.records :: t.records[id] == if id in ids then s.records[id].(notified := true) else s.records[id])
            && t.log == s.log + Piggybacked(ids)
  {
    if ids == [] {
      assert s.log + [] == s.log;
    } else {
      var init, id := ids[..|ids| - 1], ids[|ids| - 1];
      assert ids == init + [id] && id !in init && id in ids;
      HandAllStep(s, init, ok);
      HandOverStep(HandAll(s, init, ok), id, ok, Piggyback(id));
    }
  }

  lemma InvStep(s: State, e: Event)
    requires Inv(s) && Smooth(s, e)
    ensures Inv(Next(s, e))
  {
    match e {
      case Get(id, ok) =>
        if id in s.records && s.records[id].terminal { HandOverStep(s, id, ok, Read(id)); }
      case WaitReturns(ids, ok) => ReadAllStep(s, ids, ok);
      case SupervisorEnd(id, fired, ok) =>
        if IsPending(s.records, id) && fired { HandOverStep(s, id, ok, Wake(id)); }
      case EndOfTurn(payload, ok) =>
        if payload == Some(true) {
          PendingFacts(s.records, s.order);
          HandAllStep(s, Pending(s.records, s.order), ok);
        }
      case _ =>
    }
  }

  lemma {:induction false} InvRun(s: State, es: seq<Event>)
    requires Inv(s) && SmoothRun(s, es)
    ensures Inv(Exec(s, es))
    decreases |es|
  {
    if es != [] {
      InvStep(s, es[0]);
      InvRun(Next(s, es[0]), es[1..]);
    }
  }

  /** Over runs of serialized operations with successful mark writes: a job is surfaced by at
      most one of idle wake and piggyback, by neither after a read of the finished job, and a
      terminal record still on disk is either pending or has been handed over: no flag is
      consumed without a hand-over. */
  lemma SurfacedAtMostOnce(es: seq<Event>)
    requires SmoothRun(START, es)
    ensures var s := Exec(START, es);
            && OnceOnly(s.log)
            && forall id <- s.records | s.records[id].terminal :: id in Pending(s.records, s.order) <==> !Handed(s.log, id)
  {
    InvRun(START, es);
    var s := Exec(START, es);
    PendingFacts(s.records, s.order);
  }

  /** Pending records come in listing order. */
  lemma {:induction false} PendingInOrder(records: map<string, Rec>, order: seq<string>, a: nat, b: nat)
    requires a < b < |Pending(records, order)|
    ensures exists i, j | 0 <= i < j < |order| :: order[i] == Pending(records, order)[a] && order[j] == Pending(records, order)[b]
  {
    var init, last := order[..|order| - 1], order[|order| - 1];
    var before := Pending(records, init);
    if b < |before| {
      PendingInOrder(records, init, a, b);
    } else {
      PendingMembers(records, init);
      assert before[a] in init;
      var i :| 0 <= i < |init| && init[i] == before[a];
      assert order[i] == before[a] && order[|init|] == last;
    }
  }

  lemma {:induction false} NothingPending(records: map<string, Rec>, order: seq<string>)
    requires forall id <- order :: !IsPending(records, id)
    ensures Pending(records, order) == []
  {
    if order != [] {
      assert order[|order| - 1] in order;
      NothingPending(records, order[..|order| - 1]);
    }
  }

  /** A payload that can continue hands over exactly the pending records, in listing order,
      and leaves none. */
  lemma EndOfTurnHandsOverAll(s: State, ok: set<string>)
    requires Inv(s) && forall id <- s.records :: id in ok
    ensures var t := Next(s, EndOfTurn(Some(true), ok));
            && t.log == s.log + Piggybacked(Pending(s.records, s.order))
            && Pending(t.records, t.order) == []
            && t.records.Keys == s.records.Keys
            && forall id <- s.records :: t.records[id].terminal == s.records[id].terminal
  {
    PendingFacts(s.records, s.order);
    var ids := Pending(s.records, s.order);
    HandAllStep(s, ids, ok);
    var t := HandAll(s, ids, ok);
    forall id <- t.order ensures !IsPending(t.records, id) {
      if IsPending(s.records, id) { assert id in ids; }
    }
    NothingPending(t.records, t.order);
  }

  /** Without can_continue, or with a payload that does not parse, no flag changes and nothing
      is handed over, whatever is pending; a failed mark leaves its record for the next
      chance. */
  lemma EndOfTurnHoldsBack(s: State, payload: Option<bool>, ok: set<string>, id: string)
    ensures var t := Next(s, EndOfTurn(payload, ok));
            && (payload != Some(true) ==> t == s)
            && (IsPending(s.records, id) && id !in ok ==>
                  IsPending(t.records, id) && s.log <= t.log && Piggyback(id) !in t.log[|s.log|..])
  {
    if payload == Some(true) && IsPending(s.records, id) && id !in ok {
      HandAllSkips(s, Pending(s.records, s.order), ok, id);
    }
  }

  lemma {:induction false} HandAllSkips(s: State, ids: seq<string>, ok: set<string>, id: string)
    requires IsPending(s.records, id) && id !in ok
    ensures IsPending(HandAll(s, ids, ok).records, id)
    ensures s.log <= HandAll(s, ids, ok).log && Piggyback(id) !in HandAll(s, ids, ok).log[|s.log|..]
  {
    if ids != [] {
      var init, last := ids[..|ids| - 1], ids[|ids| - 1];
      HandAllSkips(s, init, ok, id);
      var t := HandAll(s, init, ok);
      if Marks(t.records, last, ok) {
        assert last != id;
        assert (t.log + [Piggyback(last)])[|s.log|..] == t.log[|s.log|..] + [Piggyback(last)];
      }
    }
  }

  /** A wake whose mark was lost is followed by a second surfacing by the next end of turn:
      the condition on the writes is needed. */
  lemma LostMarkSurfacesTwice(s: State, id: string)
    requires Inv(s) && IsPending(s.records, id)
    ensures !OnceOnly(Next(Next(s, SupervisorEnd(id, true, {})), EndOfTurn(Some(true), s.records.Keys)).log)
  {
    var t := Next(s, SupervisorEnd(id, true, {}));
    assert t == s.(log := s.log + [Wake(id)]);
    SurfacedAgain(t, |s.log|, id);
  }

  lemma SurfacedAgain(t: State, i: nat, id: string)
    requires NoDup(t.order) && IsPending(t.records, id) && id in t.order
    requires i < |t.log| && t.log[i] == Wake(id)
    ensures !OnceOnly(Next(t, EndOfTurn(Some(true), t.records.Keys)).log)
  {
    PendingFacts(t.records, t.order);
    var ids := Pending(t.records, t.order);
    HandAllLog(t, ids, t.records.Keys);
    PiggybackedMembers(ids);
    var more := Piggybacked(ids);
    var k :| 0 <= k < |more| && more[k] == Piggyback(id);
    NotOnce(t.log, more, i, k, id);
  }

  lemma NotOnce(log: seq<Hand>, more: seq<Hand>, i: nat, k: nat, id: string)
    requires i < |log| && k < |more| && log[i] == Wake(id) && more[k] == Piggyback(id)
    ensures !OnceOnly(log + more)
  {
    assert (log + more)[i] == log[i] && (log + more)[|log| + k] == more[k];
    assert Surfaced((log + more)[|log| + k], (log + more)[i].id);
  }

  lemma {:induction false} HandAllLog(s: State, ids: seq<string>, ok: set<string>)
    requires forall id <- ids :: id in s.records && id in ok
    ensures HandAll(s, ids, ok).log == s.log + Piggybacked(ids) && HandAll(s, ids, ok).records.Keys == s.records.Keys
  {
    if ids == [] {
      assert s.log + [] == s.log;
    } else {
      HandAllLog(s, ids[..|ids| - 1], ok);
    }
  }

  // ---- the operations as loops

  class Board {
    var records: map<string, Rec>
    var order: seq<string>
    ghost var log: seq<Hand>

    constructor ()
      ensures Now() == START
    {
      records, order, log := map[], [], [];
    }

    ghost function Now(): State
      reads this
    {
      State(records, order, log)
    }
  }

  /** Sets the flag by rewriting the metadata; an error if there is no record or the write
      fails. A record that is already marked is left alone. */
  method MarkNotified(board: Board, id: string, ok: set<string>) returns (err: bool)
    modifies board`records
    ensures err <==> id !in old(board.records) || (!old(board.records)[id].notified && id !in ok)
    ensures board.records == Mark(old(board.records), id, ok)
    ensures board.records == if err then old(board.records) else old(board.records)[id := old(board.records)[id].(notified := true)]
  {
    if id !in board.records { return true; }
    var meta := board.records[id];
    if meta.notified {
      assert board.records[id := meta] == board.records;
      return false;
    }
    if id !in ok { return true; }
    board.records := board.records[id := meta.(notified := true)];
    return false;
  }

  /** What wait does with the IDs it returned: every terminal one is marked. */
  method MarkReadNotified(board: Board, ids: seq<string>, ok: set<string>)
    modifies board
    ensures board.Now() == Next(old(board.Now()), WaitReturns(ids, ok))
    ensures board.records.Keys == old(board.records).Keys
    ensures forall id <- old(board.records) ::
              board.records[id] == if id in ids && id in ok && old(board.records)[id].terminal then Rec(true, true)
                                   else old(board.records)[id]
  {
    ghost var s := board.Now();
    WaitReturnsMarks(s, ids, ok);
    for k := 0 to |ids|
      invariant board.Now() == ReadAll(s, ids[..k], ok)
    {
      assert ids[..k + 1][..k] == ids[..k];
      if ids[k] !in board.records || !board.records[ids[k]].terminal { continue; }
      board.log := board.log + [Read(ids[k])];
      var _ := MarkNotified(board, ids[k], ok);
    }
    assert ids[..|ids|] == ids;
  }

  method ListPending(board: Board) returns (pending: seq<string>)
    ensures pending == Pending(board.records, board.order)
  {
    pending := [];
    for k := 0 to |board.order|
      invariant pending == Pending(board.records, board.order[..k])
    {
      assert board.order[..k + 1][..k] == board.order[..k];
      var id := board.order[k];
      if id !in board.records || board.records[id].notified || !board.records[id].terminal { continue; }
      pending := pending + [id];
    }
    assert board.order[..|board.order|] == board.order;
  }

  lemma HandAllOnce(s: State, ids: seq<string>, k: nat, ok: set<string>)
    requires k < |ids|
    ensures HandAll(s, ids[..k + 1], ok) == HandOne(HandAll(s, ids[..k], ok), ids[k], ok)
  {
    assert ids[..k + 1][..k] == ids[..k];
  }

  lemma PiggybackedOnce(log: seq<Hand>, ids: seq<string>, id: string)
    ensures log + Piggybacked(ids + [id]) == log + Piggybacked(ids) + [Piggyback(id)]
  {
    assert (ids + [id])[..|ids|] == ids;
  }

  /** Which of the records have been handed over, and what that did. */
  ghost predicate HandedOver(before: map<string, Rec>, pending: seq<string>, ok: set<string>,
                             records: map<string, Rec>, surfaced: seq<string>) {
    && (forall id :: id in surfaced <==> id in pending && id in before && (id in ok || before[id].notified))
    && records.Keys == before.Keys
    && (forall id <- before :: records[id] == if id in surfaced then before[id].(notified := true) else before[id])
  }

  lemma HandedOverOnce(before: map<string, Rec>, pending: seq<string>, k: nat, ok: set<string>,
                       records: map<string, Rec>, surfaced: seq<string>)
    requires k < |pending| && HandedOver(before, pending[..k], ok, records, surfaced)
    ensures HandedOver(before, pending[..k + 1], ok, Mark(records, pending[k], ok),
                       if Marks(records, pending[k], ok) then surfaced + [pending[k]] else surfaced)
  {
    assert pending[..k + 1] == pending[..k] + [pending[k]];
  }

  /** Marks and hands over, one pending record at a time; a record whose mark fails is not
      handed over. */
  method HandOver(board: Board, pending: seq<string>, ok: set<string>) returns (surfaced: seq<string>)
    modifies board
    ensures board.Now() == HandAll(old(board.Now()), pending, ok)
    ensures board.log == old(board.log) + Piggybacked(surfaced)
    ensures forall id :: id in surfaced <==>
              id in pending && id in old(board.records) && (id in ok || old(board.records)[id].notified)
  {
    surfaced := [];
    ghost var s := board.Now();
    assert board.log + [] == board.log;
    for k := 0 to |pending|
      invariant board.Now() == HandAll(s, pending[..k], ok)
      invariant board.log == s.log + Piggybacked(surfaced)
      invariant HandedOver(s.records, pending[..k], ok, board.records, surfaced)
    {
      HandAllOnce(s, pending, k, ok);
      HandedOverOnce(s.records, pending, k, ok, board.records, surfaced);
      var err := MarkNotified(board, pending[k], ok);
      if err { continue; }
      PiggybackedOnce(s.log, surfaced, pending[k]);
      surfaced := surfaced + [pending[k]];
      board.log := board.log + [Piggyback(pending[k])];
    }
    assert pending[..|pending|] == pending;
  }

  method EndOfTurnPiggyback(board: Board, payload: Option<bool>, ok: set<string>) returns (surfaced: seq<string>)
    modifies board
    ensures board.Now() == Next(old(board.Now()), EndOfTurn(payload, ok))
    ensures board.log == old(board.log) + Piggybacked(surfaced)
  {
    surfaced := [];
    assert board.log + [] == board.log;
    if payload.None? { return; }
    var pending := ListPending(board);
    if |pending| == 0 { return; }
    if !payload.value { return; }
    surfaced := HandOver(board, pending, ok);
  }
}
