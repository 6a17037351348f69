/** Retirement of the oldest terminal records once there are more than the cap. */
module Retirement {
  import opened Common
  import DisposedIds

  const MAX_TERMINAL: nat := 100

  /** One record directory, in directory order: `readable` metadata with its ID and
      generation, the status a check gives, and whether removing it would succeed. */
  datatype Entry = Entry(name: string, readable: bool, id: string, gen: nat, status: Status, removable: bool)

  /** A terminal record with its place in the directory listing. */
  datatype Item = Item(entry: Entry, pos: nat)

  predicate Counts(e: Entry) {
    e.readable && IsTerminal(e.status)
  }

  function Terminals(entries: seq<Entry>): (items: seq<Item>)
    ensures forall i | 0 <= i < |items| :: Counts(items[i].entry) && items[i].pos < |entries| && entries[items[i].pos] == items[i].entry
    ensures forall i, j | 0 <= i < j < |items| :: items[i].pos < items[j].pos
    ensures forall p | 0 <= p < |entries| && Counts(entries[p]) :: Item(entries[p], p) in items
  {
    if entries == [] then []
    else
      var p := |entries| - 1;
      var init := Terminals(entries[..p]);
      if Counts(entries[p]) then init + [Item(entries[p], p)] else init
  }

  /** Older by generation, then by place in the directory. */
  predicate Older(a: Item, b: Item) {
    a.entry.gen < b.entry.gen || (a.entry.gen == b.entry.gen && a.pos < b.pos)
  }

  predicate Aged(items: seq<Item>) {
    forall i, j | 0 <= i < j < |items| :: Older(items[i], items[j])
  }

  /** Inserts behind everything of the same or a smaller generation. */
  function Insert(items: seq<Item>, x: Item): seq<Item> {
    if items == [] || items[|items| - 1].entry.gen <= x.entry.gen then items + [x]
    else Insert(items[..|items| - 1], x) + [items[|items| - 1]]
  }

  /** A stable sort by generation alone. */
  function SortByGen(items: seq<Item>): seq<Item> {
    if items == [] then [] else Insert(SortByGen(items[..|items| - 1]), items[|items| - 1])
  }

  lemma {:induction false} InsertOk(items: seq<Item>, x: Item)
    requires Aged(items) && forall y <- items :: y.pos < x.pos
    ensures Aged(Insert(items, x)) && multiset(Insert(items, x)) == multiset(items) + multiset{x}
  {
    if items == [] || items[|items| - 1].entry.gen <= x.entry.gen {
    } else {
      var init, last := items[..|items| - 1], items[|items| - 1];
      assert items == init + [last];
      InsertOk(init, x);
      forall y <- Insert(init, x) ensures Older(y, last) {
        assert y in multiset(Insert(init, x));
        assert y == x || y in init;
      }
    }
  }

  /** Stability turns a sort by generation into a sort by generation and directory order. */
  lemma {:induction false} SortOk(items: seq<Item>)
    requires forall i, j | 0 <= i < j < |items| :: items[i].pos < items[j].pos
    ensures Aged(SortByGen(items)) && multiset(SortByGen(items)) == multiset(items)
    ensures |SortByGen(items)| == |items|
  {
    if items != [] {
      var init, last := items[..|items| - 1], items[|items| - 1];
      assert items == init + [last];
      SortOk(init);
      forall y <- SortByGen(init) ensures y.pos < last.pos {
        assert y in multiset(SortByGen(init));
      }
      InsertOk(SortByGen(init), last);
      assert |multiset(SortByGen(items))| == |multiset(items)|;
    }
  }

  /** The records beyond the cap, oldest first. */
  function Victims(entries: seq<Entry>): seq<Item> {
    var sorted := SortByGen(Terminals(entries));
    if |sorted| <= MAX_TERMINAL then [] else sorted[..|sorted| - MAX_TERMINAL]
  }

  predicate NamesDiffer(entries: seq<Entry>) {
    forall i, j | 0 <= i < j < |entries| :: entries[i].name != entries[j].name
  }

  function Drop(entries: seq<Entry>, name: string): seq<Entry> {
    if entries == [] then []
    else (if entries[0].name == name then [] else [entries[0]]) + Drop(entries[1..], name)
  }

  /** What is left after the removals, and the IDs to record, in order. */
  function DropAll(entries: seq<Entry>, victims: seq<Item>): seq<Entry>
    decreases |victims|
  {
    if victims == [] then entries
    else
      var rest := DropAll(entries, victims[..|victims| - 1]);
      var v := victims[|victims| - 1].entry;
      if v.removable then Drop(rest, v.name) else rest
  }

  function RemovedIds(victims: seq<Item>): seq<string> {
    if victims == [] then []
    else
      var v := victims[|victims| - 1].entry;
      RemovedIds(victims[..|victims| - 1]) + (if v.removable then [v.id] else [])
  }

  lemma {:induction false} DropMembers(entries: seq<Entry>, name: string)
    ensures forall e :: e in Drop(entries, name) <==> e in entries && e.name != name
  {
    if entries != [] { DropMembers(entries[1..], name); }
  }

  lemma {:induction false} DropAllMembers(entries: seq<Entry>, victims: seq<Item>)
    ensures forall e :: e in DropAll(entries, victims) <==>
              e in entries && forall v <- victims :: v.entry.removable ==> v.entry.name != e.name
    decreases |victims|
  {
    if victims != [] {
      var init := victims[..|victims| - 1];
      assert victims == init + [victims[|victims| - 1]];
      DropAllMembers(entries, init);
      DropMembers(DropAll(entries, init), victims[|victims| - 1].entry.name);
    }
  }

  function Retired(entries: seq<Entry>): seq<Entry> {
    DropAll(entries, Victims(entries))
  }

  predicate IsVictim(entries: seq<Entry>, i: nat)
    requires i < |entries|
  {
    Item(entries[i], i) in Victims(entries)
  }

  lemma VictimsFacts(entries: seq<Entry>)
    ensures var sorted := SortByGen(Terminals(entries));
            && Aged(sorted) && |sorted| == |Terminals(entries)|
            && (forall x :: x in sorted <==> x in Terminals(entries))
            && Victims(entries) <= sorted
            && |sorted| == |Victims(entries)| + (if |sorted| <= MAX_TERMINAL then |sorted| else MAX_TERMINAL)
  {
    var items := Terminals(entries);
    SortOk(items);
    var sorted := SortByGen(items);
    forall x ensures x in sorted <==> x in items {
      assert x in multiset(sorted) <==> x in multiset(items);
    }
  }

  /** A running or unreadable record is never a victim. */
  lemma VictimsAreTerminal(entries: seq<Entry>, i: nat)
    requires i < |entries| && IsVictim(entries, i)
    ensures entries[i].readable && IsTerminal(entries[i].status)
  {
    VictimsFacts(entries);
    assert Item(entries[i], i) in Terminals(entries);
  }

  /** Every victim is older than every terminal record that stays. */
  lemma VictimsAreOldest(entries: seq<Entry>, i: nat, j: nat)
    requires i < |entries| && j < |entries|
    requires entries[i].readable && IsTerminal(entries[i].status) && !IsVictim(entries, i) && IsVictim(entries, j)
    ensures entries[j].gen < entries[i].gen || (entries[j].gen == entries[i].gen && j < i)
  {
    VictimsFacts(entries);
    var sorted, victims := SortByGen(Terminals(entries)), Victims(entries);
    assert Item(entries[i], i) in sorted;
    var a :| 0 <= a < |sorted| && sorted[a] == Item(entries[i], i);
    var b :| 0 <= b < |victims| && victims[b] == Item(entries[j], j);
    assert sorted[b] == victims[b];
    assert forall k | 0 <= k < |victims| :: victims[k] == sorted[k];
  }

  /** With nothing standing in the way of a removal, exactly the newest records by
      generation and directory order stay, along with every record that is not terminal. */
  lemma KeepsExactlyTheNewest(entries: seq<Entry>)
    requires NamesDiffer(entries) && forall e <- entries :: e.removable
    ensures forall i: nat | i < |entries| :: entries[i] in Retired(entries) <==> !IsVictim(entries, i)
    ensures forall e <- Retired(entries) :: e in entries
  {
    var victims := Victims(entries);
    VictimsFacts(entries);
    DropAllMembers(entries, victims);
    forall i: nat | i < |entries| ensures entries[i] in Retired(entries) <==> !IsVictim(entries, i) {
      forall v <- victims ensures v.pos < |entries| && entries[v.pos] == v.entry {
        assert v in SortByGen(Terminals(entries));
        assert v in Terminals(entries);
      }
      if entries[i] !in Retired(entries) {
        var v :| v in victims && v.entry.name == entries[i].name;
        assert v.pos == i;
      }
    }
  }

  // ---- counting, for idempotence

  /** How many records are readable and terminal. */
  function CountOf(entries: seq<Entry>): nat {
    if entries == [] then 0
    else (if entries[0].readable && IsTerminal(entries[0].status) then 1 else 0) + CountOf(entries[1..])
  }

  lemma {:induction false} CountSnoc(entries: seq<Entry>, e: Entry)
    ensures CountOf(entries + [e]) == CountOf(entries) + (if Counts(e) then 1 else 0)
  {
    if entries == [] {
      assert entries + [e] == [e];
    } else {
      assert (entries + [e])[1..] == entries[1..] + [e];
      CountSnoc(entries[1..], e);
    }
  }

  lemma {:induction false} CountIsTerminals(entries: seq<Entry>)
    ensures |Terminals(entries)| == CountOf(entries)
  {
    if entries != [] {
      var init := entries[..|entries| - 1];
      assert entries == init + [entries[|entries| - 1]];
      CountIsTerminals(init);
      CountSnoc(init, entries[|entries| - 1]);
    }
  }

  lemma {:induction false} DropCount(entries: seq<Entry>, e: Entry)
    requires NamesDiffer(entries) && e in entries && Counts(e)
    ensures CountOf(Drop(entries, e.name)) == CountOf(entries) - 1
  {
    if entries[0].name == e.name {
      assert e == entries[0];
      DropAbsent(entries[1..], e.name);
      assert Drop(entries, e.name) == Drop(entries[1..], e.name) == entries[1..];
    } else {
      DropCount(entries[1..], e);
    }
  }

  lemma {:induction false} DropAbsent(entries: seq<Entry>, name: string)
    requires forall e <- entries :: e.name != name
    ensures Drop(entries, name) == entries
  {
    if entries != [] { DropAbsent(entries[1..], name); }
  }

  lemma {:induction false} DropNames(entries: seq<Entry>, name: string)
    requires NamesDiffer(entries)
    ensures NamesDiffer(Drop(entries, name))
  {
    if entries != [] {
      DropNames(entries[1..], name);
      DropMembers(entries[1..], name);
    }
  }

  lemma {:induction false} DropAllCount(entries: seq<Entry>, victims: seq<Item>)
    requires NamesDiffer(entries)
    requires forall i | 0 <= i < |victims| ::
               victims[i].entry in entries && Counts(victims[i].entry) && victims[i].entry.removable
    requires forall i, j | 0 <= i < j < |victims| :: victims[i].entry.name != victims[j].entry.name
    ensures CountOf(DropAll(entries, victims)) == CountOf(entries) - |victims|
    ensures NamesDiffer(DropAll(entries, victims))
    decreases |victims|
  {
    if victims != [] {
      var init, v := victims[..|victims| - 1], victims[|victims| - 1];
      DropAllCount(entries, init);
      DropAllMembers(entries, init);
      DropCount(DropAll(entries, init), v.entry);
      DropNames(DropAll(entries, init), v.entry.name);
    }
  }

  lemma VictimAt(entries: seq<Entry>, k: nat)
    requires k < |Victims(entries)|
    ensures var v := Victims(entries)[k];
            v.pos < |entries| && entries[v.pos] == v.entry && Counts(v.entry) && v.entry in entries
  {
    VictimsFacts(entries);
    assert Victims(entries)[k] in SortByGen(Terminals(entries));
  }

  lemma VictimsDiffer(entries: seq<Entry>, i: nat, j: nat)
    requires NamesDiffer(entries) && i < j < |Victims(entries)|
    ensures Victims(entries)[i].entry.name != Victims(entries)[j].entry.name
  {
    VictimAt(entries, i);
    VictimAt(entries, j);
    VictimsPlaces(entries, i, j);
  }

  /** Two victims come from different places in the directory. */
  lemma VictimsPlaces(entries: seq<Entry>, i: nat, j: nat)
    requires i < j < |Victims(entries)|
    ensures Victims(entries)[i].pos != Victims(entries)[j].pos
  {
    VictimsFacts(entries);
    VictimAt(entries, i);
    VictimAt(entries, j);
    var sorted := SortByGen(Terminals(entries));
    assert Victims(entries)[i] == sorted[i] && Victims(entries)[j] == sorted[j];
    assert Older(sorted[i], sorted[j]);
  }

  /** Afterwards at most the cap is left, so a second retirement removes nothing. */
  lemma RetirementIsIdempotent(entries: seq<Entry>)
    requires NamesDiffer(entries) && forall e <- entries :: e.removable
    ensures CountOf(Retired(entries)) == if CountOf(entries) <= 100 then CountOf(entries) else 100
    ensures Retired(Retired(entries)) == Retired(entries)
  {
    var victims := Victims(entries);
    forall k | 0 <= k < |victims| ensures victims[k].entry in entries && Counts(victims[k].entry) && victims[k].entry.removable {
      VictimAt(entries, k);
    }
    forall i, j | 0 <= i < j < |victims| ensures victims[i].entry.name != victims[j].entry.name {
      VictimsDiffer(entries, i, j);
    }
    DropAllCount(entries, Victims(entries));
    CountIsTerminals(entries);
    CountIsTerminals(Retired(entries));
    VictimsFacts(entries);
    SortLength(Terminals(Retired(entries)));
  }

  lemma {:induction false} SortLength(items: seq<Item>)
    ensures |SortByGen(items)| == |items|
  {
    if items != [] {
      SortLength(items[..|items| - 1]);
      InsertLength(SortByGen(items[..|items| - 1]), items[|items| - 1]);
    }
  }

  lemma {:induction false} InsertLength(items: seq<Item>, x: Item)
    ensures |Insert(items, x)| == |items| + 1
  {
    if !(items == [] || items[|items| - 1].entry.gen <= x.entry.gen) { InsertLength(items[..|items| - 1], x); }
  }

  class Base {
    var entries: seq<Entry>
    var disposed: seq<string>

    constructor ()
      ensures entries == [] && disposed == []
    {
      entries, disposed := [], [];
    }
  }

  method CollectTerminals(base: Base) returns (terminals: seq<Item>)
    ensures terminals == Terminals(base.entries)
    ensures forall p: nat | p < |base.entries| ::
              Item(base.entries[p], p) in terminals <==> base.entries[p].readable && IsTerminal(base.entries[p].status)
  {
    terminals := [];
    for p := 0 to |base.entries|
      invariant terminals == Terminals(base.entries[..p])
    {
      assert base.entries[..p + 1][..p] == base.entries[..p];
      var e := base.entries[p];
      if !e.readable { continue; }
      if !IsTerminal(e.status) { continue; }
      terminals := terminals + [Item(e, p)];
    }
    assert base.entries[..|base.entries|] == base.entries;
  }

  /** Removes the victims one by one; a failed removal is skipped and not recorded. */
  method RemoveVictims(base: Base, victims: seq<Item>)
    modifies base
    ensures base.entries == DropAll(old(base.entries), victims)
    ensures base.disposed == DisposedIds.DisposeAll(old(base.disposed), RemovedIds(victims), DisposedIds.MAX_DISPOSED)
  {
    ghost var entries, disposed := base.entries, base.disposed;
    for i := 0 to |victims|
      invariant base.entries == DropAll(entries, victims[..i])
      invariant base.disposed == DisposedIds.DisposeAll(disposed, RemovedIds(victims[..i]), DisposedIds.MAX_DISPOSED)
    {
      assert victims[..i + 1][..i] == victims[..i];
      var rec := victims[i].entry;
      if !rec.removable {
        assert RemovedIds(victims[..i + 1]) == RemovedIds(victims[..i]) + [] == RemovedIds(victims[..i]);
        continue;
      }
      base.entries := Drop(base.entries, rec.name);
      DisposeSnoc(disposed, RemovedIds(victims[..i]), rec.id);
      base.disposed := DisposedIds.Dispose(base.disposed, rec.id, DisposedIds.MAX_DISPOSED);
    }
    assert victims[..|victims|] == victims;
  }

  lemma {:induction false} RemovedIdsOk(victims: seq<Item>)
    ensures |RemovedIds(victims)| <= |victims|
    ensures forall id :: id in RemovedIds(victims) <==> exists v <- victims :: v.entry.removable && v.entry.id == id
  {
    if victims != [] {
      var init := victims[..|victims| - 1];
      assert victims == init + [victims[|victims| - 1]];
      RemovedIdsOk(init);
    }
  }

  /** What stays and what is removed, in terms of the records: a record that is unreadable, not
      terminal or cannot be removed stays. */
  lemma RetiredOk(entries: seq<Entry>)
    requires NamesDiffer(entries)
    ensures forall e <- entries | !(e.readable && IsTerminal(e.status) && e.removable) :: e in Retired(entries)
    ensures forall e <- Retired(entries) :: e in entries
    ensures forall v <- Victims(entries) | v.entry.removable :: v.entry in entries && v.entry !in Retired(entries)
    ensures forall e <- entries | e !in Retired(entries) :: exists v <- Victims(entries) :: v.entry == e && e.removable
  {
    var victims := Victims(entries);
    DropAllMembers(entries, victims);
    forall v <- victims ensures v.entry in entries && v.entry.readable && IsTerminal(v.entry.status) {
      var k :| 0 <= k < |victims| && victims[k] == v;
      VictimAt(entries, k);
      VictimsAreTerminal(entries, v.pos);
    }
    forall e <- entries | e !in Retired(entries) ensures exists v <- victims :: v.entry == e && e.removable {
      var v :| v in victims && v.entry.removable && v.entry.name == e.name;
      assert v.entry == e;
    }
  }

  /** A removed ID is recorded, and no other. */
  lemma RemovedAreRecorded(entries: seq<Entry>, disposed: seq<string>)
    requires NamesDiffer(entries)
    ensures var list := DisposedIds.DisposeAll(disposed, RemovedIds(Victims(entries)), DisposedIds.MAX_DISPOSED);
            && (|RemovedIds(Victims(entries))| <= 2048 ==>
                  forall e <- entries | e !in Retired(entries) :: e.id in list)
            && forall id <- list :: id in disposed || exists e <- entries :: e !in Retired(entries) && e.id == id
  {
    var victims, ids := Victims(entries), RemovedIds(Victims(entries));
    var list := DisposedIds.DisposeAll(disposed, ids, DisposedIds.MAX_DISPOSED);
    RetiredOk(entries);
    RemovedIdsOk(victims);
    forall e <- entries | e !in Retired(entries) && |ids| <= 2048 ensures e.id in list {
      DisposedIds.DisposeAllOk(disposed, ids, e.id, DisposedIds.MAX_DISPOSED);
    }
    forall id <- list ensures id in disposed || exists e <- entries :: e !in Retired(entries) && e.id == id {
      DisposedIds.DisposeAllOk(disposed, ids, id, DisposedIds.MAX_DISPOSED);
      if id !in disposed {
        var v :| v in victims && v.entry.removable && v.entry.id == id;
        assert v.entry in entries && v.entry !in Retired(entries);
      }
    }
  }

  /** Whatever stands in the way of a removal, a record that is unreadable, not terminal or
      cannot be removed stays, nothing appears, and no other ID is recorded than a removed
      one's. */
  predicate OnlyTerminalsGo(entries: seq<Entry>, disposed: seq<string>, left: seq<Entry>, list: seq<string>) {
    && (forall e <- entries | !(e.readable && IsTerminal(e.status) && e.removable) :: e in left)
    && (forall e <- left :: e in entries)
    && (forall id <- list :: id in disposed || exists e <- entries :: e !in left && e.id == id)
  }

  lemma RetirementGoesFor(entries: seq<Entry>, disposed: seq<string>, left: seq<Entry>, list: seq<string>)
    requires left == Retired(entries)
    requires list == DisposedIds.DisposeAll(disposed, RemovedIds(Victims(entries)), DisposedIds.MAX_DISPOSED)
    ensures NamesDiffer(entries) ==> OnlyTerminalsGo(entries, disposed, left, list)
  {
    if NamesDiffer(entries) {
      RetiredOk(entries);
      RemovedAreRecorded(entries, disposed);
    }
  }

  lemma NothingToRetire(entries: seq<Entry>, disposed: seq<string>)
    requires |Terminals(entries)| <= MAX_TERMINAL
    ensures Retired(entries) == entries && RemovedIds(Victims(entries)) == []
  {
    SortLength(Terminals(entries));
  }

  method RetireOldestTerminals(base: Base)
    modifies base
    ensures base.entries == Retired(old(base.entries))
    ensures NamesDiffer(old(base.entries)) ==>
              OnlyTerminalsGo(old(base.entries), old(base.disposed), base.entries, base.disposed)
    ensures base.disposed ==
              DisposedIds.DisposeAll(old(base.disposed), RemovedIds(Victims(old(base.entries))), DisposedIds.MAX_DISPOSED)
  {
    ghost var entries, disposed := base.entries, base.disposed;
    var terminals := CollectTerminals(base);
    if |terminals| <= MAX_TERMINAL {
      NothingToRetire(entries, disposed);
      RetirementGoesFor(entries, disposed, base.entries, base.disposed);
      return;
    }
    SortLength(terminals);
    var sorted := SortByGen(terminals);
    RemoveVictims(base, sorted[..|sorted| - MAX_TERMINAL]);
    RetirementGoesFor(entries, disposed, base.entries, base.disposed);
  }

  lemma {:induction false} DisposeSnoc(xs: seq<string>, ids: seq<string>, id: string)
    ensures DisposedIds.DisposeAll(xs, ids + [id], DisposedIds.MAX_DISPOSED)
         == DisposedIds.Dispose(DisposedIds.DisposeAll(xs, ids, DisposedIds.MAX_DISPOSED), id, DisposedIds.MAX_DISPOSED)
    decreases |ids|
  {
    if ids == [] {
      assert ids + [id] == [id] && [id][1..] == [];
    } else {
      assert (ids + [id])[1..] == ids[1..] + [id];
      DisposeSnoc(DisposedIds.Dispose(xs, ids[0], DisposedIds.MAX_DISPOSED), ids[1..], id);
    }
  }

  // ---- disposal on demand

  /** Where pruning stops: at the first terminal record that cannot be removed. */
  function Stuck(entries: seq<Entry>): (k: nat)
    ensures k <= |entries|
    ensures forall i | 0 <= i < k :: IsTerminal(entries[i].status) ==> entries[i].removable
    ensures k < |entries| ==> IsTerminal(entries[k].status) && !entries[k].removable
  {
    if entries == [] || (IsTerminal(entries[0].status) && !entries[0].removable) then 0
    else 1 + Stuck(entries[1..])
  }

  function Survivors(entries: seq<Entry>): seq<Entry> {
    if entries == [] then []
    else Survivors(entries[..|entries| - 1]) + (if IsTerminal(entries[|entries| - 1].status) then [] else [entries[|entries| - 1]])
  }

  function TerminalNames(entries: seq<Entry>): seq<string> {
    if entries == [] then []
    else
      var last := entries[|entries| - 1];
      TerminalNames(entries[..|entries| - 1]) + (if IsTerminal(last.status) then [last.name] else [])
  }

  /** Pruning never touches a record that is not terminal. */
  lemma {:induction false} SurvivorsAreTheRest(entries: seq<Entry>)
    ensures forall e :: e in Survivors(entries) <==> e in entries && !IsTerminal(e.status)
  {
    if entries != [] {
      SurvivorsAreTheRest(entries[..|entries| - 1]);
      assert entries == entries[..|entries| - 1] + [entries[|entries| - 1]];
    }
  }

  lemma {:induction false} DropFrom(a: seq<Entry>, e: Entry, b: seq<Entry>)
    requires forall x <- a + b :: x.name != e.name
    ensures Drop(a + ([e] + b), e.name) == a + b
  {
    if a == [] {
      assert a + ([e] + b) == [e] + b && ([e] + b)[1..] == b && a + b == b;
      assert forall x <- b :: x in a + b;
      DropAbsent(b, e.name);
    } else {
      assert (a + ([e] + b))[1..] == a[1..] + ([e] + b);
      assert forall x <- a[1..] + b :: x in a + b;
      assert a[0] in a + b;
      DropFrom(a[1..], e, b);
      assert [a[0]] + (a[1..] + b) == a + b;
    }
  }

  /** The directories, and the list, after the first `i` entries have been pruned. */
  function PrunedDirs(entries: seq<Entry>, i: nat): seq<Entry>
    requires i <= |entries|
  {
    Survivors(entries[..i]) + entries[i..]
  }

  function PrunedList(disposed: seq<string>, entries: seq<Entry>, i: nat): seq<string>
    requires i <= |entries|
  {
    DisposedIds.DisposeAll(disposed, TerminalNames(entries[..i]), DisposedIds.MAX_DISPOSED)
  }

  lemma PruneStep(entries: seq<Entry>, i: nat)
    requires i < |entries| && NamesDiffer(entries)
    ensures PrunedDirs(entries, i + 1)
         == if IsTerminal(entries[i].status) then Drop(PrunedDirs(entries, i), entries[i].name) else PrunedDirs(entries, i)
  {
    assert entries[..i + 1][..i] == entries[..i];
    assert entries[i..] == [entries[i]] + entries[i + 1..];
    if IsTerminal(entries[i].status) {
      OthersDiffer(entries, i);
      DropFrom(Survivors(entries[..i]), entries[i], entries[i + 1..]);
    }
  }

  lemma PruneStepList(disposed: seq<string>, entries: seq<Entry>, i: nat)
    requires i < |entries|
    ensures var was := PrunedList(disposed, entries, i);
            if IsTerminal(entries[i].status)
            then PrunedList(disposed, entries, i + 1) == DisposedIds.Dispose(was, entries[i].name, DisposedIds.MAX_DISPOSED)
            else PrunedList(disposed, entries, i + 1) == was
  {
    assert entries[..i + 1][..i] == entries[..i];
    if IsTerminal(entries[i].status) {
      DisposeSnoc(disposed, TerminalNames(entries[..i]), entries[i].name);
    } else {
      assert TerminalNames(entries[..i + 1]) == TerminalNames(entries[..i]) + [] == TerminalNames(entries[..i]);
    }
  }

  lemma StuckThere(entries: seq<Entry>, i: nat)
    requires i < |entries| && i <= Stuck(entries)
    ensures i == Stuck(entries) <==> IsTerminal(entries[i].status) && !entries[i].removable
  {}

  /** The first `i` entries have been pruned and none of them stopped it. */
  ghost predicate PrunedTo(entries: seq<Entry>, disposed: seq<string>, i: nat, dirs: seq<Entry>, list: seq<string>) {
    i <= Stuck(entries) && dirs == PrunedDirs(entries, i) && list == PrunedList(disposed, entries, i)
  }

  lemma PruneOn(entries: seq<Entry>, disposed: seq<string>, i: nat, dirs: seq<Entry>, list: seq<string>)
    requires NamesDiffer(entries) && i < |entries| && PrunedTo(entries, disposed, i, dirs, list)
    ensures var e := entries[i];
            if !IsTerminal(e.status) then PrunedTo(entries, disposed, i + 1, dirs, list)
            else if !e.removable then i == Stuck(entries)
            else PrunedTo(entries, disposed, i + 1, Drop(dirs, e.name),
                          DisposedIds.Dispose(list, e.name, DisposedIds.MAX_DISPOSED))
  {
    PruneStep(entries, i);
    PruneStepList(disposed, entries, i);
    StuckThere(entries, i);
  }

  lemma {:induction false} TerminalNamesOk(entries: seq<Entry>)
    ensures |TerminalNames(entries)| <= |entries|
    ensures forall name :: name in TerminalNames(entries) <==> exists e <- entries :: IsTerminal(e.status) && e.name == name
  {
    if entries != [] {
      TerminalNamesOk(entries[..|entries| - 1]);
      assert entries == entries[..|entries| - 1] + [entries[|entries| - 1]];
    }
  }

  /** Pruning in terms of the records: what is not terminal stays, and without an error nothing
      else does; a record that goes, and no other, is recorded under its directory name. */
  predicate OnlyTerminalsPruned(entries: seq<Entry>, disposed: seq<string>, left: seq<Entry>, list: seq<string>, err: bool) {
    && (forall e <- entries | !IsTerminal(e.status) :: e in left)
    && (forall e <- left :: e in entries && (IsTerminal(e.status) ==> err))
    && (forall id <- list :: id in disposed || exists e <- entries :: e !in left && e.name == id)
    && (|entries| <= 2048 ==> forall e <- entries | e !in left :: e.name in list)
  }

  lemma PrunedDirsOk(entries: seq<Entry>, k: nat)
    requires NamesDiffer(entries) && k <= |entries|
    ensures forall i: nat | i < |entries| :: entries[i] in PrunedDirs(entries, k) <==> i >= k || !IsTerminal(entries[i].status)
    ensures forall e <- PrunedDirs(entries, k) :: e in entries
  {
    SurvivorsAreTheRest(entries[..k]);
    forall i: nat | i < |entries| ensures entries[i] in PrunedDirs(entries, k) <==> i >= k || !IsTerminal(entries[i].status) {
      if i < k {
        assert entries[..k][i] == entries[i];
        assert entries[i] !in entries[k..];
      } else {
        assert entries[k..][i - k] == entries[i];
      }
    }
  }

  lemma PruneGoesFor(entries: seq<Entry>, disposed: seq<string>, k: nat, left: seq<Entry>, list: seq<string>)
    requires NamesDiffer(entries) && k <= |entries| && PrunedTo(entries, disposed, k, left, list)
    ensures OnlyTerminalsPruned(entries, disposed, left, list, k < |entries|)
  {
    var names := TerminalNames(entries[..k]);
    PrunedDirsOk(entries, k);
    TerminalNamesOk(entries[..k]);
    forall e <- left ensures e in entries && (IsTerminal(e.status) ==> k < |entries|) {
      var i :| 0 <= i < |entries| && entries[i] == e;
    }
    forall id <- list ensures id in disposed || exists e <- entries :: e !in left && e.name == id {
      DisposedIds.DisposeAllOk(disposed, names, id, DisposedIds.MAX_DISPOSED);
      if id !in disposed {
        var e :| e in entries[..k] && IsTerminal(e.status) && e.name == id;
        var i :| 0 <= i < k && entries[i] == e;
        assert e !in left;
      }
    }
    forall e <- entries | e !in left && |entries| <= 2048 ensures e.name in list {
      var i :| 0 <= i < |entries| && entries[i] == e;
      assert entries[..k][i] == e;
      DisposedIds.DisposeAllOk(disposed, names, e.name, DisposedIds.MAX_DISPOSED);
    }
  }

  /** Removes every terminal record, whatever its metadata, and records its directory name;
      the first failing removal ends it. */
  method Prune(base: Base) returns (err: bool)
    requires NamesDiffer(base.entries)
    modifies base
    ensures PrunedTo(old(base.entries), old(base.disposed), Stuck(old(base.entries)), base.entries, base.disposed)
    ensures err <==> exists e <- old(base.entries) :: IsTerminal(e.status) && !e.removable
    ensures OnlyTerminalsPruned(old(base.entries), old(base.disposed), base.entries, base.disposed, err)
  {
    var entries := base.entries;
    ghost var disposed := base.disposed;
    PruneNone(entries, disposed);
    for i := 0 to |entries|
      invariant PrunedTo(entries, disposed, i, base.entries, base.disposed)
    {
      PruneOn(entries, disposed, i, base.entries, base.disposed);
      var e := entries[i];
      if IsTerminal(e.status) {
        if !e.removable {
          PruneGoesFor(entries, disposed, i, base.entries, base.disposed);
          return true;
        }
        base.entries := Drop(base.entries, e.name);
        base.disposed := DisposedIds.Dispose(base.disposed, e.name, DisposedIds.MAX_DISPOSED);
      }
    }
    PruneGoesFor(entries, disposed, |entries|, base.entries, base.disposed);
    return false;
  }

  lemma PruneNone(entries: seq<Entry>, disposed: seq<string>)
    ensures PrunedTo(entries, disposed, 0, entries, disposed)
  {
    assert Survivors(entries[..0]) + entries[0..] == entries;
  }

  lemma OthersDiffer(entries: seq<Entry>, i: nat)
    requires i < |entries| && NamesDiffer(entries)
    ensures forall x <- Survivors(entries[..i]) + entries[i + 1..] :: x.name != entries[i].name
  {
    SurvivorsAreTheRest(entries[..i]);
  }

  datatype RemoveResult = Removed | NoSuchRecord | RemoveFailed

  /** Removes one record, whatever its status. */
  method Remove(base: Base, name: string) returns (result: RemoveResult)
    requires NamesDiffer(base.entries)
    modifies base
    ensures result.NoSuchRecord? <==> forall e <- old(base.entries) :: e.name != name
    ensures if result.Removed?
            then (forall e :: e in base.entries <==> e in old(base.entries) && e.name != name)
                 && base.disposed == DisposedIds.Dispose(old(base.disposed), name, DisposedIds.MAX_DISPOSED)
            else base.entries == old(base.entries) && base.disposed == old(base.disposed)
    ensures result.RemoveFailed? <==> exists e <- old(base.entries) :: e.name == name && !e.removable
  {
    for i := 0 to |base.entries|
      invariant forall j | 0 <= j < i :: base.entries[j].name != name
      invariant base.entries == old(base.entries) && base.disposed == old(base.disposed)
    {
      if base.entries[i].name == name {
        if !base.entries[i].removable { return RemoveFailed; }
        DropMembers(base.entries, name);
        base.entries := Drop(base.entries, name);
        base.disposed := DisposedIds.Dispose(base.disposed, name, DisposedIds.MAX_DISPOSED);
        return Removed;
      }
    }
    return NoSuchRecord;
  }
}
