/** The order in which completion hooks run. Names are sequences of runes; comparing them
    rune by rune is comparing their UTF-8 encodings byte by byte. */
module HookOrder {
  import opened Common

  const MAX_INT64: nat := 0x7FFF_FFFF_FFFF_FFFF

  datatype Mode = Mode(regular: bool, executable: bool)

  /** A directory entry; `stat` is None if following it fails. */
  datatype Entry = Entry(name: string, isDir: bool, stat: Option<Mode>)

  datatype HookDir = NoAgentFolder | Missing | Unreadable | Listing(entries: seq<Entry>)

  // ---- leading numbers

  /** The longest prefix of runes that the classifier takes for decimal digits; it can take
      others than the ASCII ones. */
  function DigitRun(isDigit: char -> bool, name: string): string {
    if name != "" && isDigit(name[0]) then [name[0]] + DigitRun(isDigit, name[1..]) else ""
  }

  predicate AllAscii(digits: string) {
    forall i | 0 <= i < |digits| :: '0' <= digits[i] <= '9'
  }

  function Decimal(digits: string): nat
    requires AllAscii(digits)
  {
    if digits == "" then 0
    else 10 * Decimal(digits[..|digits| - 1]) + (digits[|digits| - 1] as int - '0' as int)
  }

  /** Parsing in base 10 to 64 bits: any other digit fails, and so does overflow. */
  function ParseInt(digits: string): Option<nat> {
    if digits == "" || !AllAscii(digits) || Decimal(digits) > MAX_INT64 then None else Some(Decimal(digits))
  }

  method LeadingNumber(isDigit: char -> bool, name: string) returns (number: Option<nat>)
    ensures number == ParseInt(DigitRun(isDigit, name))
  {
    var digits := "";
    var i := 0;
    while i < |name| && isDigit(name[i])
      invariant i <= |name| && digits + DigitRun(isDigit, name[i..]) == DigitRun(isDigit, name)
    {
      assert name[i..][1..] == name[i + 1..];
      digits := digits + [name[i]];
      i := i + 1;
    }
    assert DigitRun(isDigit, name[i..]) == "" && digits + "" == digits;
    if |digits| == 0 { return None; }
    return ParseInt(digits);
  }

  // ---- the order

  predicate Less(a: string, b: string) {
    if b == "" then false
    else if a == "" then true
    else if a[0] != b[0] then a[0] < b[0]
    else Less(a[1..], b[1..])
  }

  function NumberOf(isDigit: char -> bool, name: string): Option<nat> {
    ParseInt(DigitRun(isDigit, name))
  }

  /** Numbered names first, by number; ties and the others by name. */
  predicate Precedes(isDigit: char -> bool, a: string, b: string) {
    var (numA, numB) := (NumberOf(isDigit, a), NumberOf(isDigit, b));
    if numA.Some? && numB.Some? then
      if numA.value != numB.value then numA.value < numB.value else Less(a, b)
    else if numA.Some? != numB.Some? then numA.Some?
    else Less(a, b)
  }

  /** Decimal digits are positional. */
  lemma DecimalOk(digits: string, c: char)
    requires AllAscii(digits) && '0' <= c <= '9'
    ensures AllAscii(digits + [c]) && Decimal(digits + [c]) == 10 * Decimal(digits) + (c as int - '0' as int)
    ensures Decimal("") == 0
  {
    assert (digits + [c])[..|digits|] == digits;
  }

  lemma {:induction false} DigitRunOf(isDigit: char -> bool, digits: string, rest: string)
    requires (forall c <- digits :: isDigit(c)) && (rest == "" || !isDigit(rest[0]))
    ensures DigitRun(isDigit, digits + rest) == digits
  {
    if digits == "" {
      assert digits + rest == rest;
    } else {
      assert (digits + rest)[1..] == digits[1..] + rest;
      DigitRunOf(isDigit, digits[1..], rest);
    }
  }

  predicate TakesAscii(isDigit: char -> bool) {
    forall c :: '0' <= c <= '9' ==> isDigit(c)
  }

  /** A name that begins with the ASCII digits `digits` and goes on with something else. */
  predicate Begins(isDigit: char -> bool, digits: string, rest: string) {
    digits != "" && AllAscii(digits) && (rest == "" || !isDigit(rest[0]))
  }

  lemma Numbered(isDigit: char -> bool, digits: string, rest: string)
    requires TakesAscii(isDigit) && Begins(isDigit, digits, rest)
    ensures NumberOf(isDigit, digits + rest) ==
              if Decimal(digits) <= 0x7FFF_FFFF_FFFF_FFFF then Some(Decimal(digits)) else None
  {
    assert forall c <- digits :: isDigit(c);
    DigitRunOf(isDigit, digits, rest);
  }

  lemma Unnumbered(isDigit: char -> bool, name: string)
    requires name == "" || !isDigit(name[0])
    ensures NumberOf(isDigit, name) == None
  {
    DigitRunOf(isDigit, "", name);
    assert "" + name == name;
  }

  /** Of two numbered names the one with the smaller number runs first, whatever their
      lengths; equal numbers run in ascending order of the names. */
  lemma SmallerNumbersFirst(isDigit: char -> bool, x: string, restX: string, y: string, restY: string)
    requires TakesAscii(isDigit) && Begins(isDigit, x, restX) && Begins(isDigit, y, restY)
    requires Decimal(x) <= 0x7FFF_FFFF_FFFF_FFFF && Decimal(y) <= 0x7FFF_FFFF_FFFF_FFFF
    ensures Decimal(x) < Decimal(y) ==> Precedes(isDigit, x + restX, y + restY)
    ensures Decimal(x) == Decimal(y) ==> (Precedes(isDigit, x + restX, y + restY) <==> Less(x + restX, y + restY))
  {
    Numbered(isDigit, x, restX);
    Numbered(isDigit, y, restY);
  }

  /** Names without a number run after those with one, in ascending order. */
  lemma UnnumberedLast(isDigit: char -> bool, x: string, rest: string, a: string, b: string)
    requires TakesAscii(isDigit) && Begins(isDigit, x, rest) && Decimal(x) <= 0x7FFF_FFFF_FFFF_FFFF
    requires (a == "" || !isDigit(a[0])) && (b == "" || !isDigit(b[0]))
    ensures Precedes(isDigit, x + rest, a) && !Precedes(isDigit, a, x + rest)
    ensures Precedes(isDigit, a, b) <==> Less(a, b)
  {
    Numbered(isDigit, x, rest);
    Unnumbered(isDigit, a);
    Unnumbered(isDigit, b);
  }

  /** So 9-last runs before 10-first, which a comparison of the names would reverse. */
  lemma NineBeforeTen(isDigit: char -> bool)
    requires TakesAscii(isDigit) && !isDigit('-')
    ensures Precedes(isDigit, "9-last", "10-first") && Less("10-first", "9-last")
  {
    assert Decimal("9") == 9 && Decimal("1") == 1;
    assert Decimal("10") == 10 by {
      DecimalOk("1", '0');
      assert "1" + ['0'] == "10";
    }
    SmallerNumbersFirst(isDigit, "9", "-last", "10", "-first");
    assert "9" + "-last" == "9-last" && "10" + "-first" == "10-first";
  }

  /** Ascending order is by the first rune that differs, and a prefix comes first. */
  lemma {:induction false} LessOk(a: string, b: string)
    ensures Less(a, b) <==>
              exists k | 0 <= k <= |a| && k < |b| :: a[..k] == b[..k] && (k == |a| || a[k] < b[k])
  {
    if a == "" || b == "" || a[0] != b[0] {
      if Less(a, b) { assert a[..0] == b[..0]; }
      forall k | 0 < k <= |a| && k < |b| ensures a[..k] != b[..k] {
        assert a[..k][0] == a[0] && b[..k][0] == b[0];
      }
    } else {
      LessOk(a[1..], b[1..]);
      if Less(a, b) {
        var k :| 0 <= k <= |a[1..]| && k < |b[1..]| && a[1..][..k] == b[1..][..k] && (k == |a[1..]| || a[1..][k] < b[1..][k]);
        assert a[..k + 1] == [a[0]] + a[1..][..k] && b[..k + 1] == [b[0]] + b[1..][..k];
      }
      if k :| 0 <= k <= |a| && k < |b| && a[..k] == b[..k] && (k == |a| || a[k] < b[k]) {
        assert k > 0;
        assert a[1..][..k - 1] == a[..k][1..] && b[1..][..k - 1] == b[..k][1..];
      }
    }
  }

  lemma {:induction false} LessIsTotal(a: string, b: string)
    ensures !(Less(a, b) && Less(b, a))
    ensures Less(a, b) || Less(b, a) <==> a != b
  {
    if a != "" && b != "" && a[0] == b[0] {
      LessIsTotal(a[1..], b[1..]);
      assert a == [a[0]] + a[1..] && b == [b[0]] + b[1..];
    }
  }

  lemma {:induction false} LessIsTransitive(a: string, b: string, c: string)
    requires Less(a, b) && Less(b, c)
    ensures Less(a, c)
  {
    if a != "" && a[0] == b[0] == c[0] { LessIsTransitive(a[1..], b[1..], c[1..]); }
  }

  /** The comparator is a strict total order on names, whatever their digits. */
  lemma PrecedesIsTotal(isDigit: char -> bool, a: string, b: string)
    ensures !(Precedes(isDigit, a, b) && Precedes(isDigit, b, a))
    ensures Precedes(isDigit, a, b) || Precedes(isDigit, b, a) <==> a != b
  {
    LessIsTotal(a, b);
  }

  lemma PrecedesIsTransitive(isDigit: char -> bool, a: string, b: string, c: string)
    requires Precedes(isDigit, a, b) && Precedes(isDigit, b, c)
    ensures Precedes(isDigit, a, c)
  {
    if Less(a, b) && Less(b, c) { LessIsTransitive(a, b, c); }
  }

  /** What sorting by the comparator guarantees, stable or not. */
  ghost predicate Sorted(isDigit: char -> bool, names: seq<string>) {
    forall i, j | 0 <= i < j < |names| :: !Precedes(isDigit, names[j], names[i])
  }

  lemma HeadsAgree(isDigit: char -> bool, xs: seq<string>, ys: seq<string>)
    requires Sorted(isDigit, xs) && Sorted(isDigit, ys) && multiset(xs) == multiset(ys) && xs != [] && ys != []
    ensures xs[0] == ys[0]
  {
    assert xs[0] in multiset(ys) && ys[0] in multiset(xs);
    var j :| 0 <= j < |ys| && ys[j] == xs[0];
    var i :| 0 <= i < |xs| && xs[i] == ys[0];
    PrecedesIsTotal(isDigit, xs[0], ys[0]);
  }

  lemma TailOf(xs: seq<string>)
    requires xs != []
    ensures multiset(xs[1..]) == multiset(xs) - multiset{xs[0]}
  {
    assert xs == [xs[0]] + xs[1..];
  }

  /** Names can be sorted in only one way, so the order in which the directory lists them
      and the sorting algorithm do not matter. */
  lemma {:induction false} SortedIsUnique(isDigit: char -> bool, xs: seq<string>, ys: seq<string>)
    requires Sorted(isDigit, xs) && Sorted(isDigit, ys) && multiset(xs) == multiset(ys)
    ensures xs == ys
  {
    assert |multiset(xs)| == |multiset(ys)|;
    if xs != [] {
      HeadsAgree(isDigit, xs, ys);
      TailOf(xs);
      TailOf(ys);
      SortedIsUnique(isDigit, xs[1..], ys[1..]);
      assert xs == [xs[0]] + xs[1..] && ys == [ys[0]] + ys[1..];
    }
  }

  // ---- discovery

  predicate Runs(entry: Entry) {
    !entry.isDir && entry.stat.Some? && entry.stat.value.regular && entry.stat.value.executable
  }

  function Scripts(entries: seq<Entry>): seq<string> {
    if entries == [] then []
    else
      var init, last := Scripts(entries[..|entries| - 1]), entries[|entries| - 1];
      if Runs(last) then init + [last.name] else init
  }

  /** The scripts are the names of the entries that run. */
  lemma {:induction false} ScriptsOk(entries: seq<Entry>, name: string)
    ensures name in Scripts(entries) <==>
              exists entry <- entries ::
                && entry.name == name && !entry.isDir && entry.stat.Some?
                && entry.stat.value.regular && entry.stat.value.executable
  {
    if entries != [] {
      ScriptsOk(entries[..|entries| - 1], name);
      assert entries == entries[..|entries| - 1] + [entries[|entries| - 1]];
    }
  }

  function Insert(isDigit: char -> bool, sorted: seq<string>, name: string): seq<string> {
    if sorted == [] || Precedes(isDigit, name, sorted[0]) then [name] + sorted
    else [sorted[0]] + Insert(isDigit, sorted[1..], name)
  }

  lemma {:induction false} InsertKeeps(isDigit: char -> bool, sorted: seq<string>, name: string)
    ensures multiset(Insert(isDigit, sorted, name)) == multiset(sorted) + multiset{name}
  {
    if sorted != [] && !Precedes(isDigit, name, sorted[0]) {
      assert sorted == [sorted[0]] + sorted[1..];
      InsertKeeps(isDigit, sorted[1..], name);
    }
  }

  lemma {:induction false} InsertSorts(isDigit: char -> bool, sorted: seq<string>, name: string)
    requires Sorted(isDigit, sorted)
    ensures Sorted(isDigit, Insert(isDigit, sorted, name))
  {
    if sorted == [] {
    } else if Precedes(isDigit, name, sorted[0]) {
      forall j | 0 <= j < |sorted| ensures !Precedes(isDigit, sorted[j], name) {
        PrecedesIsTotal(isDigit, name, sorted[0]);
        if Precedes(isDigit, sorted[j], name) { PrecedesIsTransitive(isDigit, sorted[j], name, sorted[0]); }
      }
    } else {
      var rest := Insert(isDigit, sorted[1..], name);
      InsertSorts(isDigit, sorted[1..], name);
      forall x <- rest ensures !Precedes(isDigit, x, sorted[0]) {
        InsertKeeps(isDigit, sorted[1..], name);
        assert x in multiset(rest);
      }
    }
  }

  /** The hooks to run, in order; None if the folder cannot be read. The sort stands for the
      library's, whose result the comparator determines. */
  method DiscoverCompletionHooks(isDigit: char -> bool, dir: HookDir) returns (hooks: Option<seq<string>>)
    ensures hooks.None? <==> dir.Unreadable?
    ensures hooks.Some? && !dir.Listing? ==> hooks.value == []
    ensures dir.Listing? ==> Sorted(isDigit, hooks.value) && multiset(hooks.value) == multiset(Scripts(dir.entries))
    ensures dir.Listing? ==>
              forall name :: name in hooks.value <==>
                exists entry <- dir.entries ::
                  && entry.name == name && !entry.isDir && entry.stat.Some?
                  && entry.stat.value.regular && entry.stat.value.executable
  {
    match dir {
      case NoAgentFolder => return Some([]);
      case Missing => return Some([]);
      case Unreadable => return None;
      case Listing(entries) =>
        var scripts := [];
        for i := 0 to |entries|
          invariant scripts == Scripts(entries[..i])
        {
          assert entries[..i + 1][..i] == entries[..i];
          if entries[i].isDir { continue; }
          if entries[i].stat.None? { continue; }
          if !entries[i].stat.value.regular || !entries[i].stat.value.executable { continue; }
          scripts := scripts + [entries[i].name];
        }
        assert entries[..|entries|] == entries;
        var sorted := [];
        for i := 0 to |scripts|
          invariant Sorted(isDigit, sorted) && multiset(sorted) == multiset(scripts[..i])
        {
          InsertKeeps(isDigit, sorted, scripts[i]);
          InsertSorts(isDigit, sorted, scripts[i]);
          sorted := Insert(isDigit, sorted, scripts[i]);
          assert scripts[..i + 1] == scripts[..i] + [scripts[i]];
        }
        assert scripts[..|scripts|] == scripts;
        forall name ensures name in sorted <==> name in Scripts(entries) {
          assert name in multiset(sorted) <==> name in multiset(scripts);
        }
        forall name { ScriptsOk(entries, name); }
        hooks := Some(sorted);
    }
  }

  lemma {:induction false} ScriptsOfConcat(a: seq<Entry>, b: seq<Entry>)
    ensures Scripts(a + b) == Scripts(a) + Scripts(b)
  {
    if b == [] {
      assert a + b == a;
    } else {
      assert (a + b)[..|a + b| - 1] == a + b[..|b| - 1];
      ScriptsOfConcat(a, b[..|b| - 1]);
    }
  }

  lemma ScriptsWithout(front: seq<Entry>, entry: Entry, back: seq<Entry>)
    ensures multiset(Scripts(front + [entry] + back)) == multiset(Scripts(front + back)) + multiset(Scripts([entry]))
  {
    ScriptsOfConcat(front, back);
    ScriptsOfConcat(front + [entry], back);
    ScriptsOfConcat(front, [entry]);
  }

  lemma Around(entries: seq<Entry>, entry: Entry) returns (front: seq<Entry>, back: seq<Entry>)
    requires entry in multiset(entries)
    ensures entries == front + [entry] + back
    ensures multiset(front + back) == multiset(entries) - multiset{entry}
  {
    var k :| 0 <= k < |entries| && entries[k] == entry;
    front, back := entries[..k], entries[k + 1..];
    assert entries == front + [entry] + back;
  }

  lemma {:induction false} ScriptsPermute(xs: seq<Entry>, ys: seq<Entry>)
    requires multiset(xs) == multiset(ys)
    ensures multiset(Scripts(xs)) == multiset(Scripts(ys))
    decreases |xs|
  {
    assert |multiset(xs)| == |multiset(ys)|;
    if xs != [] {
      assert xs[0] in multiset(xs);
      var frontX, backX := Around(xs, xs[0]);
      var frontY, backY := Around(ys, xs[0]);
      ScriptsWithout(frontX, xs[0], backX);
      ScriptsWithout(frontY, xs[0], backY);
      ScriptsPermute(frontX + backX, frontY + backY);
    }
  }

  /** However the directory is listed, the same hooks run in the same order. */
  lemma ListingOrderIsIrrelevant(isDigit: char -> bool, xs: seq<Entry>, ys: seq<Entry>, hooksX: seq<string>, hooksY: seq<string>)
    requires multiset(xs) == multiset(ys)
    requires Sorted(isDigit, hooksX) && multiset(hooksX) == multiset(Scripts(xs))
    requires Sorted(isDigit, hooksY) && multiset(hooksY) == multiset(Scripts(ys))
    ensures hooksX == hooksY
  {
    ScriptsPermute(xs, ys);
    SortedIsUnique(isDigit, hooksX, hooksY);
  }

  /** A number too large for 64 bits does not count, so such a name runs after every
      numbered one. */
  lemma OverflowIsUnnumbered(isDigit: char -> bool, a: string, b: string)
    requires AllAscii(DigitRun(isDigit, b)) && Decimal(DigitRun(isDigit, b)) > MAX_INT64
    requires NumberOf(isDigit, a).Some?
    ensures Precedes(isDigit, a, b)
  {}
}
