/** The disposed-ID list and the claiming of fresh IDs. */
module DisposedIds {
  import opened Common

  const MAX_DISPOSED: nat := 2048
  const MAX_RETRIES: nat := 100

  // ---- the list as values

  function Without(xs: seq<string>, x: string): seq<string> {
    if xs == [] then [] else (if xs[0] == x then [] else [xs[0]]) + Without(xs[1..], x)
  }

  function LastN<T>(xs: seq<T>, n: nat): seq<T> {
    if |xs| <= n then xs else xs[|xs| - n..]
  }

  /** What one disposal makes of the list: the ID moves to the back, the front falls off. */
  function Dispose(xs: seq<string>, id: string, cap: nat): seq<string> {
    LastN(Without(xs, id) + [id], cap)
  }

  function DisposeAll(xs: seq<string>, history: seq<string>, cap: nat): seq<string>
    decreases |history|
  {
    if history == [] then xs else DisposeAll(Dispose(xs, history[0], cap), history[1..], cap)
  }

  /** The reference: the distinct IDs of a history, ordered by their last disposal. */
  function Distinct(history: seq<string>): seq<string> {
    if history == [] then []
    else if history[0] in history[1..] then Distinct(history[1..])
    else [history[0]] + Distinct(history[1..])
  }

  /** The reference window. */
  function Window(history: seq<string>, cap: nat): seq<string> {
    LastN(Distinct(history), cap)
  }

  lemma {:induction false} WithoutMembers(xs: seq<string>, x: string)
    ensures forall y :: y in Without(xs, x) <==> y in xs && y != x
  {
    if xs != [] { WithoutMembers(xs[1..], x); }
  }

  lemma {:induction false} WithoutAbsent(xs: seq<string>, x: string)
    requires x !in xs
    ensures Without(xs, x) == xs
  {
    if xs != [] { WithoutAbsent(xs[1..], x); }
  }

  lemma {:induction false} WithoutConcat(xs: seq<string>, ys: seq<string>, x: string)
    ensures Without(xs + ys, x) == Without(xs, x) + Without(ys, x)
  {
    if xs == [] {
      assert xs + ys == ys;
    } else {
      assert (xs + ys)[1..] == xs[1..] + ys;
      WithoutConcat(xs[1..], ys, x);
    }
  }

  lemma {:induction false} DistinctMembers(h: seq<string>)
    ensures forall y :: y in Distinct(h) <==> y in h
    ensures NoDup(Distinct(h))
  {
    if h != [] { DistinctMembers(h[1..]); }
  }

  lemma {:induction false} DistinctSnoc(h: seq<string>, x: string)
    ensures Distinct(h + [x]) == Without(Distinct(h), x) + [x]
  {
    if h == [] {
      assert h + [x] == [x] && [x][1..] == [];
    } else {
      assert (h + [x])[1..] == h[1..] + [x];
      DistinctSnoc(h[1..], x);
      DistinctMembers(h[1..]);
      var rest := Distinct(h[1..]);
      if h[0] !in h[1..] { assert ([h[0]] + rest)[1..] == rest; }
    }
  }

  lemma {:induction false} WithoutLength(xs: seq<string>, x: string)
    requires NoDup(xs)
    ensures |Without(xs, x)| == if x in xs then |xs| - 1 else |xs|
  {
    if xs != [] {
      WithoutLength(xs[1..], x);
      if xs[0] == x { assert x !in xs[1..]; }
    }
  }

  lemma LastNOfConcat(a: seq<string>, b: seq<string>, n: nat)
    requires |b| >= n
    ensures LastN(a + b, n) == LastN(b, n)
  {}

  /** Capping before or after a disposal makes no difference. */
  lemma CapsCommute(xs: seq<string>, x: string, cap: nat)
    requires NoDup(xs) && cap > 0
    ensures Dispose(LastN(xs, cap), x, cap) == LastN(Without(xs, x) + [x], cap)
  {
    if |xs| > cap {
      var a, b := xs[..|xs| - cap], xs[|xs| - cap..];
      assert xs == a + b;
      WithoutConcat(a, b, x);
      WithoutLength(b, x);
      assert Without(xs, x) + [x] == Without(a, x) + (Without(b, x) + [x]);
      LastNOfConcat(Without(a, x), Without(b, x) + [x], cap);
    }
  }

  lemma WindowSnoc(before: seq<string>, id: string, cap: nat)
    requires cap > 0
    ensures Window(before + [id], cap) == Dispose(Window(before, cap), id, cap)
  {
    DistinctMembers(before);
    CapsCommute(Distinct(before), id, cap);
    DistinctSnoc(before, id);
  }

  /** The list refines its history: from nothing, it is the last `cap` distinct IDs by most
      recent disposal. */
  lemma {:induction false} ListRefinesHistory(before: seq<string>, history: seq<string>, cap: nat)
    requires cap > 0
    ensures DisposeAll(Window(before, cap), history, cap) == Window(before + history, cap)
    decreases |history|
  {
    if history == [] {
      assert before + history == before;
    } else {
      WindowSnoc(before, history[0], cap);
      ListRefinesHistory(before + [history[0]], history[1..], cap);
      assert before + [history[0]] + history[1..] == before + history;
    }
  }

  /** `id` is among the last `p + 1` entries. */
  predicate Near(xs: seq<string>, id: string, p: nat) {
    exists k | 0 <= k < |xs| :: k + p + 1 >= |xs| && xs[k] == id
  }

  /** One more disposal moves an entry at most one place towards the front, and its own ID to
      the back. */
  lemma DisposeNear(xs: seq<string>, y: string, id: string, p: nat, cap: nat)
    requires p < cap && (id == y || (p > 0 && Near(xs, id, p - 1)))
    ensures Near(Dispose(xs, y, cap), id, p)
  {
    var d := Dispose(xs, y, cap);
    assert d[|d| - 1] == y;
    if id != y {
      var k :| 0 <= k < |xs| && k + p >= |xs| && xs[k] == id;
      var a, b := xs[..k], xs[k + 1..];
      assert xs == a + ([id] + b) && ([id] + b)[1..] == b;
      WithoutConcat(a, [id] + b, y);
      WithoutShorter(b, y);
      var rest := Without(b, y) + [y];
      assert Without(xs, y) + [y] == Without(a, y) + [id] + rest;
      assert d[|d| - 1 - |rest|] == id;
    }
  }

  lemma {:induction false} WithoutShorter(xs: seq<string>, x: string)
    ensures |Without(xs, x)| <= |xs|
  {
    if xs != [] { WithoutShorter(xs[1..], x); }
  }

  lemma {:induction false} NearStays(xs: seq<string>, history: seq<string>, id: string, p: nat, cap: nat)
    requires Near(xs, id, p) && p + |history| < cap
    ensures id in DisposeAll(xs, history, cap)
    decreases |history|
  {
    if history == [] {
      var k :| 0 <= k < |xs| && xs[k] == id;
    } else {
      DisposeNear(xs, history[0], id, p + 1, cap);
      NearStays(Dispose(xs, history[0], cap), history[1..], id, p + 1, cap);
    }
  }

  /** Whatever the list held before, it holds the last `cap` disposals, and nothing that was
      neither disposed nor listed. */
  lemma {:induction false} DisposeAllOk(xs: seq<string>, history: seq<string>, id: string, cap: nat)
    ensures id in history && |history| <= cap ==> id in DisposeAll(xs, history, cap)
    ensures id in DisposeAll(xs, history, cap) ==> id in xs || id in history
    decreases |history|
  {
    if history != [] {
      var next := Dispose(xs, history[0], cap);
      WithoutMembers(xs, history[0]);
      DisposeAllOk(next, history[1..], id, cap);
      if id == history[0] && |history| <= cap {
        DisposeNear(xs, id, id, 0, cap);
        NearStays(next, history[1..], id, 0, cap);
      }
    }
  }

  /** An ID disposed among the last `cap` disposals is in the window. */
  lemma RecentIsInWindow(before: seq<string>, recent: seq<string>, id: string, cap: nat)
    requires id in recent && |recent| <= cap
    ensures id in Window(before + recent, cap)
  {
    ListRefinesHistory(before, recent, cap);
    DisposeAllOk(Window(before, cap), recent, id, cap);
  }

  // ---- the file

  /** Unicode White_Space, which is what trimming removes. */
  predicate IsSpace(c: char) {
    var n := c as int;
    9 <= n <= 13 || n == 0x20 || n == 0x85 || n == 0xA0 || n == 0x1680
    || 0x2000 <= n <= 0x200A || n == 0x2028 || n == 0x2029 || n == 0x202F || n == 0x205F || n == 0x3000
  }

  function TrimLeft(s: string): string {
    if s != "" && IsSpace(s[0]) then TrimLeft(s[1..]) else s
  }

  function TrimRight(s: string): string {
    if s != "" && IsSpace(s[|s| - 1]) then TrimRight(s[..|s| - 1]) else s
  }

  function Trim(s: string): string {
    TrimRight(TrimLeft(s))
  }

  /** What a line of the file can be: nonempty, trimmed, without a line break. Record names
      are among these. */
  predicate LineId(id: string) {
    id != "" && Tight(id) && forall i | 0 <= i < |id| :: id[i] != '\n'
  }

  predicate Tight(s: string) {
    s != "" ==> !IsSpace(s[0]) && !IsSpace(s[|s| - 1])
  }

  predicate OneLine(s: string) {
    forall i | 0 <= i < |s| :: s[i] != '\n'
  }

  /** Every nonempty name over letters, digits and hyphens is a proper line, record names
      included. */
  lemma NamesAreLines(id: string)
    requires id != ""
    requires forall c <- id :: 'a' <= c <= 'z' || 'A' <= c <= 'Z' || '0' <= c <= '9' || c == '-'
    ensures LineId(id)
  {
    assert id[0] in id && id[|id| - 1] in id && '\n' !in id;
  }

  lemma {:induction false} TrimLeftOk(s: string)
    ensures var r := TrimLeft(s); (r != "" ==> !IsSpace(r[0])) && (OneLine(s) ==> OneLine(r))
  {
    if s != "" && IsSpace(s[0]) { TrimLeftOk(s[1..]); }
  }

  lemma {:induction false} TrimRightOk(s: string)
    ensures var r := TrimRight(s);
            && (r != "" ==> !IsSpace(r[|r| - 1]) && s != "" && r[0] == s[0])
            && (OneLine(s) ==> OneLine(r))
  {
    if s != "" && IsSpace(s[|s| - 1]) { TrimRightOk(s[..|s| - 1]); }
  }

  lemma TrimOk(s: string)
    ensures Tight(Trim(s)) && (OneLine(s) ==> OneLine(Trim(s)))
    ensures Tight(s) ==> Trim(s) == s
  {
    TrimLeftOk(s);
    TrimRightOk(TrimLeft(s));
  }

  function Split(s: string, line: string := ""): seq<string>
    decreases |s|
  {
    if s == "" then [line]
    else if s[0] == '\n' then [line] + Split(s[1..])
    else Split(s[1..], line + [s[0]])
  }

  function Join(lines: seq<string>): string {
    if lines == [] then ""
    else if |lines| == 1 then lines[0]
    else lines[0] + "\n" + Join(lines[1..])
  }

  function Kept(parts: seq<string>): seq<string> {
    if parts == [] then []
    else (if Trim(parts[0]) != "" then [Trim(parts[0])] else []) + Kept(parts[1..])
  }

  function Lines(text: string): seq<string> {
    Kept(Split(text))
  }

  function Rendered(lines: seq<string>): string {
    Join(lines) + "\n"
  }

  lemma {:induction false} SplitLine(id: string, rest: string, line: string)
    requires forall i | 0 <= i < |id| :: id[i] != '\n'
    ensures Split(id + "\n" + rest, line) == [line + id] + Split(rest)
  {
    if id == "" {
      assert id + "\n" + rest == "\n" + rest && line + id == line;
      assert ("\n" + rest)[1..] == rest;
    } else {
      assert (id + "\n" + rest)[1..] == id[1..] + "\n" + rest;
      SplitLine(id[1..], rest, line + [id[0]]);
      assert line + [id[0]] + id[1..] == line + id;
    }
  }

  /** Reading back what was written gives the list that was written. */
  lemma {:induction false} LinesRoundTrip(lines: seq<string>)
    requires lines != [] && forall id <- lines :: LineId(id)
    ensures Lines(Rendered(lines)) == lines
  {
    var id := lines[0];
    assert LineId(id);
    TrimOk(id);
    if |lines| == 1 {
      assert Rendered(lines) == id + "\n" + "";
      SplitLine(id, "", "");
      assert Split("") == [""] && "" + id == id;
      assert Split(Rendered(lines)) == [id] + [""];
      assert Kept([id] + [""]) == [id] + Kept([""]);
      assert lines == [id];
    } else {
      var rest := Rendered(lines[1..]);
      assert Rendered(lines) == id + "\n" + rest;
      SplitLine(id, rest, "");
      assert "" + id == id;
      assert ([id] + Split(rest))[1..] == Split(rest);
      LinesRoundTrip(lines[1..]);
    }
  }

  lemma {:induction false} SplitOneLine(s: string, line: string)
    requires OneLine(line)
    ensures forall part <- Split(s, line) :: OneLine(part)
    decreases |s|
  {
    if s != "" {
      if s[0] == '\n' { SplitOneLine(s[1..], ""); } else { SplitOneLine(s[1..], line + [s[0]]); }
    }
  }

  lemma {:induction false} KeptAreLines(parts: seq<string>)
    requires forall part <- parts :: OneLine(part)
    ensures forall line <- Kept(parts) :: LineId(line)
  {
    if parts != [] {
      TrimOk(parts[0]);
      assert OneLine(parts[0]) && OneLine(Trim(parts[0]));
      KeptAreLines(parts[1..]);
    }
  }

  /** Whatever the file holds, each line read from it is a proper line. */
  lemma LinesAreLines(text: string)
    ensures forall line <- Lines(text) :: LineId(line)
  {
    SplitOneLine(text, "");
    KeptAreLines(Split(text));
  }

  /** The base directory: the text of disposed_ids if the file exists, and the record
      directories. */
  class Base {
    var text: Option<string>
    var dirs: set<string>

    constructor ()
      ensures text.None? && dirs == {}
    {
      text, dirs := None, {};
    }

    function Recorded(): seq<string>
      reads this
    {
      if text.Some? then Lines(text.value) else []
    }
  }

  /** The IDs a claim skips. */
  method LoadDisposedIds(base: Base) returns (ids: set<string>)
    ensures ids == set id | id in base.Recorded()
  {
    ids := {};
    if base.text.None? { return; }
    var parts := Split(base.text.value);
    for i := 0 to |parts|
      invariant ids == set id | id in Kept(parts[..i])
    {
      assert parts[..i + 1] == parts[..i] + [parts[i]];
      KeptSnoc(parts[..i], parts[i]);
      var line := Trim(parts[i]);
      if line != "" { ids := ids + {line}; }
    }
    assert parts[..|parts|] == parts;
  }

  lemma {:induction false} KeptSnoc(parts: seq<string>, part: string)
    ensures Kept(parts + [part]) == Kept(parts) + (if Trim(part) != "" then [Trim(part)] else [])
  {
    if parts == [] {
      assert parts + [part] == [part];
    } else {
      assert (parts + [part])[1..] == parts[1..] + [part];
      KeptSnoc(parts[1..], part);
    }
  }

  lemma {:induction false} WithoutSnoc(xs: seq<string>, y: string, x: string)
    ensures Without(xs + [y], x) == Without(xs, x) + (if y == x then [] else [y])
  {
    WithoutConcat(xs, [y], x);
    assert Without([y], x) == (if y == x then [] else [y]) + Without([], x);
  }

  /** The lines of the file other than `id`. */
  method OtherLines(text: string, id: string) returns (lines: seq<string>)
    ensures lines == Without(Lines(text), id)
  {
    lines := [];
    var parts := Split(text);
    for i := 0 to |parts|
      invariant lines == Without(Kept(parts[..i]), id)
    {
      assert parts[..i + 1] == parts[..i] + [parts[i]];
      KeptSnoc(parts[..i], parts[i]);
      var line := Trim(parts[i]);
      if line != "" {
        WithoutSnoc(Kept(parts[..i]), line, id);
        if line != id { lines := lines + [line]; }
      } else {
        assert Kept(parts[..i + 1]) == Kept(parts[..i]);
      }
    }
    assert parts[..|parts|] == parts;
  }

  /** Records one disposal. A failing write or rename leaves the old file. An ID that is not
      a proper line is written like any other, but is not read back as it was. */
  method RecordDisposedId(base: Base, id: string, stored: bool)
    modifies base`text
    ensures base.text == if stored then Some(Rendered(Dispose(old(base.Recorded()), id, MAX_DISPOSED))) else old(base.text)
    ensures stored && LineId(id) ==> base.Recorded() == Dispose(old(base.Recorded()), id, MAX_DISPOSED)
    ensures stored && LineId(id) ==> id in base.Recorded() && |base.Recorded()| <= 2048
  {
    var lines: seq<string> := [];
    if base.text.Some? {
      lines := OtherLines(base.text.value, id);
      LinesAreLines(base.text.value);
    }
    WithoutMembers(base.Recorded(), id);
    DisposeHolds(base.Recorded(), id, MAX_DISPOSED);
    assert lines == Without(base.Recorded(), id);
    lines := lines + [id];
    if |lines| > MAX_DISPOSED { lines := lines[|lines| - MAX_DISPOSED..]; }
    if stored {
      if LineId(id) { LinesRoundTrip(lines); }
      base.text := Some(Rendered(lines));
    }
  }

  lemma DisposeHolds(xs: seq<string>, id: string, cap: nat)
    requires cap > 0
    ensures id in Dispose(xs, id, cap) && |Dispose(xs, id, cap)| <= cap
  {
    assert Dispose(xs, id, cap)[|Dispose(xs, id, cap)| - 1] == id;
  }

  datatype Claim = Claimed(id: string) | MkdirFailed | Exhausted

  predicate Free(recorded: seq<string>, dirs: set<string>, id: string) {
    id !in recorded && id !in dirs
  }

  /** Candidate `i` is the first free one. */
  ghost predicate FirstFree(recorded: seq<string>, dirs: set<string>, candidate: nat -> string, i: nat) {
    Free(recorded, dirs, candidate(i)) && forall j: nat | j < i :: !Free(recorded, dirs, candidate(j))
  }

  /** Claims the first of at most 100 candidates that is neither disposed nor taken, and
      fails exactly when there is none. `mkdir(i)` is false if creating the directory of a
      free candidate fails. */
  method ClaimUniqueDir(base: Base, candidate: nat -> string, mkdir: nat -> bool) returns (claim: Claim)
    modifies base`dirs
    ensures base.dirs == old(base.dirs) + (if claim.Claimed? then {claim.id} else {})
    ensures claim.Claimed? ==>
              exists i: nat | i < MAX_RETRIES ::
                candidate(i) == claim.id && mkdir(i) && FirstFree(old(base.Recorded()), old(base.dirs), candidate, i)
    ensures claim.MkdirFailed? ==>
              exists i: nat | i < MAX_RETRIES ::
                !mkdir(i) && FirstFree(old(base.Recorded()), old(base.dirs), candidate, i)
    ensures claim.Exhausted? <==>
              forall i: nat | i < MAX_RETRIES :: !Free(old(base.Recorded()), old(base.dirs), candidate(i))
  {
    var disposed := LoadDisposedIds(base);
    ghost var recorded, dirs := base.Recorded(), base.dirs;
    for i := 0 to MAX_RETRIES
      invariant base.dirs == dirs
      invariant forall j: nat | j < i :: !Free(recorded, dirs, candidate(j))
    {
      var id := candidate(i);
      if id in disposed { continue; }
      if id in base.dirs { continue; }
      assert FirstFree(recorded, dirs, candidate, i);
      if !mkdir(i) { return MkdirFailed; }
      base.dirs := base.dirs + {id};
      return Claimed(id);
    }
    return Exhausted;
  }
}
