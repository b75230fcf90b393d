/** The slices in which the paths of the overridden settings are built: appending to a slice with
    spare capacity writes into an array that other slices share. */
module PathSlices {
  import opened ConfigEnvironment
  import opened Wrappers

  /** The backing arrays, as long as their capacity; the nil slice is on the empty array. */
  type Memory = seq<seq<string>>

  datatype Slice = Slice(array_: nat, len: nat)

  predicate Valid(mem: Memory, s: Slice) { s.array_ < |mem| && s.len <= |mem[s.array_]| }

  function Read(mem: Memory, s: Slice): Path
    requires Valid(mem, s)
  {
    mem[s.array_][..s.len]
  }

  /** How append grows a short slice of strings. */
  function GrownCapacity(capacity: nat): nat { if capacity == 0 then 1 else 2 * capacity }

  function Blank(n: nat): (r: seq<string>)
    ensures |r| == n
  {
    if n == 0 then [] else [""] + Blank(n - 1)
  }

  function Append(mem: Memory, s: Slice, x: string): (r: (Memory, Slice))
    requires Valid(mem, s)
    ensures Valid(r.0, r.1) && Read(r.0, r.1) == Read(mem, s) + [x]
  {
    var backing := mem[s.array_];
    if s.len < |backing| then
      (mem[s.array_ := backing[s.len := x]], Slice(s.array_, s.len + 1))
    else
      var spare := GrownCapacity(|backing|) - |backing| - 1;
      (mem + [backing + [x] + Blank(spare)], Slice(|mem|, s.len + 1))
  }

  /** getPathsRec as it runs. */
  function PathsInMemory(mem: Memory, entries: Entries, cur: Slice): (r: (Memory, seq<Slice>))
    requires Valid(mem, cur)
    ensures |mem| <= |r.0| && forall i :: 0 <= i < |mem| ==> |r.0[i]| == |mem[i]|
    ensures forall i :: 0 <= i < |r.1| ==> Valid(r.0, r.1[i])
    decreases entries
  {
    match entries
    case NoEntries => (mem, [])
    case Entry(name, value, rest) =>
      var (mem1, path) := Append(mem, cur, name);
      var (mem2, first) := match value case Overridden => (mem1, [path]) case Nested(sub) => PathsInMemory(mem1, sub, path);
      var (mem3, others) := PathsInMemory(mem2, rest, cur);
      (mem3, first + others)
  }

  ghost predicate Reads(mem: Memory, slices: seq<Slice>, paths: seq<Path>) {
    && |slices| == |paths|
    && forall i :: 0 <= i < |slices| ==> Valid(mem, slices[i]) && Read(mem, slices[i]) == paths[i]
  }

  // -------------------------------------------------- when the slices read as meant

  /** The capacity behind a slice of this length. */
  function Capacity(len: nat): (c: nat)
    ensures c >= len
  {
    if len == 0 then 0 else if len <= Capacity(len - 1) then Capacity(len - 1) else GrownCapacity(Capacity(len - 1))
  }

  predicate Spare(len: nat) { len < Capacity(len) }

  predicate Fits(mem: Memory, s: Slice) { Valid(mem, s) && |mem[s.array_]| == Capacity(s.len) }

  predicate HasEntry(entries: Entries, name: string) {
    entries.Entry? && (entries.name == name || HasEntry(entries.rest, name))
  }

  /** A map of maps, none of them empty below the first. */
  predicate IsMap(entries: Entries) {
    match entries
    case NoEntries => true
    case Entry(name, value, rest) =>
      && !HasEntry(rest, name) && IsMap(rest)
      && (value.Nested? ==> value.entries != NoEntries && IsMap(value.entries))
  }

  function LastName(entries: Entries): (name: string)
    requires entries != NoEntries
    ensures HasEntry(entries, name)
  {
    if entries.rest == NoEntries then entries.name else LastName(entries.rest)
  }

  /** All settings have more than `limit` names, `len` of them above these entries. */
  predicate LongerThan(entries: Entries, len: nat, limit: nat) {
    match entries
    case NoEntries => true
    case Entry(_, value, rest) =>
      LongerThan(rest, len, limit) && if value.Nested? then LongerThan(value.entries, len + 1, limit) else len + 1 > limit
  }

  /** Wherever a name goes into a spare slot, the names that follow it on its level go into the
      same slot: then no setting below it may still use the array. */
  predicate Safe(entries: Entries, len: nat) {
    match entries
    case NoEntries => true
    case Entry(_, value, rest) =>
      && Safe(rest, len) && (value.Nested? ==> Safe(value.entries, len + 1))
      && (Spare(len) && rest != NoEntries ==> value.Nested? && LongerThan(value.entries, len + 1, Capacity(len)))
  }

  predicate Elsewhere(slices: seq<Slice>, array_: nat) { forall i :: 0 <= i < |slices| ==> slices[i].array_ != array_ }

  /** Only the free part of the current array, and new arrays, are written. */
  ghost predicate Untouched(mem: Memory, cur: Slice, mem': Memory)
    requires Fits(mem, cur)
  {
    && |mem| <= |mem'|
    && (forall a :: 0 <= a < |mem| && a != cur.array_ ==> mem'[a] == mem[a])
    && |mem'[cur.array_]| == |mem[cur.array_]| && mem'[cur.array_][..cur.len] == mem[cur.array_][..cur.len]
    && (!Spare(cur.len) ==> mem'[cur.array_] == mem[cur.array_])
  }

  ghost predicate Placed(size: nat, cur: Slice, slices: seq<Slice>) {
    forall i :: 0 <= i < |slices| ==>
      slices[i].len > cur.len && (slices[i].array_ >= size || (slices[i].array_ == cur.array_ && Spare(cur.len)))
  }

  lemma AppendFits(mem: Memory, s: Slice, x: string)
    requires Fits(mem, s)
    ensures var (mem', s') := Append(mem, s, x);
      && Fits(mem', s') && s'.len == s.len + 1 && Untouched(mem, s, mem')
      && if Spare(s.len) then s'.array_ == s.array_ && |mem'| == |mem| && mem'[s.array_][s.len] == x
         else s'.array_ == |mem| && |mem'| == |mem| + 1
  {
  }

  lemma ReadsAppend(mem: Memory, a: seq<Slice>, b: seq<Slice>, p: seq<Path>, q: seq<Path>)
    requires |a| == |p|
    ensures Reads(mem, a + b, p + q) <==> Reads(mem, a, p) && Reads(mem, b, q)
  {
    if Reads(mem, a + b, p + q) {
      assert forall i :: 0 <= i < |a| ==> (a + b)[i] == a[i] && (p + q)[i] == p[i];
      assert forall i :: 0 <= i < |b| ==> (a + b)[|a| + i] == b[i] && (p + q)[|p| + i] == q[i];
    }
  }

  /** What is elsewhere still reads the same. */
  lemma ElsewhereSurvives(mem: Memory, cur: Slice, mem': Memory, slices: seq<Slice>, paths: seq<Path>)
    requires Fits(mem, cur) && Untouched(mem, cur, mem')
    requires Elsewhere(slices, cur.array_) || !Spare(cur.len)
    requires forall i :: 0 <= i < |slices| ==> Valid(mem, slices[i])
    ensures Reads(mem', slices, paths) <==> Reads(mem, slices, paths)
  {
    hide Spare, Capacity;
    assert forall i :: 0 <= i < |slices| ==> mem'[slices[i].array_] == mem[slices[i].array_];
  }

  /** A path whose name was overwritten reads wrong. */
  lemma OverwrittenReadsWrong(mem: Memory, cur: Slice, slices: seq<Slice>, paths: seq<Path>, name: string)
    requires !Elsewhere(slices, cur.array_) && |slices| == |paths|
    requires forall i :: 0 <= i < |slices| ==> Valid(mem, slices[i]) && slices[i].len > cur.len
    requires forall i :: 0 <= i < |paths| ==> |paths[i]| > cur.len && paths[i][cur.len] == name
    requires cur.array_ < |mem| && cur.len < |mem[cur.array_]| && mem[cur.array_][cur.len] != name
    ensures !Reads(mem, slices, paths)
  {
    var i :| 0 <= i < |slices| && slices[i].array_ == cur.array_;
    assert Read(mem, slices[i])[cur.len] == mem[cur.array_][cur.len];
  }

  lemma {:induction false} PathsExtend(entries: Entries, cur: Path)
    ensures forall i :: 0 <= i < |PathsOf(entries, cur)| ==> cur < PathsOf(entries, cur)[i]
  {
    match entries
    case NoEntries =>
    case Entry(name, value, rest) =>
      PathsExtend(rest, cur);
      if value.Nested? {
        PathsExtend(value.entries, cur + [name]);
      }
  }

  /** Everything about one pass; in particular the slices read as the paths meant exactly when the
      entries are safe. */
  ghost predicate Outcome(mem: Memory, entries: Entries, cur: Slice, mem': Memory, slices: seq<Slice>)
    requires Fits(mem, cur)
  {
    && Untouched(mem, cur, mem') && Placed(|mem|, cur, slices)
    && (entries != NoEntries && Spare(cur.len) ==> mem'[cur.array_][cur.len] == LastName(entries))
    && (LongerThan(entries, cur.len, Capacity(cur.len)) <==> Elsewhere(slices, cur.array_))
    && |slices| == |PathsOf(entries, Read(mem, cur))|
    && (Safe(entries, cur.len) <==> Reads(mem', slices, PathsOf(entries, Read(mem, cur))))
  }

  /** What the pass has done after one entry and what is below it. */
  ghost predicate FirstOutcome(mem: Memory, name: string, value: Overrides, cur: Slice, mem': Memory, slices: seq<Slice>, paths: seq<Path>)
    requires Fits(mem, cur)
  {
    && Untouched(mem, cur, mem') && Placed(|mem|, cur, slices)
    && (Spare(cur.len) ==> mem'[cur.array_][cur.len] == name)
    && (Elsewhere(slices, cur.array_) <==>
          (Spare(cur.len) ==> value.Nested? && LongerThan(value.entries, cur.len + 1, Capacity(cur.len))))
    && |slices| == |paths|
    && (forall i :: 0 <= i < |slices| ==> Valid(mem', slices[i]))
    && (forall i :: 0 <= i < |paths| ==> |paths[i]| > cur.len && paths[i][cur.len] == name)
    && ((value.Nested? ==> Safe(value.entries, cur.len + 1)) <==> Reads(mem', slices, paths))
  }

  lemma {:induction false} AllAreLonger(entries: Entries, len: nat, limit: nat)
    requires len >= limit
    ensures LongerThan(entries, len, limit)
  {
    if entries.Entry? {
      AllAreLonger(entries.rest, len, limit);
      if entries.value.Nested? {
        AllAreLonger(entries.value.entries, len + 1, limit);
      }
    }
  }

  lemma SettingDone(mem: Memory, name: string, cur: Slice)
    requires Fits(mem, cur)
    ensures var (mem1, path) := Append(mem, cur, name);
      FirstOutcome(mem, name, Overridden, cur, mem1, [path], [Read(mem1, path)])
  {
    AppendFits(mem, cur, name);
    hide Append, Capacity;
    var (mem1, path) := Append(mem, cur, name);
    assert [path][0] == path;
  }

  lemma SectionDone(mem: Memory, name: string, sub: Entries, cur: Slice, mem1: Memory, path: Slice, mem2: Memory, first: seq<Slice>)
    requires Fits(mem, cur) && (mem1, path) == Append(mem, cur, name) && Fits(mem1, path)
    requires Outcome(mem1, sub, path, mem2, first)
    requires forall i :: 0 <= i < |first| ==> Valid(mem2, first[i])
    ensures FirstOutcome(mem, name, Nested(sub), cur, mem2, first, PathsOf(sub, Read(mem1, path)))
  {
    AppendFits(mem, cur, name);
    PathsExtend(sub, Read(mem1, path));
    assert Read(mem1, path) == Read(mem, cur) + [name];
    if Spare(cur.len) {
      assert Capacity(cur.len + 1) == Capacity(cur.len);
    } else {
      AllAreLonger(sub, cur.len + 1, Capacity(cur.len));
    }
    hide Append, Capacity, LongerThan, Safe, PathsOf, Reads;
    UntouchedBelow(mem, cur, mem1, path, mem2);
    hide Untouched;
  }

  lemma UntouchedBelow(mem: Memory, cur: Slice, mem1: Memory, path: Slice, mem2: Memory)
    requires Fits(mem, cur) && Fits(mem1, path) && Untouched(mem, cur, mem1) && Untouched(mem1, path, mem2)
    requires path.len == cur.len + 1
    requires if Spare(cur.len) then path.array_ == cur.array_ else path.array_ == |mem|
    ensures Untouched(mem, cur, mem2)
    ensures Spare(cur.len) ==> mem2[cur.array_][cur.len] == mem1[cur.array_][cur.len]
  {
    hide Spare, Capacity;
    assert mem1[path.array_][..path.len][..cur.len] == mem1[path.array_][..cur.len];
    assert mem2[path.array_][..path.len][..cur.len] == mem2[path.array_][..cur.len];
    assert mem2[path.array_][..path.len][cur.len] == mem1[path.array_][..path.len][cur.len];
  }

  lemma LastWritten(mem: Memory, entries: Entries, cur: Slice, mem2: Memory, first: seq<Slice>, paths: seq<Path>,
                    mem3: Memory, others: seq<Slice>)
    requires Fits(mem, cur) && entries.Entry? && Fits(mem2, cur)
    requires FirstOutcome(mem, entries.name, entries.value, cur, mem2, first, paths)
    requires Outcome(mem2, entries.rest, cur, mem3, others) && (entries.rest == NoEntries ==> mem3 == mem2)
    ensures Untouched(mem, cur, mem3) && Placed(|mem|, cur, first + others)
    ensures Spare(cur.len) ==> mem3[cur.array_][cur.len] == LastName(entries)
  {
    hide Safe, Reads, PathsOf, LongerThan, Elsewhere, Untouched, Placed, Capacity;
    UntouchedTwice(mem, cur, mem2, mem3);
    Bigger(mem, cur, mem2);
    PlacedBoth(|mem|, |mem2|, cur, first, others);
  }

  lemma Bigger(mem: Memory, cur: Slice, mem': Memory)
    requires Fits(mem, cur) && Untouched(mem, cur, mem')
    ensures |mem| <= |mem'|
  {
  }

  lemma LongerIff(mem: Memory, entries: Entries, cur: Slice, mem2: Memory, first: seq<Slice>, paths: seq<Path>,
                  mem3: Memory, others: seq<Slice>)
    requires Fits(mem, cur) && entries.Entry? && Fits(mem2, cur)
    requires FirstOutcome(mem, entries.name, entries.value, cur, mem2, first, paths)
    requires Outcome(mem2, entries.rest, cur, mem3, others)
    ensures LongerThan(entries, cur.len, Capacity(cur.len)) <==> Elsewhere(first + others, cur.array_)
  {
    ElsewhereBoth(first, others, cur.array_);
    if !Spare(cur.len) {
      AllAreLonger(entries, cur.len, Capacity(cur.len));
      AllAreLonger(entries.rest, cur.len, Capacity(cur.len));
    }
    hide Safe, Reads, PathsOf, Elsewhere, Untouched, Placed, Capacity, Fits, LastName;
  }

  lemma SafeIff(mem: Memory, entries: Entries, cur: Slice, mem2: Memory, first: seq<Slice>, paths: seq<Path>,
                mem3: Memory, others: seq<Slice>)
    requires Fits(mem, cur) && IsMap(entries) && entries.Entry? && Fits(mem2, cur)
    requires FirstOutcome(mem, entries.name, entries.value, cur, mem2, first, paths)
    requires Outcome(mem2, entries.rest, cur, mem3, others) && (entries.rest == NoEntries ==> mem3 == mem2)
    requires PathsOf(entries, Read(mem, cur)) == paths + PathsOf(entries.rest, Read(mem, cur))
    ensures |first + others| == |PathsOf(entries, Read(mem, cur))|
    ensures Safe(entries, cur.len) <==> Reads(mem3, first + others, PathsOf(entries, Read(mem, cur)))
  {
    SameBelow(mem, cur, mem2);
    FirstThenRest(mem, entries, cur, mem2, first, paths, mem3);
    hide PathsOf, Reads, Capacity, Untouched, Placed, Fits, LastName, IsMap;
    ReadsAppend(mem3, first, others, paths, PathsOf(entries.rest, Read(mem, cur)));
  }

  lemma SameBelow(mem: Memory, cur: Slice, mem': Memory)
    requires Fits(mem, cur) && Fits(mem', cur) && Untouched(mem, cur, mem')
    ensures Read(mem', cur) == Read(mem, cur)
  {
    hide Spare, Capacity;
  }

  /** One entry and the others after it. */
  lemma EntryDone(mem: Memory, entries: Entries, cur: Slice, mem2: Memory, first: seq<Slice>, paths: seq<Path>,
                  mem3: Memory, others: seq<Slice>)
    requires Fits(mem, cur) && IsMap(entries) && entries.Entry? && Fits(mem2, cur)
    requires FirstOutcome(mem, entries.name, entries.value, cur, mem2, first, paths)
    requires Outcome(mem2, entries.rest, cur, mem3, others) && (entries.rest == NoEntries ==> mem3 == mem2)
    requires PathsOf(entries, Read(mem, cur)) == paths + PathsOf(entries.rest, Read(mem, cur))
    ensures Outcome(mem, entries, cur, mem3, first + others)
  {
    LastWritten(mem, entries, cur, mem2, first, paths, mem3, others);
    LongerIff(mem, entries, cur, mem2, first, paths, mem3, others);
    SafeIff(mem, entries, cur, mem2, first, paths, mem3, others);
    hide Fits, IsMap, FirstOutcome, PathsOf, Read, Untouched, Placed, Spare, LastName, LongerThan, Capacity, Elsewhere,
         Safe, Reads;
  }

  lemma UntouchedTwice(mem: Memory, cur: Slice, mem2: Memory, mem3: Memory)
    requires Fits(mem, cur) && Fits(mem2, cur) && Untouched(mem, cur, mem2) && Untouched(mem2, cur, mem3)
    ensures Untouched(mem, cur, mem3)
  {
    hide Spare, Capacity;
  }

  lemma PlacedBoth(size: nat, size2: nat, cur: Slice, a: seq<Slice>, b: seq<Slice>)
    requires Placed(size, cur, a) && Placed(size2, cur, b) && size <= size2
    ensures Placed(size, cur, a + b)
  {
    hide Spare;
  }

  lemma ElsewhereBoth(a: seq<Slice>, b: seq<Slice>, array_: nat)
    ensures Elsewhere(a + b, array_) <==> Elsewhere(a, array_) && Elsewhere(b, array_)
  {
    assert forall i :: 0 <= i < |a| ==> (a + b)[i] == a[i];
    assert forall i :: 0 <= i < |b| ==> (a + b)[|a| + i] == b[i];
  }

  /** The rest leaves the first slices readable unless it writes the slot of their name. */
  lemma FirstThenRest(mem: Memory, entries: Entries, cur: Slice, mem2: Memory, first: seq<Slice>, paths: seq<Path>, mem3: Memory)
    requires Fits(mem, cur) && IsMap(entries) && entries.Entry? && Fits(mem2, cur)
    requires FirstOutcome(mem, entries.name, entries.value, cur, mem2, first, paths)
    requires Untouched(mem2, cur, mem3) && (entries.rest == NoEntries ==> mem3 == mem2)
    requires entries.rest != NoEntries && Spare(cur.len) ==> mem3[cur.array_][cur.len] == LastName(entries.rest)
    ensures Reads(mem3, first, paths) <==>
      Reads(mem2, first, paths) && (Spare(cur.len) && entries.rest != NoEntries ==> Elsewhere(first, cur.array_))
  {
    hide Reads, Safe, LongerThan, Capacity;
    if entries.rest == NoEntries {
    } else if !Spare(cur.len) || Elsewhere(first, cur.array_) {
      ElsewhereSurvives(mem2, cur, mem3, first, paths);
    } else {
      assert LastName(entries.rest) != entries.name;
      OverwrittenReadsWrong(mem3, cur, first, paths, entries.name);
    }
  }

  lemma {:induction false} PassOutcome(mem: Memory, entries: Entries, cur: Slice)
    requires Fits(mem, cur) && IsMap(entries)
    ensures var (mem', slices) := PathsInMemory(mem, entries, cur);
      Outcome(mem, entries, cur, mem', slices)
    decreases entries
  {
    match entries
    case NoEntries =>
    case Entry(name, value, rest) =>
      var (mem1, path) := Append(mem, cur, name);
      AppendFits(mem, cur, name);
      SettingDone(mem, name, cur);
      var (mem2, first) := match value case Overridden => (mem1, [path]) case Nested(sub) => PathsInMemory(mem1, sub, path);
      var paths := match value case Overridden => [Read(mem1, path)] case Nested(sub) => PathsOf(sub, Read(mem1, path));
      var (mem3, others) := PathsInMemory(mem2, rest, cur);
      assert PathsInMemory(mem, entries, cur) == (mem3, first + others);
      assert rest == NoEntries ==> mem3 == mem2;
      assert PathsOf(entries, Read(mem, cur)) == paths + PathsOf(rest, Read(mem, cur));
      hide Append, PathsInMemory, PathsOf, Outcome, FirstOutcome, Capacity;
      if value.Nested? {
        PassOutcome(mem1, value.entries, path);
        SectionDone(mem, name, value.entries, cur, mem1, path, mem2, first);
      }
      FirstFits(mem, name, value, cur, mem2, first, paths);
      PassOutcome(mem2, rest, cur);
      EntryDone(mem, entries, cur, mem2, first, paths, mem3, others);
  }

  lemma FirstFits(mem: Memory, name: string, value: Overrides, cur: Slice, mem': Memory, slices: seq<Slice>, paths: seq<Path>)
    requires Fits(mem, cur) && FirstOutcome(mem, name, value, cur, mem', slices, paths)
    ensures Fits(mem', cur)
  {
  }

  function ReadAll(mem: Memory, slices: seq<Slice>): (paths: seq<Path>)
    requires forall i :: 0 <= i < |slices| ==> Valid(mem, slices[i])
    ensures Reads(mem, slices, paths)
  {
    seq(|slices|, i requires 0 <= i < |slices| => Read(mem, slices[i]))
  }

  /** What getPaths returns for the overrides, walked in this order. */
  function PathsFound(entries: Entries): seq<Path> {
    var (mem, slices) := PathsInMemory([[]], entries, Slice(0, 0));
    ReadAll(mem, slices)
  }

  /** getPaths gives the paths meant exactly when no name goes into a slot that a setting still
      uses. */
  lemma PathsAreRightIff(entries: Entries)
    requires IsMap(entries)
    ensures PathsFound(entries) == PathsOf(entries, []) <==> Safe(entries, 0)
  {
    assert Fits([[]], Slice(0, 0)) && Read([[]], Slice(0, 0)) == [];
    PassOutcome([[]], entries, Slice(0, 0));
    hide PathsInMemory, PathsOf, Safe;
    var (mem, slices) := PathsInMemory([[]], entries, Slice(0, 0));
    SameReading(mem, slices, PathsOf(entries, []));
  }

  lemma SameReading(mem: Memory, slices: seq<Slice>, paths: seq<Path>)
    requires forall i :: 0 <= i < |slices| ==> Valid(mem, slices[i])
    ensures ReadAll(mem, slices) == paths <==> Reads(mem, slices, paths)
  {
  }

  // ----------------------------------------------------------- which entries are safe

  predicate Shares(p: Path, q: Path, k: nat) { |p| >= k && |q| >= k && p[..k] == q[..k] }

  /** No two settings share their first k names. */
  ghost predicate ApartFrom(entries: Entries, k: nat) {
    forall p, q :: Listed(entries, p) && Listed(entries, q) && p != q ==> !Shares(p, q, k)
  }

  lemma NothingToShare(p: Path, q: Path)
    ensures Shares(p, q, 0)
  {
  }

  lemma OneSetting(entries: Entries)
    requires IsMap(entries) && entries.Entry? && ApartFrom(entries, 0)
    ensures entries.rest == NoEntries
  {
    if entries.rest != NoEntries {
      var p := SomethingListed(entries);
      var q := SomethingListed(entries.rest);
      assert Listed(entries, q) && p != q;
      hide Shares;
      NothingToShare(p, q);
    }
  }

  lemma {:induction false} SomethingListed(entries: Entries) returns (p: Path)
    requires IsMap(entries) && entries != NoEntries
    ensures Listed(entries, p) && p != [] && p[0] == entries.name
  {
    match entries.value
    case Overridden =>
      p := [entries.name];
    case Nested(sub) =>
      var q := SomethingListed(sub);
      p := [entries.name] + q;
      assert p[1..] == q;
  }

  /** Whatever the order of the walk: settings that are apart within their first three names are
      safe, however deep they are. */
  lemma {:induction false} ApartIsSafe(entries: Entries, len: nat)
    requires IsMap(entries) && ApartFrom(entries, if len < 3 then 3 - len else 0)
    ensures Safe(entries, len)
    decreases entries
  {
    match entries
    case NoEntries =>
    case Entry(name, value, rest) =>
      var k := if len < 3 then 3 - len else 0;
      ApartBelow(entries, k);
      ApartIsSafe(rest, len);
      if value.Nested? {
        ApartIsSafe(value.entries, len + 1);
      }
      if len < 3 {
        SmallIsFull(len);
      } else {
        OneSetting(entries);
      }
  }

  lemma SmallIsFull(len: nat)
    requires len < 3
    ensures !Spare(len)
  {
    assert Capacity(1) == 1 && Capacity(2) == 2;
  }

  lemma SharesOneMore(name: string, p: Path, q: Path, k: nat)
    requires Shares(p, q, if k == 0 then 0 else k - 1)
    ensures Shares([name] + p, [name] + q, k)
  {
    assert k > 0 ==> ([name] + p)[..k] == [name] + p[..k - 1] && ([name] + q)[..k] == [name] + q[..k - 1];
  }

  lemma ApartBelow(entries: Entries, k: nat)
    requires entries.Entry? && ApartFrom(entries, k)
    ensures ApartFrom(entries.rest, k)
    ensures entries.value.Nested? ==> ApartFrom(entries.value.entries, if k == 0 then 0 else k - 1)
  {
    if entries.value.Nested? {
      var sub, k' := entries.value.entries, if k == 0 then 0 else k - 1;
      forall p, q | Listed(sub, p) && Listed(sub, q) && p != q
        ensures !Shares(p, q, k')
      {
        var x, y := [entries.name] + p, [entries.name] + q;
        assert x[1..] == p && y[1..] == q;
        assert Listed(entries, x) && Listed(entries, y) && x != y;
        if Shares(p, q, k') {
          SharesOneMore(entries.name, p, q, k);
        }
      }
    }
  }

  /** The generated map in the order in which it is walked. */
  ghost predicate Walks(entries: Entries, fs: Fields, env: Environment) {
    IsMap(entries) && forall p :: Listed(entries, p) <==> Listed(Generate(fs, "MM", Keys(env)), p)
  }

  /** For instance in the order of the fields. */
  lemma FieldOrderWalks(fs: Fields, env: Environment)
    requires Distinct(fs)
    ensures Walks(Generate(fs, "MM", Keys(env)), fs, env)
  {
    GeneratedIsMap(fs, "MM", Keys(env));
    hide Generate;
  }

  lemma {:induction false} GeneratedIsMap(fs: Fields, base: string, env: set<string>)
    requires Distinct(fs)
    ensures IsMap(Generate(fs, base, env))
    ensures forall x :: HasEntry(Generate(fs, base, env), x) ==> HasName(fs, x)
  {
    hide Upper;
    if fs.Cons? {
      GeneratedIsMap(fs.rest, base, env);
      if fs.node.Section? {
        GeneratedIsMap(fs.node.fields, base + "_" + fs.name, env);
      }
    }
  }

  lemma WalkedPaths(entries: Entries, fs: Fields, env: Environment)
    requires Distinct(fs) && Walks(entries, fs, env)
    ensures Lists(PathsOf(entries, []), fs, env)
  {
    hide Generate, PathsOf, KeyOf;
    GeneratedPaths(fs, env);
    forall p
      ensures p in PathsOf(entries, []) <==> p in PathsOf(Generate(fs, "MM", Keys(env)), [])
    {
      PathsAreListed(entries, [], p);
      PathsAreListed(Generate(fs, "MM", Keys(env)), [], p);
      assert p[0..] == p;
    }
  }

  lemma SafePathsAreListed(entries: Entries, fs: Fields, env: Environment)
    requires Distinct(fs) && Walks(entries, fs, env) && Safe(entries, 0)
    ensures Lists(PathsFound(entries), fs, env)
  {
    hide Safe, PathsFound, PathsOf, Lists;
    PathsAreRightIff(entries);
    WalkedPaths(entries, fs, env);
  }

  function Depth(fs: Fields): nat {
    match fs
    case Nil => 0
    case Cons(_, node, rest) =>
      var here := 1 + if node.Section? && !node.pointer then Depth(node.fields) else 0;
      if Depth(rest) > here then Depth(rest) else here
  }

  lemma {:induction false} FieldDepth(fs: Fields, name: string)
    requires HasName(fs, name)
    ensures var node := NodeOf(fs, name);
      Depth(fs) >= 1 + if node.Section? && !node.pointer then Depth(node.fields) else 0
  {
    if fs.name != name {
      FieldDepth(fs.rest, name);
    }
  }

  lemma {:induction false} MarkableDepth(fs: Fields, p: Path)
    requires Markable(fs, p)
    ensures |p| <= Depth(fs)
    decreases |p|
  {
    FieldDepth(fs, p[0]);
    if NodeOf(fs, p[0]).Section? && !NodeOf(fs, p[0]).pointer {
      MarkableDepth(NodeOf(fs, p[0]).fields, p[1..]);
    }
  }

  lemma ShortOnesDoNot(p: Path, q: Path)
    requires |p| <= 3 && |q| <= 3 && p != q
    ensures !Shares(p, q, 3)
  {
    if |p| == 3 && |q| == 3 {
      assert p[..3] == p && q[..3] == q;
    }
  }

  /** Up to three names deep every walk is safe. */
  lemma ShallowIsSafe(entries: Entries, fs: Fields, env: Environment)
    requires Distinct(fs) && Depth(fs) <= 3 && Walks(entries, fs, env)
    ensures Safe(entries, 0)
  {
    forall p | Listed(entries, p)
      ensures |p| <= 3
    {
      GenerateListsIff(fs, "MM", Keys(env), p);
      MarkableDepth(fs, p);
    }
    hide Listed, Generate, Markable;
    forall p, q | Listed(entries, p) && Listed(entries, q) && p != q
      ensures !Shares(p, q, 3)
    {
      ShortOnesDoNot(p, q);
    }
    ApartIsSafe(entries, 0);
  }

  // ------------------------------------------------------------------ the whole way

  /** Apply the environment, collect the paths of the overrides in slices, in any order of the
      walk that is safe, and remove them again. It panics exactly when a variable reaches a list of
      other than strings or names a section behind a pointer, and otherwise gives the configuration
      back exactly when the keys that reach a setting not overridden by its own key leave it as it
      is; so always when every key spells out the setting it reaches. */
  method ApplyAndRemove(parsers: Parsers, fs: Fields, env: Environment, entries: Entries) returns (r: Option<Fields>)
    requires Distinct(fs) && Walks(entries, fs, env) && Safe(entries, 0)
    ensures r.None? <==> RefusesSome(fs, env) || NamesPointer(fs, env)
    ensures r.Some? ==> (r.value == fs <==> LeavesRest(parsers, fs, env))
    ensures r.Some? && SpellSettings(fs, env) ==> r.value == fs
  {
    hide *;
    var applied := ApplyEnvironment(parsers, fs, env);
    ApplyPanicsIff(parsers, fs, env);
    if applied.None? {
      return None;
    }
    var paths := PathsFound(entries);
    SafePathsAreListed(entries, fs, env);
    RemovalPanicsIff(fs, env, paths);
    AppliedPaths(parsers, fs, env, paths);
    r := RemoveOverrides(applied.value, fs, paths);
    if r.Some? {
      RoundTripIff(parsers, fs, env, paths, r.value);
      if SpellSettings(fs, env) {
        RoundTrip(parsers, fs, env, paths, r.value);
      }
    }
  }

  /** The listed paths on the applied configuration. */
  lemma AppliedPaths(parsers: Parsers, fs: Fields, env: Environment, paths: seq<Path>)
    requires Distinct(fs) && Lists(paths, fs, env) && ApplyAll(parsers, fs, env).Some?
    ensures var applied := ApplyAll(parsers, fs, env).value;
      && SameShape(applied, fs)
      && (ArePaths(applied, paths) <==> ArePaths(fs, paths))
      && forall i :: 0 <= i < |paths| ==> Markable(applied, paths[i]) || IsPath(applied, paths[i])
  {
    var applied := ApplyAll(parsers, fs, env).value;
    ApplyPanicsIff(parsers, fs, env);
    ShapeSymmetric(fs, applied);
    PathsAlike(fs, applied, paths);
    assert forall i :: 0 <= i < |paths| ==> paths[i] in paths;
  }

  lemma PathsAlike(fs: Fields, applied: Fields, paths: seq<Path>)
    requires SameShape(fs, applied)
    ensures ArePaths(fs, paths) <==> ArePaths(applied, paths)
    ensures forall p :: Markable(fs, p) <==> Markable(applied, p)
  {
    forall i | 0 <= i < |paths|
      ensures IsPath(fs, paths[i]) <==> IsPath(applied, paths[i])
    {
      ShapePaths(fs, applied, paths[i]);
    }
    forall p
      ensures Markable(fs, p) <==> Markable(applied, p)
    {
      MarkableAlike(fs, applied, p);
    }
  }

  lemma {:induction false} MarkableAlike(a: Fields, b: Fields, p: Path)
    requires SameShape(a, b)
    ensures Markable(a, p) <==> Markable(b, p)
    decreases |p|
  {
    if p != [] {
      ShapeNodes(a, b, p[0]);
      if HasName(a, p[0]) && NodeOf(a, p[0]).Section? {
        MarkableAlike(NodeOf(a, p[0]).fields, NodeOf(b, p[0]).fields, p[1..]);
      }
    }
  }

  /** The capacities 1, 2, 4: a third name leaves a slot to spare, which both fourth names use. */
  lemma FourthSlotIsShared(x: string, y: string, z: string, a: string, b: string)
    ensures Append([[]], Slice(0, 0), x) == ([[], [x]], Slice(1, 1))
    ensures Append([[], [x]], Slice(1, 1), y) == ([[], [x], [x, y]], Slice(2, 2))
    ensures Append([[], [x], [x, y]], Slice(2, 2), z) == ([[], [x], [x, y], [x, y, z, ""]], Slice(3, 3))
    ensures Append([[], [x], [x, y], [x, y, z, ""]], Slice(3, 3), a) ==
            ([[], [x], [x, y], [x, y, z, a]], Slice(3, 4))
    ensures Append([[], [x], [x, y], [x, y, z, a]], Slice(3, 3), b) ==
            ([[], [x], [x, y], [x, y, z, b]], Slice(3, 4))
  {
    assert [] + [x] + [] == [x] && [x] + [y] + [] == [x, y] && [x, y] + [z] + [""] == [x, y, z, ""];
    assert Blank(0) == [] && Blank(1) == [""];
    var m1, m2, m3 := [[], [x]], [[], [x], [x, y]], [[], [x], [x, y], [x, y, z, ""]];
    assert [[]] + [[x]] == m1 && m1 + [[x, y]] == m2 && m2 + [[x, y, z, ""]] == m3;
    assert ([x, y, z, ""])[3 := a] == [x, y, z, a] && ([x, y, z, a])[3 := b] == [x, y, z, b];
    var m4 := m3[3 := [x, y, z, a]];
    assert m4 == [[], [x], [x, y], [x, y, z, a]] && m4[3 := [x, y, z, b]] == [[], [x], [x, y], [x, y, z, b]];
  }

  /** One name deeper two settings of a section get one slot for their last names, and both
      paths name the second: the first keeps its override. */
  lemma FourthNameIsShared(x: string, y: string, z: string, a: string, b: string)
    ensures var settings := Entry(a, Overridden, Entry(b, Overridden, NoEntries));
      var entries := Entry(x, Nested(Entry(y, Nested(Entry(z, Nested(settings), NoEntries)), NoEntries)), NoEntries);
      var (mem, slices) := PathsInMemory([[]], entries, Slice(0, 0));
      Reads(mem, slices, [[x, y, z, b], [x, y, z, b]])
  {
    var settings := Entry(a, Overridden, Entry(b, Overridden, NoEntries));
    var m1, m2, m3 := [[], [x]], [[], [x], [x, y]], [[], [x], [x, y], [x, y, z, ""]];
    var m4, m5 := [[], [x], [x, y], [x, y, z, a]], [[], [x], [x, y], [x, y, z, b]];
    var s1, s2, s3 := Slice(1, 1), Slice(2, 2), Slice(3, 3);
    FourthSlotIsShared(x, y, z, a, b);
    hide Append;
    var none: seq<Slice>, one := [], [Slice(3, 4)];
    assert one + none == one && one + one == [Slice(3, 4), Slice(3, 4)] && (one + one) + none == one + one;
    assert PathsInMemory(m5, NoEntries, s3) == (m5, none);
    assert PathsInMemory(m4, Entry(b, Overridden, NoEntries), s3) == (m5, [Slice(3, 4)]);
    assert PathsInMemory(m3, settings, s3) == (m5, [Slice(3, 4), Slice(3, 4)]);
    var inZ := Entry(z, Nested(settings), NoEntries);
    assert PathsInMemory(m2, inZ, s2) == (m5, [Slice(3, 4), Slice(3, 4)]);
    var inY := Entry(y, Nested(inZ), NoEntries);
    assert PathsInMemory(m1, inY, s1) == (m5, [Slice(3, 4), Slice(3, 4)]);
  }
}
