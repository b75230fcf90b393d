/** Environment overrides of the server configuration: the splitting traversal that applies a
    variable, the concatenating traversal that tells which settings are overridden, and the
    removal of the overrides before the configuration is stored. */
module ConfigEnvironment {
  import opened Wrappers

  /** `ForeignKind` is a list of anything but strings: setting it panics. */
  datatype Kind = StringKind | BoolKind | IntKind | RawJsonKind | WordsKind | MapKind | ForeignKind | OtherKind

  datatype Value = Text(text: string) | Flag(flag: bool) | Number(number: int) | Words(words: seq<string>) | Json(json: string)

  /** The library calls that read a value. */
  datatype Parsers = Parsers(
    parseBool: string -> Option<bool>,
    parseInt: string -> Option<int>,
    splitWords: string -> seq<string>,
    parseMap: string -> Option<string>)

  /** A setting, whose value None is a nil pointer, or a section, plain or behind a pointer. The
      fields of an embedded section are promoted: they are found under the section around it too. */
  datatype Node = Leaf(kind: Kind, value: Option<Value>) | Section(pointer: bool, embedded: bool, fields: Fields)

  datatype Fields = Nil | Cons(name: string, node: Node, rest: Fields)

  type Path = seq<string>

  // ----------------------------------------------------------------- upper case

  function UpperChar(c: char): char { if 'a' <= c <= 'z' then (c as int - 32) as char else c }

  function Upper(s: string): (r: string)
    ensures |r| == |s| && forall i :: 0 <= i < |s| ==> r[i] == UpperChar(s[i])
  {
    if s == "" then "" else [UpperChar(s[0])] + Upper(s[1..])
  }

  /** The variable name, without its prefix, that spells out a path. */
  function KeyOf(p: Path): string
    requires p != []
  {
    if |p| == 1 then Upper(p[0]) else Upper(p[0]) + "_" + KeyOf(p[1..])
  }

  predicate IsLower(c: char) { 'a' <= c <= 'z' }

  lemma UpperCharIs(c: char)
    ensures !IsLower(UpperChar(c))
    ensures UpperChar(c) as int - c as int == if IsLower(c) then 'A' as int - 'a' as int else 0
  {
  }

  /** A variable's name is in upper case throughout: names that differ in case only share it. */
  lemma {:induction false} KeyIsUpper(p: Path, i: nat)
    requires p != [] && i < |KeyOf(p)|
    ensures !IsLower(KeyOf(p)[i])
  {
    hide UpperChar;
    var first := Upper(p[0]);
    if i < |first| {
      UpperCharIs(p[0][i]);
    } else if i > |first| {
      KeyIsUpper(p[1..], i - |first| - 1);
    }
  }

  lemma {:induction false} UpperIff(a: string, b: string)
    requires |a| == |b|
    ensures Upper(a) == Upper(b) <==> forall i :: 0 <= i < |a| ==> SameLetter(a[i], b[i])
  {
    if Upper(a) == Upper(b) {
      forall i | 0 <= i < |a|
        ensures SameLetter(a[i], b[i])
      {
        assert Upper(a)[i] == Upper(b)[i];
      }
    }
  }

  /** The same, but for the case of an ASCII letter. */
  predicate SameLetter(c: char, d: char) {
    c == d || (IsLower(c) && c as int - 'a' as int == d as int - 'A' as int)
           || (IsLower(d) && d as int - 'a' as int == c as int - 'A' as int)
  }

  // -------------------------------------------------------------- splitting keys

  function FirstPart(key: string): string {
    if key == "" || key[0] == '_' then "" else [key[0]] + FirstPart(key[1..])
  }

  /** What follows the first underscore. */
  function Rest(key: string): (r: Option<string>)
    ensures r.Some? ==> |r.value| < |key|
  {
    if key == "" then None else if key[0] == '_' then Some(key[1..]) else Rest(key[1..])
  }

  predicate NoUnderscore(s: string) { forall i :: 0 <= i < |s| ==> s[i] != '_' }

  lemma {:induction false} SplitJoined(a: string, b: string)
    requires NoUnderscore(a)
    ensures FirstPart(a) == a && Rest(a) == None
    ensures FirstPart(a + "_" + b) == a && Rest(a + "_" + b) == Some(b)
  {
    var key := a + "_" + b;
    if a == "" {
      assert key[1..] == b;
    } else {
      SplitJoined(a[1..], b);
      assert key[1..] == a[1..] + "_" + b;
      assert key[0] == a[0];
    }
  }

  // ------------------------------------------------------------- fields and paths

  /** What a field is looked up by: its very name, or a part of a key. */
  datatype Sought = Exactly(name: string) | SpelledAs(part: string)

  predicate Hits(sought: Sought, name: string) {
    match sought
    case Exactly(n) => name == n
    case SpelledAs(part) => Upper(name) == part
  }

  /** How many fields match, `depth` embedded sections down. */
  function Matching(fs: Fields, sought: Sought, depth: nat): nat
    decreases fs
  {
    match fs
    case Nil => 0
    case Cons(name, node, rest) =>
      Matching(rest, sought, depth)
      + if depth == 0 then if Hits(sought, name) then 1 else 0
        else if node.Section? && node.embedded then Matching(node.fields, sought, depth - 1)
        else 0
  }

  function FirstMatching(fs: Fields, sought: Sought, depth: nat): (r: (Path, Node))
    requires Matching(fs, sought, depth) > 0
    ensures r.0 != []
    decreases fs
  {
    if depth == 0 && Hits(sought, fs.name) then ([fs.name], fs.node)
    else if depth > 0 && fs.node.Section? && fs.node.embedded && Matching(fs.node.fields, sought, depth - 1) > 0 then
      var (p, node) := FirstMatching(fs.node.fields, sought, depth - 1);
      ([fs.name] + p, node)
    else FirstMatching(fs.rest, sought, depth)
  }

  /** How deep sections are embedded in sections. */
  function Embeddings(fs: Fields): nat {
    match fs
    case Nil => 0
    case Cons(_, node, rest) =>
      var here := if node.Section? && node.embedded then 1 + Embeddings(node.fields) else 0;
      if Embeddings(rest) > here then Embeddings(rest) else here
  }

  /** FieldByNameFunc from some depth on: the match at the first depth that has one, if it is the
      only one there. */
  function FindFrom(fs: Fields, sought: Sought, depth: nat): (r: Option<(Path, Node)>)
    decreases Embeddings(fs) - depth
  {
    if Matching(fs, sought, depth) == 1 then Some(FirstMatching(fs, sought, depth))
    else if Matching(fs, sought, depth) > 1 || depth >= Embeddings(fs) then None
    else FindFrom(fs, sought, depth + 1)
  }

  function Find(fs: Fields, sought: Sought): (r: Option<(Path, Node)>) { FindFrom(fs, sought, 0) }

  lemma {:induction false} NothingDeeper(fs: Fields, sought: Sought, depth: nat)
    requires depth > Embeddings(fs)
    ensures Matching(fs, sought, depth) == 0
    decreases fs
  {
    if fs.Cons? {
      NothingDeeper(fs.rest, sought, depth);
      if fs.node.Section? && fs.node.embedded {
        NothingDeeper(fs.node.fields, sought, depth - 1);
      }
    }
  }

  /** The shallowest depth with a match, if there is any. */
  ghost predicate IsShallowest(fs: Fields, sought: Sought, depth: nat) {
    Matching(fs, sought, depth) > 0 && forall d: nat :: d < depth ==> Matching(fs, sought, d) == 0
  }

  lemma {:induction false} FindFromIff(fs: Fields, sought: Sought, from: nat, depth: nat)
    requires IsShallowest(fs, sought, depth) && from <= depth
    ensures FindFrom(fs, sought, from)
         == if Matching(fs, sought, depth) == 1 then Some(FirstMatching(fs, sought, depth)) else None
    decreases depth - from
  {
    if depth > Embeddings(fs) {
      NothingDeeper(fs, sought, depth);
    } else if from < depth {
      FindFromIff(fs, sought, from + 1, depth);
    }
  }

  lemma {:induction false} FindFromNone(fs: Fields, sought: Sought, from: nat)
    requires forall d: nat :: Matching(fs, sought, d) == 0
    ensures FindFrom(fs, sought, from) == None
    decreases Embeddings(fs) - from
  {
    if from < Embeddings(fs) {
      FindFromNone(fs, sought, from + 1);
    }
  }

  /** Go's rule for promoted fields: what is found is the one match at the shallowest depth that has
      any, however deep, and nothing if there are several there. */
  lemma FindIff(fs: Fields, sought: Sought)
    ensures Find(fs, sought).Some? <==> exists depth: nat :: IsShallowest(fs, sought, depth) && Matching(fs, sought, depth) == 1
    ensures forall depth: nat :: IsShallowest(fs, sought, depth) && Matching(fs, sought, depth) == 1 ==>
              Find(fs, sought) == Some(FirstMatching(fs, sought, depth))
  {
    if d: nat :| Matching(fs, sought, d) > 0 {
      var depth := Shallowest(fs, sought, d);
      FindFromIff(fs, sought, 0, depth);
      assert forall other: nat :: IsShallowest(fs, sought, other) ==> other == depth;
    } else {
      FindFromNone(fs, sought, 0);
    }
  }

  lemma {:induction false} Shallowest(fs: Fields, sought: Sought, d: nat) returns (depth: nat)
    requires Matching(fs, sought, d) > 0
    ensures IsShallowest(fs, sought, depth)
  {
    if e: nat :| e < d && Matching(fs, sought, e) > 0 {
      depth := Shallowest(fs, sought, e);
    } else {
      depth := d;
    }
  }

  function Replace(fs: Fields, name: string, node: Node): Fields {
    match fs
    case Nil => Nil
    case Cons(n, other, rest) => if n == name then Cons(n, node, rest) else Cons(n, other, Replace(rest, name, node))
  }

  predicate HasName(fs: Fields, name: string) {
    fs.Cons? && (fs.name == name || HasName(fs.rest, name))
  }

  function NodeOf(fs: Fields, name: string): (r: Node)
    requires HasName(fs, name)
    ensures r < fs
  {
    if fs.name == name then fs.node else NodeOf(fs.rest, name)
  }

  predicate IsPath(fs: Fields, p: Path)
    decreases |p|
  {
    && p != [] && HasName(fs, p[0])
    && match NodeOf(fs, p[0])
       case Leaf(_, _) => |p| == 1
       case Section(_, _, sub) => IsPath(sub, p[1..])
  }

  /** A path that crosses no pointer. */
  predicate Plain(fs: Fields, p: Path)
    requires IsPath(fs, p)
    decreases |p|
  {
    match NodeOf(fs, p[0])
    case Leaf(_, _) => true
    case Section(pointer, _, sub) => !pointer && Plain(sub, p[1..])
  }

  /** What the walk of getVal along a path comes to: it panics when it needs a name and the path
      has none left, and a name that is no field ends it without a value. */
  datatype Walk = Panics | NoField | Found(leaf: Node)

  /** FieldByName: a field of the section itself comes first. */
  function FieldNamed(fs: Fields, name: string): Option<Node> {
    if HasName(fs, name) then Some(NodeOf(fs, name))
    else match Find(fs, Exactly(name)) case None => None case Some((_, node)) => Some(node)
  }

  /** getVal, which follows pointers and stops at the first setting. */
  function GetVal(fs: Fields, p: Path): Walk
    decreases |p|
  {
    if p == [] then Panics
    else
      match FieldNamed(fs, p[0])
      case None => NoField
      case Some(Leaf(kind, value)) => Found(Leaf(kind, value))
      case Some(Section(_, _, sub)) => GetVal(sub, p[1..])
  }

  /** The setting at a path. */
  function GetLeaf(fs: Fields, p: Path): (r: Node)
    requires IsPath(fs, p)
    ensures r.Leaf?
    decreases |p|
  {
    match NodeOf(fs, p[0])
    case Leaf(kind, value) => Leaf(kind, value)
    case Section(_, _, sub) => GetLeaf(sub, p[1..])
  }

  function PutLeaf(fs: Fields, p: Path, leaf: Node): Fields
    requires IsPath(fs, p)
    decreases |p|
  {
    match NodeOf(fs, p[0])
    case Leaf(_, _) => Replace(fs, p[0], leaf)
    case Section(pointer, embedded, sub) => Replace(fs, p[0], Section(pointer, embedded, PutLeaf(sub, p[1..], leaf)))
  }

  /** The path of a field, setting or section. */
  predicate IsField(fs: Fields, at: Path)
    decreases |at|
  {
    && at != [] && HasName(fs, at[0])
    && (|at| == 1 || (NodeOf(fs, at[0]).Section? && IsField(NodeOf(fs, at[0]).fields, at[1..])))
  }

  function NodeAt(fs: Fields, at: Path): Node
    requires IsField(fs, at)
    decreases |at|
  {
    if |at| == 1 then NodeOf(fs, at[0]) else NodeAt(NodeOf(fs, at[0]).fields, at[1..])
  }

  function PutNode(fs: Fields, at: Path, node: Node): Fields
    decreases |at|
  {
    if at == [] || !HasName(fs, at[0]) then fs
    else if |at| == 1 then Replace(fs, at[0], node)
    else
      match NodeOf(fs, at[0])
      case Leaf(_, _) => fs
      case Section(pointer, embedded, sub) => Replace(fs, at[0], Section(pointer, embedded, PutNode(sub, at[1..], node)))
  }

  /** Go allows no two fields of one name. */
  predicate Distinct(fs: Fields) {
    match fs
    case Nil => true
    case Cons(name, node, rest) => !HasName(rest, name) && (node.Section? ==> Distinct(node.fields)) && Distinct(rest)
  }

  // ------------------------------------------------------------------ the traversals

  function SetValue(parsers: Parsers, kind: Kind, was: Value, text: string): Value {
    match kind
    case StringKind => Text(text)
    case BoolKind => (match parsers.parseBool(text) case Some(b) => Flag(b) case None => was)
    case IntKind => (match parsers.parseInt(text) case Some(n) => Number(n) case None => was)
    case RawJsonKind => Json(text)
    case WordsKind => Words(parsers.splitWords(text))
    case MapKind => (match parsers.parseMap(text) case Some(m) => Json(m) case None => was)
    case ForeignKind => was
    case OtherKind => was
  }

  function SetLeaf(parsers: Parsers, leaf: Node, text: string): Node
    requires leaf.Leaf?
  {
    if leaf.value.None? then leaf else leaf.(value := Some(SetValue(parsers, leaf.kind, leaf.value.value, text)))
  }

  /** There is something to set, and it cannot be set to a list of words. */
  predicate Refuses(leaf: Node) { leaf.Leaf? && leaf.kind == ForeignKind && leaf.value.Some? }

  /** applyEnvKey: follows pointers, and ignores what is left of the key at a setting. None stands
      for the panic of setting a list of other than strings. */
  function ApplyKey(parsers: Parsers, fs: Fields, key: string, text: string): Option<Fields>
    decreases |key|
  {
    match Find(fs, SpelledAs(FirstPart(key)))
    case None => Some(fs)
    case Some((at, Leaf(kind, value))) =>
      if Refuses(Leaf(kind, value)) then None
      else Some(PutNode(fs, at, SetLeaf(parsers, Leaf(kind, value), text)))
    case Some((at, Section(pointer, embedded, sub))) =>
      if Rest(key).None? then Some(fs)
      else
        match ApplyKey(parsers, sub, Rest(key).value, text)
        case None => None
        case Some(sub') => Some(PutNode(fs, at, Section(pointer, embedded, sub')))
  }

  /** The setting the key gets to, if any. */
  function Reach(fs: Fields, key: string): Option<Path>
    decreases |key|
  {
    match Find(fs, SpelledAs(FirstPart(key)))
    case None => None
    case Some((at, Leaf(_, _))) => Some(at)
    case Some((at, Section(_, _, sub))) =>
      if Rest(key).None? then None
      else match Reach(sub, Rest(key).value)
           case None => None
           case Some(p) => Some(at + p)
  }

  lemma {:induction false} FirstMatchingIsField(fs: Fields, sought: Sought, depth: nat)
    requires Distinct(fs) && Matching(fs, sought, depth) > 0
    ensures var (at, node) := FirstMatching(fs, sought, depth);
      IsField(fs, at) && NodeAt(fs, at) == node && (node.Section? ==> Distinct(node.fields))
    decreases fs
  {
    var (at, node) := FirstMatching(fs, sought, depth);
    if depth == 0 && Hits(sought, fs.name) {
    } else if depth > 0 && fs.node.Section? && fs.node.embedded && Matching(fs.node.fields, sought, depth - 1) > 0 {
      FirstMatchingIsField(fs.node.fields, sought, depth - 1);
      assert at[1..] == FirstMatching(fs.node.fields, sought, depth - 1).0;
    } else {
      FirstMatchingIsField(fs.rest, sought, depth);
    }
  }

  lemma {:induction false} FoundIsField(fs: Fields, sought: Sought, depth: nat)
    requires Distinct(fs) && FindFrom(fs, sought, depth).Some?
    ensures var (at, node) := FindFrom(fs, sought, depth).value;
      IsField(fs, at) && NodeAt(fs, at) == node && (node.Section? ==> Distinct(node.fields))
    decreases Embeddings(fs) - depth
  {
    if Matching(fs, sought, depth) == 1 {
      FirstMatchingIsField(fs, sought, depth);
    } else {
      FoundIsField(fs, sought, depth + 1);
    }
  }

  /** A field that is a setting. */
  lemma {:induction false} LeafAt(fs: Fields, at: Path, leaf: Node)
    requires IsField(fs, at) && NodeAt(fs, at).Leaf?
    ensures IsPath(fs, at) && GetLeaf(fs, at) == NodeAt(fs, at) && PutLeaf(fs, at, leaf) == PutNode(fs, at, leaf)
    decreases |at|
  {
    if |at| > 1 {
      LeafAt(NodeOf(fs, at[0]).fields, at[1..], leaf);
    }
  }

  /** A setting inside a field that is a section. */
  lemma {:induction false} LeafInside(fs: Fields, at: Path, p: Path, leaf: Node)
    requires IsField(fs, at) && NodeAt(fs, at).Section? && IsPath(NodeAt(fs, at).fields, p)
    ensures var section := NodeAt(fs, at);
      && IsPath(fs, at + p) && GetLeaf(fs, at + p) == GetLeaf(section.fields, p)
      && PutLeaf(fs, at + p, leaf) == PutNode(fs, at, section.(fields := PutLeaf(section.fields, p, leaf)))
    decreases |at|
  {
    assert (at + p)[1..] == at[1..] + p;
    if |at| > 1 {
      LeafInside(NodeOf(fs, at[0]).fields, at[1..], p, leaf);
    } else {
      assert at[1..] + p == p;
    }
  }

  lemma {:induction false} PutSame(fs: Fields, at: Path)
    requires IsField(fs, at)
    ensures PutNode(fs, at, NodeAt(fs, at)) == fs
    decreases |at|
  {
    ReplaceSame(fs, at[0]);
    if |at| > 1 {
      PutSame(NodeOf(fs, at[0]).fields, at[1..]);
    }
  }

  /** Applying a key writes the one setting it reaches and nothing else, or panics there. */
  lemma {:induction false} ApplyWritesReached(parsers: Parsers, fs: Fields, key: string, text: string)
    requires Distinct(fs)
    ensures match Reach(fs, key)
      case None => ApplyKey(parsers, fs, key, text) == Some(fs)
      case Some(p) =>
        && IsPath(fs, p)
        && ApplyKey(parsers, fs, key, text)
           == if Refuses(GetLeaf(fs, p)) then None else Some(PutLeaf(fs, p, SetLeaf(parsers, GetLeaf(fs, p), text)))
    decreases |key|
  {
    var found := Find(fs, SpelledAs(FirstPart(key)));
    if found.Some? {
      FoundIsField(fs, SpelledAs(FirstPart(key)), 0);
      var (at, node) := found.value;
      hide Find, FindFrom, IsPath, PutLeaf, PutNode, GetLeaf, IsField, NodeAt, Distinct;
      if node.Leaf? {
        LeafAt(fs, at, SetLeaf(parsers, node, text));
      } else if Rest(key).Some? {
        ApplyWritesReached(parsers, node.fields, Rest(key).value, text);
        var q := Reach(node.fields, Rest(key).value);
        if q.Some? {
          LeafInside(fs, at, q.value, SetLeaf(parsers, GetLeaf(node.fields, q.value), text));
        } else {
          PutSame(fs, at);
        }
      }
    }
  }

  lemma {:induction false} ReplaceSame(fs: Fields, name: string)
    requires HasName(fs, name)
    ensures Replace(fs, name, NodeOf(fs, name)) == fs
  {
    if fs.name != name {
      ReplaceSame(fs.rest, name);
    }
  }

  // ------------------------------------------------------- which settings are overridden

  datatype Overrides = Overridden | Nested(entries: Entries)

  datatype Entries = NoEntries | Entry(name: string, value: Overrides, rest: Entries)

  /** generateEnvironmentMapWithBaseKey without its filter; NoEntries is the nil map. */
  function Generate(fs: Fields, base: string, env: set<string>): Entries {
    match fs
    case Nil => NoEntries
    case Cons(name, node, rest) =>
      var others := Generate(rest, base, env);
      if node.Section? && !node.pointer then
        var val := Generate(node.fields, base + "_" + name, env);
        if val != NoEntries then Entry(name, Nested(val), others) else others
      else if Upper(base + "_" + name) in env then Entry(name, Overridden, others)
      else others
  }

  /** No section is listed without a setting that is overridden. */
  lemma {:induction false} NoEmptySections(fs: Fields, base: string, env: set<string>)
    ensures AllFilled(Generate(fs, base, env))
  {
    if fs.Cons? {
      NoEmptySections(fs.rest, base, env);
      if fs.node.Section? {
        NoEmptySections(fs.node.fields, base + "_" + fs.name, env);
      }
    }
  }

  predicate AllFilled(entries: Entries) {
    match entries
    case NoEntries => true
    case Entry(_, Overridden, rest) => AllFilled(rest)
    case Entry(_, Nested(sub), rest) => sub != NoEntries && AllFilled(sub) && AllFilled(rest)
  }

  /** getPathsRec, with the path so far as a value. */
  function PathsOf(entries: Entries, cur: Path): seq<Path> {
    match entries
    case NoEntries => []
    case Entry(name, Overridden, rest) => [cur + [name]] + PathsOf(rest, cur)
    case Entry(name, Nested(sub), rest) => PathsOf(sub, cur + [name]) + PathsOf(rest, cur)
  }

  predicate Listed(entries: Entries, p: Path) {
    match entries
    case NoEntries => false
    case Entry(name, value, rest) =>
      || (p != [] && p[0] == name && match value case Overridden => |p| == 1 case Nested(sub) => Listed(sub, p[1..]))
      || Listed(rest, p)
  }

  lemma {:induction false} PathsAreListed(entries: Entries, cur: Path, p: Path)
    ensures p in PathsOf(entries, cur) <==> cur <= p && Listed(entries, p[|cur|..])
  {
    match entries
    case NoEntries =>
    case Entry(name, Overridden, rest) =>
      PathsAreListed(rest, cur, p);
      if cur <= p && |p| == |cur| + 1 && p[|cur|] == name {
        assert p == cur + [name];
      }
    case Entry(name, Nested(sub), rest) =>
      PathsAreListed(rest, cur, p);
      PathsAreListed(sub, cur + [name], p);
      if cur < p {
        assert p[|cur|..][1..] == p[|cur| + 1..];
        assert cur + [name] <= p <==> p[|cur|] == name;
      } else if cur <= p {
        assert !Listed(sub, []) && p[|cur|..] == [] by { NothingIsListed(sub); }
      }
  }

  lemma {:induction false} NothingIsListed(entries: Entries)
    ensures !Listed(entries, [])
  {
    if entries.Entry? {
      NothingIsListed(entries.rest);
    }
  }

  /** What the concatenating traversal stops at: through plain sections to a setting, or to a
      pointer, be it to a section. */
  predicate Markable(fs: Fields, p: Path)
    decreases |p|
  {
    && p != [] && HasName(fs, p[0])
    && match NodeOf(fs, p[0])
       case Leaf(_, _) => |p| == 1
       case Section(pointer, _, sub) => if pointer then |p| == 1 else Markable(sub, p[1..])
  }

  lemma UpperJoin(a: string, b: string)
    ensures Upper(a + "_" + b) == Upper(a) + "_" + Upper(b)
  {
  }

  /** The overridden settings are those whose whole key is in the environment. */
  lemma {:induction false} GenerateListsIff(fs: Fields, base: string, env: set<string>, p: Path)
    requires Distinct(fs)
    ensures Listed(Generate(fs, base, env), p) <==> Markable(fs, p) && Upper(base) + "_" + KeyOf(p) in env
  {
    match fs
    case Nil =>
    case Cons(name, node, rest) =>
      GenerateListsIff(rest, base, env, p);
      UpperJoin(base, name);
      hide Upper;
      if node.Section? && !node.pointer {
        if p != [] && p[0] == name {
          GenerateListsIff(node.fields, base + "_" + name, env, p[1..]);
          JoinOneMore(base, p);
        }
      } else {
        assert p != [] && |p| == 1 ==> KeyOf(p) == Upper(p[0]);
      }
  }

  lemma JoinOneMore(base: string, p: Path)
    requires p != []
    ensures |p| > 1 ==> Upper(base) + "_" + KeyOf(p) == Upper(base + "_" + p[0]) + "_" + KeyOf(p[1..])
  {
    UpperJoin(base, p[0]);
    hide Upper;
  }

  // ----------------------------------------------------------------- writing a setting

  lemma {:induction false} NodeOfReplace(fs: Fields, name: string, node: Node, other: string)
    requires HasName(fs, name)
    ensures HasName(Replace(fs, name, node), other) <==> HasName(fs, other)
    ensures HasName(fs, other) ==>
      NodeOf(Replace(fs, name, node), other) == if other == name then node else NodeOf(fs, other)
  {
    if fs.name != name {
      NodeOfReplace(fs.rest, name, node, other);
    } else if other != name && HasName(fs.rest, other) {
      assert NodeOf(fs, other) == NodeOf(fs.rest, other);
    }
  }

  /** The same fields, kinds, pointers and embeddings, and the same pointers nil. */
  predicate SameShape(a: Fields, b: Fields) {
    match a
    case Nil => b.Nil?
    case Cons(name, node, rest) => b.Cons? && b.name == name && SameNode(node, b.node) && SameShape(rest, b.rest)
  }

  predicate SameNode(a: Node, b: Node) {
    match a
    case Leaf(kind, value) => b.Leaf? && b.kind == kind && b.value.Some? == value.Some?
    case Section(pointer, embedded, sub) =>
      b.Section? && b.pointer == pointer && b.embedded == embedded && SameShape(sub, b.fields)
  }

  lemma {:induction false} ShapeNodes(a: Fields, b: Fields, name: string)
    requires SameShape(a, b)
    ensures HasName(a, name) <==> HasName(b, name)
    ensures HasName(a, name) ==> SameNode(NodeOf(a, name), NodeOf(b, name))
  {
    if a.Cons? {
      ShapeNodes(a.rest, b.rest, name);
    }
  }

  lemma {:induction false} ShapePaths(a: Fields, b: Fields, p: Path)
    requires SameShape(a, b)
    ensures IsPath(a, p) <==> IsPath(b, p)
    ensures IsPath(a, p) ==> SameNode(GetLeaf(a, p), GetLeaf(b, p))
    decreases |p|
  {
    if p != [] {
      ShapeNodes(a, b, p[0]);
      if HasName(a, p[0]) && NodeOf(a, p[0]).Section? {
        ShapePaths(NodeOf(a, p[0]).fields, NodeOf(b, p[0]).fields, p[1..]);
      }
    }
  }

  lemma {:induction false} ShapeReflexive(a: Fields)
    ensures SameShape(a, a)
  {
    if a.Cons? {
      ShapeReflexive(a.rest);
      if a.node.Section? {
        ShapeReflexive(a.node.fields);
      }
    }
  }

  lemma {:induction false} ShapeTransitive(a: Fields, b: Fields, c: Fields)
    requires SameShape(a, b) && SameShape(b, c)
    ensures SameShape(a, c)
  {
    if a.Cons? {
      ShapeTransitive(a.rest, b.rest, c.rest);
      if a.node.Section? {
        ShapeTransitive(a.node.fields, b.node.fields, c.node.fields);
      }
    }
  }

  lemma {:induction false} ShapeSymmetric(a: Fields, b: Fields)
    requires SameShape(a, b)
    ensures SameShape(b, a)
  {
    if a.Cons? {
      ShapeSymmetric(a.rest, b.rest);
      if a.node.Section? {
        ShapeSymmetric(a.node.fields, b.node.fields);
      }
    }
  }

  lemma {:induction false} ShapeDistinct(a: Fields, b: Fields)
    requires SameShape(a, b) && Distinct(a)
    ensures Distinct(b)
  {
    if a.Cons? {
      ShapeNodes(a.rest, b.rest, a.name);
      ShapeDistinct(a.rest, b.rest);
      if a.node.Section? {
        ShapeDistinct(a.node.fields, b.node.fields);
      }
    }
  }

  lemma {:induction false} ReplaceKeepsShape(fs: Fields, name: string, node: Node)
    requires HasName(fs, name) && SameNode(NodeOf(fs, name), node)
    ensures SameShape(fs, Replace(fs, name, node))
  {
    if fs.name == name {
      ShapeReflexive(fs.rest);
    } else {
      ReplaceKeepsShape(fs.rest, name, node);
      if fs.node.Section? {
        ShapeReflexive(fs.node.fields);
      }
    }
  }

  lemma {:induction false} PutKeepsShape(fs: Fields, p: Path, leaf: Node)
    requires IsPath(fs, p) && SameNode(GetLeaf(fs, p), leaf)
    ensures SameShape(fs, PutLeaf(fs, p, leaf))
    decreases |p|
  {
    match NodeOf(fs, p[0])
    case Leaf(_, _) => ReplaceKeepsShape(fs, p[0], leaf);
    case Section(pointer, embedded, sub) =>
      PutKeepsShape(sub, p[1..], leaf);
      ReplaceKeepsShape(fs, p[0], Section(pointer, embedded, PutLeaf(sub, p[1..], leaf)));
  }

  /** Writing one setting changes that setting alone. */
  lemma {:induction false} GetAfterPut(fs: Fields, p: Path, leaf: Node, q: Path)
    requires IsPath(fs, p) && leaf.Leaf? && IsPath(fs, q)
    ensures IsPath(PutLeaf(fs, p, leaf), q)
    ensures GetLeaf(PutLeaf(fs, p, leaf), q) == if q == p then leaf else GetLeaf(fs, q)
    decreases |p|
  {
    match NodeOf(fs, p[0])
    case Leaf(_, _) =>
      NodeOfReplace(fs, p[0], leaf, q[0]);
      assert q[0] == p[0] ==> q == p;
    case Section(pointer, embedded, sub) =>
      if q[0] == p[0] {
        GetAfterPut(sub, p[1..], leaf, q[1..]);
        assert q == p <==> q[1..] == p[1..] by { assert p == [p[0]] + p[1..] && q == [q[0]] + q[1..]; }
      }
      NodeOfReplace(fs, p[0], Section(pointer, embedded, PutLeaf(sub, p[1..], leaf)), q[0]);
  }

  /** Configurations of one shape are equal when all their settings are. */
  lemma {:induction false} EqualIfSettingsAre(a: Fields, b: Fields)
    requires Distinct(a) && SameShape(a, b)
    requires forall p :: IsPath(a, p) && IsPath(b, p) ==> GetLeaf(a, p) == GetLeaf(b, p)
    ensures a == b
  {
    if a.Cons? {
      forall p | IsPath(a.rest, p) && IsPath(b.rest, p)
        ensures GetLeaf(a.rest, p) == GetLeaf(b.rest, p)
      {
        ShapeNodes(a.rest, b.rest, a.name);
        assert IsPath(a, p) && IsPath(b, p);
      }
      EqualIfSettingsAre(a.rest, b.rest);
      match a.node
      case Leaf(_, _) =>
        assert IsPath(a, [a.name]) && IsPath(b, [a.name]);
      case Section(_, _, sub) =>
        forall p | IsPath(sub, p) && IsPath(b.node.fields, p)
          ensures GetLeaf(sub, p) == GetLeaf(b.node.fields, p)
        {
          var q := [a.name] + p;
          assert q[1..] == p;
          assert IsPath(a, q) && IsPath(b, q);
        }
        EqualIfSettingsAre(sub, b.node.fields);
    }
  }

  // ------------------------------------------------------------- where the walk panics

  /** Through plain sections to a section behind a pointer. */
  predicate EndsAtPointer(fs: Fields, p: Path)
    decreases |p|
  {
    && p != [] && HasName(fs, p[0]) && NodeOf(fs, p[0]).Section?
    && if NodeOf(fs, p[0]).pointer then |p| == 1 else EndsAtPointer(NodeOf(fs, p[0]).fields, p[1..])
  }

  /** Of the paths that can be listed, the walk panics exactly on those that end at a section
      behind a pointer, and finds the setting on all others. */
  lemma {:induction false} WalkPanicsIff(fs: Fields, p: Path)
    requires Markable(fs, p)
    ensures GetVal(fs, p) == Panics <==> EndsAtPointer(fs, p)
    ensures IsPath(fs, p) <==> !EndsAtPointer(fs, p)
    decreases |p|
  {
    if NodeOf(fs, p[0]).Section? && !NodeOf(fs, p[0]).pointer {
      WalkPanicsIff(NodeOf(fs, p[0]).fields, p[1..]);
    }
  }

  lemma {:induction false} WalkFinds(fs: Fields, p: Path)
    requires IsPath(fs, p)
    ensures GetVal(fs, p) == Found(GetLeaf(fs, p))
    decreases |p|
  {
    if NodeOf(fs, p[0]).Section? {
      WalkFinds(NodeOf(fs, p[0]).fields, p[1..]);
    }
  }

  lemma {:induction false} WalkPanicsAlike(a: Fields, b: Fields, p: Path)
    requires SameShape(a, b)
    ensures GetVal(a, p) == Panics <==> GetVal(b, p) == Panics
    decreases |p|
  {
    if p != [] {
      ShapeNodes(a, b, p[0]);
      ShapeFinds(a, b, Exactly(p[0]), 0);
      var x, y := FieldNamed(a, p[0]), FieldNamed(b, p[0]);
      assert x.Some? <==> y.Some?;
      if x.Some? {
        assert SameNode(x.value, y.value);
        if x.value.Section? {
          WalkPanicsAlike(x.value.fields, y.value.fields, p[1..]);
        }
      }
    }
  }

  lemma {:induction false} ShapeMatching(a: Fields, b: Fields, sought: Sought, depth: nat)
    requires SameShape(a, b)
    ensures Matching(a, sought, depth) == Matching(b, sought, depth) && Embeddings(a) == Embeddings(b)
    decreases a
  {
    if a.Cons? {
      ShapeMatching(a.rest, b.rest, sought, depth);
      if a.node.Section? {
        ShapeMatching(a.node.fields, b.node.fields, sought, if depth == 0 then 0 else depth - 1);
      }
    }
  }

  lemma {:induction false} ShapeFirst(a: Fields, b: Fields, sought: Sought, depth: nat)
    requires SameShape(a, b) && Matching(a, sought, depth) > 0 && Matching(b, sought, depth) > 0
    ensures FirstMatching(a, sought, depth).0 == FirstMatching(b, sought, depth).0
    ensures SameNode(FirstMatching(a, sought, depth).1, FirstMatching(b, sought, depth).1)
    decreases a
  {
    if depth == 0 && Hits(sought, a.name) {
    } else if depth > 0 && a.node.Section? && a.node.embedded && Matching(a.node.fields, sought, depth - 1) > 0 {
      ShapeMatching(a.node.fields, b.node.fields, sought, depth - 1);
      ShapeFirst(a.node.fields, b.node.fields, sought, depth - 1);
    } else {
      if depth > 0 && a.node.Section? && a.node.embedded {
        ShapeMatching(a.node.fields, b.node.fields, sought, depth - 1);
      }
      ShapeFirst(a.rest, b.rest, sought, depth);
    }
  }

  lemma {:induction false} ShapeFinds(a: Fields, b: Fields, sought: Sought, depth: nat)
    requires SameShape(a, b)
    ensures match FindFrom(a, sought, depth)
      case None => FindFrom(b, sought, depth) == None
      case Some((at, node)) =>
        && FindFrom(b, sought, depth).Some? && FindFrom(b, sought, depth).value.0 == at
        && SameNode(node, FindFrom(b, sought, depth).value.1)
    decreases Embeddings(a) - depth
  {
    ShapeMatching(a, b, sought, depth);
    if Matching(a, sought, depth) == 1 {
      ShapeFirst(a, b, sought, depth);
    } else if Matching(a, sought, depth) == 0 && depth < Embeddings(a) {
      ShapeFinds(a, b, sought, depth + 1);
    }
  }

  /** The walks of one round of the removal. */
  lemma WalkOn(cfg: Fields, base: Fields, fs: Fields, p: Path)
    requires SameShape(cfg, base) && SameShape(cfg, fs) && (Markable(cfg, p) || IsPath(cfg, p))
    ensures IsPath(cfg, p) <==> GetVal(base, p) != Panics
    ensures IsPath(cfg, p) ==>
      && IsPath(fs, p) && IsPath(base, p)
      && GetVal(base, p) == Found(GetLeaf(base, p)) && GetVal(fs, p) == Found(GetLeaf(fs, p))
  {
    WalkPanicsAlike(cfg, base, p);
    ShapePaths(cfg, base, p);
    ShapePaths(cfg, fs, p);
    if IsPath(cfg, p) {
      WalkFinds(base, p);
      WalkFinds(fs, p);
    } else {
      WalkPanicsIff(cfg, p);
    }
  }

  // ------------------------------------------------------------ applying and removing

  /** The environment in some order of iteration. */
  type Environment = seq<(string, string)>

  function Keys(env: Environment): set<string> { set i | 0 <= i < |env| :: env[i].0 }

  function TrimPrefix(key: string): string { if "MM_" <= key then key[3..] else key }

  function ApplyAll(parsers: Parsers, fs: Fields, env: Environment): Option<Fields> {
    if env == [] then Some(fs)
    else
      match ApplyAll(parsers, fs, env[..|env| - 1])
      case None => None
      case Some(now) => ApplyKey(parsers, now, TrimPrefix(env[|env| - 1].0), env[|env| - 1].1)
  }

  /** A nil pointer stays nil, since there is nothing to set. */
  function Restored(now: Node, was: Node): Node
    requires now.Leaf?
  {
    if now.value.None? then now else was
  }

  predicate ArePaths(fs: Fields, paths: seq<Path>) { forall i :: 0 <= i < |paths| ==> IsPath(fs, paths[i]) }

  ghost predicate Removed(fs: Fields, base: Fields, paths: seq<Path>, fs': Fields) {
    && SameShape(fs, fs')
    && forall q :: IsPath(fs, q) && IsPath(base, q) && IsPath(fs', q) ==>
         GetLeaf(fs', q) == if q in paths then Restored(GetLeaf(fs, q), GetLeaf(base, q)) else GetLeaf(fs, q)
  }

  /** applyEnvironmentMap; None stands for a panic. */
  method ApplyEnvironment(parsers: Parsers, input: Fields, env: Environment) returns (r: Option<Fields>)
    ensures r == ApplyAll(parsers, input, env)
  {
    var fs := input;
    for i := 0 to |env|
      invariant ApplyAll(parsers, input, env[..i]) == Some(fs)
    {
      assert env[..i + 1][..i] == env[..i];
      var next := ApplyKey(parsers, fs, TrimPrefix(env[i].0), env[i].1);
      if next.None? {
        StaysNone(parsers, input, env, i + 1);
        return None;
      }
      fs := next.value;
    }
    assert env[..|env|] == env;
    r := Some(fs);
  }

  lemma {:induction false} StaysNone(parsers: Parsers, fs: Fields, env: Environment, i: nat)
    requires i <= |env| && ApplyAll(parsers, fs, env[..i]) == None
    ensures ApplyAll(parsers, fs, env) == None
    decreases |env|
  {
    if i == |env| {
      assert env[..i] == env;
    } else {
      assert env[..|env| - 1][..i] == env[..i];
      StaysNone(parsers, fs, env[..|env| - 1], i);
    }
  }

  lemma RemoveOne(fs: Fields, base: Fields, paths: seq<Path>, now: Fields, p: Path)
    requires SameShape(fs, base) && Removed(fs, base, paths, now) && IsPath(fs, p)
    ensures IsPath(now, p) && IsPath(base, p)
    ensures Removed(fs, base, paths + [p], PutLeaf(now, p, Restored(GetLeaf(now, p), GetLeaf(base, p))))
  {
    ShapePaths(fs, now, p);
    ShapePaths(fs, base, p);
    var leaf := Restored(GetLeaf(now, p), GetLeaf(base, p));
    var next := PutLeaf(now, p, leaf);
    PutKeepsShape(now, p, leaf);
    ShapeTransitive(fs, now, next);
    forall q | IsPath(fs, q) && IsPath(base, q) && IsPath(next, q)
      ensures GetLeaf(next, q) == if q in paths + [p] then Restored(GetLeaf(fs, q), GetLeaf(base, q)) else GetLeaf(fs, q)
    {
      ShapePaths(fs, now, q);
      GetAfterPut(now, p, leaf, q);
    }
  }

  function RemoveAll(cfg: Fields, base: Fields, paths: seq<Path>): (fs: Fields)
    requires SameShape(cfg, base) && ArePaths(cfg, paths)
    ensures Removed(cfg, base, paths, fs)
  {
    if paths == [] then ShapeReflexive(cfg); cfg
    else
      var p, front := paths[|paths| - 1], paths[..|paths| - 1];
      var now := RemoveAll(cfg, base, front);
      RemoveOne(cfg, base, front, now, p);
      assert paths == front + [p];
      PutLeaf(now, p, Restored(GetLeaf(now, p), GetLeaf(base, p)))
  }

  /** removeEnvOverrides: every listed setting gets the stored value back, the others keep theirs;
      None stands for the panic of the walk. */
  method RemoveOverrides(cfg: Fields, base: Fields, paths: seq<Path>) returns (r: Option<Fields>)
    requires SameShape(cfg, base)
    requires forall i :: 0 <= i < |paths| ==> Markable(cfg, paths[i]) || IsPath(cfg, paths[i])
    ensures r.Some? <==> ArePaths(cfg, paths)
    ensures r.Some? ==> r.value == RemoveAll(cfg, base, paths) && Removed(cfg, base, paths, r.value)
  {
    var fs := cfg;
    for i := 0 to |paths|
      invariant ArePaths(cfg, paths[..i]) && fs == RemoveAll(cfg, base, paths[..i])
    {
      WalkOn(cfg, base, fs, paths[i]);
      if GetVal(base, paths[i]) == Panics {
        return None;
      }
      assert paths[..i + 1][..i] == paths[..i];
      RemoveOne(cfg, base, paths[..i], fs, paths[i]);
      fs := PutLeaf(fs, paths[i], Restored(GetVal(fs, paths[i]).leaf, GetVal(base, paths[i]).leaf));
    }
    assert paths[..|paths|] == paths;
    r := Some(fs);
  }

  lemma SetKeepsNode(parsers: Parsers, leaf: Node, text: string)
    requires leaf.Leaf?
    ensures SameNode(leaf, SetLeaf(parsers, leaf, text))
  {
  }

  /** What the environment makes of one setting: the values of the keys that reach it, set one
      after the other. */
  function Fold(parsers: Parsers, fs: Fields, env: Environment, q: Path, leaf: Node): (r: Node)
    requires leaf.Leaf?
    ensures r.Leaf?
  {
    if env == [] then leaf
    else
      var (key, text) := env[|env| - 1];
      var before := Fold(parsers, fs, env[..|env| - 1], q, leaf);
      if Reach(fs, TrimPrefix(key)) == Some(q) then SetLeaf(parsers, before, text) else before
  }

  /** The key reaches a list of other than strings. */
  predicate RefusesKey(fs: Fields, key: string) {
    match Reach(fs, key)
    case None => false
    case Some(p) => IsPath(fs, p) && Refuses(GetLeaf(fs, p))
  }

  ghost predicate RefusesSome(fs: Fields, env: Environment) {
    exists i :: 0 <= i < |env| && RefusesKey(fs, TrimPrefix(env[i].0))
  }

  lemma ApplyOne(parsers: Parsers, fs: Fields, key: string, text: string)
    requires Distinct(fs)
    ensures ApplyKey(parsers, fs, key, text).None? <==> RefusesKey(fs, key)
    ensures !RefusesKey(fs, key) ==> SameShape(fs, ApplyKey(parsers, fs, key, text).value)
    ensures !RefusesKey(fs, key) ==> forall q :: IsPath(fs, q) ==>
      && IsPath(ApplyKey(parsers, fs, key, text).value, q)
      && GetLeaf(ApplyKey(parsers, fs, key, text).value, q)
         == if Reach(fs, key) == Some(q) then SetLeaf(parsers, GetLeaf(fs, q), text) else GetLeaf(fs, q)
  {
    ApplyWritesReached(parsers, fs, key, text);
    match Reach(fs, key)
    case None => ShapeReflexive(fs);
    case Some(p) =>
      var leaf := SetLeaf(parsers, GetLeaf(fs, p), text);
      SetKeepsNode(parsers, GetLeaf(fs, p), text);
      PutKeepsShape(fs, p, leaf);
      forall q | IsPath(fs, q)
        ensures IsPath(PutLeaf(fs, p, leaf), q)
        ensures GetLeaf(PutLeaf(fs, p, leaf), q) == if p == q then leaf else GetLeaf(fs, q)
      {
        GetAfterPut(fs, p, leaf, q);
      }
  }

  /** Applying panics exactly when some key reaches a list of other than strings; otherwise the
      configuration keeps its shape. */
  lemma {:induction false} ApplyPanicsIff(parsers: Parsers, fs: Fields, env: Environment)
    requires Distinct(fs)
    ensures ApplyAll(parsers, fs, env) == None <==> RefusesSome(fs, env)
    ensures ApplyAll(parsers, fs, env).Some? ==> SameShape(fs, ApplyAll(parsers, fs, env).value)
  {
    if env == [] {
      ShapeReflexive(fs);
    } else {
      var front, key := env[..|env| - 1], TrimPrefix(env[|env| - 1].0);
      ApplyPanicsIff(parsers, fs, front);
      RefusesOneMore(fs, env);
      hide RefusesSome, RefusesKey, Distinct, SameShape, ApplyKey;
      if ApplyAll(parsers, fs, front).Some? {
        var now := ApplyAll(parsers, fs, front).value;
        ShapeDistinct(fs, now);
        ShapeRefuses(fs, now, key);
        ApplyOne(parsers, now, key, env[|env| - 1].1);
        if !RefusesKey(now, key) {
          ShapeTransitive(fs, now, ApplyAll(parsers, fs, env).value);
        }
      }
    }
  }

  lemma RefusesOneMore(fs: Fields, env: Environment)
    requires env != []
    ensures var front, key := env[..|env| - 1], TrimPrefix(env[|env| - 1].0);
      RefusesSome(fs, env) <==> RefusesSome(fs, front) || RefusesKey(fs, key)
  {
    hide RefusesKey;
    var front := env[..|env| - 1];
    if RefusesSome(fs, front) {
      var i :| 0 <= i < |front| && RefusesKey(fs, TrimPrefix(front[i].0));
      assert front[i] == env[i];
    }
    if RefusesSome(fs, env) && !RefusesKey(fs, TrimPrefix(env[|env| - 1].0)) {
      var i :| 0 <= i < |env| && RefusesKey(fs, TrimPrefix(env[i].0));
      assert front[i] == env[i];
    }
  }

  lemma ShapeRefuses(a: Fields, b: Fields, key: string)
    requires SameShape(a, b)
    ensures RefusesKey(a, key) <==> RefusesKey(b, key)
  {
    ShapeReach(a, b, key);
    if Reach(a, key).Some? {
      ShapePaths(a, b, Reach(a, key).value);
    }
  }

  /** Every setting comes out as the keys that reach it make it. */
  lemma {:induction false} AppliedIsFold(parsers: Parsers, fs: Fields, env: Environment, q: Path)
    requires Distinct(fs) && IsPath(fs, q) && ApplyAll(parsers, fs, env).Some?
    ensures var applied := ApplyAll(parsers, fs, env).value;
      IsPath(applied, q) && GetLeaf(applied, q) == Fold(parsers, fs, env, q, GetLeaf(fs, q))
  {
    if env != [] {
      var front := env[..|env| - 1];
      var (key, text) := env[|env| - 1];
      AppliedIsFold(parsers, fs, front, q);
      ApplyPanicsIff(parsers, fs, front);
      var now := ApplyAll(parsers, fs, front).value;
      ShapeDistinct(fs, now);
      ShapeReach(fs, now, TrimPrefix(key));
      hide ApplyKey, Distinct, SameShape, RefusesSome, RefusesKey, Reach;
      ApplyOne(parsers, now, TrimPrefix(key), text);
    }
  }

  /** The value a text stands for in a setting of this kind, if any. */
  function Meaning(parsers: Parsers, kind: Kind, text: string): Option<Value> {
    match kind
    case StringKind => Some(Text(text))
    case BoolKind => (match parsers.parseBool(text) case Some(b) => Some(Flag(b)) case None => None)
    case IntKind => (match parsers.parseInt(text) case Some(n) => Some(Number(n)) case None => None)
    case RawJsonKind => Some(Json(text))
    case WordsKind => Some(Words(parsers.splitWords(text)))
    case MapKind => (match parsers.parseMap(text) case Some(m) => Some(Json(m)) case None => None)
    case ForeignKind => None
    case OtherKind => None
  }

  lemma SetMeans(parsers: Parsers, leaf: Node, text: string)
    requires leaf.Leaf?
    ensures var leaf', v := SetLeaf(parsers, leaf, text), Meaning(parsers, leaf.kind, text);
      leaf' == if leaf.value.Some? && v.Some? then leaf.(value := v) else leaf
  {
  }

  /** What one variable does to the setting it reaches, kind by kind: a string is set to its text, a
      flag, a number or a map to what the parser makes of it, if it can, a list of strings to its
      words and raw JSON to its text; a nil pointer stays nil. It panics at any other list. */
  lemma KeySets(parsers: Parsers, fs: Fields, key: string, text: string, p: Path)
    requires Distinct(fs) && Reach(fs, key) == Some(p)
    ensures IsPath(fs, p)
    ensures ApplyKey(parsers, fs, key, text) == None <==> GetLeaf(fs, p).kind == ForeignKind && GetLeaf(fs, p).value.Some?
    ensures ApplyKey(parsers, fs, key, text).Some? ==>
      && IsPath(ApplyKey(parsers, fs, key, text).value, p)
      && var was, now := GetLeaf(fs, p), GetLeaf(ApplyKey(parsers, fs, key, text).value, p);
      && now.kind == was.kind && (was.value.None? ==> now.value.None?)
      && (was.value.Some? ==>
            && (was.kind == StringKind ==> now.value == Some(Text(text)))
            && (was.kind == BoolKind ==>
                  now.value == match parsers.parseBool(text) case Some(b) => Some(Flag(b)) case None => was.value)
            && (was.kind == IntKind ==>
                  now.value == match parsers.parseInt(text) case Some(n) => Some(Number(n)) case None => was.value)
            && (was.kind == WordsKind ==> now.value == Some(Words(parsers.splitWords(text))))
            && (was.kind == RawJsonKind ==> now.value == Some(Json(text)))
            && (was.kind == MapKind ==>
                  now.value == match parsers.parseMap(text) case Some(m) => Some(Json(m)) case None => was.value)
            && (was.kind == OtherKind ==> now.value == was.value))
  {
    ApplyWritesReached(parsers, fs, key, text);
    ApplyOne(parsers, fs, key, text);
    hide ApplyKey, Reach, IsPath, GetLeaf, Distinct;
  }

  /** Of several variables that reach one setting the last one decides whose text stands for a value. */
  lemma {:induction false} LastOneWins(parsers: Parsers, fs: Fields, env: Environment, q: Path, i: nat)
    requires Distinct(fs) && ApplyAll(parsers, fs, env).Some? && IsPath(fs, q) && i < |env|
    requires GetLeaf(fs, q).value.Some? && Reach(fs, TrimPrefix(env[i].0)) == Some(q)
    requires Meaning(parsers, GetLeaf(fs, q).kind, env[i].1).Some?
    requires forall j :: i < j < |env| && Reach(fs, TrimPrefix(env[j].0)) == Some(q) ==>
      Meaning(parsers, GetLeaf(fs, q).kind, env[j].1) == None
    ensures var applied := ApplyAll(parsers, fs, env).value;
      IsPath(applied, q) && GetLeaf(applied, q) == Leaf(GetLeaf(fs, q).kind, Meaning(parsers, GetLeaf(fs, q).kind, env[i].1))
  {
    AppliedIsFold(parsers, fs, env, q);
    hide ApplyAll, Distinct, IsPath, GetLeaf, Reach, Meaning;
    FoldIsLast(parsers, fs, env, q, GetLeaf(fs, q), i);
  }

  lemma {:induction false} FoldIsLast(parsers: Parsers, fs: Fields, env: Environment, q: Path, leaf: Node, i: nat)
    requires leaf.Leaf? && leaf.value.Some? && i < |env| && Reach(fs, TrimPrefix(env[i].0)) == Some(q)
    requires Meaning(parsers, leaf.kind, env[i].1).Some?
    requires forall j :: i < j < |env| && Reach(fs, TrimPrefix(env[j].0)) == Some(q) ==> Meaning(parsers, leaf.kind, env[j].1) == None
    ensures Fold(parsers, fs, env, q, leaf) == Leaf(leaf.kind, Meaning(parsers, leaf.kind, env[i].1))
    decreases |env|
  {
    hide Reach, Meaning;
    var front := env[..|env| - 1];
    var before := Fold(parsers, fs, front, q, leaf);
    FoldKeepsKind(parsers, fs, front, q, leaf);
    SetMeans(parsers, before, env[|env| - 1].1);
    hide SetLeaf;
    if i < |front| {
      assert forall j :: 0 <= j < |front| ==> front[j] == env[j];
      FoldIsLast(parsers, fs, front, q, leaf, i);
    }
  }

  lemma {:induction false} FoldKeepsKind(parsers: Parsers, fs: Fields, env: Environment, q: Path, leaf: Node)
    requires leaf.Leaf?
    ensures var r := Fold(parsers, fs, env, q, leaf); r.kind == leaf.kind && r.value.Some? == leaf.value.Some?
  {
    if env != [] {
      FoldKeepsKind(parsers, fs, env[..|env| - 1], q, leaf);
    }
  }

  lemma {:induction false} FoldUnreached(parsers: Parsers, fs: Fields, env: Environment, q: Path, leaf: Node)
    requires leaf.Leaf? && forall i :: 0 <= i < |env| ==> Reach(fs, TrimPrefix(env[i].0)) != Some(q)
    ensures Fold(parsers, fs, env, q, leaf) == leaf
  {
    if env != [] {
      FoldUnreached(parsers, fs, env[..|env| - 1], q, leaf);
    }
  }

  lemma {:induction false} ShapeReach(a: Fields, b: Fields, key: string)
    requires SameShape(a, b)
    ensures Reach(a, key) == Reach(b, key)
    decreases |key|
  {
    ShapeFinds(a, b, SpelledAs(FirstPart(key)), 0);
    var found := Find(a, SpelledAs(FirstPart(key)));
    if found.Some? && found.value.1.Section? && Rest(key).Some? {
      ShapeReach(found.value.1.fields, Find(b, SpelledAs(FirstPart(key))).value.1.fields, Rest(key).value);
    }
  }

  // ------------------------------------------------------------------ the round trip

  /** The paths getPaths gives, in any order of iteration. */
  ghost predicate Lists(paths: seq<Path>, fs: Fields, env: Environment) {
    forall p :: p in paths <==> Markable(fs, p) && "MM_" + KeyOf(p) in Keys(env)
  }

  lemma GeneratedPaths(fs: Fields, env: Environment)
    requires Distinct(fs)
    ensures Lists(PathsOf(Generate(fs, "MM", Keys(env)), []), fs, env)
  {
    forall p
      ensures p in PathsOf(Generate(fs, "MM", Keys(env)), []) <==> Markable(fs, p) && "MM_" + KeyOf(p) in Keys(env)
    {
      PathsAreListed(Generate(fs, "MM", Keys(env)), [], p);
      assert p[0..] == p;
      GenerateListsIff(fs, "MM", Keys(env), p);
      assert Upper("MM") + "_" == "MM_";
    }
  }

  /** The key reaches no setting, or it spells out, through plain sections, the one it reaches. */
  predicate SpellsSetting(fs: Fields, key: string)
    requires Distinct(fs)
  {
    match Reach(fs, TrimPrefix(key))
    case None => true
    case Some(p) => IsPath(fs, p) && Plain(fs, p) && key == "MM_" + KeyOf(p)
  }

  lemma {:induction false} PlainIsMarkable(fs: Fields, p: Path)
    requires IsPath(fs, p)
    ensures Markable(fs, p) <==> Plain(fs, p)
    decreases |p|
  {
    if NodeOf(fs, p[0]).Section? {
      if |p| > 1 {
        PlainIsMarkable(NodeOf(fs, p[0]).fields, p[1..]);
      }
    }
  }

  /** The setting is listed: its path crosses no pointer and its whole key is in the environment. */
  predicate IsOverridden(fs: Fields, env: Environment, q: Path)
    requires IsPath(fs, q)
  {
    Plain(fs, q) && "MM_" + KeyOf(q) in Keys(env)
  }

  lemma AfterRemoval(parsers: Parsers, fs: Fields, env: Environment, paths: seq<Path>, fs': Fields, q: Path)
    requires Distinct(fs) && Lists(paths, fs, env) && IsPath(fs, q)
    requires ApplyAll(parsers, fs, env).Some? && Removed(ApplyAll(parsers, fs, env).value, fs, paths, fs')
    ensures SameShape(fs, fs') && IsPath(fs', q)
    ensures GetLeaf(fs', q)
      == if IsOverridden(fs, env, q) then GetLeaf(fs, q) else Fold(parsers, fs, env, q, GetLeaf(fs, q))
  {
    var applied := ApplyAll(parsers, fs, env).value;
    ApplyPanicsIff(parsers, fs, env);
    ShapeTransitive(fs, applied, fs');
    ShapePaths(fs, applied, q);
    ShapePaths(fs, fs', q);
    AppliedIsFold(parsers, fs, env, q);
    PlainIsMarkable(fs, q);
  }

  /** The keys that reach a setting not overridden by its own whole key leave it as it is. */
  ghost predicate LeavesRest(parsers: Parsers, fs: Fields, env: Environment) {
    forall q :: IsPath(fs, q) && !IsOverridden(fs, env, q) ==>
      Fold(parsers, fs, env, q, GetLeaf(fs, q)) == GetLeaf(fs, q)
  }

  /** Every key spells out, through plain sections, the setting it reaches, if any. */
  predicate SpellSettings(fs: Fields, env: Environment)
    requires Distinct(fs)
  {
    forall i :: 0 <= i < |env| ==> SpellsSetting(fs, env[i].0)
  }

  /** For any environment, in whatever order both maps are walked, removing the overrides after
      applying them gives the stored configuration back exactly when every setting that is not
      overridden by its own whole key is left as it is by the keys that reach it. */
  lemma RoundTripIff(parsers: Parsers, fs: Fields, env: Environment, paths: seq<Path>, fs': Fields)
    requires Distinct(fs) && Lists(paths, fs, env)
    requires ApplyAll(parsers, fs, env).Some? && Removed(ApplyAll(parsers, fs, env).value, fs, paths, fs')
    ensures fs' == fs <==> LeavesRest(parsers, fs, env)
  {
    forall q | IsPath(fs, q)
      ensures IsPath(fs', q)
      ensures GetLeaf(fs', q)
        == if IsOverridden(fs, env, q) then GetLeaf(fs, q) else Fold(parsers, fs, env, q, GetLeaf(fs, q))
    {
      AfterRemoval(parsers, fs, env, paths, fs', q);
    }
    ApplyPanicsIff(parsers, fs, env);
    ShapeTransitive(fs, ApplyAll(parsers, fs, env).value, fs');
    hide Removed, Lists, IsOverridden, Fold;
    if LeavesRest(parsers, fs, env) {
      EqualIfSettingsAre(fs, fs');
    }
  }

  /** Environments whose keys spell out whole settings, whatever their values: the round trip
      always holds. */
  lemma RoundTrip(parsers: Parsers, fs: Fields, env: Environment, paths: seq<Path>, fs': Fields)
    requires Distinct(fs) && Lists(paths, fs, env)
    requires SpellSettings(fs, env)
    requires ApplyAll(parsers, fs, env).Some? && Removed(ApplyAll(parsers, fs, env).value, fs, paths, fs')
    ensures fs' == fs
  {
    forall q | IsPath(fs, q) && !IsOverridden(fs, env, q)
      ensures Fold(parsers, fs, env, q, GetLeaf(fs, q)) == GetLeaf(fs, q)
    {
      assert forall i :: 0 <= i < |env| ==> env[i].0 in Keys(env);
      FoldUnreached(parsers, fs, env, q, GetLeaf(fs, q));
    }
    RoundTripIff(parsers, fs, env, paths, fs');
  }

  /** One variable: it has to reach nothing, spell out the setting it reaches, or set what was
      there. A key with something behind a setting's own key, or through a section behind a
      pointer, otherwise leaves its value in the stored configuration. */
  lemma OneKeyRoundTripIff(parsers: Parsers, fs: Fields, key: string, text: string, paths: seq<Path>, fs': Fields)
    requires Distinct(fs) && Lists(paths, fs, [(key, text)])
    requires ApplyAll(parsers, fs, [(key, text)]).Some?
    requires Removed(ApplyAll(parsers, fs, [(key, text)]).value, fs, paths, fs')
    ensures fs' == fs <==>
      || SpellsSetting(fs, key)
      || (var p := Reach(fs, TrimPrefix(key)).value;
          IsPath(fs, p) && SetLeaf(parsers, GetLeaf(fs, p), text) == GetLeaf(fs, p))
  {
    var env := [(key, text)];
    RoundTripIff(parsers, fs, env, paths, fs');
    assert Keys(env) == {key} by { assert env[0].0 in Keys(env); }
    ApplyWritesReached(parsers, fs, TrimPrefix(key), text);
    forall q | IsPath(fs, q)
      ensures Fold(parsers, fs, env, q, GetLeaf(fs, q))
        == if Reach(fs, TrimPrefix(key)) == Some(q) then SetLeaf(parsers, GetLeaf(fs, q), text) else GetLeaf(fs, q)
    {
      assert env[..0] == [];
      assert Fold(parsers, fs, env[..0], q, GetLeaf(fs, q)) == GetLeaf(fs, q);
    }
  }

  // -------------------------------------------------------- two keys that go wrong

  /** A section with a switch that it embeds, as the content flagging settings are. */
  function Embedding(section: string, base: string, field: string, on: bool): Fields {
    var inner := Cons(field, Leaf(BoolKind, Some(Flag(on))), Nil);
    Cons(section, Section(false, false, Cons(base, Section(false, true, inner), Nil)), Nil)
  }

  /** A section of one field. */
  lemma OneField(name: string, node: Node)
    ensures var fs := Cons(name, node, Nil);
      && (forall x :: HasName(fs, x) <==> x == name) && NodeOf(fs, name) == node
      && (forall sought :: Matching(fs, sought, 0) == if Hits(sought, name) then 1 else 0)
      && (Distinct(fs) <==> (node.Section? ==> Distinct(node.fields)))
  {
  }

  lemma OneFieldFound(name: string, node: Node, sought: Sought)
    requires Hits(sought, name)
    ensures Find(Cons(name, node, Nil), sought) == Some(([name], node))
  {
    OneField(name, node);
  }

  lemma OneDeeper(base: string, inner: Fields, sought: Sought, depth: nat)
    ensures var fs := Cons(base, Section(false, true, inner), Nil);
      && Matching(fs, sought, depth + 1) == Matching(inner, sought, depth)
      && (Matching(inner, sought, depth) > 0 ==>
            var (p, node) := FirstMatching(inner, sought, depth);
            FirstMatching(fs, sought, depth + 1) == ([base] + p, node))
  {
    assert Matching(Nil, sought, depth + 1) == 0;
  }

  lemma PromotedIsFound(base: string, field: string, leaf: Node, sought: Sought)
    requires leaf.Leaf? && Hits(sought, field) && !Hits(sought, base)
    ensures Find(Cons(base, Section(false, true, Cons(field, leaf, Nil)), Nil), sought) == Some(([base, field], leaf))
  {
    var inner := Cons(field, leaf, Nil);
    var fs := Cons(base, Section(false, true, inner), Nil);
    OneField(base, fs.node);
    OneField(field, leaf);
    hide Hits;
    assert Matching(fs, sought, 0) == 0;
    assert Embeddings(fs) == 1;
    assert Matching(inner, sought, 0) == 1 && FirstMatching(inner, sought, 0) == ([field], leaf);
    OneDeeper(base, inner, sought, 0);
    assert [base] + [field] == [base, field];
    assert FindFrom(fs, sought, 1) == Some(([base, field], leaf));
  }

  /** The walk finds a promoted field by its very name. */
  lemma WalkFindsPromoted(base: string, field: string, leaf: Node)
    requires leaf.Leaf? && base != field
    ensures GetVal(Cons(base, Section(false, true, Cons(field, leaf, Nil)), Nil), [field]) == Found(leaf)
  {
    PromotedIsFound(base, field, leaf, Exactly(field));
    OneField(base, Section(false, true, Cons(field, leaf, Nil)));
    hide Find;
  }

  lemma PromotedIsReached(section: string, base: string, field: string, on: bool)
    requires NoUnderscore(section) && NoUnderscore(field) && Upper(base) != Upper(field)
    ensures Reach(Embedding(section, base, field, on), Upper(section) + "_" + Upper(field)) == Some([section, base, field])
  {
    var fs := Embedding(section, base, field, on);
    var sub := fs.node.fields;
    var leaf := sub.node.fields.node;
    SplitJoined(Upper(section), Upper(field));
    SplitJoined(Upper(field), "");
    OneFieldFound(section, fs.node, SpelledAs(Upper(section)));
    PromotedIsFound(base, field, leaf, SpelledAs(Upper(field)));
    hide FirstPart, Rest, Upper, Find;
    assert Reach(sub, Upper(field)) == Some([base, field]);
    assert [section] + [base, field] == [section, base, field];
  }

  /** The variable that leaves out the name of the embedded section is applied, since the field is
      promoted, but it is not listed: the generator asks for that name. Its value stays in the
      stored configuration. */
  lemma PromotedKeyLeaks(parsers: Parsers, section: string, base: string, field: string, on: bool, text: string,
                         paths: seq<Path>, fs': Fields)
    requires NoUnderscore(section) && NoUnderscore(field) && Upper(base) != Upper(field)
    requires parsers.parseBool(text) == Some(!on)
    requires var fs, env: Environment := Embedding(section, base, field, on), [("MM_" + Upper(section) + "_" + Upper(field), text)];
      && Lists(paths, fs, env) && ApplyAll(parsers, fs, env).Some?
      && Removed(ApplyAll(parsers, fs, env).value, fs, paths, fs')
    ensures forall p :: p !in paths
    ensures IsPath(fs', [section, base, field])
    ensures GetLeaf(fs', [section, base, field]) == Leaf(BoolKind, Some(Flag(!on)))
  {
    hide *;
    var fs, q := Embedding(section, base, field, on), [section, base, field];
    var key := Upper(section) + "_" + Upper(field);
    PromotedIsReached(section, base, field, on);
    TheSetting(section, base, field, on);
    LongerKey(section, base, field);
    assert "MM_" + Upper(section) + "_" + Upper(field) == "MM_" + key;
    NothingListed(section, base, field, on, key, text, paths);
    ReachedUnlisted(parsers, fs, key, text, paths, fs', q);
    Switched(parsers, on, text);
  }

  lemma Switched(parsers: Parsers, on: bool, text: string)
    requires parsers.parseBool(text) == Some(!on)
    ensures SetLeaf(parsers, Leaf(BoolKind, Some(Flag(on))), text) == Leaf(BoolKind, Some(Flag(!on)))
  {
  }

  /** A variable that reaches a setting without being its whole key leaves its value behind. */
  lemma ReachedUnlisted(parsers: Parsers, fs: Fields, key: string, text: string, paths: seq<Path>, fs': Fields, q: Path)
    requires var env: Environment := [("MM_" + key, text)];
      && Distinct(fs) && Lists(paths, fs, env) && ApplyAll(parsers, fs, env).Some?
      && Removed(ApplyAll(parsers, fs, env).value, fs, paths, fs')
    requires IsPath(fs, q) && Reach(fs, key) == Some(q) && "MM_" + KeyOf(q) != "MM_" + key
    ensures IsPath(fs', q) && GetLeaf(fs', q) == SetLeaf(parsers, GetLeaf(fs, q), text)
  {
    var env: Environment := [("MM_" + key, text)];
    assert TrimPrefix("MM_" + key) == key;
    assert Keys(env) == {"MM_" + key} by { assert env[0].0 in Keys(env); }
    hide Lists, Reach, KeyOf, Distinct, IsPath, GetLeaf;
    AfterRemoval(parsers, fs, env, paths, fs', q);
    FoldOnce(parsers, fs, "MM_" + key, text, q, GetLeaf(fs, q));
  }

  lemma FoldOnce(parsers: Parsers, fs: Fields, key: string, text: string, q: Path, leaf: Node)
    requires leaf.Leaf? && Reach(fs, TrimPrefix(key)) == Some(q)
    ensures Fold(parsers, fs, [(key, text)], q, leaf) == SetLeaf(parsers, leaf, text)
  {
    var env: Environment := [(key, text)];
    assert env[..|env| - 1] == [];
    assert Fold(parsers, fs, [], q, leaf) == leaf;
  }

  /** Below a plain section of one field everything is below that field. */
  lemma BelowPlain(name: string, embedded: bool, sub: Fields, p: Path)
    ensures var fs := Cons(name, Section(false, embedded, sub), Nil);
      && (IsPath(fs, [name] + p) <==> IsPath(sub, p))
      && (IsPath(sub, p) ==> GetLeaf(fs, [name] + p) == GetLeaf(sub, p) && Plain(fs, [name] + p) == Plain(sub, p))
      && forall q :: Markable(fs, q) <==> q != [] && q[0] == name && Markable(sub, q[1..])
  {
    OneField(name, Section(false, embedded, sub));
    assert ([name] + p)[1..] == p;
  }

  lemma LeafAlone(name: string, leaf: Node)
    requires leaf.Leaf?
    ensures var fs := Cons(name, leaf, Nil);
      && IsPath(fs, [name]) && GetLeaf(fs, [name]) == leaf && Plain(fs, [name])
      && forall q :: Markable(fs, q) <==> q == [name]
  {
    OneField(name, leaf);
  }

  lemma TheSetting(section: string, base: string, field: string, on: bool)
    ensures var fs, q := Embedding(section, base, field, on), [section, base, field];
      && Distinct(fs) && IsPath(fs, q) && Plain(fs, q) && GetLeaf(fs, q) == Leaf(BoolKind, Some(Flag(on)))
      && forall p :: Markable(fs, p) ==> p == q
  {
    var fs, q := Embedding(section, base, field, on), [section, base, field];
    var sub := fs.node.fields;
    var inner := sub.node.fields;
    OneField(section, fs.node);
    OneField(base, sub.node);
    OneField(field, inner.node);
    LeafAlone(field, inner.node);
    BelowPlain(base, true, inner, [field]);
    BelowPlain(section, false, sub, [base] + [field]);
    assert [section] + ([base] + [field]) == q;
    hide IsPath, Plain, GetLeaf, Markable;
    forall p | Markable(fs, p)
      ensures p == q
    {
      assert p[1..][1..] == [field];
      assert p == [p[0]] + ([p[1..][0]] + p[1..][1..]);
    }
  }

  lemma NothingListed(section: string, base: string, field: string, on: bool, key: string, text: string, paths: seq<Path>)
    requires Lists(paths, Embedding(section, base, field, on), [("MM_" + key, text)])
    requires "MM_" + KeyOf([section, base, field]) != "MM_" + key
    ensures forall p :: p !in paths
  {
    var env: Environment := [("MM_" + key, text)];
    assert Keys(env) == {"MM_" + key} by { assert env[0].0 in Keys(env); }
    TheSetting(section, base, field, on);
    hide KeyOf, Markable, Embedding;
  }

  lemma LongerKey(section: string, base: string, field: string)
    ensures "MM_" + KeyOf([section, base, field]) != "MM_" + Upper(section) + "_" + Upper(field)
  {
    hide Upper;
    assert [section, base, field][1..] == [base, field] && [base, field][1..] == [field];
    assert KeyOf([field]) == Upper(field) && KeyOf([base, field]) == Upper(base) + "_" + Upper(field);
    assert |"MM_" + KeyOf([section, base, field])| > |"MM_" + Upper(section) + "_" + Upper(field)|;
  }

  /** Some variable names a section behind a pointer. */
  ghost predicate NamesPointer(fs: Fields, env: Environment) {
    exists p :: EndsAtPointer(fs, p) && "MM_" + KeyOf(p) in Keys(env)
  }

  ghost predicate SomePanics(fs: Fields, paths: seq<Path>) { exists p :: p in paths && GetVal(fs, p) == Panics }

  /** The removal panics exactly when some variable names a section behind a pointer. */
  lemma RemovalPanicsIff(fs: Fields, env: Environment, paths: seq<Path>)
    requires Lists(paths, fs, env)
    ensures SomePanics(fs, paths) <==> NamesPointer(fs, env)
    ensures ArePaths(fs, paths) <==> !SomePanics(fs, paths)
  {
    hide GetVal, KeyOf, IsPath;
    if SomePanics(fs, paths) {
      var p :| p in paths && GetVal(fs, p) == Panics;
      WalkPanicsIff(fs, p);
    }
    if NamesPointer(fs, env) {
      var p :| EndsAtPointer(fs, p) && "MM_" + KeyOf(p) in Keys(env);
      PointerIsMarkable(fs, p);
      WalkPanicsIff(fs, p);
      assert p in paths && GetVal(fs, p) == Panics;
    }
    forall i | 0 <= i < |paths|
      ensures IsPath(fs, paths[i]) <==> GetVal(fs, paths[i]) != Panics
    {
      assert paths[i] in paths;
      WalkPanicsIff(fs, paths[i]);
    }
    if !ArePaths(fs, paths) {
      var i :| 0 <= i < |paths| && !IsPath(fs, paths[i]);
      assert paths[i] in paths && GetVal(fs, paths[i]) == Panics;
    }
  }

  lemma {:induction false} PointerIsMarkable(fs: Fields, p: Path)
    ensures EndsAtPointer(fs, p) ==> Markable(fs, p)
    decreases |p|
  {
    if EndsAtPointer(fs, p) && !NodeOf(fs, p[0]).pointer {
      PointerIsMarkable(NodeOf(fs, p[0]).fields, p[1..]);
    }
  }

  /** For instance every configuration with a section behind a pointer, and a variable of the
      section's name. */
  lemma SectionKeyPanics(name: string, sub: Fields, text: string, paths: seq<Path>)
    requires Lists(paths, Cons(name, Section(true, false, sub), Nil), [("MM_" + Upper(name), text)])
    ensures [name] in paths && GetVal(Cons(name, Section(true, false, sub), Nil), [name]) == Panics
  {
    var fs, env: Environment := Cons(name, Section(true, false, sub), Nil), [("MM_" + Upper(name), text)];
    assert env[0].0 in Keys(env) && KeyOf([name]) == Upper(name);
    assert Markable(fs, [name]);
    assert [name][1..] == [];
  }

  /** For instance every configuration with a list of other than strings, and the variable that
      spells it out, although it names no section behind a pointer. */
  lemma ForeignKeyPanics(parsers: Parsers, section: string, field: string, value: Value, text: string)
    requires NoUnderscore(section) && NoUnderscore(field)
    ensures var fs := Cons(section, Section(false, false, Cons(field, Leaf(ForeignKind, Some(value)), Nil)), Nil);
      var env: Environment := [("MM_" + Upper(section) + "_" + Upper(field), text)];
      && Distinct(fs) && RefusesSome(fs, env) && ApplyAll(parsers, fs, env) == None
      && SpellSettings(fs, env) && !NamesPointer(fs, env)
  {
    var inner := Cons(field, Leaf(ForeignKind, Some(value)), Nil);
    var fs, p := Cons(section, Section(false, false, inner), Nil), [section, field];
    var env: Environment := [("MM_" + Upper(section) + "_" + Upper(field), text)];
    var key := Upper(section) + "_" + Upper(field);
    assert TrimPrefix(env[0].0) == key;
    OneField(field, inner.node);
    OneField(section, fs.node);
    LeafAlone(field, inner.node);
    BelowPlain(section, false, inner, [field]);
    assert [section] + [field] == p;
    ForeignIsReached(section, field, inner, fs);
    hide Upper, Find, IsPath, Plain, GetLeaf, Markable;
    assert RefusesKey(fs, TrimPrefix(env[0].0));
    ApplyPanicsIff(parsers, fs, env);
    NoPointerThere(section, inner);
  }

  lemma ForeignIsReached(section: string, field: string, inner: Fields, fs: Fields)
    requires NoUnderscore(section) && NoUnderscore(field)
    requires inner.Cons? && inner.name == field && inner.node.Leaf? && inner.rest == Nil
    requires fs == Cons(section, Section(false, false, inner), Nil)
    ensures Reach(fs, Upper(section) + "_" + Upper(field)) == Some([section, field])
    ensures KeyOf([section, field]) == Upper(section) + "_" + Upper(field)
  {
    SplitJoined(Upper(section), Upper(field));
    SplitJoined(Upper(field), "");
    OneFieldFound(section, fs.node, SpelledAs(Upper(section)));
    OneFieldFound(field, inner.node, SpelledAs(Upper(field)));
    hide FirstPart, Rest, Upper, Find;
    assert Reach(inner, Upper(field)) == Some([field]);
    assert [section] + [field] == [section, field] && [section, field][1..] == [field];
    assert KeyOf([field]) == Upper(field);
  }

  lemma NoPointerThere(section: string, inner: Fields)
    requires inner.Cons? && inner.node.Leaf? && inner.rest == Nil
    ensures forall x :: !EndsAtPointer(Cons(section, Section(false, false, inner), Nil), x)
  {
    OneField(section, Section(false, false, inner));
    OneField(inner.name, inner.node);
    assert forall x :: !EndsAtPointer(inner, x);
  }

  // ---------------------------------------------- both traversals name the same settings

  /** No field name has an underscore or differs from another by its case alone. */
  ghost predicate Clean(fs: Fields)
    decreases fs, 1
  {
    && (forall name :: HasName(fs, name) ==> CleanName(fs, name))
    && CleanSections(fs)
  }

  predicate CleanName(fs: Fields, name: string) { NoUnderscore(name) && Matching(fs, SpelledAs(Upper(name)), 0) == 1 }

  ghost predicate CleanSections(fs: Fields)
    decreases fs, 0
  {
    fs.Cons? ==> (fs.node.Section? ==> Clean(fs.node.fields)) && CleanSections(fs.rest)
  }

  lemma {:induction false} MatchesItself(fs: Fields, name: string)
    requires HasName(fs, name) && CleanSections(fs)
    ensures Matching(fs, SpelledAs(Upper(name)), 0) > 0
    ensures Matching(fs, SpelledAs(Upper(name)), 0) == 1 ==>
      FirstMatching(fs, SpelledAs(Upper(name)), 0) == ([name], NodeOf(fs, name))
    ensures NodeOf(fs, name).Section? ==> Clean(NodeOf(fs, name).fields)
  {
    if fs.name != name {
      MatchesItself(fs.rest, name);
    }
  }

  /** The key the concatenating traversal makes for a setting is one the splitting traversal
      takes to that very setting, pointers crossed or not. */
  lemma {:induction false} TraversalsAgree(fs: Fields, p: Path)
    requires Clean(fs) && IsPath(fs, p)
    ensures Reach(fs, KeyOf(p)) == Some(p)
    decreases |p|
  {
    MatchesItself(fs, p[0]);
    assert CleanName(fs, p[0]);
    match NodeOf(fs, p[0])
    case Leaf(_, _) =>
      SplitJoined(Upper(p[0]), "");
      assert p == [p[0]];
    case Section(_, _, sub) =>
      SplitJoined(Upper(p[0]), KeyOf(p[1..]));
      TraversalsAgree(sub, p[1..]);
      assert p == [p[0]] + p[1..];
  }
}
