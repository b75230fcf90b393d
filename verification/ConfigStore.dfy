/** The configuration store under a fixed environment: Load, Set and the handling of feature
    flags. Defaults, desanitizing, fixing and validation are arbitrary functions that keep the
    schema. */
module ConfigStore {
  import opened ConfigEnvironment
  import opened Wrappers

  /** The name of the section behind a pointer that is not persisted while it is read-only. */
  const FLAGS := "FeatureFlags"

  datatype Library = Library(
    parsers: Parsers,
    setDefaults: Fields -> Fields,
    desanitize: (Fields, Fields) -> Fields,
    fix: Fields -> Fields,
    isValid: Fields -> bool)

  datatype Setup = Setup(schema: Fields, env: Environment, paths: seq<Path>, lib: Library)

  ghost predicate SchemaOk(u: Setup) {
    && Distinct(u.schema) && HasName(u.schema, FLAGS)
    && NodeOf(u.schema, FLAGS).Section? && NodeOf(u.schema, FLAGS).pointer
    && LibraryOk(u.lib, u.schema)
  }

  /** `paths` are the overridden settings, listed in any order; none ends at a section, and no
      variable reaches a list of other than strings. */
  ghost predicate SetupOk(u: Setup) {
    && SchemaOk(u) && Lists(u.paths, u.schema, u.env) && ArePaths(u.schema, u.paths) && !RefusesSome(u.schema, u.env)
  }

  ghost predicate LibraryOk(lib: Library, schema: Fields) {
    && (forall fs :: SameShape(schema, lib.setDefaults(fs)))
    && (forall was, fs :: SameShape(schema, fs) ==> SameShape(schema, lib.desanitize(was, fs)))
    && (forall fs :: SameShape(schema, fs) ==> SameShape(schema, lib.fix(fs)))
  }

  /** What the backing store says to a write; a read-only configuration is not an error to Load. */
  datatype WriteResult = Written | ReadOnlyConfiguration | WriteFails

  /** The answers one call gets: to its write, and whether the old and the new configuration can
      be encoded for the comparison. */
  datatype Answers = Answers(write: WriteResult, comparable: bool)

  datatype Error = ReadOnlyStore | InvalidConfig | NotPersisted | NotCompared

  /** `persisted` is what the store has last written. */
  datatype State = State(
    config: Fields,
    configNoEnv: Fields,
    persisted: Option<Fields>,
    readOnly: bool,
    readOnlyFF: bool)

  predicate Shaped(u: Setup, s: State) {
    SameShape(u.schema, s.config) && SameShape(u.schema, s.configNoEnv)
  }

  /** A nil pointer in place of the section. */
  function WithoutFlags(fs: Fields): Fields { Replace(fs, FLAGS, Leaf(OtherKind, None)) }

  function WithFlagsOf(fs: Fields, from: Fields): Fields
    requires HasName(from, FLAGS)
  {
    Replace(fs, FLAGS, NodeOf(from, FLAGS))
  }

  /** The environment applied, where that does not panic. */
  function Applied(u: Setup, fs: Fields): Fields {
    match ApplyAll(u.lib.parsers, fs, u.env) case Some(applied) => applied case None => fs
  }

  lemma AppliedIsShaped(u: Setup, fs: Fields)
    requires SetupOk(u) && SameShape(u.schema, fs)
    ensures ApplyAll(u.lib.parsers, fs, u.env) == Some(Applied(u, fs)) && SameShape(u.schema, Applied(u, fs))
  {
    ShapeDistinct(u.schema, fs);
    ApplyPanicsIff(u.lib.parsers, fs, u.env);
    SameRefusals(u.schema, fs, u.env);
    hide Lists, ArePaths, SchemaOk, RefusesSome, ApplyAll, SameShape;
    ShapeTransitive(u.schema, fs, Applied(u, fs));
  }

  lemma SameRefusals(a: Fields, b: Fields, env: Environment)
    requires SameShape(a, b)
    ensures RefusesSome(a, env) <==> RefusesSome(b, env)
  {
    forall i | 0 <= i < |env|
      ensures RefusesKey(a, TrimPrefix(env[i].0)) <==> RefusesKey(b, TrimPrefix(env[i].0))
    {
      ShapeRefuses(a, b, TrimPrefix(env[i].0));
    }
    hide RefusesKey, SameShape;
  }

  /** With any other environment no store comes into being: the first Load panics exactly when a
      variable reaches a list of other than strings. */
  lemma FirstLoadPanicsIff(u: Setup, loaded: Fields)
    requires SchemaOk(u)
    ensures ApplyAll(u.lib.parsers, LoadedNoEnv(u, loaded), u.env) == None <==> RefusesSome(u.schema, u.env)
  {
    var noEnv := LoadedNoEnv(u, loaded);
    assert SameShape(u.schema, noEnv);
    ShapeDistinct(u.schema, noEnv);
    ApplyPanicsIff(u.lib.parsers, noEnv, u.env);
    SameRefusals(u.schema, noEnv, u.env);
  }

  /** The configuration Set is about to use. */
  function Wanted(u: Setup, s: State, input: Fields): Fields {
    u.lib.fix(Applied(u, u.lib.desanitize(s.config, u.lib.setDefaults(input))))
  }

  lemma WantedIsShaped(u: Setup, s: State, input: Fields)
    requires SetupOk(u)
    ensures SameShape(u.schema, Wanted(u, s, input))
  {
    AppliedIsShaped(u, u.lib.desanitize(s.config, u.lib.setDefaults(input)));
  }

  lemma ShapedTogether(u: Setup, a: Fields, b: Fields)
    requires SetupOk(u) && SameShape(u.schema, a) && SameShape(u.schema, b)
    ensures SameShape(a, b) && ArePaths(a, u.paths) && HasName(a, FLAGS)
  {
    ShapeSymmetric(u.schema, a);
    ShapeTransitive(a, u.schema, b);
    ShapeNodes(u.schema, a, FLAGS);
    forall i | 0 <= i < |u.paths|
      ensures IsPath(a, u.paths[i])
    {
      ShapePaths(u.schema, a, u.paths[i]);
    }
  }

  /** Set: the comparison comes after the write. */
  ghost function Set(u: Setup, s: State, input: Fields, a: Answers): (State, Option<Error>)
    requires SetupOk(u) && Shaped(u, s)
  {
    if s.readOnly then (s, Some(ReadOnlyStore)) else
      var cfg := Wanted(u, s, input);
      if !u.lib.isValid(cfg) then (s, Some(InvalidConfig)) else
        WantedIsShaped(u, s, input);
        ShapedTogether(u, cfg, s.configNoEnv);
        ShapedTogether(u, s.configNoEnv, s.config);
        ShapedTogether(u, s.config, cfg);
        var noEnv := RemoveAll(cfg, s.configNoEnv, u.paths);
        if !a.write.Written? then (s, Some(NotPersisted))
        else if !a.comparable then (s.(persisted := Some(StoredForm(s, noEnv))), Some(NotCompared))
        else if s.readOnlyFF then
          (State(WithFlagsOf(cfg, s.config), WithFlagsOf(noEnv, s.configNoEnv), Some(WithoutFlags(noEnv)),
                 s.readOnly, s.readOnlyFF), None)
        else
          (State(cfg, noEnv, Some(noEnv), s.readOnly, s.readOnlyFF), None)
  }

  function StoredForm(s: State, noEnv: Fields): Fields {
    if s.readOnlyFF then WithoutFlags(noEnv) else noEnv
  }

  function LoadedNoEnv(u: Setup, loaded: Fields): Fields { u.lib.fix(u.lib.setDefaults(loaded)) }

  function LoadedConfig(u: Setup, loaded: Fields): Fields {
    u.lib.fix(Applied(u, LoadedNoEnv(u, loaded)))
  }

  /** The end of Load, once it is known whether to write back; `was` carries the flags of the
      store and what it has written. */
  function Finish(u: Setup, was: State, loaded: Fields, writeBack: bool, a: Answers): (Option<State>, Option<Error>) {
    if !u.lib.isValid(LoadedConfig(u, loaded)) then (None, Some(InvalidConfig))
    else if !a.comparable then (None, Some(NotCompared))
    else if writeBack && a.write.WriteFails? then (None, Some(NotPersisted))
    else
      var stored := StoredForm(was, LoadedNoEnv(u, loaded));
      (Some(was.(config := LoadedConfig(u, loaded), configNoEnv := LoadedNoEnv(u, loaded),
                 persisted := if writeBack && a.write.Written? then Some(stored) else was.persisted)), None)
  }

  /** Load of a store that holds a configuration; `loaded` is what the backing store held, decoded
      and merged with the custom defaults, and `empty` whether it held nothing. */
  function Load(u: Setup, s: State, loaded: Fields, empty: bool, a: Answers): (State, Option<Error>) {
    var changed := StoredForm(s, s.config) != StoredForm(s, LoadedConfig(u, loaded));
    match Finish(u, s, loaded, !s.readOnly && (changed || empty), a)
    case (Some(s'), err) => (s', err)
    case (None, err) => (s, err)
  }

  /** The first Load: what it finds always differs from the empty configuration it starts with. */
  function FirstLoad(u: Setup, isReadOnly: bool, loaded: Fields, a: Answers): (Option<State>, Option<Error>) {
    Finish(u, State(Nil, Nil, None, isReadOnly, true), loaded, !isReadOnly, a)
  }

  lemma LoadedIsShaped(u: Setup, loaded: Fields)
    requires SetupOk(u)
    ensures SameShape(u.schema, LoadedNoEnv(u, loaded)) && SameShape(u.schema, LoadedConfig(u, loaded))
  {
    AppliedIsShaped(u, LoadedNoEnv(u, loaded));
  }

  /** A Load that fails changes nothing; one that succeeds puts the environment into the
      configuration in use alone, and whatever it writes is free of it. */
  lemma LoadStores(u: Setup, s: State, loaded: Fields, empty: bool, a: Answers)
    requires SetupOk(u) && Shaped(u, s)
    ensures var (s', err) := Load(u, s, loaded, empty, a);
      && Shaped(u, s') && (err != None ==> s' == s)
      && (err == None ==> s'.configNoEnv == u.lib.fix(u.lib.setDefaults(loaded)))
      && (s'.persisted != s.persisted ==> s'.persisted == Some(StoredForm(s, s'.configNoEnv)))
      && (s.readOnly ==> s'.persisted == s.persisted)
  {
    LoadedIsShaped(u, loaded);
  }

  // ------------------------------------------------------------------ one Set

  /** Replacing the flags leaves every other setting as it is. */
  lemma OtherSettings(fs: Fields, node: Node, q: Path)
    requires HasName(fs, FLAGS) && IsPath(fs, q) && q[0] != FLAGS
    ensures IsPath(Replace(fs, FLAGS, node), q) && GetLeaf(Replace(fs, FLAGS, node), q) == GetLeaf(fs, q)
  {
    NodeOfReplace(fs, FLAGS, node, q[0]);
  }

  lemma ListedIsNoFlag(u: Setup, q: Path)
    requires SetupOk(u) && q in u.paths
    ensures IsPath(u.schema, q) && q[0] != FLAGS
  {
    var i :| 0 <= i < |u.paths| && u.paths[i] == q;
    assert Markable(u.schema, q);
    hide Distinct, LibraryOk, Lists;
    NoSettingAtPointer(u.schema, FLAGS, q);
  }

  lemma NoSettingAtPointer(fs: Fields, name: string, q: Path)
    requires HasName(fs, name) && NodeOf(fs, name).Section? && NodeOf(fs, name).pointer
    requires Markable(fs, q) && IsPath(fs, q)
    ensures q[0] != name
  {
    assert !IsPath(NodeOf(fs, name).fields, []);
    if |q| == 1 {
      assert q[1..] == [];
    }
  }

  predicate Listed(u: Setup, q: Path) { q in u.paths }

  /** What removing the overrides does to one setting. */
  lemma NoEnvSetting(u: Setup, cfg: Fields, base: Fields, noEnv: Fields, q: Path)
    requires SetupOk(u) && SameShape(u.schema, cfg) && SameShape(u.schema, base) && Removed(cfg, base, u.paths, noEnv)
    requires IsPath(u.schema, q)
    ensures SameShape(u.schema, noEnv)
    ensures IsPath(cfg, q) && IsPath(base, q) && IsPath(noEnv, q)
    ensures GetLeaf(noEnv, q) == if q in u.paths then GetLeaf(base, q) else GetLeaf(cfg, q)
  {
    ShapeTransitive(u.schema, cfg, noEnv);
    ShapePaths(u.schema, cfg, q);
    ShapePaths(u.schema, base, q);
    ShapePaths(u.schema, noEnv, q);
  }

  ghost predicate Succeeds(u: Setup, s: State, input: Fields, a: Answers)
    requires SetupOk(u) && Shaped(u, s)
  {
    Set(u, s, input, a).1 == None
  }

  /** Set gets as far as writing. */
  predicate Writes(u: Setup, s: State, input: Fields, a: Answers) {
    !s.readOnly && u.lib.isValid(Wanted(u, s, input)) && a.write.Written?
  }

  /** A Set fails for these four reasons only. One that fails changes nothing the store holds, and
      nothing that is persisted either, unless it had written already and the comparison failed. */
  lemma FailedSetChangesNothing(u: Setup, s: State, input: Fields, a: Answers)
    requires SetupOk(u) && Shaped(u, s)
    ensures Succeeds(u, s, input, a) <==> Writes(u, s, input, a) && a.comparable
    ensures !Succeeds(u, s, input, a) ==>
      var s' := Set(u, s, input, a).0;
      s' == s.(persisted := s'.persisted) && (!Writes(u, s, input, a) ==> s' == s)
  {
  }

  lemma SetIsShaped(u: Setup, s: State, input: Fields, a: Answers)
    requires SetupOk(u) && Shaped(u, s)
    ensures Shaped(u, Set(u, s, input, a).0)
  {
    if Succeeds(u, s, input, a) {
      var cfg := Wanted(u, s, input);
      WantedIsShaped(u, s, input);
      ShapedTogether(u, cfg, s.configNoEnv);
      var noEnv := RemoveAll(cfg, s.configNoEnv, u.paths);
      ShapeTransitive(u.schema, cfg, noEnv);
      hide Wanted, Removed, Distinct;
      SwapIsShaped(u, cfg, s.config);
      SwapIsShaped(u, noEnv, s.configNoEnv);
    }
  }

  lemma SwapIsShaped(u: Setup, fs: Fields, from: Fields)
    requires SetupOk(u) && SameShape(u.schema, fs) && SameShape(u.schema, from)
    ensures HasName(from, FLAGS) && SameShape(u.schema, WithFlagsOf(fs, from))
  {
    ShapedTogether(u, from, fs);
    ShapedTogether(u, fs, from);
    ShapeNodes(fs, from, FLAGS);
    ReplaceKeepsShape(fs, FLAGS, NodeOf(from, FLAGS));
    ShapeTransitive(u.schema, fs, WithFlagsOf(fs, from));
  }

  /** Whatever Set writes, every overridden setting is stored with the value it had without the
      environment, and every other one with the value about to be used. */
  lemma SetPersists(u: Setup, s: State, input: Fields, a: Answers, q: Path)
    requires SetupOk(u) && Shaped(u, s) && Writes(u, s, input, a)
    requires IsPath(u.schema, q) && (s.readOnlyFF ==> q[0] != FLAGS)
    ensures var s' := Set(u, s, input, a).0;
      && s'.persisted.Some? && IsPath(s'.persisted.value, q) && IsPath(s.configNoEnv, q) && IsPath(Wanted(u, s, input), q)
      && GetLeaf(s'.persisted.value, q) == GetLeaf(if Listed(u, q) then s.configNoEnv else Wanted(u, s, input), q)
  {
    var cfg := Wanted(u, s, input);
    WantedIsShaped(u, s, input);
    ShapedTogether(u, cfg, s.configNoEnv);
    var noEnv := RemoveAll(cfg, s.configNoEnv, u.paths);
    NoEnvSetting(u, cfg, s.configNoEnv, noEnv, q);
    ShapedTogether(u, noEnv, cfg);
    hide Wanted, Removed, SetupOk;
    if s.readOnlyFF {
      OtherSettings(noEnv, Leaf(OtherKind, None), q);
    }
  }

  /** And a successful Set then holds what it has stored. */
  lemma SetStores(u: Setup, s: State, input: Fields, a: Answers, q: Path)
    requires SetupOk(u) && Shaped(u, s) && Succeeds(u, s, input, a)
    requires IsPath(u.schema, q) && (s.readOnlyFF ==> q[0] != FLAGS)
    ensures var s' := Set(u, s, input, a).0;
      && s'.persisted.Some? && IsPath(s'.persisted.value, q) && IsPath(s'.configNoEnv, q) && IsPath(s'.config, q)
      && IsPath(s.configNoEnv, q)
      && GetLeaf(s'.persisted.value, q) == GetLeaf(s'.configNoEnv, q)
      && GetLeaf(s'.configNoEnv, q) == GetLeaf(if Listed(u, q) then s.configNoEnv else s'.config, q)
  {
    var cfg := Wanted(u, s, input);
    WantedIsShaped(u, s, input);
    ShapedTogether(u, cfg, s.configNoEnv);
    var noEnv := RemoveAll(cfg, s.configNoEnv, u.paths);
    NoEnvSetting(u, cfg, s.configNoEnv, noEnv, q);
    ShapedTogether(u, noEnv, cfg);
    ShapedTogether(u, s.config, cfg);
    ShapedTogether(u, s.configNoEnv, cfg);
    hide Wanted, Removed, SetupOk;
    if s.readOnlyFF {
      OtherSettings(cfg, NodeOf(s.config, FLAGS), q);
      OtherSettings(noEnv, NodeOf(s.configNoEnv, FLAGS), q);
      OtherSettings(noEnv, Leaf(OtherKind, None), q);
    }
  }

  // ------------------------------------------------- the environment in use

  /** `applied` is `given` with every setting as the variables that reach it make it. */
  ghost predicate IsApplied(u: Setup, given: Fields, applied: Fields) {
    && SameShape(u.schema, applied)
    && forall q :: IsPath(given, q) && IsPath(applied, q) ==>
         GetLeaf(applied, q) == Fold(u.lib.parsers, given, u.env, q, GetLeaf(given, q))
  }

  lemma AppliedIsApplied(u: Setup, given: Fields)
    requires SetupOk(u) && SameShape(u.schema, given)
    ensures IsApplied(u, given, Applied(u, given))
    ensures forall q :: IsPath(given, q) ==> IsPath(Applied(u, given), q)
  {
    AppliedIsShaped(u, given);
    ShapeDistinct(u.schema, given);
    forall q | IsPath(given, q)
      ensures IsPath(Applied(u, given), q)
      ensures GetLeaf(Applied(u, given), q) == Fold(u.lib.parsers, given, u.env, q, GetLeaf(given, q))
    {
      AppliedIsFold(u.lib.parsers, given, u.env, q);
    }
  }

  lemma OnlyOneApplied(u: Setup, given: Fields, applied: Fields)
    requires SetupOk(u) && SameShape(u.schema, given) && IsApplied(u, given, applied)
    ensures applied == Applied(u, given)
  {
    AppliedIsApplied(u, given);
    AppliedIsShaped(u, given);
    ShapeSymmetric(u.schema, applied);
    ShapeDistinct(u.schema, applied);
    ShapeTransitive(applied, u.schema, Applied(u, given));
    ShapeSymmetric(u.schema, given);
    forall q | IsPath(applied, q) && IsPath(Applied(u, given), q)
      ensures GetLeaf(applied, q) == GetLeaf(Applied(u, given), q)
    {
      ShapePaths(u.schema, applied, q);
      ShapePaths(u.schema, given, q);
    }
    hide IsApplied, SetupOk, Applied, SameShape;
    EqualIfSettingsAre(applied, Applied(u, given));
  }

  /** What a successful Set puts into use: the input with its defaults, desanitized by what was in
      use, under the environment, fixed; but for flags that are read-only. */
  lemma SetUses(u: Setup, s: State, input: Fields, a: Answers, applied: Fields, q: Path)
    requires SetupOk(u) && Shaped(u, s) && Succeeds(u, s, input, a)
    requires IsApplied(u, u.lib.desanitize(s.config, u.lib.setDefaults(input)), applied)
    requires IsPath(u.schema, q) && (s.readOnlyFF ==> q[0] != FLAGS)
    ensures var s' := Set(u, s, input, a).0;
      IsPath(s'.config, q) && IsPath(u.lib.fix(applied), q) && GetLeaf(s'.config, q) == GetLeaf(u.lib.fix(applied), q)
  {
    var cfg := Wanted(u, s, input);
    OnlyOneApplied(u, u.lib.desanitize(s.config, u.lib.setDefaults(input)), applied);
    assert cfg == u.lib.fix(applied);
    WantedIsShaped(u, s, input);
    ShapePaths(u.schema, cfg, q);
    ShapedTogether(u, s.config, cfg);
    ShapedTogether(u, cfg, s.config);
    hide Wanted, Removed, SetupOk, IsApplied;
    if s.readOnlyFF {
      OtherSettings(cfg, NodeOf(s.config, FLAGS), q);
    }
  }

  /** And what a successful Load does. */
  lemma LoadUses(u: Setup, s: State, loaded: Fields, empty: bool, a: Answers, applied: Fields)
    requires SetupOk(u) && Load(u, s, loaded, empty, a).1 == None
    requires IsApplied(u, u.lib.fix(u.lib.setDefaults(loaded)), applied)
    ensures Load(u, s, loaded, empty, a).0.config == u.lib.fix(applied)
  {
    OnlyOneApplied(u, u.lib.fix(u.lib.setDefaults(loaded)), applied);
  }

  lemma FirstLoadUses(u: Setup, isReadOnly: bool, loaded: Fields, a: Answers, applied: Fields)
    requires SetupOk(u) && FirstLoad(u, isReadOnly, loaded, a).0.Some?
    requires IsApplied(u, u.lib.fix(u.lib.setDefaults(loaded)), applied)
    ensures FirstLoad(u, isReadOnly, loaded, a).0.value.config == u.lib.fix(applied)
    ensures FirstLoad(u, isReadOnly, loaded, a).0.value.configNoEnv == u.lib.fix(u.lib.setDefaults(loaded))
  {
    OnlyOneApplied(u, u.lib.fix(u.lib.setDefaults(loaded)), applied);
  }

  /** Fixing does not touch the setting. */
  ghost predicate FixLeaves(u: Setup, q: Path) {
    forall fs :: SameShape(u.schema, fs) && IsPath(fs, q) && IsPath(u.lib.fix(fs), q) ==>
      GetLeaf(u.lib.fix(fs), q) == GetLeaf(fs, q)
  }

  /** Of the variables that reach the setting, which is no nil pointer, the m-th is the last whose
      text stands for a value. */
  ghost predicate Decides(u: Setup, q: Path, m: nat) {
    && IsPath(u.schema, q) && GetLeaf(u.schema, q).value.Some? && m < |u.env|
    && Reach(u.schema, TrimPrefix(u.env[m].0)) == Some(q)
    && Meaning(u.lib.parsers, GetLeaf(u.schema, q).kind, u.env[m].1).Some?
    && forall j :: m < j < |u.env| && Reach(u.schema, TrimPrefix(u.env[j].0)) == Some(q) ==>
         Meaning(u.lib.parsers, GetLeaf(u.schema, q).kind, u.env[j].1) == None
  }

  /** The setting has the value that the m-th variable stands for. */
  ghost predicate FollowsEnvironment(u: Setup, fs: Fields, q: Path, m: nat) {
    && IsPath(u.schema, q) && m < |u.env| && IsPath(fs, q)
    && GetLeaf(fs, q) == Leaf(GetLeaf(u.schema, q).kind, Meaning(u.lib.parsers, GetLeaf(u.schema, q).kind, u.env[m].1))
  }

  lemma AppliedFollows(u: Setup, given: Fields, q: Path, m: nat)
    requires SetupOk(u) && SameShape(u.schema, given) && Decides(u, q, m)
    ensures FollowsEnvironment(u, Applied(u, given), q, m)
  {
    AppliedIsShaped(u, given);
    ShapeDistinct(u.schema, given);
    ShapePaths(u.schema, given, q);
    forall j | 0 <= j < |u.env|
      ensures Reach(given, TrimPrefix(u.env[j].0)) == Reach(u.schema, TrimPrefix(u.env[j].0))
    {
      ShapeReach(u.schema, given, TrimPrefix(u.env[j].0));
    }
    hide Reach, Meaning, SameShape, Distinct, ApplyAll;
    LastOneWins(u.lib.parsers, given, u.env, q, m);
  }

  lemma FixedFollows(u: Setup, given: Fields, q: Path, m: nat)
    requires SetupOk(u) && SameShape(u.schema, given) && Decides(u, q, m) && FixLeaves(u, q)
    ensures FollowsEnvironment(u, u.lib.fix(Applied(u, given)), q, m)
  {
    AppliedFollows(u, given, q, m);
    AppliedIsShaped(u, given);
    assert SameShape(u.schema, u.lib.fix(Applied(u, given)));
    ShapePaths(u.schema, u.lib.fix(Applied(u, given)), q);
    hide Decides, Applied, SameShape, Meaning;
  }

  /** After a successful Load the setting in use has the value of its variable. */
  lemma LoadFollows(u: Setup, s: State, loaded: Fields, empty: bool, a: Answers, q: Path, m: nat)
    requires SetupOk(u) && Decides(u, q, m) && FixLeaves(u, q) && Load(u, s, loaded, empty, a).1 == None
    ensures FollowsEnvironment(u, Load(u, s, loaded, empty, a).0.config, q, m)
  {
    LoadedIsShaped(u, loaded);
    FixedFollows(u, LoadedNoEnv(u, loaded), q, m);
    hide Decides, FixLeaves, FollowsEnvironment, SetupOk;
  }

  lemma SetFollows(u: Setup, s: State, input: Fields, a: Answers, q: Path, m: nat)
    requires SetupOk(u) && Shaped(u, s) && Succeeds(u, s, input, a)
    requires Decides(u, q, m) && FixLeaves(u, q) && q[0] != FLAGS
    ensures FollowsEnvironment(u, Set(u, s, input, a).0.config, q, m)
  {
    var given := u.lib.desanitize(s.config, u.lib.setDefaults(input));
    assert SameShape(u.schema, given);
    AppliedIsApplied(u, given);
    FixedFollows(u, given, q, m);
    SetUses(u, s, input, a, Applied(u, given), q);
    hide Set, SetupOk, Decides, FixLeaves;
  }

  /** Read-only flags survive every Set, in use and without the environment. */
  lemma SetKeepsFlags(u: Setup, s: State, input: Fields, a: Answers)
    requires SetupOk(u) && Shaped(u, s) && s.readOnlyFF
    ensures var s' := Set(u, s, input, a).0;
      && HasName(s.config, FLAGS) && HasName(s'.config, FLAGS)
      && HasName(s.configNoEnv, FLAGS) && HasName(s'.configNoEnv, FLAGS)
      && NodeOf(s'.config, FLAGS) == NodeOf(s.config, FLAGS)
      && NodeOf(s'.configNoEnv, FLAGS) == NodeOf(s.configNoEnv, FLAGS)
  {
    var cfg := Wanted(u, s, input);
    WantedIsShaped(u, s, input);
    ShapedTogether(u, cfg, s.configNoEnv);
    ShapedTogether(u, s.configNoEnv, cfg);
    ShapedTogether(u, s.config, cfg);
    if Succeeds(u, s, input, a) {
      var noEnv := RemoveAll(cfg, s.configNoEnv, u.paths);
      ShapeTransitive(u.schema, cfg, noEnv);
      ShapedTogether(u, noEnv, cfg);
      hide Wanted, Removed, SetupOk;
      NodeOfReplace(cfg, FLAGS, NodeOf(s.config, FLAGS), FLAGS);
      NodeOfReplace(noEnv, FLAGS, NodeOf(s.configNoEnv, FLAGS), FLAGS);
    }
  }

  // ------------------------------------------------------------- what is written

  /** A nil pointer where the flags were, if anything is stored. */
  predicate HidesFlags(stored: Option<Fields>) {
    stored.Some? ==> HasName(stored.value, FLAGS) && NodeOf(stored.value, FLAGS) == Leaf(OtherKind, None)
  }

  lemma WithoutFlagsHides(u: Setup, fs: Fields)
    requires SchemaOk(u) && SameShape(u.schema, fs)
    ensures HidesFlags(Some(WithoutFlags(fs)))
  {
    ShapeNodes(u.schema, fs, FLAGS);
    NodeOfReplace(fs, FLAGS, Leaf(OtherKind, None), FLAGS);
  }

  lemma SetHidesFlags(u: Setup, s: State, input: Fields, a: Answers)
    requires SetupOk(u) && Shaped(u, s) && s.readOnlyFF && HidesFlags(s.persisted)
    ensures HidesFlags(Set(u, s, input, a).0.persisted)
  {
    if Writes(u, s, input, a) {
      var cfg := Wanted(u, s, input);
      WantedIsShaped(u, s, input);
      ShapedTogether(u, cfg, s.configNoEnv);
      var noEnv := RemoveAll(cfg, s.configNoEnv, u.paths);
      ShapeTransitive(u.schema, cfg, noEnv);
      WithoutFlagsHides(u, noEnv);
      hide HidesFlags, WithoutFlags, Wanted, SetupOk, SameShape;
    }
  }

  lemma {:induction false} ReplaceTogether(a: Fields, b: Fields, name: string, node: Node)
    requires SameShape(a, b) && Distinct(a) && (node.Section? ==> Distinct(node.fields))
    ensures SameShape(Replace(a, name, node), Replace(b, name, node)) && Distinct(Replace(a, name, node))
    ensures forall n :: HasName(Replace(a, name, node), n) <==> HasName(a, n)
  {
    if a.Cons? {
      ReplaceTogether(a.rest, b.rest, name, node);
      if a.name == name {
        if node.Section? {
          ShapeReflexive(node.fields);
        }
      }
    }
  }

  /** The setting differs, flags aside while they are read-only. */
  predicate DifferAt(readOnlyFF: bool, a: Fields, b: Fields, q: Path) {
    IsPath(a, q) && IsPath(b, q) && (readOnlyFF ==> q[0] != FLAGS) && GetLeaf(a, q) != GetLeaf(b, q)
  }

  lemma StoredFormsDifferIff(u: Setup, s: State, a: Fields, b: Fields)
    requires SchemaOk(u) && SameShape(u.schema, a) && SameShape(u.schema, b)
    ensures StoredForm(s, a) != StoredForm(s, b) <==> exists q :: DifferAt(s.readOnlyFF, a, b, q)
  {
    var nil := Leaf(OtherKind, None);
    ShapeSymmetric(u.schema, a);
    ShapeTransitive(a, u.schema, b);
    ShapeDistinct(u.schema, a);
    ShapeNodes(u.schema, a, FLAGS);
    ShapeNodes(u.schema, b, FLAGS);
    ReplaceTogether(a, b, FLAGS, nil);
    hide SchemaOk, SameShape;
    if s.readOnlyFF {
      forall q | IsPath(a, q) && IsPath(b, q) && q[0] != FLAGS
        ensures IsPath(WithoutFlags(a), q) && GetLeaf(WithoutFlags(a), q) == GetLeaf(a, q)
        ensures IsPath(WithoutFlags(b), q) && GetLeaf(WithoutFlags(b), q) == GetLeaf(b, q)
      {
        OtherSettings(a, nil, q);
        OtherSettings(b, nil, q);
      }
      if !exists q :: DifferAt(true, a, b, q) {
        forall q | IsPath(WithoutFlags(a), q) && IsPath(WithoutFlags(b), q)
          ensures GetLeaf(WithoutFlags(a), q) == GetLeaf(WithoutFlags(b), q)
        {
          SettingWithoutFlags(a, q);
          SettingWithoutFlags(b, q);
          assert q[0] != FLAGS ==> !DifferAt(true, a, b, q);
        }
        EqualIfSettingsAre(WithoutFlags(a), WithoutFlags(b));
      }
    } else if !exists q :: DifferAt(false, a, b, q) {
      forall q | IsPath(a, q) && IsPath(b, q)
        ensures GetLeaf(a, q) == GetLeaf(b, q)
      {
        assert !DifferAt(false, a, b, q);
      }
      EqualIfSettingsAre(a, b);
    }
  }

  lemma SettingWithoutFlags(fs: Fields, q: Path)
    requires HasName(fs, FLAGS) && IsPath(WithoutFlags(fs), q)
    ensures q[0] == FLAGS ==> GetLeaf(WithoutFlags(fs), q) == Leaf(OtherKind, None)
    ensures q[0] != FLAGS ==> IsPath(fs, q)
  {
    NodeOfReplace(fs, FLAGS, Leaf(OtherKind, None), q[0]);
  }

  /** When Load succeeds and when it writes: it writes back what it uses without the environment
      exactly when nothing was stored or some setting in use changes, and the store and the
      configuration can be written; and it fails exactly on a configuration that is invalid or
      incomparable, or when a write that is due fails. */
  lemma LoadWritesIff(u: Setup, s: State, loaded: Fields, empty: bool, a: Answers, applied: Fields)
    requires SetupOk(u) && Shaped(u, s) && IsApplied(u, u.lib.fix(u.lib.setDefaults(loaded)), applied)
    ensures var (s', err) := Load(u, s, loaded, empty, a);
      var cfg := u.lib.fix(applied);
      var due := !s.readOnly && (empty || exists q :: DifferAt(s.readOnlyFF, s.config, cfg, q));
      && (err == None <==> u.lib.isValid(cfg) && a.comparable && !(due && a.write.WriteFails?))
      && (if err == None && due && a.write.Written?
          then s'.persisted.Some? && (if s.readOnlyFF then HidesFlags(s'.persisted) else s'.persisted == Some(s'.configNoEnv))
          else s'.persisted == s.persisted)
  {
    OnlyOneApplied(u, u.lib.fix(u.lib.setDefaults(loaded)), applied);
    LoadedIsShaped(u, loaded);
    StoredFormsDifferIff(u, s, s.config, u.lib.fix(applied));
    WithoutFlagsHides(u, LoadedNoEnv(u, loaded));
    hide IsApplied, SetupOk, WithoutFlags, HidesFlags, DifferAt;
  }

  /** The first Load, which always finds a change; the flags are read-only until someone says
      otherwise, and are not written. */
  lemma FirstLoadWritesIff(u: Setup, isReadOnly: bool, loaded: Fields, a: Answers, applied: Fields)
    requires SetupOk(u) && IsApplied(u, u.lib.fix(u.lib.setDefaults(loaded)), applied)
    ensures var (s, err) := FirstLoad(u, isReadOnly, loaded, a);
      && (s.Some? <==> err == None)
      && (s.Some? <==> u.lib.isValid(u.lib.fix(applied)) && a.comparable && (isReadOnly || !a.write.WriteFails?))
      && (s.Some? ==> s.value.readOnly == isReadOnly && s.value.readOnlyFF && HidesFlags(s.value.persisted)
                      && (s.value.persisted.Some? <==> !isReadOnly && a.write.Written?))
  {
    OnlyOneApplied(u, u.lib.fix(u.lib.setDefaults(loaded)), applied);
    LoadedIsShaped(u, loaded);
    WithoutFlagsHides(u, LoadedNoEnv(u, loaded));
    hide IsApplied, SetupOk, WithoutFlags;
  }

  // ------------------------------------------------------------------ runs of Sets

  datatype Event = EvSet(input: Fields, a: Answers) | EvReadOnlyFF(readOnly: bool)

  ghost predicate Step(u: Setup, s: State, e: Event, s': State)
    requires SetupOk(u)
  {
    match e
    case EvSet(input, a) => Shaped(u, s) && s' == Set(u, s, input, a).0
    case EvReadOnlyFF(readOnly) => s' == s.(readOnlyFF := readOnly)
  }

  ghost predicate IsRun(u: Setup, ss: seq<State>, es: seq<Event>)
    requires SetupOk(u)
  {
    && |ss| == |es| + 1 && Shaped(u, ss[0])
    && forall i :: 0 <= i < |es| ==> Step(u, ss[i], es[i], ss[i + 1])
  }

  /** However many configurations are set, and whatever is in them, an overridden setting keeps
      the value it had without the environment when the store was loaded. */
  lemma {:induction false} OverriddenStaysAsLoaded(u: Setup, ss: seq<State>, es: seq<Event>, i: nat, q: Path)
    requires SetupOk(u) && IsRun(u, ss, es) && i < |ss| && q in u.paths
    ensures Shaped(u, ss[i])
    ensures IsPath(ss[0].configNoEnv, q) && IsPath(ss[i].configNoEnv, q)
    ensures GetLeaf(ss[i].configNoEnv, q) == GetLeaf(ss[0].configNoEnv, q)
  {
    ListedIsNoFlag(u, q);
    ShapePaths(u.schema, ss[0].configNoEnv, q);
    if i > 0 {
      OverriddenStaysAsLoaded(u, ss, es, i - 1, q);
      var s, e := ss[i - 1], es[i - 1];
      assert Step(u, s, e, ss[i]);
      hide IsRun;
      match e
      case EvSet(input, a) =>
        SetIsShaped(u, s, input, a);
        FailedSetChangesNothing(u, s, input, a);
        if Succeeds(u, s, input, a) {
          SetStores(u, s, input, a, q);
        }
      case EvReadOnlyFF(_) =>
    }
  }

  /** So no Set, be it that it fails after the write, ever persists the value of an environment
      variable for a listed setting. */
  lemma OverridesAreNotPersisted(u: Setup, ss: seq<State>, es: seq<Event>, i: nat, q: Path)
    requires SetupOk(u) && IsRun(u, ss, es) && i < |es| && q in u.paths
    requires es[i].EvSet? && Writes(u, ss[i], es[i].input, es[i].a)
    ensures var stored := ss[i + 1].persisted;
      stored.Some? && IsPath(stored.value, q) && IsPath(ss[0].configNoEnv, q)
      && GetLeaf(stored.value, q) == GetLeaf(ss[0].configNoEnv, q)
  {
    OverriddenStaysAsLoaded(u, ss, es, i, q);
    ListedIsNoFlag(u, q);
    assert Step(u, ss[i], es[i], ss[i + 1]);
    hide IsRun;
    SetPersists(u, ss[i], es[i].input, es[i].a, q);
  }

  /** Over all runs of Sets, whatever is set, the setting in use has the value of its variable. */
  lemma {:induction false} EnvironmentRules(u: Setup, ss: seq<State>, es: seq<Event>, i: nat, q: Path, m: nat)
    requires SetupOk(u) && IsRun(u, ss, es) && i < |ss| && Decides(u, q, m) && FixLeaves(u, q) && q[0] != FLAGS
    requires FollowsEnvironment(u, ss[0].config, q, m)
    ensures FollowsEnvironment(u, ss[i].config, q, m)
  {
    if i > 0 {
      EnvironmentRules(u, ss, es, i - 1, q, m);
      RunIsShaped(u, ss, es, i - 1);
      var s, e := ss[i - 1], es[i - 1];
      assert Step(u, s, e, ss[i]);
      hide IsRun, Decides, FixLeaves, FollowsEnvironment;
      if e.EvSet? {
        FailedSetChangesNothing(u, s, e.input, e.a);
        if Succeeds(u, s, e.input, e.a) {
          SetFollows(u, s, e.input, e.a, q, m);
        }
      }
    }
  }

  lemma {:induction false} RunIsShaped(u: Setup, ss: seq<State>, es: seq<Event>, i: nat)
    requires SetupOk(u) && IsRun(u, ss, es) && i < |ss|
    ensures Shaped(u, ss[i])
  {
    if i > 0 {
      RunIsShaped(u, ss, es, i - 1);
      assert Step(u, ss[i - 1], es[i - 1], ss[i]);
      hide IsRun;
      if es[i - 1].EvSet? {
        SetIsShaped(u, ss[i - 1], es[i - 1].input, es[i - 1].a);
      }
    }
  }

  ghost predicate AgreeOn(s: State, q: Path) {
    IsPath(s.config, q) && IsPath(s.configNoEnv, q) && GetLeaf(s.config, q) == GetLeaf(s.configNoEnv, q)
  }

  /** From the first successful Set on, the configuration in use and the one without the
      environment agree on every setting that is neither listed nor a feature flag. */
  lemma {:induction false} AgreeFromFirstSet(u: Setup, ss: seq<State>, es: seq<Event>, j: nat, i: nat, q: Path)
    requires SetupOk(u) && IsRun(u, ss, es) && j < i < |ss|
    requires es[j].EvSet? && Shaped(u, ss[j]) && Succeeds(u, ss[j], es[j].input, es[j].a)
    requires IsPath(u.schema, q) && q !in u.paths && q[0] != FLAGS
    ensures AgreeOn(ss[i], q)
    decreases i
  {
    hide *;
    StepsOfRun(u, ss, es, i - 1);
    RunIsShaped(u, ss, es, i - 1);
    if i > j + 1 {
      AgreeFromFirstSet(u, ss, es, j, i - 1, q);
    }
    AgreeStep(u, ss[i - 1], es[i - 1], ss[i], q);
  }

  lemma StepsOfRun(u: Setup, ss: seq<State>, es: seq<Event>, i: nat)
    requires SetupOk(u) && IsRun(u, ss, es) && i + 1 < |ss|
    ensures |ss| == |es| + 1 && Step(u, ss[i], es[i], ss[i + 1])
  {
    hide Step;
  }

  lemma AgreeStep(u: Setup, s: State, e: Event, s': State, q: Path)
    requires SetupOk(u) && Shaped(u, s) && Step(u, s, e, s')
    requires IsPath(u.schema, q) && q !in u.paths && q[0] != FLAGS
    requires AgreeOn(s, q) || (e.EvSet? && Succeeds(u, s, e.input, e.a))
    ensures AgreeOn(s', q)
  {
    hide SetupOk, Shaped;
    if e.EvSet? {
      FailedSetChangesNothing(u, s, e.input, e.a);
      if Succeeds(u, s, e.input, e.a) {
        SetStores(u, s, e.input, e.a, q);
      }
    }
  }

  /** While the flags are read-only no run of Sets changes them, in use or without the environment. */
  lemma {:induction false} FlagsStay(u: Setup, ss: seq<State>, es: seq<Event>, i: nat)
    requires SetupOk(u) && IsRun(u, ss, es) && i < |ss|
    requires ss[0].readOnlyFF && forall j :: 0 <= j < i ==> es[j].EvSet?
    ensures Shaped(u, ss[i]) && ss[i].readOnlyFF
    ensures HasName(ss[0].config, FLAGS) && HasName(ss[i].config, FLAGS)
    ensures NodeOf(ss[i].config, FLAGS) == NodeOf(ss[0].config, FLAGS)
    ensures HasName(ss[0].configNoEnv, FLAGS) && HasName(ss[i].configNoEnv, FLAGS)
    ensures NodeOf(ss[i].configNoEnv, FLAGS) == NodeOf(ss[0].configNoEnv, FLAGS)
  {
    ShapedTogether(u, ss[0].config, ss[0].config);
    ShapedTogether(u, ss[0].configNoEnv, ss[0].configNoEnv);
    if i > 0 {
      FlagsStay(u, ss, es, i - 1);
      assert Step(u, ss[i - 1], es[i - 1], ss[i]);
      hide IsRun;
      SetIsShaped(u, ss[i - 1], es[i - 1].input, es[i - 1].a);
      SetKeepsFlags(u, ss[i - 1], es[i - 1].input, es[i - 1].a);
    }
  }

  /** While the flags are read-only no run of Sets writes them. */
  lemma {:induction false} FlagsAreNotPersisted(u: Setup, ss: seq<State>, es: seq<Event>, i: nat)
    requires SetupOk(u) && IsRun(u, ss, es) && i < |ss|
    requires ss[0].readOnlyFF && HidesFlags(ss[0].persisted) && forall j :: 0 <= j < i ==> es[j].EvSet?
    ensures HidesFlags(ss[i].persisted)
  {
    hide *;
    if i > 0 {
      StepsOfRun(u, ss, es, i - 1);
      FlagsAreNotPersisted(u, ss, es, i - 1);
      FlagsStay(u, ss, es, i - 1);
      HidesStep(u, ss[i - 1], es[i - 1], ss[i]);
    }
  }

  lemma HidesStep(u: Setup, s: State, e: Event, s': State)
    requires SetupOk(u) && Shaped(u, s) && s.readOnlyFF && HidesFlags(s.persisted) && e.EvSet? && Step(u, s, e, s')
    ensures HidesFlags(s'.persisted)
  {
    hide SetupOk, Shaped, HidesFlags;
    SetHidesFlags(u, s, e.input, e.a);
  }

  // ------------------------------------------------------------------ the object

  class Store {
    const setup: Setup
    var config: Fields
    var configNoEnv: Fields
    var persisted: Option<Fields>
    var readOnly: bool
    var readOnlyFF: bool

    ghost function Now(): State
      reads this
    {
      State(config, configNoEnv, persisted, readOnly, readOnlyFF)
    }

    ghost predicate Valid()
      reads this
    {
      SetupOk(setup) && Shaped(setup, Now())
    }

    constructor (u: Setup, s: State)
      ensures setup == u && Now() == s
    {
      setup, config, configNoEnv, persisted := u, s.config, s.configNoEnv, s.persisted;
      readOnly, readOnlyFF := s.readOnly, s.readOnlyFF;
    }

    /** NewStoreFromBacking: null when the first Load fails. */
    static method New(u: Setup, isReadOnly: bool, loaded: Fields, a: Answers) returns (s: Store?, err: Option<Error>)
      requires SetupOk(u)
      ensures (s != null) == FirstLoad(u, isReadOnly, loaded, a).0.Some? && err == FirstLoad(u, isReadOnly, loaded, a).1
      ensures s != null ==> fresh(s) && s.setup == u && s.Valid() && Some(s.Now()) == FirstLoad(u, isReadOnly, loaded, a).0
    {
      LoadedIsShaped(u, loaded);
      s := null;
      var noEnv := u.lib.fix(u.lib.setDefaults(loaded));
      AppliedIsShaped(u, noEnv);
      var applied := ApplyEnvironment(u.lib.parsers, noEnv, u.env);
      var cfg := u.lib.fix(applied.value);
      if !u.lib.isValid(cfg) { return null, Some(InvalidConfig); }
      if !a.comparable { return null, Some(NotCompared); }
      var stored: Option<Fields> := None;
      if !isReadOnly {
        if a.write.WriteFails? { return null, Some(NotPersisted); }
        if a.write.Written? {
          stored := Some(WithoutFlags(noEnv));
        }
      }
      s := new Store(u, State(cfg, noEnv, stored, isReadOnly, true));
      return s, None;
    }

    method SetConfig(input: Fields, a: Answers) returns (err: Option<Error>)
      requires Valid()
      modifies this
      ensures Valid() && (Now(), err) == Set(setup, old(Now()), input, a)
    {
      SetIsShaped(setup, Now(), input, a);
      if readOnly { return Some(ReadOnlyStore); }
      WantedIsShaped(setup, Now(), input);
      var newCfg := setup.lib.setDefaults(input);
      newCfg := setup.lib.desanitize(config, newCfg);
      AppliedIsShaped(setup, newCfg);
      var applied := ApplyEnvironment(setup.lib.parsers, newCfg, setup.env);
      newCfg := setup.lib.fix(applied.value);
      assert newCfg == Wanted(setup, Now(), input);
      if !setup.lib.isValid(newCfg) { return Some(InvalidConfig); }
      ShapedTogether(setup, newCfg, configNoEnv);
      ShapedTogether(setup, configNoEnv, config);
      ShapedTogether(setup, config, newCfg);
      hide Wanted, SetupOk;
      var removed := RemoveOverrides(newCfg, configNoEnv, setup.paths);
      var newNoEnv := removed.value;
      if !a.write.Written? { return Some(NotPersisted); }
      persisted := Some(if readOnlyFF then WithoutFlags(newNoEnv) else newNoEnv);
      if !a.comparable { return Some(NotCompared); }
      if readOnlyFF {
        newCfg := WithFlagsOf(newCfg, config);
        newNoEnv := WithFlagsOf(newNoEnv, configNoEnv);
      }
      configNoEnv, config := newNoEnv, newCfg;
      return None;
    }

    method LoadConfig(loaded: Fields, empty: bool, a: Answers) returns (err: Option<Error>)
      requires Valid()
      modifies this
      ensures Valid() && (Now(), err) == Load(setup, old(Now()), loaded, empty, a)
    {
      LoadedIsShaped(setup, loaded);
      var noEnv := setup.lib.fix(setup.lib.setDefaults(loaded));
      AppliedIsShaped(setup, noEnv);
      var applied := ApplyEnvironment(setup.lib.parsers, noEnv, setup.env);
      var cfg := setup.lib.fix(applied.value);
      if !setup.lib.isValid(cfg) { return Some(InvalidConfig); }
      var before, after, stored := config, cfg, noEnv;
      if readOnlyFF {
        before, after, stored := WithoutFlags(before), WithoutFlags(after), WithoutFlags(stored);
      }
      if !a.comparable { return Some(NotCompared); }
      if !readOnly && (before != after || empty) {
        if a.write.WriteFails? { return Some(NotPersisted); }
        if a.write.Written? {
          persisted := Some(stored);
        }
      }
      config, configNoEnv := cfg, noEnv;
      return None;
    }

    method SetReadOnlyFF(isReadOnly: bool)
      requires Valid()
      modifies this`readOnlyFF
      ensures Valid() && Now() == old(Now()).(readOnlyFF := isReadOnly)
    {
      readOnlyFF := isReadOnly;
    }
  }
}
