/** The structural difference of two configurations: `Compare` builds dotted names on the way down as
    the original does, `Edits` is its meaning in terms of paths, and the difference is proved to
    be a patch. */
module ConfigDiff {
  import opened Wrappers

  datatype Type = BoolT | IntT | StringT | ListT | MapT | PtrT(elem: Type) | StructT(fields: FieldTypes)

  datatype FieldTypes = NoTypes | FieldType(name: string, fieldType: Type, rest: FieldTypes)

  /** A value of a configuration. A missing list, map or target is nil. */
  datatype Val =
    | Bool(b: bool)
    | Int(i: int)
    | Str(s: string)
    | List(items: Option<seq<string>>)
    | Map(entries: Option<map<string, string>>)
    | Ptr(elem: Type, target: Option<Val>)
    | Struct(fields: Fields)

  datatype Fields = NoFields | Field(name: string, val: Val, rest: Fields)

  type Path = seq<string>

  datatype Entry = Entry(path: string, baseVal: Val, actualVal: Val)

  function TypeOf(v: Val): Type {
    match v
    case Bool(_) => BoolT
    case Int(_) => IntT
    case Str(_) => StringT
    case List(_) => ListT
    case Map(_) => MapT
    case Ptr(elem, _) => PtrT(elem)
    case Struct(fs) => StructT(TypesOf(fs))
  }

  function TypesOf(fs: Fields): FieldTypes {
    match fs
    case NoFields => NoTypes
    case Field(name, v, rest) => FieldType(name, TypeOf(v), TypesOf(rest))
  }

  predicate HasName(fs: Fields, name: string) { fs.Field? && (fs.name == name || HasName(fs.rest, name)) }

  /** Pointers point to values of their type, and field names are distinct, non-empty and
      without a dot. */
  predicate WellFormed(v: Val) {
    match v
    case Ptr(elem, Some(w)) => TypeOf(w) == elem && WellFormed(w)
    case Struct(fs) => WellFormedFields(fs)
    case _ => true
  }

  predicate WellFormedFields(fs: Fields) {
    match fs
    case NoFields => true
    case Field(name, v, rest) => !HasName(rest, name) && IsName(name) && WellFormed(v) && WellFormedFields(rest)
  }

  predicate IsName(name: string) { name != "" && forall i :: 0 <= i < |name| ==> name[i] != '.' }

  predicate IsZero(v: Val) {
    match v
    case Bool(b) => !b
    case Int(i) => i == 0
    case Str(s) => s == ""
    case List(items) => items.None?
    case Map(entries) => entries.None?
    case Ptr(_, target) => target.None?
    case Struct(fs) => AllZero(fs)
  }

  predicate AllZero(fs: Fields) {
    fs.Field? ==> IsZero(fs.val) && AllZero(fs.rest)
  }

  // ------------------------------------------------------------------ the comparison

  function Indirect(v: Val): (r: Val)
    ensures v.Ptr? && v.target.Some? ==> r < v
    ensures r == v || r < v
    ensures WellFormed(v) ==> WellFormed(r)
    ensures WellFormed(v) && v.Ptr? && v.target.Some? ==> TypeOf(r) == v.elem
  {
    if v.Ptr? && v.target.Some? then v.target.value else v
  }

  function Attach(prefix: string, name: string): string { if prefix != "" then prefix + "." + name else name }

  /** diff: both zero, one zero, a pair of pointers, a struct, anything else. */
  function Compare(base: Val, actual: Val, prefix: string): Result<seq<Entry>>
    decreases base, 1
  {
    if IsZero(base) && IsZero(actual) then Ok([])
    else if IsZero(base) || IsZero(actual) then Ok([Entry(prefix, base, actual)])
    else
      var b, a := if base.Ptr? then Indirect(base) else base, if base.Ptr? then Indirect(actual) else actual;
      if TypeOf(b) != TypeOf(a) then Err("not same type")
      else if b.Struct? then CompareFields(b.fields, a.fields, prefix)
      else if b != a then Ok([Entry(prefix, b, a)])
      else Ok([])
  }

  /** The loop over the fields, which stops at the first error. */
  function CompareFields(bs: Fields, as_: Fields, prefix: string): Result<seq<Entry>>
    decreases bs, 0
  {
    if bs.NoFields? || as_.NoFields? then
      if bs == as_ then Ok([]) else Err("not same number of fields in struct")
    else
      match Compare(bs.val, as_.val, Attach(prefix, bs.name))
      case Err(message) => Err(message)
      case Ok(first) =>
        match CompareFields(bs.rest, as_.rest, prefix)
        case Err(message) => Err(message)
        case Ok(others) => Ok(first + others)
  }

  /** Diff, on pointers that may be nil. */
  function Diff(base: Option<Val>, actual: Option<Val>): Result<seq<Entry>> {
    if base.None? || actual.None? then Err("input configs should not be nil")
    else Compare(base.value, actual.value, "")
  }

  // ---------------------------------------------------------------------- its meaning

  datatype Edit = Edit(path: Path, baseVal: Val, actualVal: Val)

  function Below(name: string, es: seq<Edit>): (r: seq<Edit>)
    ensures |r| == |es| && forall i :: 0 <= i < |es| ==> r[i] == es[i].(path := [name] + es[i].path)
  {
    if es == [] then [] else [es[0].(path := [name] + es[0].path)] + Below(name, es[1..])
  }

  /** The differences of two values of one type, with paths instead of dotted names. */
  function Edits(base: Val, actual: Val): seq<Edit>
    requires TypeOf(base) == TypeOf(actual) && WellFormed(base) && WellFormed(actual)
    decreases base, 1
  {
    if IsZero(base) && IsZero(actual) then []
    else if IsZero(base) || IsZero(actual) then [Edit([], base, actual)]
    else
      var b, a := Indirect(base), Indirect(actual);
      if b.Struct? then FieldEdits(b.fields, a.fields) else if b != a then [Edit([], b, a)] else []
  }

  function FieldEdits(bs: Fields, as_: Fields): seq<Edit>
    requires TypesOf(bs) == TypesOf(as_) && WellFormedFields(bs) && WellFormedFields(as_)
    decreases bs, 0
  {
    if bs.NoFields? then [] else Below(bs.name, Edits(bs.val, as_.val)) + FieldEdits(bs.rest, as_.rest)
  }

  function PathFrom(prefix: string, p: Path): string
    decreases |p|
  {
    if p == [] then prefix else PathFrom(Attach(prefix, p[0]), p[1..])
  }

  function Entries(prefix: string, es: seq<Edit>): (r: seq<Entry>)
    ensures |r| == |es|
    ensures forall i :: 0 <= i < |es| ==> r[i] == Entry(PathFrom(prefix, es[i].path), es[i].baseVal, es[i].actualVal)
  {
    if es == [] then []
    else [Entry(PathFrom(prefix, es[0].path), es[0].baseVal, es[0].actualVal)] + Entries(prefix, es[1..])
  }

  lemma EntriesBelow(prefix: string, name: string, es: seq<Edit>)
    ensures Entries(prefix, Below(name, es)) == Entries(Attach(prefix, name), es)
  {
    forall i | 0 <= i < |es|
      ensures PathFrom(prefix, [name] + es[i].path) == PathFrom(Attach(prefix, name), es[i].path)
    {
      assert ([name] + es[i].path)[1..] == es[i].path;
    }
  }

  lemma EntriesAppend(prefix: string, a: seq<Edit>, b: seq<Edit>)
    ensures Entries(prefix, a + b) == Entries(prefix, a) + Entries(prefix, b)
  {
  }

  lemma EntriesOfOne(prefix: string, b: Val, a: Val)
    ensures Entries(prefix, []) == []
    ensures Entries(prefix, [Edit([], b, a)]) == [Entry(prefix, b, a)]
  {
  }

  /** On two values of one type the comparison never errs, and its entries are the edits. */
  lemma {:induction false} CompareIsEdits(base: Val, actual: Val, prefix: string)
    requires TypeOf(base) == TypeOf(actual) && WellFormed(base) && WellFormed(actual)
    ensures Compare(base, actual, prefix) == Ok(Entries(prefix, Edits(base, actual)))
    decreases base, 1
  {
    EntriesOfOne(prefix, base, actual);
    EntriesOfOne(prefix, Indirect(base), Indirect(actual));
    if !IsZero(base) && !IsZero(actual) && Indirect(base).Struct? {
      CompareFieldsIsEdits(Indirect(base).fields, Indirect(actual).fields, prefix);
    }
  }

  lemma {:induction false} CompareFieldsIsEdits(bs: Fields, as_: Fields, prefix: string)
    requires TypesOf(bs) == TypesOf(as_) && WellFormedFields(bs) && WellFormedFields(as_)
    ensures CompareFields(bs, as_, prefix) == Ok(Entries(prefix, FieldEdits(bs, as_)))
    decreases bs, 0
  {
    if bs.Field? {
      CompareIsEdits(bs.val, as_.val, Attach(prefix, bs.name));
      CompareFieldsIsEdits(bs.rest, as_.rest, prefix);
      EntriesBelow(prefix, bs.name, Edits(bs.val, as_.val));
      EntriesAppend(prefix, Below(bs.name, Edits(bs.val, as_.val)), FieldEdits(bs.rest, as_.rest));
    }
  }

  // ------------------------------------------------- what it errs on and how deep it goes

  /** The value a field of this type has when nothing is set. */
  function Default(t: Type): Val {
    match t
    case BoolT => Bool(false)
    case IntT => Int(0)
    case StringT => Str("")
    case ListT => List(None)
    case MapT => Map(None)
    case PtrT(elem) => Ptr(elem, None)
    case StructT(fields) => Struct(Defaults(fields))
  }

  function Defaults(ts: FieldTypes): Fields {
    match ts
    case NoTypes => NoFields
    case FieldType(name, t, rest) => Field(name, Default(t), Defaults(rest))
  }

  predicate IsDefault(v: Val) { v == Default(TypeOf(v)) }

  lemma {:induction false} ZeroIsDefault(v: Val)
    ensures IsZero(v) <==> IsDefault(v)
  {
    if v.Struct? {
      ZerosAreDefaults(v.fields);
    }
  }

  lemma {:induction false} ZerosAreDefaults(fs: Fields)
    ensures AllZero(fs) <==> fs == Defaults(TypesOf(fs))
  {
    if fs.Field? {
      ZeroIsDefault(fs.val);
      ZerosAreDefaults(fs.rest);
    }
  }

  /** A pointer on the side of the base may face a pointer to its type or a plain value of it; a plain
      value faces its own type alone. */
  predicate Comparable(base: Val, actual: Val) {
    if base.Ptr? then base.elem == (if actual.Ptr? then actual.elem else TypeOf(actual)) else TypeOf(base) == TypeOf(actual)
  }

  /** The comparison errs exactly on two values, neither of them a default, that are not comparable,
      and always with this message: within values of one type nothing can differ in type or number. */
  lemma CompareErrsIff(base: Val, actual: Val, prefix: string)
    requires WellFormed(base) && WellFormed(actual)
    ensures Compare(base, actual, prefix).Err? <==> !IsDefault(base) && !IsDefault(actual) && !Comparable(base, actual)
    ensures Compare(base, actual, prefix).Err? ==> Compare(base, actual, prefix).message == "not same type"
  {
    ZeroIsDefault(base);
    ZeroIsDefault(actual);
    if !IsZero(base) && !IsZero(actual) && Comparable(base, actual) {
      var b, a := if base.Ptr? then Indirect(base) else base, if base.Ptr? then Indirect(actual) else actual;
      assert TypeOf(b) == TypeOf(a);
      if b.Struct? {
        CompareFieldsIsEdits(b.fields, a.fields, prefix);
      }
    }
  }

  /** A struct is reported whole exactly where one side is all default: an entry for two structs has a
      default on one side, and a default is never looked into. */
  lemma {:induction false} EditsAreDeep(base: Val, actual: Val)
    requires TypeOf(base) == TypeOf(actual) && WellFormed(base) && WellFormed(actual)
    ensures forall i :: 0 <= i < |Edits(base, actual)| ==> IsDeep(Edits(base, actual)[i])
    ensures forall i :: 0 <= i < |Edits(base, actual)| ==>
              (IsDefault(base) || IsDefault(actual) || !Indirect(base).Struct? <==> Edits(base, actual)[i].path == [])
    decreases base, 1
  {
    ZeroIsDefault(base);
    ZeroIsDefault(actual);
    if !IsZero(base) && !IsZero(actual) && Indirect(base).Struct? {
      FieldEditsAreDeep(Indirect(base).fields, Indirect(actual).fields);
    }
  }

  predicate IsDeep(e: Edit) { IsDefault(e.baseVal) || IsDefault(e.actualVal) || !e.baseVal.Struct? }

  lemma {:induction false} FieldEditsAreDeep(bs: Fields, as_: Fields)
    requires TypesOf(bs) == TypesOf(as_) && WellFormedFields(bs) && WellFormedFields(as_)
    ensures forall i :: 0 <= i < |FieldEdits(bs, as_)| ==> IsDeep(FieldEdits(bs, as_)[i]) && FieldEdits(bs, as_)[i].path != []
    decreases bs, 0
  {
    if bs.Field? {
      EditsAreDeep(bs.val, as_.val);
      FieldEditsAreDeep(bs.rest, as_.rest);
      hide IsDefault;
    }
  }

  // ------------------------------------------------------------------- as a patch

  /** Writes x at a path; a value of the pointed-to type goes through the pointer. */
  function Write(v: Val, p: Path, x: Val): Val
    decreases v, 1
  {
    if p == [] then
      if v.Ptr? && v.target.Some? && TypeOf(x) == v.elem then v.(target := Some(x)) else x
    else match v
      case Struct(fs) => Struct(WriteField(fs, p, x))
      case Ptr(elem, Some(w)) => Ptr(elem, Some(Write(w, p, x)))
      case _ => v
  }

  function WriteField(fs: Fields, p: Path, x: Val): Fields
    requires p != []
    decreases fs, 0
  {
    match fs
    case NoFields => NoFields
    case Field(name, v, rest) =>
      if name == p[0] then Field(name, Write(v, p[1..], x), rest) else Field(name, v, WriteField(rest, p, x))
  }

  function Patch(v: Val, es: seq<Edit>): Val
    decreases |es|
  {
    if es == [] then v else Patch(Write(v, es[0].path, es[0].actualVal), es[1..])
  }

  predicate NotAtTop(es: seq<Edit>) { forall i :: 0 <= i < |es| ==> es[i].path != [] }

  function PatchFields(fs: Fields, es: seq<Edit>): Fields
    requires NotAtTop(es)
    decreases |es|
  {
    if es == [] then fs else PatchFields(WriteField(fs, es[0].path, es[0].actualVal), es[1..])
  }

  lemma {:induction false} PatchStruct(fs: Fields, es: seq<Edit>)
    requires NotAtTop(es)
    ensures Patch(Struct(fs), es) == Struct(PatchFields(fs, es))
    decreases |es|
  {
    if es != [] {
      PatchStruct(WriteField(fs, es[0].path, es[0].actualVal), es[1..]);
    }
  }

  lemma {:induction false} PatchPointer(v: Val, es: seq<Edit>)
    requires v.Ptr? && v.target.Some? && NotAtTop(es)
    ensures Patch(v, es) == Ptr(v.elem, Some(Patch(v.target.value, es)))
    decreases |es|
  {
    if es != [] {
      PatchPointer(Write(v, es[0].path, es[0].actualVal), es[1..]);
    }
  }

  lemma {:induction false} PatchAppend(fs: Fields, a: seq<Edit>, b: seq<Edit>)
    requires NotAtTop(a) && NotAtTop(b)
    ensures NotAtTop(a + b) && PatchFields(fs, a + b) == PatchFields(PatchFields(fs, a), b)
    decreases |a|
  {
    if a == [] {
      assert a + b == b;
    } else {
      assert (a + b)[1..] == a[1..] + b;
      PatchAppend(WriteField(fs, a[0].path, a[0].actualVal), a[1..], b);
    }
  }

  /** Edits below the first field change the first field. */
  lemma {:induction false} PatchFirst(name: string, v: Val, rest: Fields, es: seq<Edit>)
    ensures NotAtTop(Below(name, es))
    ensures PatchFields(Field(name, v, rest), Below(name, es)) == Field(name, Patch(v, es), rest)
    decreases |es|
  {
    if es != [] {
      assert ([name] + es[0].path)[1..] == es[0].path;
      PatchFirst(name, Write(v, es[0].path, es[0].actualVal), rest, es[1..]);
      assert Below(name, es)[1..] == Below(name, es[1..]);
    }
  }

  predicate Elsewhere(name: string, es: seq<Edit>) {
    forall i :: 0 <= i < |es| ==> es[i].path != [] && es[i].path[0] != name
  }

  lemma {:induction false} PatchRest(name: string, v: Val, rest: Fields, es: seq<Edit>)
    requires Elsewhere(name, es)
    ensures PatchFields(Field(name, v, rest), es) == Field(name, v, PatchFields(rest, es))
    decreases |es|
  {
    if es != [] {
      PatchRest(name, v, WriteField(rest, es[0].path, es[0].actualVal), es[1..]);
    }
  }

  /** Every edit of a struct is below one of its fields. */
  lemma {:induction false} EditsAreBelow(bs: Fields, as_: Fields)
    requires TypesOf(bs) == TypesOf(as_) && WellFormedFields(bs) && WellFormedFields(as_)
    ensures forall i :: 0 <= i < |FieldEdits(bs, as_)| ==>
      FieldEdits(bs, as_)[i].path != [] && HasName(bs, FieldEdits(bs, as_)[i].path[0])
    decreases bs, 0
  {
    if bs.Field? {
      EditsAreBelow(bs.rest, as_.rest);
    }
  }

  /** Writing every actual value into the base gives the actual configuration. */
  lemma {:induction false} PatchGivesActual(base: Val, actual: Val)
    requires TypeOf(base) == TypeOf(actual) && WellFormed(base) && WellFormed(actual)
    ensures Patch(base, Edits(base, actual)) == actual
    decreases base, 1
  {
    if IsZero(base) && IsZero(actual) {
      ZerosAreEqual(base, actual);
    } else if IsZero(base) || IsZero(actual) {
      if base.Ptr? {
        NotItsOwnPointer(base.elem);
      }
      assert Patch(base, [Edit([], base, actual)]) == Write(base, [], actual);
    } else {
      var b, a := Indirect(base), Indirect(actual);
      if b.Struct? {
        EditsAreBelow(b.fields, a.fields);
        PatchFieldsGiveActual(b.fields, a.fields);
        PatchStruct(b.fields, FieldEdits(b.fields, a.fields));
        if base.Ptr? {
          PatchPointer(base, FieldEdits(b.fields, a.fields));
        }
      } else if b != a {
        assert Patch(base, [Edit([], b, a)]) == Write(base, [], a);
      }
    }
  }

  lemma {:induction false} NotItsOwnPointer(t: Type)
    ensures t != PtrT(t)
  {
    if t.PtrT? {
      NotItsOwnPointer(t.elem);
    }
  }

  lemma {:induction false} PatchFieldsGiveActual(bs: Fields, as_: Fields)
    requires TypesOf(bs) == TypesOf(as_) && WellFormedFields(bs) && WellFormedFields(as_)
    ensures NotAtTop(FieldEdits(bs, as_)) && PatchFields(bs, FieldEdits(bs, as_)) == as_
    decreases bs, 0
  {
    EditsAreBelow(bs, as_);
    if bs.Field? {
      var first, others := Edits(bs.val, as_.val), FieldEdits(bs.rest, as_.rest);
      PatchGivesActual(bs.val, as_.val);
      PatchFieldsGiveActual(bs.rest, as_.rest);
      EditsAreBelow(bs.rest, as_.rest);
      PatchFirst(bs.name, bs.val, bs.rest, first);
      PatchAppend(bs, Below(bs.name, first), others);
      PatchRest(bs.name, as_.val, bs.rest, others);
    }
  }

  lemma {:induction false} ZerosAreEqual(a: Val, b: Val)
    requires TypeOf(a) == TypeOf(b) && IsZero(a) && IsZero(b)
    ensures a == b
  {
    if a.Struct? {
      ZeroFieldsAreEqual(a.fields, b.fields);
    }
  }

  lemma {:induction false} ZeroFieldsAreEqual(a: Fields, b: Fields)
    requires TypesOf(a) == TypesOf(b) && AllZero(a) && AllZero(b)
    ensures a == b
  {
    if a.Field? {
      ZerosAreEqual(a.val, b.val);
      ZeroFieldsAreEqual(a.rest, b.rest);
    }
  }

  // --------------------------------------------------------------- what else it says

  /** The difference is empty exactly when the configurations are equal. */
  lemma EmptyIffEqual(base: Val, actual: Val)
    requires TypeOf(base) == TypeOf(actual) && WellFormed(base) && WellFormed(actual)
    ensures Edits(base, actual) == [] <==> base == actual
  {
    PatchGivesActual(base, actual);
    if base == actual {
      NothingToEdit(base);
    }
  }

  lemma {:induction false} NothingToEdit(v: Val)
    requires WellFormed(v)
    ensures Edits(v, v) == []
    decreases v, 1
  {
    if !IsZero(v) && Indirect(v).Struct? {
      NothingToEditFields(Indirect(v).fields);
    }
  }

  lemma {:induction false} NothingToEditFields(fs: Fields)
    requires WellFormedFields(fs)
    ensures FieldEdits(fs, fs) == []
    decreases fs, 0
  {
    if fs.Field? {
      NothingToEdit(fs.val);
      NothingToEditFields(fs.rest);
    }
  }

  function Swapped(es: seq<Edit>): (r: seq<Edit>)
    ensures |r| == |es|
    ensures forall i :: 0 <= i < |es| ==> r[i] == Edit(es[i].path, es[i].actualVal, es[i].baseVal)
  {
    if es == [] then [] else [Edit(es[0].path, es[0].actualVal, es[0].baseVal)] + Swapped(es[1..])
  }

  /** Swapping the arguments swaps the sides of every entry. */
  lemma {:induction false} SwapSwaps(base: Val, actual: Val)
    requires TypeOf(base) == TypeOf(actual) && WellFormed(base) && WellFormed(actual)
    ensures Edits(actual, base) == Swapped(Edits(base, actual))
    decreases base, 1
  {
    if !IsZero(base) && !IsZero(actual) && Indirect(base).Struct? {
      SwapSwapsFields(Indirect(base).fields, Indirect(actual).fields);
    }
  }

  lemma {:induction false} SwapSwapsFields(bs: Fields, as_: Fields)
    requires TypesOf(bs) == TypesOf(as_) && WellFormedFields(bs) && WellFormedFields(as_)
    ensures FieldEdits(as_, bs) == Swapped(FieldEdits(bs, as_))
    decreases bs, 0
  {
    if bs.Field? {
      SwapSwaps(bs.val, as_.val);
      SwapSwapsFields(bs.rest, as_.rest);
      SwappedBelow(bs.name, Edits(bs.val, as_.val));
      SwappedAppend(Below(bs.name, Edits(bs.val, as_.val)), FieldEdits(bs.rest, as_.rest));
      hide Swapped, Below;
    }
  }

  lemma SwappedBelow(name: string, es: seq<Edit>)
    ensures Below(name, Swapped(es)) == Swapped(Below(name, es))
  {
  }

  lemma SwappedAppend(a: seq<Edit>, b: seq<Edit>)
    ensures Swapped(a + b) == Swapped(a) + Swapped(b)
  {
  }

  /** The value at a path, with or without the last pointer. */
  predicate Holds(v: Val, p: Path, x: Val)
    decreases v, 1
  {
    if p == [] then x == v || x == Indirect(v)
    else match Indirect(v)
      case Struct(fs) => FieldHolds(fs, p, x)
      case _ => false
  }

  predicate FieldHolds(fs: Fields, p: Path, x: Val)
    requires p != []
    decreases fs, 0
  {
    match fs
    case NoFields => false
    case Field(name, v, rest) => if name == p[0] then Holds(v, p[1..], x) else FieldHolds(rest, p, x)
  }

  predicate TrueEdit(base: Val, actual: Val, e: Edit) {
    Holds(base, e.path, e.baseVal) && Holds(actual, e.path, e.actualVal) && e.baseVal != e.actualVal
  }

  /** Neither path leads to the other or below it. */
  predicate Apart(p: Path, q: Path) { !(p <= q) && !(q <= p) }

  ghost predicate Disjoint(es: seq<Edit>) {
    forall i, j :: 0 <= i < j < |es| ==> Apart(es[i].path, es[j].path)
  }

  /** Every entry carries the values the two sides have there, and they differ; no entry lies
      inside another. */
  lemma {:induction false} EditsAreTrue(base: Val, actual: Val)
    requires TypeOf(base) == TypeOf(actual) && WellFormed(base) && WellFormed(actual)
    ensures forall i :: 0 <= i < |Edits(base, actual)| ==> TrueEdit(base, actual, Edits(base, actual)[i])
    ensures Disjoint(Edits(base, actual))
    decreases base, 1
  {
    if IsZero(base) != IsZero(actual) {
      assert base != actual;
    } else if !IsZero(base) && Indirect(base).Struct? {
      var bs, as_ := Indirect(base).fields, Indirect(actual).fields;
      FieldEditsAreTrue(bs, as_);
      EditsAreBelow(bs, as_);
      var es := FieldEdits(bs, as_);
      assert Edits(base, actual) == es;
      forall i | 0 <= i < |es|
        ensures TrueEdit(base, actual, es[i])
      {
        assert TrueFieldEdit(bs, as_, es[i]);
      }
    }
  }

  predicate TrueFieldEdit(bs: Fields, as_: Fields, e: Edit) {
    e.path != [] && FieldHolds(bs, e.path, e.baseVal) && FieldHolds(as_, e.path, e.actualVal) && e.baseVal != e.actualVal
  }

  lemma {:induction false} FieldEditsAreTrue(bs: Fields, as_: Fields)
    requires TypesOf(bs) == TypesOf(as_) && WellFormedFields(bs) && WellFormedFields(as_)
    ensures forall i :: 0 <= i < |FieldEdits(bs, as_)| ==> TrueFieldEdit(bs, as_, FieldEdits(bs, as_)[i])
    ensures Disjoint(FieldEdits(bs, as_))
    decreases bs, 0
  {
    if bs.Field? {
      var first, others := Edits(bs.val, as_.val), FieldEdits(bs.rest, as_.rest);
      EditsAreTrue(bs.val, as_.val);
      FieldEditsAreTrue(bs.rest, as_.rest);
      EditsAreBelow(bs.rest, as_.rest);
      var es := Below(bs.name, first) + others;
      forall i | 0 <= i < |es|
        ensures TrueFieldEdit(bs, as_, es[i])
      {
        if i < |first| {
          assert TrueEdit(bs.val, as_.val, first[i]);
          assert es[i].path[1..] == first[i].path;
        } else {
          assert TrueFieldEdit(bs.rest, as_.rest, others[i - |first|]);
        }
      }
      DisjointBelow(bs.name, first, others);
    }
  }

  lemma DisjointBelow(name: string, first: seq<Edit>, others: seq<Edit>)
    requires Disjoint(first) && Disjoint(others) && Elsewhere(name, others)
    ensures Disjoint(Below(name, first) + others)
  {
    var es := Below(name, first) + others;
    forall i, j | 0 <= i < j < |es|
      ensures Apart(es[i].path, es[j].path)
    {
      if j < |first| {
        assert Apart(first[i].path, first[j].path);
        assert es[i].path[1..] == first[i].path && es[j].path[1..] == first[j].path;
      } else if i >= |first| {
        assert Apart(others[i - |first|].path, others[j - |first|].path);
      } else {
        assert es[i].path[0] == name;
      }
    }
  }

  // ------------------------------------------------------------------- dotted paths

  predicate AreNames(p: Path) { forall i :: 0 <= i < |p| ==> IsName(p[i]) }

  function Dotted(p: Path): string
    requires p != []
  {
    if |p| == 1 then p[0] else p[0] + "." + Dotted(p[1..])
  }

  lemma {:induction false} PathIsDotted(prefix: string, p: Path)
    requires p != [] && AreNames(p)
    ensures PathFrom(prefix, p) == Attach(prefix, Dotted(p))
    decreases |p|
  {
    if |p| > 1 {
      PathIsDotted(Attach(prefix, p[0]), p[1..]);
      assert (prefix + "." + p[0]) + "." + Dotted(p[1..]) == prefix + "." + (p[0] + "." + Dotted(p[1..]));
    } else {
      assert p[1..] == [];
    }
  }

  /** The part before the first dot, and the part behind it if there is one. */
  function Cut(s: string): (string, Option<string>) {
    if s == "" then ("", None)
    else if s[0] == '.' then ("", Some(s[1..]))
    else
      var (before, behind) := Cut(s[1..]);
      ([s[0]] + before, behind)
  }

  lemma {:induction false} CutFindsName(a: string, x: string)
    requires forall i :: 0 <= i < |a| ==> a[i] != '.'
    ensures Cut(a) == (a, None) && Cut(a + "." + x) == (a, Some(x))
  {
    var s := a + "." + x;
    if a == "" {
      assert s[1..] == x;
    } else {
      CutFindsName(a[1..], x);
      assert s[0] == a[0] && s[1..] == a[1..] + "." + x && a == [a[0]] + a[1..];
    }
  }

  /** A dotted name stands for one path only. */
  lemma {:induction false} DottedIsInjective(p: Path, q: Path)
    requires p != [] && q != [] && AreNames(p) && AreNames(q) && Dotted(p) == Dotted(q)
    ensures p == q
    decreases |p|
  {
    CutFindsName(p[0], if |p| > 1 then Dotted(p[1..]) else "");
    CutFindsName(q[0], if |q| > 1 then Dotted(q[1..]) else "");
    if |p| > 1 && |q| > 1 {
      DottedIsInjective(p[1..], q[1..]);
      assert p == [p[0]] + p[1..] && q == [q[0]] + q[1..];
    }
  }

  lemma {:induction false} EditPathsAreNames(base: Val, actual: Val)
    requires TypeOf(base) == TypeOf(actual) && WellFormed(base) && WellFormed(actual)
    ensures forall i :: 0 <= i < |Edits(base, actual)| ==> AreNames(Edits(base, actual)[i].path)
    decreases base, 1
  {
    if !IsZero(base) && !IsZero(actual) && Indirect(base).Struct? {
      FieldEditPathsAreNames(Indirect(base).fields, Indirect(actual).fields);
    }
  }

  lemma {:induction false} FieldEditPathsAreNames(bs: Fields, as_: Fields)
    requires TypesOf(bs) == TypesOf(as_) && WellFormedFields(bs) && WellFormedFields(as_)
    ensures forall i :: 0 <= i < |FieldEdits(bs, as_)| ==> AreNames(FieldEdits(bs, as_)[i].path)
    decreases bs, 0
  {
    if bs.Field? {
      EditPathsAreNames(bs.val, as_.val);
      FieldEditPathsAreNames(bs.rest, as_.rest);
    }
  }

  /** Diff of two configurations of one schema: it never errs, its entries are the edits under
      their dotted paths, it is empty exactly when they are equal, and no two entries have the
      same path. */
  lemma DiffIsThePatch(base: Val, actual: Val)
    requires TypeOf(base) == TypeOf(actual) && WellFormed(base) && WellFormed(actual)
    ensures Diff(Some(base), Some(actual)) == Ok(Entries("", Edits(base, actual)))
    ensures Diff(Some(base), Some(actual)) == Ok([]) <==> base == actual
    ensures Patch(base, Edits(base, actual)) == actual
    ensures var entries := Entries("", Edits(base, actual));
      forall i, j :: 0 <= i < j < |entries| ==> entries[i].path != entries[j].path
  {
    CompareIsEdits(base, actual, "");
    EmptyIffEqual(base, actual);
    PatchGivesActual(base, actual);
    EditsAreTrue(base, actual);
    EditPathsAreNames(base, actual);
    var es := Edits(base, actual);
    hide Edits, WellFormed, Patch, TrueEdit;
    forall i, j | 0 <= i < j < |es|
      ensures PathFrom("", es[i].path) != PathFrom("", es[j].path)
    {
      var p, q := es[i].path, es[j].path;
      assert Apart(p, q) && p != [] && q != [];
      PathIsDotted("", p);
      PathIsDotted("", q);
      if Dotted(p) == Dotted(q) {
        DottedIsInjective(p, q);
      }
    }
  }
}
