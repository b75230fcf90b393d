/** The translation of object keys between snake case on the wire and camel case in the client. */
module KeyCase {

  predicate IsUpper(c: char) { 'A' <= c <= 'Z' }

  predicate IsLower(c: char) { 'a' <= c <= 'z' }

  function ToLower(c: char): char
    requires IsUpper(c)
  {
    (c as int + 32) as char
  }

  function ToUpper(c: char): char
    requires IsLower(c)
  {
    (c as int - 32) as char
  }

  /** camelToSnake: every capital becomes an underscore and its lower case. */
  function CamelToSnake(s: string): string {
    if s == "" then ""
    else if IsUpper(s[0]) then ['_', ToLower(s[0])] + CamelToSnake(s[1..])
    else [s[0]] + CamelToSnake(s[1..])
  }

  predicate StartsWithHump(s: string) { |s| >= 2 && s[0] == '_' && IsLower(s[1]) }

  /** snakeToCamel: from left to right every underscore before a lower-case letter goes and
      the letter becomes a capital. */
  function SnakeToCamel(s: string): string {
    if s == "" then ""
    else if StartsWithHump(s) then [ToUpper(s[1])] + SnakeToCamel(s[2..])
    else [s[0]] + SnakeToCamel(s[1..])
  }

  predicate NoUpper(s: string) { s == "" || (!IsUpper(s[0]) && NoUpper(s[1..])) }

  /** No underscore stands before a lower-case letter. */
  predicate NoHump(s: string) { s == "" || (!StartsWithHump(s) && NoHump(s[1..])) }

  lemma NoUpperCons(c: char, s: string)
    requires !IsUpper(c) && NoUpper(s)
    ensures NoUpper([c] + s)
  {
    assert ([c] + s)[1..] == s;
  }

  lemma SnakeUnfolds(s: string)
    requires s != ""
    ensures var rest := CamelToSnake(s[1..]);
      CamelToSnake(s) == if IsUpper(s[0]) then ['_'] + ([ToLower(s[0])] + rest) else [s[0]] + rest
  {
  }

  lemma {:induction false} SnakeHasNoUpper(s: string)
    ensures NoUpper(CamelToSnake(s))
  {
    if s != "" {
      hide NoUpper, CamelToSnake;
      SnakeHasNoUpper(s[1..]);
      SnakeUnfolds(s);
      var rest := CamelToSnake(s[1..]);
      if IsUpper(s[0]) {
        NoUpperCons(ToLower(s[0]), rest);
        NoUpperCons('_', [ToLower(s[0])] + rest);
      } else {
        NoUpperCons(s[0], rest);
      }
    }
  }

  lemma {:induction false} CamelHasNoHump(s: string)
    ensures NoHump(SnakeToCamel(s))
    ensures SnakeToCamel(s) != "" && IsLower(SnakeToCamel(s)[0]) ==> IsLower(s[0])
  {
    if s != "" {
      if StartsWithHump(s) {
        CamelHasNoHump(s[2..]);
        assert SnakeToCamel(s)[1..] == SnakeToCamel(s[2..]);
      } else {
        CamelHasNoHump(s[1..]);
        assert SnakeToCamel(s)[1..] == SnakeToCamel(s[1..]);
      }
    }
  }

  lemma {:induction false} SnakeUndone(s: string)
    requires NoHump(s)
    ensures SnakeToCamel(CamelToSnake(s)) == s
  {
    if s != "" {
      SnakeUndone(s[1..]);
      var rest := CamelToSnake(s[1..]);
      if IsUpper(s[0]) {
        var t := ['_', ToLower(s[0])] + rest;
        assert StartsWithHump(t) && t[2..] == rest;
      } else {
        var t := [s[0]] + rest;
        assert t[1..] == rest;
        assert !StartsWithHump(t) by {
          if |s| >= 2 && s[0] == '_' {
            assert rest[0] == if IsUpper(s[1]) then '_' else s[1];
          }
        }
      }
    }
  }

  /** Snake case and back is the identity exactly on the keys without a hump. */
  lemma {:induction false} CamelRoundTripIff(s: string)
    ensures SnakeToCamel(CamelToSnake(s)) == s <==> NoHump(s)
  {
    CamelHasNoHump(CamelToSnake(s));
    if NoHump(s) {
      SnakeUndone(s);
    }
  }

  lemma {:induction false} CamelUndone(s: string)
    requires NoUpper(s)
    ensures CamelToSnake(SnakeToCamel(s)) == s
  {
    if s != "" {
      var t := SnakeToCamel(s);
      if StartsWithHump(s) {
        assert NoUpper(s[1..][1..]) && s[1..][1..] == s[2..];
        CamelUndone(s[2..]);
        assert t[1..] == SnakeToCamel(s[2..]);
        assert s == ['_', s[1]] + s[2..];
      } else {
        CamelUndone(s[1..]);
        assert t[1..] == SnakeToCamel(s[1..]);
      }
    }
  }

  /** Camel case and back is the identity exactly on the keys without a capital. */
  lemma {:induction false} SnakeRoundTripIff(s: string)
    ensures CamelToSnake(SnakeToCamel(s)) == s <==> NoUpper(s)
  {
    SnakeHasNoUpper(SnakeToCamel(s));
    if NoUpper(s) {
      CamelUndone(s);
    }
  }

  lemma {:induction false} SnakeFixed(s: string)
    requires NoUpper(s)
    ensures CamelToSnake(s) == s
  {
    if s != "" {
      SnakeFixed(s[1..]);
    }
  }

  /** Keys are left alone exactly when they have no capital, and so is everything that has been
      translated once. */
  lemma {:induction false} SnakeFixedIff(s: string)
    ensures CamelToSnake(s) == s <==> NoUpper(s)
    ensures CamelToSnake(CamelToSnake(s)) == CamelToSnake(s)
  {
    SnakeHasNoUpper(s);
    SnakeFixed(CamelToSnake(s));
    if NoUpper(s) {
      SnakeFixed(s);
    }
  }

  // ---------------------------------------------------------------------- the aliases

  /** LOWERCASE_ALIAS_MAP. */
  const ALIASES: map<string, string> := map[
    "createat" := "createdAt",
    "updateat" := "updatedAt",
    "deleteat" := "deleteAt",
    "authservice" := "authService",
    "emailverified" := "emailVerified",
    "lastactivityat" := "lastActivityAt",
    "allowmarketing" := "allowMarketing",
    "notifyprops" := "notifyProps",
    "isbot" := "isBot"]

  /** A plain object also answers for the names it inherits, with functions whose texts then
      serve as keys. */
  const INHERITED: set<string> := {
    "toString", "toLocaleString", "valueOf", "hasOwnProperty", "isPrototypeOf", "propertyIsEnumerable",
    "__defineGetter__", "__defineSetter__", "__lookupGetter__", "__lookupSetter__"}

  const CONSTRUCTOR := "constructor"

  /** The one inherited name that is an accessor: reading it gives the prototype, whose text is
      that of a plain object, and assigning to it sets the prototype. */
  const PROTO := "__proto__"

  /** The mapper of toCamel. */
  function Camel(k: string): string {
    if k in ALIASES then ALIASES[k]
    else if k == CONSTRUCTOR then "function Object() { [native code] }"
    else if k == PROTO then "[object Object]"
    else if k in INHERITED then "function " + k + "() { [native code] }"
    else SnakeToCamel(k)
  }

  /** The names on the wire that the mapper of toCamel does not treat as snake case, but for
      the inherited names with capitals, which never are on the wire. */
  predicate Special(x: string) { x in ALIASES || x == CONSTRUCTOR || x == PROTO }

  /** The keys that come back from the wire as they were. */
  predicate GoodKey(k: string) { NoHump(k) && !Special(CamelToSnake(k)) }

  predicate Without(s: string, c: char) { forall i :: 0 <= i < |s| ==> s[i] != c }

  lemma {:induction false} NoUpperAt(s: string, i: nat)
    requires NoUpper(s) && i < |s|
    ensures !IsUpper(s[i])
  {
    if i > 0 {
      NoUpperAt(s[1..], i - 1);
    }
  }

  lemma {:induction false} NoUnderscoreNoHump(s: string)
    requires Without(s, '_')
    ensures NoHump(s)
  {
    if s != "" {
      NoUnderscoreNoHump(s[1..]);
    }
  }

  lemma {:induction false} NoUnderscoreStays(s: string)
    requires Without(s, '_')
    ensures SnakeToCamel(s) == s
  {
    if s != "" {
      NoUnderscoreStays(s[1..]);
    }
  }

  lemma {:induction false} NoUnderscoreNoCapital(k: string)
    requires Without(CamelToSnake(k), '_')
    ensures CamelToSnake(k) == k
  {
    if k != "" {
      var x := CamelToSnake(k);
      assert x[0] != '_';
      assert x[1..] == CamelToSnake(k[1..]);
      NoUnderscoreNoCapital(k[1..]);
    }
  }

  lemma CapitalAt(k: string, i: nat)
    requires i < |k| && IsUpper(k[i])
    ensures !NoUpper(k)
  {
    if NoUpper(k) {
      NoUpperAt(k, i);
    }
  }

  lemma {:induction false} SnakeToCamelIsShort(k: string)
    ensures |SnakeToCamel(k)| <= |k|
  {
    if StartsWithHump(k) {
      SnakeToCamelIsShort(k[2..]);
    } else if k != "" {
      SnakeToCamelIsShort(k[1..]);
    }
  }

  lemma InheritedHaveCapitals(k: string)
    requires k in INHERITED
    ensures !NoUpper(k)
  {
    hide NoUpper;
    if k == "valueOf" { CapitalAt(k, 5); }
    else if k == "propertyIsEnumerable" { CapitalAt(k, 8); }
    else if k == "hasOwnProperty" { CapitalAt(k, 3); }
    else if k == "toString" { CapitalAt(k, 2); }
    else if k == "toLocaleString" { CapitalAt(k, 2); }
    else if k == "isPrototypeOf" { CapitalAt(k, 2); }
    else { CapitalAt(k, 8); }
  }

  /** The place of a capital in the camel case of an alias. */
  function CapitalOf(k: string): nat {
    if k == "createat" || k == "updateat" then 7
    else if k == "deleteat" || k == "notifyprops" then 6
    else if k == "emailverified" || k == "allowmarketing" then 5
    else if k == "isbot" then 2
    else 4
  }

  lemma AliasHasCapital(k: string)
    requires k in ALIASES
    ensures CapitalOf(k) < |ALIASES[k]| && IsUpper(ALIASES[k][CapitalOf(k)])
  {
  }

  lemma AliasesArePlain(k: string)
    requires k in ALIASES
    ensures Without(k, '_') && Without(ALIASES[k], '_') && ALIASES[k] != "" && !IsUpper(ALIASES[k][0])
    ensures exists i :: 0 <= i < |ALIASES[k]| && IsUpper(ALIASES[k][i])
  {
    AliasHasCapital(k);
    hide IsUpper, CapitalOf;
    assert Without(ALIASES[k], '_') && Without(k, '_') && ALIASES[k] != "";
    AliasStartsLow(k);
  }

  lemma AliasStartsLow(k: string)
    requires k in ALIASES
    ensures ALIASES[k] != "" && !IsUpper(ALIASES[k][0])
  {
  }

  lemma FirstLetterStays(k: string)
    requires k != "" && !IsUpper(k[0])
    ensures CamelToSnake(k) != "" && CamelToSnake(k)[0] == k[0]
  {
  }

  lemma AliasDiffers(k: string)
    requires k in ALIASES
    ensures ALIASES[k] != k
  {
    var i := CapitalOf(k);
    AliasHasCapital(k);
    assert i < |k| ==> !IsUpper(k[i]);
  }

  /** What toCamel does not treat as snake case: the aliases and the names a plain object inherits. */
  lemma CamelIsPlainIff(k: string)
    ensures Camel(k) == SnakeToCamel(k) <==> k !in ALIASES && k !in INHERITED && k != CONSTRUCTOR && k != PROTO
  {
    if k in ALIASES {
      AliasesArePlain(k);
      AliasDiffers(k);
      NoUnderscoreStays(k);
      hide SnakeToCamel, CapitalOf, NoHump, Without;
    } else {
      SnakeToCamelIsShort(k);
      hide SnakeToCamel;
    }
  }

  lemma CamelOfOther(x: string)
    requires NoUpper(x) && !Special(x)
    ensures Camel(x) == SnakeToCamel(x)
  {
    hide NoUpper, SnakeToCamel;
    if x in INHERITED {
      InheritedHaveCapitals(x);
    }
  }

  lemma AliasChanges(x: string)
    requires x in ALIASES
    ensures Camel(x) != x
  {
    var v := ALIASES[x];
    assert x == "createat" ==> v[7] == 'A' && |x| == 8;
  }

  lemma SpecialChanges(k: string)
    requires Special(CamelToSnake(k))
    ensures Camel(CamelToSnake(k)) != k
  {
    var x := CamelToSnake(k);
    hide CamelToSnake, SnakeToCamel;
    if x in ALIASES {
      AliasesArePlain(x);
      NoUnderscoreNoCapital(k);
      AliasChanges(x);
    } else if x == CONSTRUCTOR {
      NoUnderscoreNoCapital(k);
      assert |Camel(x)| != |x|;
    } else {
      FirstLetterStays("[object Object]");
      assert x[0] == '_';
    }
  }

  /** A key survives the trip to the wire and back exactly when it is a good one. */
  lemma {:induction false} KeyRoundTripIff(k: string)
    ensures Camel(CamelToSnake(k)) == k <==> GoodKey(k)
  {
    hide NoUpper, NoHump, CamelToSnake, SnakeToCamel, Special, Camel;
    if Special(CamelToSnake(k)) {
      SpecialChanges(k);
    } else {
      SnakeHasNoUpper(k);
      CamelOfOther(CamelToSnake(k));
      CamelRoundTripIff(k);
    }
  }

  lemma LettersAreLower(k: string)
    requires k in ALIASES || k == CONSTRUCTOR || k == PROTO
    ensures forall i :: 0 <= i < |k| ==> !IsUpper(k[i])
  {
  }

  lemma {:induction false} LowerSnake(s: string)
    requires forall i :: 0 <= i < |s| ==> !IsUpper(s[i])
    ensures NoUpper(s) && CamelToSnake(s) == s
  {
    if s != "" {
      LowerSnake(s[1..]);
      SnakeUnfolds(s);
      NoUpperCons(s[0], s[1..]);
      assert [s[0]] + s[1..] == s;
    }
  }

  lemma SpecialIsFixed(x: string)
    requires Special(x)
    ensures NoUpper(x) && CamelToSnake(x) == x
  {
    hide NoUpper, CamelToSnake;
    LettersAreLower(x);
    LowerSnake(x);
  }

  /** What comes back is always a good key. */
  lemma {:induction false} ReturnedKeysAreGood(k: string)
    ensures GoodKey(Camel(CamelToSnake(k)))
  {
    var x := CamelToSnake(k);
    SnakeHasNoUpper(k);
    hide NoUpper, NoHump, CamelToSnake, SnakeToCamel, Special, Camel;
    if Special(x) {
      SpecialBecomesGood(x);
    } else {
      CamelOfOther(x);
      CamelHasNoHump(x);
      CamelUndone(x);
    }
  }

  lemma SpecialBecomesGood(x: string)
    requires Special(x)
    ensures GoodKey(Camel(x))
  {
    hide NoHump, CamelToSnake, SnakeToCamel;
    var v := Camel(x);
    if x in ALIASES {
      AliasesArePlain(x);
    } else if x == CONSTRUCTOR {
      assert IsUpper(v[9]);
    } else {
      assert IsUpper(v[8]);
    }
    PlainIsGood(v);
  }

  lemma PlainIsGood(v: string)
    requires Without(v, '_') && v != "" && !IsUpper(v[0])
    requires exists i :: 0 <= i < |v| && IsUpper(v[i])
    ensures GoodKey(v)
  {
    NoUnderscoreNoHump(v);
    FirstLetterStays(v);
    hide NoHump, CamelToSnake;
    var x := CamelToSnake(v);
    if Special(x) {
      var i :| 0 <= i < |v| && IsUpper(v[i]);
      LettersAreLower(x);
      assert x != PROTO;
      AliasesWithout(x);
      NoUnderscoreNoCapital(v);
    }
  }

  lemma AliasesWithout(x: string)
    requires x in ALIASES || x == CONSTRUCTOR
    ensures Without(x, '_')
  {
  }

  // ----------------------------------------------- which keys those are, by name

  lemma {:induction false} NoHumpComesFromItself(k: string)
    requires NoHump(CamelToSnake(k))
    ensures CamelToSnake(k) == k
  {
    if k != "" {
      var x, rest := CamelToSnake(k), CamelToSnake(k[1..]);
      SnakeUnfolds(k);
      if IsUpper(k[0]) {
        assert false;
      }
      assert x[1..] == rest;
      NoHumpComesFromItself(k[1..]);
      assert k == [k[0]] + k[1..];
    }
  }

  lemma {:induction false} NoHumpIn(s: string)
    requires forall i :: 0 <= i < |s| - 1 && s[i] == '_' ==> !IsLower(s[i + 1])
    ensures NoHump(s)
  {
    if s != "" {
      NoHumpIn(s[1..]);
    }
  }

  const OTHER_PROTO := "_Proto__"

  /** The keys on which the trip fails although they have no hump: the aliases, the constructor,
      and one that becomes the accessor's name. */
  lemma SpecialNames(k: string)
    ensures Special(CamelToSnake(k)) <==> k in ALIASES || k == CONSTRUCTOR || k == PROTO || k == OTHER_PROTO
    ensures NoHump(OTHER_PROTO)
  {
    hide NoHump, CamelToSnake;
    NoHumpIn(OTHER_PROTO);
    OtherIsProto();
    if Special(k) {
      SpecialIsFixed(k);
    }
    if Special(CamelToSnake(k)) {
      if CamelToSnake(k) == PROTO {
        ProtoComesFrom(k);
      } else {
        AliasesWithout(CamelToSnake(k));
        NoUnderscoreNoCapital(k);
      }
    }
  }

  lemma OtherIsProto()
    ensures CamelToSnake(OTHER_PROTO) == PROTO
  {
    var tail := "roto__";
    assert OTHER_PROTO == ['_'] + (['P'] + tail) && PROTO == ['_'] + (['_'] + (['p'] + tail));
    LowerSnake(tail);
    hide CamelToSnake;
    SnakeOfOther(tail);
  }

  lemma SnakeOfOther(tail: string)
    requires CamelToSnake(tail) == tail
    ensures CamelToSnake(['_'] + (['P'] + tail)) == ['_'] + (['_'] + (['p'] + tail))
  {
    var j := ['P'] + tail;
    SnakeUnfolds(['_'] + j);
    SnakeUnfolds(j);
    hide CamelToSnake;
    assert j[1..] == tail && (['_'] + j)[1..] == j;
  }

  /** The first character of a key, from the first of its snake case. */
  lemma Peel(k: string, c: char, w: string)
    requires CamelToSnake(k) == [c] + w
    ensures k != "" && k == [k[0]] + k[1..]
    ensures || (k[0] == c && CamelToSnake(k[1..]) == w)
            || (c == '_' && IsUpper(k[0]) && w == [ToLower(k[0])] + CamelToSnake(k[1..]))
  {
    SnakeUnfolds(k);
    hide CamelToSnake;
    assert w == ([c] + w)[1..];
    if IsUpper(k[0]) {
      assert w == [ToLower(k[0])] + CamelToSnake(k[1..]);
    } else {
      assert w == CamelToSnake(k[1..]);
    }
  }

  lemma ProtoComesFrom(k: string)
    requires CamelToSnake(k) == PROTO
    ensures k == PROTO || k == OTHER_PROTO
  {
    hide CamelToSnake, NoHump;
    var tail := ProtoSpelled();
    TwoOrigins(k, tail);
  }

  lemma ProtoSpelled() returns (tail: string)
    ensures NoHump(tail) && NoHump(['p'] + tail)
    ensures OTHER_PROTO == ['_'] + (['P'] + tail) && PROTO == ['_'] + (['_'] + (['p'] + tail))
  {
    tail := "roto__";
    NoHumpIn(tail);
    NoHumpIn(['p'] + tail);
    hide NoHump;
  }

  lemma TwoOrigins(k: string, tail: string)
    requires NoHump(tail) && NoHump(['p'] + tail)
    requires CamelToSnake(k) == ['_'] + (['_'] + (['p'] + tail))
    ensures k == ['_'] + (['_'] + (['p'] + tail)) || k == ['_'] + (['P'] + tail)
  {
    hide CamelToSnake, NoHump;
    var w := ['p'] + tail;
    Peel(k, '_', ['_'] + w);
    assert (['_'] + w)[0] == '_';
    var j := k[1..];
    assert CamelToSnake(j) == ['_'] + w;
    Peel(j, '_', w);
    if IsUpper(j[0]) {
      assert ([ToLower(j[0])] + CamelToSnake(j[1..]))[0] == w[0];
      assert CamelToSnake(j[1..]) == ([ToLower(j[0])] + CamelToSnake(j[1..]))[1..] == w[1..] == tail;
    }
    NoHumpComesFromItself(j[1..]);
  }

  // ------------------------------------------------------------------------ whole trees

  datatype Json = Null | Atom(text: string) | Array(items: Items) | Object(members: Members)

  datatype Items = NoItems | Item(value: Json, rest: Items)

  /** The own properties of an object, in order. */
  datatype Members = NoMembers | Member(key: string, value: Json, rest: Members)

  datatype Case = ToSnakeCase | ToCamelCase

  function Mapped(to: Case, k: string): string { if to.ToSnakeCase? then CamelToSnake(k) else Camel(k) }

  predicate HasKey(ms: Members, k: string) { ms.Member? && (ms.key == k || HasKey(ms.rest, k)) }

  /** result[k] = v */
  function Put(ms: Members, k: string, v: Json): Members {
    match ms
    case NoMembers => Member(k, v, NoMembers)
    case Member(key, value, rest) => if key == k then Member(key, v, rest) else Member(key, value, Put(rest, k, v))
  }

  /** Whether `result`, given this value as its prototype, still inherits the accessor: not once
      its prototype is null, or an object that does not inherit it either. */
  predicate KeepsAccessor(to: Case, v: Json) {
    match v
    case Null => false
    case Object(members) => StaysLive(to, members, true)
    case _ => true
  }

  /** Whether the result still inherits the accessor after these members. */
  predicate StaysLive(to: Case, ms: Members, live: bool) {
    match ms
    case NoMembers => live
    case Member(k, v, rest) => StaysLive(to, rest, if live && Mapped(to, k) == PROTO then KeepsAccessor(to, v) else live)
  }

  /** transformKeys; the loop over the members fills `result`. While the result inherits the
      accessor (`live`), assigning to its name sets the prototype and adds no member. */
  function Transform(to: Case, t: Json): Json {
    match t
    case Null => t
    case Atom(_) => t
    case Array(items) => Array(TransformItems(to, items))
    case Object(members) => Object(TransformMembers(to, members, NoMembers, true))
  }

  function TransformItems(to: Case, items: Items): Items {
    match items
    case NoItems => NoItems
    case Item(v, rest) => Item(Transform(to, v), TransformItems(to, rest))
  }

  function TransformMembers(to: Case, ms: Members, result: Members, live: bool): Members {
    match ms
    case NoMembers => result
    case Member(k, v, rest) =>
      if live && Mapped(to, k) == PROTO then TransformMembers(to, rest, result, KeepsAccessor(to, v))
      else TransformMembers(to, rest, Put(result, Mapped(to, k), Transform(to, v)), live)
  }

  /** No object has two members of one key. */
  predicate Proper(t: Json) {
    match t
    case Null => true
    case Atom(_) => true
    case Array(items) => ProperItems(items)
    case Object(members) => ProperMembers(members)
  }

  predicate ProperItems(items: Items) { items.Item? ==> Proper(items.value) && ProperItems(items.rest) }

  predicate ProperMembers(ms: Members) {
    ms.Member? ==> !HasKey(ms.rest, ms.key) && Proper(ms.value) && ProperMembers(ms.rest)
  }

  /** Every key anywhere in the tree satisfies ok. */
  predicate EveryKey(t: Json, ok: string -> bool) {
    match t
    case Null => true
    case Atom(_) => true
    case Array(items) => EveryKeyOfItems(items, ok)
    case Object(members) => EveryKeyOfMembers(members, ok)
  }

  predicate EveryKeyOfItems(items: Items, ok: string -> bool) {
    items.Item? ==> EveryKey(items.value, ok) && EveryKeyOfItems(items.rest, ok)
  }

  predicate EveryKeyOfMembers(ms: Members, ok: string -> bool) {
    ms.Member? ==> ok(ms.key) && EveryKey(ms.value, ok) && EveryKeyOfMembers(ms.rest, ok)
  }

  function Append(a: Members, b: Members): Members {
    match a
    case NoMembers => b
    case Member(k, v, rest) => Member(k, v, Append(rest, b))
  }

  /** The members with their keys mapped in place. */
  function InPlace(to: Case, ms: Members): Members {
    match ms
    case NoMembers => NoMembers
    case Member(k, v, rest) => Member(Mapped(to, k), Transform(to, v), InPlace(to, rest))
  }

  /** The mapping keeps the keys of these members apart, and makes none of them the accessor's. */
  predicate KeptApart(to: Case, ms: Members) {
    ms.Member? ==>
      && Mapped(to, ms.key) != PROTO
      && !HasKey(InPlace(to, ms.rest), Mapped(to, ms.key)) && KeptApart(to, ms.rest)
  }

  predicate NoneOf(ms: Members, others: Members) {
    ms.Member? ==> !HasKey(others, ms.key) && NoneOf(ms.rest, others)
  }

  lemma {:induction false} PutNew(ms: Members, k: string, v: Json, others: Members)
    requires !HasKey(ms, k)
    ensures Append(Put(ms, k, v), others) == Append(ms, Member(k, v, others))
    ensures forall x :: HasKey(Put(ms, k, v), x) <==> HasKey(ms, x) || x == k
  {
    if ms.Member? {
      PutNew(ms.rest, k, v, others);
    }
  }

  lemma {:induction false} NoneOfPut(ms: Members, others: Members, k: string, v: Json)
    requires NoneOf(ms, others) && !HasKey(ms, k) && !HasKey(others, k)
    ensures NoneOf(ms, Put(others, k, v))
  {
    if ms.Member? {
      PutNew(others, k, v, NoMembers);
      NoneOfPut(ms.rest, others, k, v);
    }
  }

  /** While no two keys meet, filling the result maps the keys in place. */
  lemma {:induction false} FillsInPlace(to: Case, ms: Members, result: Members)
    requires KeptApart(to, ms) && NoneOf(InPlace(to, ms), result)
    ensures TransformMembers(to, ms, result, true) == Append(result, InPlace(to, ms))
  {
    match ms
    case NoMembers => AppendNothing(result);
    case Member(k, v, rest) =>
      var k', v' := Mapped(to, k), Transform(to, v);
      NoneOfPut(InPlace(to, rest), result, k', v');
      FillsInPlace(to, rest, Put(result, k', v'));
      PutNew(result, k', v', InPlace(to, rest));
  }

  lemma {:induction false} AppendNothing(ms: Members)
    ensures Append(ms, NoMembers) == ms
  {
    if ms.Member? {
      AppendNothing(ms.rest);
    }
  }

  lemma {:induction false} NoneOfNothing(ms: Members)
    ensures NoneOf(ms, NoMembers)
  {
    if ms.Member? {
      NoneOfNothing(ms.rest);
    }
  }

  lemma KeptInPlace(to: Case, ms: Members)
    requires KeptApart(to, ms)
    ensures Transform(to, Object(ms)) == Object(InPlace(to, ms))
  {
    NoneOfNothing(InPlace(to, ms));
    FillsInPlace(to, ms, NoMembers);
  }

  /** What holds of every mapped key holds of every key that comes out. */
  lemma {:induction false} KeysThatComeOut(to: Case, t: Json, before: string -> bool, after: string -> bool)
    requires EveryKey(t, before) && forall k :: before(k) ==> after(Mapped(to, k))
    ensures EveryKey(Transform(to, t), after)
    decreases t
  {
    match t
    case Null =>
    case Atom(_) =>
    case Array(items) => KeysOfItems(to, items, before, after);
    case Object(members) => KeysOfMembers(to, members, NoMembers, true, before, after);
  }

  lemma {:induction false} KeysOfItems(to: Case, items: Items, before: string -> bool, after: string -> bool)
    requires EveryKeyOfItems(items, before) && forall k :: before(k) ==> after(Mapped(to, k))
    ensures EveryKeyOfItems(TransformItems(to, items), after)
    decreases items
  {
    if items.Item? {
      KeysThatComeOut(to, items.value, before, after);
      KeysOfItems(to, items.rest, before, after);
    }
  }

  lemma {:induction false} KeysOfMembers(to: Case, ms: Members, result: Members, live: bool,
                                         before: string -> bool, after: string -> bool)
    requires EveryKeyOfMembers(ms, before) && EveryKeyOfMembers(result, after)
    requires forall k :: before(k) ==> after(Mapped(to, k))
    ensures EveryKeyOfMembers(TransformMembers(to, ms, result, live), after)
    decreases ms
  {
    if ms.Member? {
      if live && Mapped(to, ms.key) == PROTO {
        KeysOfMembers(to, ms.rest, result, KeepsAccessor(to, ms.value), before, after);
      } else {
        KeysThatComeOut(to, ms.value, before, after);
        KeysOfPut(result, Mapped(to, ms.key), Transform(to, ms.value), after);
        KeysOfMembers(to, ms.rest, Put(result, Mapped(to, ms.key), Transform(to, ms.value)), live, before, after);
      }
    }
  }

  lemma {:induction false} KeysOfPut(ms: Members, k: string, v: Json, ok: string -> bool)
    requires EveryKeyOfMembers(ms, ok) && ok(k) && EveryKey(v, ok)
    ensures EveryKeyOfMembers(Put(ms, k, v), ok)
  {
    if ms.Member? {
      KeysOfPut(ms.rest, k, v, ok);
    }
  }

  lemma {:induction false} AnyKey(t: Json)
    ensures EveryKey(t, _ => true)
  {
    match t
    case Null =>
    case Atom(_) =>
    case Array(items) => AnyKeyOfItems(items);
    case Object(members) => AnyKeyOfMembers(members);
  }

  lemma {:induction false} AnyKeyOfItems(items: Items)
    ensures EveryKeyOfItems(items, _ => true)
  {
    if items.Item? {
      AnyKey(items.value);
      AnyKeyOfItems(items.rest);
    }
  }

  lemma {:induction false} AnyKeyOfMembers(ms: Members)
    ensures EveryKeyOfMembers(ms, _ => true)
  {
    if ms.Member? {
      AnyKey(ms.value);
      AnyKeyOfMembers(ms.rest);
    }
  }

  /** No key on the wire has a capital. */
  lemma WireKeys(t: Json)
    ensures EveryKey(Transform(ToSnakeCase, t), NoUpper)
  {
    AnyKey(t);
    forall k: string
      ensures NoUpper(Mapped(ToSnakeCase, k))
    {
      SnakeHasNoUpper(k);
    }
    KeysThatComeOut(ToSnakeCase, t, _ => true, NoUpper);
  }

  // -------------------------------------------------------------- staying as it is

  /** The keys that snake case leaves alone and that are members like any other. */
  predicate Verbatim(k: string) { NoUpper(k) && k != PROTO }

  lemma {:induction false} SnakeTreeFixed(t: Json)
    requires Proper(t) && EveryKey(t, Verbatim)
    ensures Transform(ToSnakeCase, t) == t
  {
    match t
    case Null =>
    case Atom(_) =>
    case Array(items) => SnakeItemsFixed(items);
    case Object(members) =>
      SnakeMembersFixed(members);
      KeptInPlace(ToSnakeCase, members);
  }

  lemma {:induction false} SnakeItemsFixed(items: Items)
    requires ProperItems(items) && EveryKeyOfItems(items, Verbatim)
    ensures TransformItems(ToSnakeCase, items) == items
  {
    if items.Item? {
      SnakeTreeFixed(items.value);
      SnakeItemsFixed(items.rest);
    }
  }

  lemma {:induction false} SnakeMembersFixed(ms: Members)
    requires ProperMembers(ms) && EveryKeyOfMembers(ms, Verbatim)
    ensures InPlace(ToSnakeCase, ms) == ms && KeptApart(ToSnakeCase, ms)
  {
    if ms.Member? {
      SnakeFixed(ms.key);
      SnakeTreeFixed(ms.value);
      SnakeMembersFixed(ms.rest);
    }
  }

  /** Keys without capitals add the accessor's name only where it is one of them. */
  lemma {:induction false} NoProtoAdded(ms: Members, result: Members, live: bool)
    requires EveryKeyOfMembers(ms, NoUpper) && !HasKey(ms, PROTO) && !HasKey(result, PROTO)
    ensures !HasKey(TransformMembers(ToSnakeCase, ms, result, live), PROTO)
    decreases ms
  {
    if ms.Member? {
      SnakeFixed(ms.key);
      HasAfterPut(result, ms.key, Transform(ToSnakeCase, ms.value), PROTO);
      NoProtoAdded(ms.rest, Put(result, ms.key, Transform(ToSnakeCase, ms.value)), live);
    }
  }

  lemma {:induction false} HasAfterPut(ms: Members, k: string, v: Json, x: string)
    ensures HasKey(Put(ms, k, v), x) <==> HasKey(ms, x) || x == k
  {
    if ms.Member? {
      HasAfterPut(ms.rest, k, v, x);
    }
  }

  /** A first member of the accessor's name is lost. */
  lemma {:induction false} ProtoIsLost(ms: Members, result: Members)
    requires ProperMembers(ms) && EveryKeyOfMembers(ms, NoUpper) && !HasKey(result, PROTO)
    ensures !HasKey(TransformMembers(ToSnakeCase, ms, result, true), PROTO)
    decreases ms
  {
    hide CamelToSnake, NoUpper, Put, KeepsAccessor, Transform, Proper;
    if ms.Member? {
      SnakeFixed(ms.key);
      if ms.key == PROTO {
        NoProtoAdded(ms.rest, result, KeepsAccessor(ToSnakeCase, ms.value));
      } else {
        HasAfterPut(result, ms.key, Transform(ToSnakeCase, ms.value), PROTO);
        ProtoIsLost(ms.rest, Put(result, ms.key, Transform(ToSnakeCase, ms.value)));
      }
    }
  }

  lemma {:induction false} FixedHasNoProto(t: Json)
    requires Proper(t) && EveryKey(t, NoUpper) && Transform(ToSnakeCase, t) == t
    ensures EveryKey(t, Verbatim)
  {
    match t
    case Null =>
    case Atom(_) =>
    case Array(items) => FixedItemsHaveNoProto(items);
    case Object(members) =>
      ProtoIsLost(members, NoMembers);
      LowerKeysStay(members);
      KeptInPlace(ToSnakeCase, members);
      FixedMembersHaveNoProto(members);
  }

  lemma {:induction false} FixedItemsHaveNoProto(items: Items)
    requires ProperItems(items) && EveryKeyOfItems(items, NoUpper) && TransformItems(ToSnakeCase, items) == items
    ensures EveryKeyOfItems(items, Verbatim)
  {
    if items.Item? {
      FixedHasNoProto(items.value);
      FixedItemsHaveNoProto(items.rest);
    }
  }

  lemma {:induction false} FixedMembersHaveNoProto(ms: Members)
    requires ProperMembers(ms) && EveryKeyOfMembers(ms, NoUpper) && !HasKey(ms, PROTO)
    requires InPlace(ToSnakeCase, ms) == ms
    ensures EveryKeyOfMembers(ms, Verbatim)
  {
    if ms.Member? {
      FixedHasNoProto(ms.value);
      FixedMembersHaveNoProto(ms.rest);
    }
  }

  lemma {:induction false} LowerKeysStay(ms: Members)
    requires ProperMembers(ms) && EveryKeyOfMembers(ms, NoUpper) && !HasKey(ms, PROTO)
    ensures KeptApart(ToSnakeCase, ms)
    ensures forall x :: HasKey(InPlace(ToSnakeCase, ms), x) <==> HasKey(ms, x)
  {
    if ms.Member? {
      SnakeFixed(ms.key);
      LowerKeysStay(ms.rest);
    }
  }

  /** A tree reaches the wire verbatim exactly when no key in it has a capital and none is the
      accessor's name. */
  lemma {:induction false} SnakeTreeFixedIff(t: Json)
    requires Proper(t)
    ensures Transform(ToSnakeCase, t) == t <==> EveryKey(t, Verbatim)
  {
    WireKeys(t);
    if EveryKey(t, Verbatim) {
      SnakeTreeFixed(t);
    } else if Transform(ToSnakeCase, t) == t {
      FixedHasNoProto(t);
    }
  }

  lemma {:induction false} ResultIsProper(to: Case, t: Json)
    ensures Proper(t) ==> Proper(Transform(to, t))
    decreases t
  {
    match t
    case Null =>
    case Atom(_) =>
    case Array(items) => ItemsAreProper(to, items);
    case Object(members) => MembersAreProper(to, members, NoMembers, true);
  }

  lemma {:induction false} ItemsAreProper(to: Case, items: Items)
    ensures ProperItems(items) ==> ProperItems(TransformItems(to, items))
    decreases items
  {
    if items.Item? {
      ResultIsProper(to, items.value);
      ItemsAreProper(to, items.rest);
    }
  }

  lemma {:induction false} MembersAreProper(to: Case, ms: Members, result: Members, live: bool)
    requires ProperMembers(result)
    ensures ProperMembers(ms) ==> ProperMembers(TransformMembers(to, ms, result, live))
    decreases ms
  {
    if ms.Member? && ProperMembers(ms) {
      if live && Mapped(to, ms.key) == PROTO {
        MembersAreProper(to, ms.rest, result, KeepsAccessor(to, ms.value));
      } else {
        ResultIsProper(to, ms.value);
        PutIsProper(result, Mapped(to, ms.key), Transform(to, ms.value));
        MembersAreProper(to, ms.rest, Put(result, Mapped(to, ms.key), Transform(to, ms.value)), live);
      }
    }
  }

  lemma {:induction false} PutIsProper(ms: Members, k: string, v: Json)
    requires ProperMembers(ms) && Proper(v)
    ensures ProperMembers(Put(ms, k, v))
    ensures forall x :: HasKey(Put(ms, k, v), x) <==> HasKey(ms, x) || x == k
  {
    if ms.Member? {
      PutIsProper(ms.rest, k, v);
    }
  }

  /** Translating a tree twice is translating it once exactly when what is sent has no member of
      the accessor's name; and that is so whenever no key becomes that name. */
  lemma {:induction false} SnakeTreeIdempotentIff(t: Json)
    requires Proper(t)
    ensures var wire := Transform(ToSnakeCase, t);
      && (Transform(ToSnakeCase, wire) == wire <==> EveryKey(wire, Verbatim))
      && (EveryKey(t, SnakesToOther) ==> EveryKey(wire, Verbatim))
  {
    ResultIsProper(ToSnakeCase, t);
    SnakeTreeFixedIff(Transform(ToSnakeCase, t));
    if EveryKey(t, SnakesToOther) {
      forall k: string | SnakesToOther(k)
        ensures Verbatim(Mapped(ToSnakeCase, k))
      {
        SnakeHasNoUpper(k);
      }
      KeysThatComeOut(ToSnakeCase, t, SnakesToOther, Verbatim);
    }
  }

  predicate SnakesToOther(k: string) { CamelToSnake(k) != PROTO }

  lemma OneMember(k: string, v: Json, rest: Members, result: Members, live: bool)
    ensures TransformMembers(ToSnakeCase, Member(k, v, rest), result, live) ==
      if live && CamelToSnake(k) == PROTO then TransformMembers(ToSnakeCase, rest, result, KeepsAccessor(ToSnakeCase, v))
      else TransformMembers(ToSnakeCase, rest, Put(result, CamelToSnake(k), Transform(ToSnakeCase, v)), live)
    ensures TransformMembers(ToSnakeCase, NoMembers, result, live) == result
  {
    hide CamelToSnake;
  }

  /** A member whose key becomes the accessor's name is lost on the way to the wire, whatever its
      value. */
  lemma LostOnTheWire(k: string, v: Json)
    requires CamelToSnake(k) == PROTO
    ensures Transform(ToSnakeCase, Object(Member(k, v, NoMembers))) == Object(NoMembers)
  {
    OneMember(k, v, NoMembers, NoMembers, true);
    OneMember(k, v, NoMembers, NoMembers, KeepsAccessor(ToSnakeCase, v));
    hide CamelToSnake, TransformMembers, KeepsAccessor;
  }

  /** So a tree with that other name does not survive. */
  lemma OtherProtoIsLost(v: Json)
    ensures var t := Object(Member(OTHER_PROTO, v, NoMembers));
      Transform(ToSnakeCase, t) == Object(NoMembers) && Transform(ToCamelCase, Transform(ToSnakeCase, t)) != t
  {
    OtherIsProto();
    hide CamelToSnake;
    LostOnTheWire(OTHER_PROTO, v);
  }

  /** After a null has cut the result off its prototype, the accessor's name is a member like any
      other, and a second translation loses it. */
  lemma NullMakesProtoAMember(k: string, v: Json)
    requires k != PROTO && CamelToSnake(k) == PROTO && !v.Null? && Transform(ToSnakeCase, v) == v
    ensures var wire := Object(Member(PROTO, v, NoMembers));
      && Transform(ToSnakeCase, Object(Member(k, Null, Member(PROTO, v, NoMembers)))) == wire
      && Transform(ToSnakeCase, wire) == Object(NoMembers)
  {
    SpecialIsFixed(PROTO);
    LostOnTheWire(PROTO, v);
    var rest := Member(PROTO, v, NoMembers);
    OneMember(k, Null, rest, NoMembers, true);
    OneMember(PROTO, v, NoMembers, NoMembers, false);
    OneMember(PROTO, v, NoMembers, rest, false);
    hide CamelToSnake, NoUpper, TransformMembers;
  }

  // ------------------------------------------------------ when the accessor is cut off

  /** Through members of the accessor's name alone to a null. */
  predicate ReachesNull(to: Case, v: Json) {
    match v
    case Null => true
    case Object(members) => SomeReachesNull(to, members)
    case _ => false
  }

  predicate SomeReachesNull(to: Case, ms: Members) {
    ms.Member? && ((Mapped(to, ms.key) == PROTO && ReachesNull(to, ms.value)) || SomeReachesNull(to, ms.rest))
  }

  predicate SomeIsAccessor(to: Case, ms: Members) {
    ms.Member? && (Mapped(to, ms.key) == PROTO || SomeIsAccessor(to, ms.rest))
  }

  /** Of two members of the accessor's name the first reaches a null. */
  predicate CutsOff(to: Case, ms: Members) {
    ms.Member? && ((Mapped(to, ms.key) == PROTO && ReachesNull(to, ms.value) && SomeIsAccessor(to, ms.rest)) || CutsOff(to, ms.rest))
  }

  lemma {:induction false} KeepsIff(to: Case, v: Json)
    ensures KeepsAccessor(to, v) <==> !ReachesNull(to, v)
  {
    match v
    case Object(members) => StaysIff(to, members, true);
    case _ =>
  }

  lemma {:induction false} StaysIff(to: Case, ms: Members, live: bool)
    ensures StaysLive(to, ms, live) <==> live && !SomeReachesNull(to, ms)
  {
    if ms.Member? {
      KeepsIff(to, ms.value);
      StaysIff(to, ms.rest, if live && Mapped(to, ms.key) == PROTO then KeepsAccessor(to, ms.value) else live);
    }
  }

  lemma {:induction false} AccessorComesOutIff(to: Case, ms: Members, result: Members, live: bool)
    ensures HasKey(TransformMembers(to, ms, result, live), PROTO)
            <==> HasKey(result, PROTO) || (if live then CutsOff(to, ms) else SomeIsAccessor(to, ms))
  {
    hide Mapped;
    if ms.Member? {
      var k, v := Mapped(to, ms.key), ms.value;
      KeepsIff(to, v);
      if live && k == PROTO {
        AccessorComesOutIff(to, ms.rest, result, KeepsAccessor(to, v));
        CutsOffTwice(to, ms.rest);
      } else {
        AccessorComesOutIff(to, ms.rest, Put(result, k, Transform(to, v)), live);
        PutNames(result, k, Transform(to, v), PROTO);
      }
    }
  }

  lemma {:induction false} CutsOffTwice(to: Case, ms: Members)
    ensures CutsOff(to, ms) ==> SomeIsAccessor(to, ms)
  {
    if ms.Member? {
      CutsOffTwice(to, ms.rest);
    }
  }

  lemma {:induction false} PutNames(ms: Members, k: string, v: Json, x: string)
    ensures HasKey(Put(ms, k, v), x) <==> HasKey(ms, x) || x == k
  {
    if ms.Member? {
      PutNames(ms.rest, k, v, x);
    }
  }

  /** A translated object has a member of the accessor's name exactly when two of its keys become that
      name and the first of two such members leads, through members of that name alone, to a null. */
  lemma AccessorIsLeftIff(to: Case, ms: Members)
    ensures var o := Transform(to, Object(ms)); o.Object? && (HasKey(o.members, PROTO) <==> CutsOff(to, ms))
  {
    AccessorComesOutIff(to, ms, NoMembers, true);
  }

  // ------------------------------------------------------------------ the round trip

  lemma {:induction false} KeyOfImage(to: Case, ms: Members, x: string, ok: string -> bool) returns (k: string)
    requires HasKey(InPlace(to, ms), x) && EveryKeyOfMembers(ms, ok)
    ensures HasKey(ms, k) && Mapped(to, k) == x && ok(k)
  {
    if Mapped(to, ms.key) == x {
      k := ms.key;
    } else {
      k := KeyOfImage(to, ms.rest, x, ok);
    }
  }

  lemma {:induction false} TreeSurvives(t: Json)
    requires Proper(t) && EveryKey(t, GoodKey)
    ensures Transform(ToCamelCase, Transform(ToSnakeCase, t)) == t
  {
    match t
    case Null =>
    case Atom(_) =>
    case Array(items) => ItemsSurvive(items);
    case Object(members) =>
      MembersSurvive(members);
      KeptInPlace(ToSnakeCase, members);
      KeptInPlace(ToCamelCase, InPlace(ToSnakeCase, members));
  }

  lemma {:induction false} ItemsSurvive(items: Items)
    requires ProperItems(items) && EveryKeyOfItems(items, GoodKey)
    ensures TransformItems(ToCamelCase, TransformItems(ToSnakeCase, items)) == items
  {
    if items.Item? {
      TreeSurvives(items.value);
      ItemsSurvive(items.rest);
    }
  }

  lemma GoodIsNotProto(k: string)
    requires GoodKey(k)
    ensures k != PROTO && CamelToSnake(k) != PROTO
  {
    SpecialIsFixed(PROTO);
  }

  /** No two siblings meet on the way there or on the way back. */
  lemma {:induction false} MembersSurvive(ms: Members)
    requires ProperMembers(ms) && EveryKeyOfMembers(ms, GoodKey)
    ensures KeptApart(ToSnakeCase, ms) && KeptApart(ToCamelCase, InPlace(ToSnakeCase, ms))
    ensures InPlace(ToCamelCase, InPlace(ToSnakeCase, ms)) == ms
  {
    if ms.Member? {
      KeyRoundTripIff(ms.key);
      GoodIsNotProto(ms.key);
      TreeSurvives(ms.value);
      MembersSurvive(ms.rest);
      hide GoodKey, CamelToSnake, Camel;
      if HasKey(InPlace(ToSnakeCase, ms.rest), CamelToSnake(ms.key)) {
        var k := KeyOfImage(ToSnakeCase, ms.rest, CamelToSnake(ms.key), GoodKey);
        KeyRoundTripIff(k);
      }
    }
  }

  /** A tree survives the trip to the wire and back exactly when every key in it is a good one;
      in particular no sibling keys of such a tree are merged. */
  lemma {:induction false} TreeRoundTripIff(t: Json)
    requires Proper(t)
    ensures Transform(ToCamelCase, Transform(ToSnakeCase, t)) == t <==> EveryKey(t, GoodKey)
  {
    WireKeys(t);
    forall k: string | NoUpper(k)
      ensures GoodKey(Mapped(ToCamelCase, k))
    {
      SnakeFixed(k);
      ReturnedKeysAreGood(k);
    }
    KeysThatComeOut(ToCamelCase, Transform(ToSnakeCase, t), NoUpper, GoodKey);
    if EveryKey(t, GoodKey) {
      TreeSurvives(t);
    }
  }
}
