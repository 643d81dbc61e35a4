/**
 * The player schema descriptor and the default player document derived
 * from it: each top-level entry with a `default` contributes that default,
 * and each entry without one contributes an object of its sub-keys'
 * defaults, one level deep.
 */
module InfoSchema {
  import opened Text
  import opened JsNumber

  /** The JavaScript values a descriptor is made of; `TypeTag` is a constructor such as `Number`. */
  datatype JsVal =
    | Undefined
    | Bool(b: bool)
    | Num(n: int)
    | Str(s: string)
    | TypeTag(name: string)
    | Arr(items: seq<JsVal>)
    | Obj(props: seq<(string, JsVal)>)

  /** An object's own properties in insertion order. */
  type Props = seq<(string, JsVal)>

  /** Index of the property `key`, or -1. */
  function KeyIndex(p: Props, key: string): (r: int)
    ensures -1 <= r < |p|
    ensures r == -1 <==> forall i :: 0 <= i < |p| ==> p[i].0 != key
    ensures r >= 0 ==> p[r].0 == key && forall j :: 0 <= j < r ==> p[j].0 != key
  {
    if p == [] then -1
    else if p[0].0 == key then 0
    else
      var k := KeyIndex(p[1..], key);
      assert forall j :: 1 <= j < |p| ==> p[j] == p[1..][j - 1];
      if k == -1 then -1 else k + 1
  }

  /** `key in obj`: a property may be present and hold `undefined`. */
  predicate Has(p: Props, key: string)
  {
    exists i :: 0 <= i < |p| && p[i].0 == key
  }

  /** `obj[key]`, `undefined` when absent. */
  function Get(p: Props, key: string): JsVal
  {
    var i := KeyIndex(p, key);
    if i == -1 then Undefined else p[i].1
  }

  /** `obj[key] = v`: an existing property keeps its place, a new one is added last. */
  function SetProp(p: Props, key: string, v: JsVal): (r: Props)
    ensures Get(r, key) == v
    ensures forall k :: k != key ==> Get(r, k) == Get(p, k)
    ensures forall k :: Has(r, k) <==> Has(p, k) || k == key
  {
    var i := KeyIndex(p, key);
    if i == -1 then
      AppendProp(p, key, v);
      p + [(key, v)]
    else
      ReplaceProp(p, i, key, v);
      p[i := (key, v)]
  }

  /** Adding a new key last finds it there and leaves the other keys as they were. */
  lemma AppendProp(p: Props, key: string, v: JsVal)
    requires KeyIndex(p, key) == -1
    ensures var r := p + [(key, v)];
            && Get(r, key) == v
            && (forall k :: k != key ==> Get(r, k) == Get(p, k))
            && (forall k :: Has(r, k) <==> Has(p, k) || k == key)
  {
    var r := p + [(key, v)];
    assert forall j :: 0 <= j < |p| ==> r[j] == p[j];
    assert KeyIndex(r, key) == |p| by {
      assert r[|p|].0 == key;
    }
    forall k | k != key
      ensures KeyIndex(r, k) == KeyIndex(p, k) && (Has(r, k) <==> Has(p, k))
    {
      var a := KeyIndex(p, k);
      if a >= 0 { assert r[a] == p[a]; }
      if Has(r, k) {
        var j :| 0 <= j < |r| && r[j].0 == k;
        assert j < |p| && p[j] == r[j];
      }
    }
    assert Has(r, key) by {
      assert r[|p|].0 == key;
    }
  }

  /** Assigning an existing key replaces it at its index and leaves the other keys as they were. */
  lemma ReplaceProp(p: Props, i: int, key: string, v: JsVal)
    requires i == KeyIndex(p, key) && i >= 0
    ensures var r := p[i := (key, v)];
            && Get(r, key) == v
            && (forall k :: k != key ==> Get(r, k) == Get(p, k))
            && (forall k :: Has(r, k) <==> Has(p, k) || k == key)
  {
    var r := p[i := (key, v)];
    assert KeyIndex(r, key) == i by {
      assert r[i].0 == key;
      assert forall j :: 0 <= j < i ==> r[j] == p[j];
    }
    forall k | k != key
      ensures KeyIndex(r, k) == KeyIndex(p, k) && (Has(r, k) <==> Has(p, k))
    {
      ReplaceOtherKey(p, i, key, v, k);
    }
    assert r[i].0 == key;
  }

  /** Replacing the property at `i` neither moves nor hides any other key. */
  lemma ReplaceOtherKey(p: Props, i: int, key: string, v: JsVal, k: string)
    requires i == KeyIndex(p, key) && i >= 0 && k != key
    ensures KeyIndex(p[i := (key, v)], k) == KeyIndex(p, k)
    ensures Has(p[i := (key, v)], k) <==> Has(p, k)
  {
    var r := p[i := (key, v)];
    assert forall j :: 0 <= j < |r| && j != i ==> r[j] == p[j];
    var a := KeyIndex(p, k);
    if a >= 0 { assert r[a] == p[a]; }
  }

  /** Setting a property twice keeps only the second value, in the place of the first. */
  lemma SetPropTwice(p: Props, key: string, a: JsVal, b: JsVal)
    ensures SetProp(SetProp(p, key, a), key, b) == SetProp(p, key, b)
  {
    var i := KeyIndex(p, key);
    var once := SetProp(p, key, a);
    if i == -1 {
      assert KeyIndex(once, key) == |p| by {
        assert once[|p|].0 == key;
        assert forall j :: 0 <= j < |p| ==> once[j] == p[j];
      }
    } else {
      assert KeyIndex(once, key) == i by {
        assert once[i].0 == key;
        assert forall j :: 0 <= j < i ==> once[j] == p[j];
      }
    }
  }

  /** `typeof value === "object"` for the values a descriptor holds. */
  predicate IsObjectType(v: JsVal)
  {
    v.Obj? || v.Arr?
  }

  /** `value.default`; only an object literal can carry one. */
  function DefaultOf(v: JsVal): JsVal
  {
    if v.Obj? then Get(v.props, "default") else Undefined
  }

  /** `Object.entries(value)`: an array's entries are keyed by index. */
  function Entries(v: JsVal): Props
    requires IsObjectType(v)
  {
    if v.Obj? then v.props else IndexEntries(v.items)
  }

  /** An array's entries, keyed `"0"`, `"1"`, … */
  function IndexEntries(items: seq<JsVal>): Props
  {
    seq(|items|, i requires 0 <= i < |items| => (NatToString(i), items[i]))
  }

  /** The inner loop: each sub-key set to its sub-value's default, in order. */
  function SubDefaults(entries: Props): Props
    decreases |entries|
  {
    if entries == [] then []
    else SetProp(SubDefaults(entries[..|entries| - 1]), entries[|entries| - 1].0, DefaultOf(entries[|entries| - 1].1))
  }

  /** What a top-level entry contributes: its default, or the object of its sub-keys' defaults. */
  function EntryValue(v: JsVal): JsVal
    requires IsObjectType(v)
  {
    if DefaultOf(v) != Undefined then DefaultOf(v) else Obj(SubDefaults(Entries(v)))
  }

  /** The outer loop: every object-typed entry sets its key; other values are skipped. */
  function DefaultInfoOf(desc: Props): Props
    decreases |desc|
  {
    if desc == [] then []
    else
      var (key, value) := desc[|desc| - 1];
      var before := DefaultInfoOf(desc[..|desc| - 1]);
      if IsObjectType(value) then SetProp(before, key, EntryValue(value)) else before
  }

  /** `getDefaultInfo`'s nested loops, assigning one key at a time. */
  method GetDefaultInfo(desc: Props) returns (info: Props)
    ensures info == DefaultInfoOf(desc)
  {
    info := [];
    for i := 0 to |desc|
      invariant info == DefaultInfoOf(desc[..i])
    {
      assert desc[..i + 1][..i] == desc[..i];
      var (key, value) := desc[i];
      if IsObjectType(value) && DefaultOf(value) != Undefined {
        info := SetProp(info, key, DefaultOf(value));
      } else if IsObjectType(value) {
        var before := info;
        info := SetProp(info, key, Obj([]));
        var entries := Entries(value);
        var sub: Props := [];
        for j := 0 to |entries|
          invariant sub == SubDefaults(entries[..j])
          invariant info == SetProp(before, key, Obj(sub))
        {
          assert entries[..j + 1][..j] == entries[..j];
          var next := SetProp(sub, entries[j].0, DefaultOf(entries[j].1));
          SetPropTwice(before, key, Obj(sub), Obj(next));
          sub := next;
          info := SetProp(info, key, Obj(sub));
        }
        assert entries[..|entries|] == entries;
      }
    }
    assert desc[..|desc|] == desc;
  }

  /** No two properties share a key, as in an object literal. */
  predicate UniqueKeys(p: Props)
  {
    forall i, j :: 0 <= i < j < |p| ==> p[i].0 != p[j].0
  }

  /**
   * With distinct sub-keys the sub-object lists every sub-key once, in the
   * descriptor's order, each holding its sub-value's default (`undefined`
   * for a sub-value without one).
   */
  lemma {:induction false} SubDefaultsDistinct(entries: Props)
    requires UniqueKeys(entries)
    decreases |entries|
    ensures |SubDefaults(entries)| == |entries|
    ensures forall i :: 0 <= i < |entries| ==> SubDefaults(entries)[i] == (entries[i].0, DefaultOf(entries[i].1))
  {
    if entries != [] {
      var n := |entries| - 1;
      var init := entries[..n];
      assert UniqueKeys(init) by {
        forall a, b | 0 <= a < b < n
          ensures init[a].0 != init[b].0
        {
          assert init[a] == entries[a] && init[b] == entries[b];
        }
      }
      SubDefaultsDistinct(init);
      var before := SubDefaults(init);
      assert KeyIndex(before, entries[n].0) == -1 by {
        forall i | 0 <= i < |before|
          ensures before[i].0 != entries[n].0
        {
          assert before[i].0 == init[i].0 == entries[i].0;
        }
      }
      var r := before + [(entries[n].0, DefaultOf(entries[n].1))];
      assert SubDefaults(entries) == r;
      forall i | 0 <= i < |entries|
        ensures r[i] == (entries[i].0, DefaultOf(entries[i].1))
      {
        if i < n {
          assert r[i] == before[i] && init[i] == entries[i];
        }
      }
    }
  }

  /** The default document has a key exactly for each object-typed descriptor entry. */
  lemma {:induction false} DefaultInfoKeys(desc: Props)
    decreases |desc|
    ensures forall k :: Has(DefaultInfoOf(desc), k) <==>
              exists i :: 0 <= i < |desc| && desc[i].0 == k && IsObjectType(desc[i].1)
  {
    if desc != [] {
      var init := desc[..|desc| - 1];
      DefaultInfoKeys(init);
      forall k
        ensures Has(DefaultInfoOf(desc), k) <==>
                exists i :: 0 <= i < |desc| && desc[i].0 == k && IsObjectType(desc[i].1)
      {
        if exists i :: 0 <= i < |init| && init[i].0 == k && IsObjectType(init[i].1) {
          var i :| 0 <= i < |init| && init[i].0 == k && IsObjectType(init[i].1);
          assert desc[i] == init[i];
        }
        if exists i :: 0 <= i < |desc| && desc[i].0 == k && IsObjectType(desc[i].1) {
          var i :| 0 <= i < |desc| && desc[i].0 == k && IsObjectType(desc[i].1);
          if i < |init| {
            assert init[i] == desc[i];
          }
        }
      }
    }
  }

  /** An object-typed entry whose key no later entry repeats gives that key its entry value. */
  lemma {:induction false} DefaultInfoLast(desc: Props, i: nat)
    decreases |desc|
    requires i < |desc| && IsObjectType(desc[i].1)
    requires forall j :: i < j < |desc| ==> desc[j].0 != desc[i].0
    ensures Has(DefaultInfoOf(desc), desc[i].0)
    ensures Get(DefaultInfoOf(desc), desc[i].0) == EntryValue(desc[i].1)
  {
    var init := desc[..|desc| - 1];
    if i < |desc| - 1 {
      assert init[i] == desc[i];
      forall j | i < j < |init|
        ensures init[j].0 != init[i].0
      {
        assert init[j] == desc[j];
      }
      DefaultInfoLast(init, i);
    }
  }

  /** The configuration values the descriptor reads, already parsed. */
  datatype PlayerConfig = PlayerConfig(
    initBalance: int, initLevel: int,
    initBalloon: int, initMobile: int, initBike: int, initCar: int, initCastle: int,
    initMultiplier: string)

  /** `{ type: T, default: d }` */
  function Typed(typeName: string, d: JsVal): JsVal
  {
    Obj([("type", TypeTag(typeName)), ("default", d)])
  }

  /** `{ type: t, default: d }.default` is `d`. */
  lemma TypedDefault(t: JsVal, d: JsVal)
    ensures DefaultOf(Obj([("type", t), ("default", d)])) == d
  {
    var p := [("type", t), ("default", d)];
    assert p[1].0 == "default";
  }

  /** A sub-field of a nested entry: its name, its `type` and its `default`. */
  type FieldSpec = (string, JsVal, JsVal)

  /** A nested entry `{ name: { type, default }, … }`. */
  function Fields(specs: seq<FieldSpec>): JsVal
  {
    Obj(seq(|specs|, i requires 0 <= i < |specs| => (specs[i].0, Obj([("type", specs[i].1), ("default", specs[i].2)]))))
  }

  /** The fourteen command cooldown timestamps. */
  const COOLDOWN_FIELDS: seq<string> := [
    "lastWork", "lastDaily", "lastWeekly", "lastBlackJack", "lastCoinFlip", "lastCrash",
    "lastMinesweeper", "lastRace", "lastRoulette", "lastRps", "lastRussianRoulette",
    "lastSlot", "lastVote", "lastCrime"]

  /** The `userId` entry: a required, unique string, without a default. */
  const USER_ID: JsVal :=
    Obj([("type", TypeTag("String")), ("required", Bool(true)), ("unique", Bool(true))])

  /** The `swag` entry: one counter per item, starting at its configured amount. */
  function SwagFields(cfg: PlayerConfig): seq<FieldSpec>
  {
    [ ("balloon", TypeTag("Number"), Num(cfg.initBalloon)),
      ("mobile", TypeTag("Number"), Num(cfg.initMobile)),
      ("bike", TypeTag("Number"), Num(cfg.initBike)),
      ("car", TypeTag("Number"), Num(cfg.initCar)),
      ("castle", TypeTag("Number"), Num(cfg.initCastle)) ]
  }

  /** The `battlePass` entry. */
  const BATTLE_PASS_FIELDS: seq<FieldSpec> := [
    ("active", TypeTag("Boolean"), Bool(false)),
    ("level", TypeTag("Number"), Num(1)),
    ("rewardsClaimed", Arr([TypeTag("Number")]), Arr([])),
    ("experience", TypeTag("Number"), Num(0)) ]

  /** `getDefaultValues()`: the player schema descriptor, in declaration order. */
  function DefaultValues(cfg: PlayerConfig): Props
  {
    [ ("userId", USER_ID),
      ("balance", Typed("Number", Num(cfg.initBalance))),
      ("level", Typed("Number", Num(cfg.initLevel))),
      ("experience", Typed("Number", Num(0))),
      ("swag", Fields(SwagFields(cfg))) ]
    + seq(|COOLDOWN_FIELDS|, i requires 0 <= i < |COOLDOWN_FIELDS| => (COOLDOWN_FIELDS[i], Typed("Number", Num(0))))
    + [ ("multiplier", Typed("Number", Str(cfg.initMultiplier))),
        ("battlePass", Fields(BATTLE_PASS_FIELDS)) ]
  }

  /** `getDefaultInfo()` for a given configuration. */
  function DefaultInfo(cfg: PlayerConfig): Props
  {
    DefaultInfoOf(DefaultValues(cfg))
  }

  /** Every cooldown field starts with `last`. */
  lemma CooldownNames()
    ensures forall i :: 0 <= i < |COOLDOWN_FIELDS| ==> StartsWith(COOLDOWN_FIELDS[i], "last")
  {
  }

  /** With distinct keys, a property is found at its own index. */
  lemma GetDistinct(p: Props, i: nat)
    requires UniqueKeys(p) && i < |p|
    ensures Get(p, p[i].0) == p[i].1
  {
    assert KeyIndex(p, p[i].0) == i;
  }

  /**
   * With distinct keys and only object-typed entries, the default document
   * lists every descriptor key once, in the descriptor's order, each holding
   * its entry value.
   */
  lemma {:induction false} DefaultInfoDistinct(desc: Props)
    requires UniqueKeys(desc)
    requires forall i :: 0 <= i < |desc| ==> IsObjectType(desc[i].1)
    decreases |desc|
    ensures |DefaultInfoOf(desc)| == |desc|
    ensures forall i :: 0 <= i < |desc| ==> DefaultInfoOf(desc)[i] == (desc[i].0, EntryValue(desc[i].1))
  {
    if desc != [] {
      var n := |desc| - 1;
      var init := desc[..n];
      assert forall i :: 0 <= i < n ==> init[i] == desc[i];
      DefaultInfoDistinct(init);
      var before := DefaultInfoOf(init);
      assert KeyIndex(before, desc[n].0) == -1 by {
        forall i | 0 <= i < |before|
          ensures before[i].0 != desc[n].0
        {
          assert before[i].0 == desc[i].0;
        }
      }
    }
  }

  /** An object entry without a `default` contributes the object of its sub-keys' defaults. */
  lemma ObjectWithoutDefault(props: Props)
    requires UniqueKeys(props) && !Has(props, "default")
    ensures EntryValue(Obj(props)) == Obj(seq(|props|, i requires 0 <= i < |props| => (props[i].0, DefaultOf(props[i].1))))
  {
    assert KeyIndex(props, "default") == -1;
    SubDefaultsDistinct(props);
  }

  /**
   * A nested entry of `{ type, default }` sub-fields with distinct names
   * contributes the object mapping each name to its default.
   */
  lemma FieldsEntry(specs: seq<FieldSpec>)
    requires forall i, j :: 0 <= i < j < |specs| ==> specs[i].0 != specs[j].0
    requires forall i :: 0 <= i < |specs| ==> specs[i].0 != "default"
    ensures EntryValue(Fields(specs)) == Obj(seq(|specs|, i requires 0 <= i < |specs| => (specs[i].0, specs[i].2)))
  {
    var props := Fields(specs).props;
    assert UniqueKeys(props);
    ObjectWithoutDefault(props);
    forall i | 0 <= i < |specs|
      ensures DefaultOf(props[i].1) == specs[i].2
    {
      TypedDefault(specs[i].1, specs[i].2);
    }
  }

  /** The descriptor's top-level keys, in declaration order. */
  const DESCRIPTOR_KEYS: seq<string> :=
    ["userId", "balance", "level", "experience", "swag"] + COOLDOWN_FIELDS + ["multiplier", "battlePass"]

  /** The descriptor's keys are distinct. */
  lemma DescriptorKeysDistinct()
    ensures |DESCRIPTOR_KEYS| == 21
    ensures forall i, j :: 0 <= i < j < |DESCRIPTOR_KEYS| ==> DESCRIPTOR_KEYS[i] != DESCRIPTOR_KEYS[j]
  {
  }

  /** The descriptor: its keys, all distinct, each holding an object. */
  lemma DescriptorShape(cfg: PlayerConfig)
    ensures |DefaultValues(cfg)| == |DESCRIPTOR_KEYS|
    ensures forall i :: 0 <= i < |DESCRIPTOR_KEYS| ==>
              DefaultValues(cfg)[i].0 == DESCRIPTOR_KEYS[i] && IsObjectType(DefaultValues(cfg)[i].1)
    ensures UniqueKeys(DefaultValues(cfg))
  {
    DescriptorKeysDistinct();
  }

  /** With distinct keys and only object-typed entries, each key holds its entry value. */
  lemma DefaultInfoGet(desc: Props, i: nat)
    requires UniqueKeys(desc)
    requires forall j :: 0 <= j < |desc| ==> IsObjectType(desc[j].1)
    requires i < |desc|
    ensures Get(DefaultInfoOf(desc), desc[i].0) == EntryValue(desc[i].1)
  {
    DefaultInfoDistinct(desc);
    var info := DefaultInfoOf(desc);
    assert UniqueKeys(info) by {
      forall a, b | 0 <= a < b < |info|
        ensures info[a].0 != info[b].0
      {
        assert info[a].0 == desc[a].0 && info[b].0 == desc[b].0;
      }
    }
    GetDistinct(info, i);
  }

  /** The default document's value for the descriptor entry at index `i`. */
  lemma DefaultAt(cfg: PlayerConfig, i: nat)
    requires i < |DESCRIPTOR_KEYS|
    ensures IsObjectType(DefaultValues(cfg)[i].1)
    ensures Get(DefaultInfo(cfg), DESCRIPTOR_KEYS[i]) == EntryValue(DefaultValues(cfg)[i].1)
  {
    var desc := DefaultValues(cfg);
    DescriptorShape(cfg);
    DefaultInfoGet(desc, i);
  }

  /** A `{ type, default }` entry of the descriptor contributes its default under its key. */
  lemma TypedEntry(cfg: PlayerConfig, i: nat, key: string, typeName: string, d: JsVal)
    requires i < |DESCRIPTOR_KEYS| && DESCRIPTOR_KEYS[i] == key
    requires DefaultValues(cfg)[i].1 == Typed(typeName, d) && d != Undefined
    ensures Get(DefaultInfo(cfg), key) == d
  {
    DefaultAt(cfg, i);
    TypedDefault(TypeTag(typeName), d);
  }

  /** A new player's balance is the configured starting balance. */
  lemma BalanceDefault(cfg: PlayerConfig)
    ensures Get(DefaultInfo(cfg), "balance") == Num(cfg.initBalance)
  {
    TypedEntry(cfg, 1, "balance", "Number", Num(cfg.initBalance));
  }

  /** A new player's level is the configured starting level. */
  lemma LevelDefault(cfg: PlayerConfig)
    ensures Get(DefaultInfo(cfg), "level") == Num(cfg.initLevel)
  {
    TypedEntry(cfg, 2, "level", "Number", Num(cfg.initLevel));
  }

  /** A new player has no experience. */
  lemma ExperienceDefault(cfg: PlayerConfig)
    ensures Get(DefaultInfo(cfg), "experience") == Num(0)
  {
    TypedEntry(cfg, 3, "experience", "Number", Num(0));
  }

  /** A new player has the configured multiplier, kept as its two-decimal text. */
  lemma MultiplierDefault(cfg: PlayerConfig)
    ensures Get(DefaultInfo(cfg), "multiplier") == Str(cfg.initMultiplier)
  {
    TypedEntry(cfg, 19, "multiplier", "Number", Str(cfg.initMultiplier));
  }

  /** Every cooldown starts at 0, so no command is on cooldown for a new player. */
  lemma CooldownDefaults(cfg: PlayerConfig)
    ensures forall i :: 0 <= i < |COOLDOWN_FIELDS| ==>
              StartsWith(COOLDOWN_FIELDS[i], "last") && Get(DefaultInfo(cfg), COOLDOWN_FIELDS[i]) == Num(0)
  {
    CooldownNames();
    forall i | 0 <= i < |COOLDOWN_FIELDS|
      ensures Get(DefaultInfo(cfg), COOLDOWN_FIELDS[i]) == Num(0)
    {
      TypedEntry(cfg, 5 + i, COOLDOWN_FIELDS[i], "Number", Num(0));
    }
  }

  /** `userId` has no default, so the document copies its sub-keys with `undefined` values. */
  lemma UserIdDefaults(cfg: PlayerConfig)
    ensures Get(DefaultInfo(cfg), "userId") == Obj([("type", Undefined), ("required", Undefined), ("unique", Undefined)])
  {
    DefaultAt(cfg, 0);
    UserIdEntry();
  }

  /** The `userId` entry's contribution: its sub-values are not objects, so none has a default. */
  lemma UserIdEntry()
    ensures EntryValue(USER_ID) == Obj([("type", Undefined), ("required", Undefined), ("unique", Undefined)])
  {
    var props := USER_ID.props;
    UserIdKeys();
    ObjectWithoutDefault(props);
    var got := seq(|props|, i requires 0 <= i < |props| => (props[i].0, DefaultOf(props[i].1)));
    assert got == [("type", Undefined), ("required", Undefined), ("unique", Undefined)];
  }

  /** The `userId` entry's three sub-keys are distinct and none is `default`. */
  lemma UserIdKeys()
    ensures UniqueKeys(USER_ID.props) && !Has(USER_ID.props, "default")
  {
    var props := USER_ID.props;
    assert |props| == 3 && props[0].0 == "type" && props[1].0 == "required" && props[2].0 == "unique";
  }

  /** Each swag item starts at its configured amount. */
  lemma SwagDefaults(cfg: PlayerConfig)
    ensures Get(DefaultInfo(cfg), "swag") == Obj([
              ("balloon", Num(cfg.initBalloon)), ("mobile", Num(cfg.initMobile)), ("bike", Num(cfg.initBike)),
              ("car", Num(cfg.initCar)), ("castle", Num(cfg.initCastle))])
  {
    DefaultAt(cfg, 4);
    SwagEntry(cfg);
  }

  /** The `swag` entry's contribution, computed from its sub-fields alone. */
  lemma SwagEntry(cfg: PlayerConfig)
    ensures EntryValue(Fields(SwagFields(cfg))) == Obj([
              ("balloon", Num(cfg.initBalloon)), ("mobile", Num(cfg.initMobile)), ("bike", Num(cfg.initBike)),
              ("car", Num(cfg.initCar)), ("castle", Num(cfg.initCastle))])
  {
    FieldsEntry(SwagFields(cfg));
  }

  /** The battle pass starts inactive at level 1, with no rewards claimed and no experience. */
  lemma BattlePassDefaults(cfg: PlayerConfig)
    ensures Get(DefaultInfo(cfg), "battlePass") == Obj([
              ("active", Bool(false)), ("level", Num(1)), ("rewardsClaimed", Arr([])), ("experience", Num(0))])
  {
    DefaultAt(cfg, 20);
    BattlePassEntry();
  }

  /** The `battlePass` entry's contribution, computed from its sub-fields alone. */
  lemma BattlePassEntry()
    ensures EntryValue(Fields(BATTLE_PASS_FIELDS)) == Obj([
              ("active", Bool(false)), ("level", Num(1)), ("rewardsClaimed", Arr([])), ("experience", Num(0))])
  {
    FieldsEntry(BATTLE_PASS_FIELDS);
  }
}
