/**
 * The rules that decide which power-ups an equipped item, and a set of worn items, contribute
 * to a character's attributes (the item power-up factory of the game logic).
 *
 * Value elements, target attributes and power-up definitions are opaque tokens. Expanding a
 * power-up definition into power-up wrappers belongs to the attribute system and is not part of
 * this model: it is the function-typed parameter `expand`, about which nothing is assumed.
 */
module ItemPowerUpFactory {
  import opened Wrappers
  import opened Sequences

  // ----- Opaque tokens -----

  datatype ValueElement = ValueElement(token: nat)
  datatype AttributeDefinition = AttributeDefinition(token: nat)
  datatype PowerUpDefinition = PowerUpDefinition(token: nat)

  /** A power-up: a value element applied to a target attribute of the attribute holder. */
  datatype PowerUpWrapper = PowerUpWrapper(element: ValueElement, target: AttributeDefinition)

  /** What `PowerUpWrapper.CreateByPowerUpDefintion` makes of a definition for the attribute holder. */
  type Expansion = PowerUpDefinition -> seq<PowerUpWrapper>

  // ----- Configuration and item records -----

  datatype LevelBonus = LevelBonus(level: int, additionalValueElement: ValueElement)

  /** A base attribute of an item definition; `bonusPerLevel` is absent when the source's list is null. */
  datatype ItemBasePowerUpDefinition = ItemBasePowerUpDefinition(
    baseValueElement: ValueElement,
    targetAttribute: AttributeDefinition,
    bonusPerLevel: Option<seq<LevelBonus>>)

  datatype ItemDefinition = ItemDefinition(token: nat, basePowerUpAttributes: seq<ItemBasePowerUpDefinition>)

  datatype LevelDependentOption = LevelDependentOption(level: int, powerUpDefinition: PowerUpDefinition)

  /** An item option; `levelDependentOptions` is present exactly when it is an increasable item option. */
  datatype ItemOption = ItemOption(
    powerUpDefinition: PowerUpDefinition,
    levelDependentOptions: Option<seq<LevelDependentOption>>)

  /** An option applied to an item, at a level. */
  datatype ItemOptionLink = ItemOptionLink(itemOption: ItemOption, level: int)

  datatype ItemSetGroup = ItemSetGroup(
    token: nat,
    alwaysApplies: bool,
    countDistinct: bool,
    minimumItemCount: int,
    minimumSetLevel: int,
    options: seq<ItemOption>)

  /** An item; an absent field stands for the source's null reference. */
  datatype Item = Item(
    durability: int,
    itemSlot: int,
    level: int,
    definition: Option<ItemDefinition>,
    itemOptions: Option<seq<ItemOptionLink>>,
    itemSetGroups: Option<seq<ItemSetGroup>>)

  /** The equippable slot range of the inventory (first and last equippable slot index). */
  datatype EquippableSlots = EquippableSlots(first: int, last: int)

  // ----- Level lookups (FirstOrDefault on a level) -----

  /** The index of the first element of `s` whose level is `level`, if there is one. */
  function FirstAtLevel<T>(s: seq<T>, levelOf: T -> int, level: int): (r: Option<nat>)
    ensures r.None? <==> forall k :: 0 <= k < |s| ==> levelOf(s[k]) != level
    ensures r.Some? ==> r.value < |s| && levelOf(s[r.value]) == level
    ensures r.Some? ==> forall k :: 0 <= k < r.value ==> levelOf(s[k]) != level
  {
    if |s| == 0 then None
    else if levelOf(s[0]) == level then Some(0)
    else
      match FirstAtLevel(s[1..], levelOf, level)
      case None => None
      case Some(k) => Some(k + 1)
  }

  /** The first level bonus of `attribute` for `level`; a null bonus list counts as empty. */
  function LevelBonusOf(attribute: ItemBasePowerUpDefinition, level: int): (r: Option<LevelBonus>)
    ensures var bonuses := attribute.bonusPerLevel.GetOr([]);
      r.Some? <==> exists k :: 0 <= k < |bonuses| && bonuses[k].level == level
    ensures r.Some? ==> r.value.level == level
    ensures var bonuses := attribute.bonusPerLevel.GetOr([]);
      r.Some? ==> exists k :: 0 <= k < |bonuses| && bonuses[k] == r.value && forall j :: 0 <= j < k ==> bonuses[j].level != level
  {
    var bonuses := attribute.bonusPerLevel.GetOr([]);
    match FirstAtLevel(bonuses, (b: LevelBonus) => b.level, level)
    case None => None
    case Some(k) => Some(bonuses[k])
  }

  // ----- Base attributes and level bonuses -----

  /** The power-ups of one base attribute: the base value, then the level bonus when one applies. */
  function AttributePowerUps(attribute: ItemBasePowerUpDefinition, level: int): seq<PowerUpWrapper>
  {
    [PowerUpWrapper(attribute.baseValueElement, attribute.targetAttribute)]
    + if level > 0 then
        match LevelBonusOf(attribute, level)
        case Some(bonus) => [PowerUpWrapper(bonus.additionalValueElement, attribute.targetAttribute)]
        case None => []
      else []
  }

  function BasePowerUps(attributes: seq<ItemBasePowerUpDefinition>, level: int): seq<PowerUpWrapper>
  {
    if |attributes| == 0 then []
    else AttributePowerUps(attributes[0], level) + BasePowerUps(attributes[1..], level)
  }

  /** An attribute is followed by a level bonus: the item has a level and a bonus for it exists. */
  predicate HasLevelBonus(attribute: ItemBasePowerUpDefinition, level: int)
  {
    level > 0 && LevelBonusOf(attribute, level).Some?
  }

  function LevelBonusCount(attributes: seq<ItemBasePowerUpDefinition>, level: int): nat
  {
    if |attributes| == 0 then 0
    else (if HasLevelBonus(attributes[0], level) then 1 else 0) + LevelBonusCount(attributes[1..], level)
  }

  /** Where the power-ups of the attribute at index `i` start: after one base power-up and any level bonus per earlier attribute. */
  function Offset(attributes: seq<ItemBasePowerUpDefinition>, level: int, i: nat): nat
    requires i <= |attributes|
  {
    i + LevelBonusCount(attributes[..i], level)
  }

  lemma {:induction false} LevelBonusCountBounds(attributes: seq<ItemBasePowerUpDefinition>, level: int)
    ensures LevelBonusCount(attributes, level) <= |attributes|
    ensures level <= 0 ==> LevelBonusCount(attributes, level) == 0
  {
    if |attributes| > 0 {
      LevelBonusCountBounds(attributes[1..], level);
    }
  }

  /** Each base attribute yields one or two power-ups: two exactly when it has a level bonus. */
  lemma {:induction false} BasePowerUpsLength(attributes: seq<ItemBasePowerUpDefinition>, level: int)
    ensures |BasePowerUps(attributes, level)| == |attributes| + LevelBonusCount(attributes, level)
    ensures |attributes| <= |BasePowerUps(attributes, level)| <= 2 * |attributes|
    ensures level <= 0 ==> |BasePowerUps(attributes, level)| == |attributes|
  {
    LevelBonusCountBounds(attributes, level);
    if |attributes| > 0 {
      BasePowerUpsLength(attributes[1..], level);
    }
  }

  /** One base power-up, followed by the level bonus exactly when the attribute has one. */
  lemma AttributePowerUpsShape(attribute: ItemBasePowerUpDefinition, level: int)
    ensures |AttributePowerUps(attribute, level)| == if HasLevelBonus(attribute, level) then 2 else 1
    ensures AttributePowerUps(attribute, level)[0] == PowerUpWrapper(attribute.baseValueElement, attribute.targetAttribute)
    ensures HasLevelBonus(attribute, level) ==>
      AttributePowerUps(attribute, level)[1]
      == PowerUpWrapper(LevelBonusOf(attribute, level).value.additionalValueElement, attribute.targetAttribute)
  {
  }

  /** Past the first attribute, offsets are those of the remaining attributes, shifted by the first one's power-ups. */
  lemma OffsetStep(attributes: seq<ItemBasePowerUpDefinition>, level: int, i: nat)
    requires 0 < i <= |attributes|
    ensures Offset(attributes, level, i) == |AttributePowerUps(attributes[0], level)| + Offset(attributes[1..], level, i - 1)
  {
    assert attributes[..i][1..] == attributes[1..][..i - 1];
    AttributePowerUpsShape(attributes[0], level);
  }

  /**
   * The base power-ups follow the definition order: at `Offset(i)` stands the base value of
   * attribute `i`, directly followed by its level bonus when it has one, and the next attribute
   * starts right after that.
   */
  lemma {:induction false} BasePowerUpsAt(attributes: seq<ItemBasePowerUpDefinition>, level: int, i: nat)
    requires i < |attributes|
    ensures Offset(attributes, level, i + 1)
         == Offset(attributes, level, i) + if HasLevelBonus(attributes[i], level) then 2 else 1
    ensures Offset(attributes, level, i + 1) <= |BasePowerUps(attributes, level)|
    ensures BasePowerUps(attributes, level)[Offset(attributes, level, i)]
         == PowerUpWrapper(attributes[i].baseValueElement, attributes[i].targetAttribute)
    ensures HasLevelBonus(attributes[i], level) ==>
      BasePowerUps(attributes, level)[Offset(attributes, level, i) + 1]
      == PowerUpWrapper(LevelBonusOf(attributes[i], level).value.additionalValueElement, attributes[i].targetAttribute)
  {
    var head := AttributePowerUps(attributes[0], level);
    var rest := BasePowerUps(attributes[1..], level);
    assert BasePowerUps(attributes, level) == head + rest;
    AttributePowerUpsShape(attributes[0], level);
    OffsetStep(attributes, level, i + 1);
    if i == 0 {
      assert attributes[..0] == [] && attributes[1..][..0] == [];
    } else {
      OffsetStep(attributes, level, i);
      BasePowerUpsAt(attributes[1..], level, i - 1);
      assert attributes[1..][i - 1] == attributes[i];
    }
  }

  // ----- Item options -----

  /** The power-up definition an option link contributes, or None when the link is skipped. */
  function LinkDefinition(link: ItemOptionLink): (r: Option<PowerUpDefinition>)
    ensures link.level <= 1 ==> r == Some(link.itemOption.powerUpDefinition)
    ensures var dependent := link.itemOption.levelDependentOptions.GetOr([]);
      link.level > 1 ==>
        (r.Some? <==> link.itemOption.levelDependentOptions.Some?
                      && exists k :: 0 <= k < |dependent| && dependent[k].level == link.level)
    ensures var dependent := link.itemOption.levelDependentOptions.GetOr([]);
      link.level > 1 && r.Some? ==>
        exists k :: 0 <= k < |dependent| && dependent[k].level == link.level
          && r.value == dependent[k].powerUpDefinition
          && forall j :: 0 <= j < k ==> dependent[j].level != link.level
  {
    if link.level > 1 then
      match link.itemOption.levelDependentOptions
      case None => None
      case Some(dependent) =>
        match FirstAtLevel(dependent, (o: LevelDependentOption) => o.level, link.level)
        case None => None
        case Some(k) => Some(dependent[k].powerUpDefinition)
    else Some(link.itemOption.powerUpDefinition)
  }

  function LinkPowerUps(links: seq<ItemOptionLink>, expand: Expansion): seq<PowerUpWrapper>
  {
    if |links| == 0 then []
    else
      (match LinkDefinition(links[0]) case Some(p) => expand(p) case None => [])
      + LinkPowerUps(links[1..], expand)
  }

  /** The power-ups of an item's options; a null option list yields none. */
  function OptionPowerUps(options: Option<seq<ItemOptionLink>>, expand: Expansion): (r: seq<PowerUpWrapper>)
    ensures options.None? ==> r == []
  {
    match options
    case None => []
    case Some(links) => LinkPowerUps(links, expand)
  }

  /** The definitions the links contribute, in link order, skipped links left out. */
  function LinkDefinitions(links: seq<ItemOptionLink>): (r: seq<PowerUpDefinition>)
    ensures |r| <= |links|
    ensures (forall k :: 0 <= k < |links| ==> links[k].level <= 1) ==>
      |r| == |links| && forall k :: 0 <= k < |links| ==> r[k] == links[k].itemOption.powerUpDefinition
  {
    if |links| == 0 then []
    else
      (match LinkDefinition(links[0]) case Some(p) => [p] case None => [])
      + LinkDefinitions(links[1..])
  }

  /** A single link contributes its definition, or nothing when it is skipped. */
  lemma LinkDefinitionsOfOne(link: ItemOptionLink)
    ensures LinkDefinitions([link]) == match LinkDefinition(link) case Some(p) => [p] case None => []
  {
    assert [link][1..] == [];
  }

  /** The definitions of two link lists, one after the other, are those of their concatenation. */
  lemma {:induction false} LinkDefinitionsAppend(a: seq<ItemOptionLink>, b: seq<ItemOptionLink>)
    ensures LinkDefinitions(a + b) == LinkDefinitions(a) + LinkDefinitions(b)
  {
    if |a| == 0 {
      assert a + b == b;
    } else {
      assert (a + b)[0] == a[0];
      assert (a + b)[1..] == a[1..] + b;
      LinkDefinitionsAppend(a[1..], b);
    }
  }

  /** A definition is contributed exactly when some link of the list contributes it. */
  lemma {:induction false} LinkDefinitionsMembers(links: seq<ItemOptionLink>, p: PowerUpDefinition)
    ensures p in LinkDefinitions(links) <==> exists k :: 0 <= k < |links| && LinkDefinition(links[k]) == Some(p)
  {
    if |links| > 0 {
      var rest := LinkDefinitions(links[1..]);
      LinkDefinitionsMembers(links[1..], p);
      if p in rest {
        var k :| 0 <= k < |links[1..]| && LinkDefinition(links[1..][k]) == Some(p);
        assert links[k + 1] == links[1..][k];
      }
      if exists k :: 0 <= k < |links| && LinkDefinition(links[k]) == Some(p) {
        var k :| 0 <= k < |links| && LinkDefinition(links[k]) == Some(p);
        if k > 0 {
          assert links[1..][k - 1] == links[k];
        }
      }
    }
  }

  /** `SelectMany(p => CreateByPowerUpDefintion(p))` over a sequence of definitions. */
  function ExpandAll(definitions: seq<PowerUpDefinition>, expand: Expansion): seq<PowerUpWrapper>
  {
    if |definitions| == 0 then [] else expand(definitions[0]) + ExpandAll(definitions[1..], expand)
  }

  lemma {:induction false} ExpandAllAppend(a: seq<PowerUpDefinition>, b: seq<PowerUpDefinition>, expand: Expansion)
    ensures ExpandAll(a + b, expand) == ExpandAll(a, expand) + ExpandAll(b, expand)
  {
    if |a| > 0 {
      assert (a + b)[1..] == a[1..] + b;
      ExpandAllAppend(a[1..], b, expand);
    } else {
      assert a + b == b;
    }
  }

  /** The option power-ups are the expansions of the contributed definitions, in link order. */
  lemma {:induction false} LinkPowerUpsExpandDefinitions(links: seq<ItemOptionLink>, expand: Expansion)
    ensures LinkPowerUps(links, expand) == ExpandAll(LinkDefinitions(links), expand)
  {
    if |links| > 0 {
      LinkPowerUpsExpandDefinitions(links[1..], expand);
      var rest := LinkDefinitions(links[1..]);
      match LinkDefinition(links[0])
      case Some(p) =>
        assert LinkDefinitions(links) == [p] + rest;
        assert ([p] + rest)[1..] == rest;
      case None =>
        assert LinkDefinitions(links) == rest;
    }
  }

  /** The option power-ups of two link lists, one after the other, are those of their concatenation. */
  lemma {:induction false} LinkPowerUpsAppend(a: seq<ItemOptionLink>, b: seq<ItemOptionLink>, expand: Expansion)
    ensures LinkPowerUps(a + b, expand) == LinkPowerUps(a, expand) + LinkPowerUps(b, expand)
  {
    if |a| > 0 {
      assert (a + b)[0] == a[0];
      assert (a + b)[1..] == a[1..] + b;
      LinkPowerUpsAppend(a[1..], b, expand);
    } else {
      assert a + b == b;
    }
  }

  // ----- GetPowerUps -----

  /** The power-ups of one equipped item. */
  function GetPowerUps(item: Item, slots: EquippableSlots, expand: Expansion): (r: seq<PowerUpWrapper>)
    ensures item.durability <= 0 ==> r == []
    ensures item.itemSlot < slots.first || slots.last < item.itemSlot ==> r == []
    ensures item.definition.None? ==> r == []
  {
    if item.durability <= 0 then []
    else if item.itemSlot < slots.first || item.itemSlot > slots.last then []
    else
      match item.definition
      case None => []
      case Some(definition) =>
        BasePowerUps(definition.basePowerUpAttributes, item.level) + OptionPowerUps(item.itemOptions, expand)
  }

  /**
   * For an intact, equipped item with a definition, the power-ups are first the base attributes'
   * power-ups (one base value per attribute plus the applying level bonuses), then the option
   * power-ups.
   */
  lemma GetPowerUpsLayout(item: Item, slots: EquippableSlots, expand: Expansion)
    requires item.durability > 0 && slots.first <= item.itemSlot <= slots.last && item.definition.Some?
    ensures var attributes := item.definition.value.basePowerUpAttributes;
      var n := |attributes| + LevelBonusCount(attributes, item.level);
      var r := GetPowerUps(item, slots, expand);
      |attributes| <= n <= |r|
      && r[..n] == BasePowerUps(attributes, item.level)
      && r[n..] == OptionPowerUps(item.itemOptions, expand)
  {
    BasePowerUpsLength(item.definition.value.basePowerUpAttributes, item.level);
  }

  // ----- Item set bonuses -----

  /** The set groups of the worn items with durability above zero and a set-group list, in item order. */
  function WornSetGroups(items: seq<Item>): seq<ItemSetGroup>
  {
    if |items| == 0 then []
    else
      (if items[0].durability > 0 && items[0].itemSetGroups.Some? then items[0].itemSetGroups.value else [])
      + WornSetGroups(items[1..])
  }

  /** The distinct set groups, each processed once. */
  function ActiveSetGroups(items: seq<Item>): seq<ItemSetGroup>
  {
    Distinct(WornSetGroups(items))
  }

  ghost predicate ContributesGroup(item: Item, group: ItemSetGroup)
  {
    item.durability > 0 && item.itemSetGroups.Some? && group in item.itemSetGroups.value
  }

  /** The groups of two item lists, one after the other, are those of their concatenation. */
  lemma {:induction false} WornSetGroupsAppend(a: seq<Item>, b: seq<Item>)
    ensures WornSetGroups(a + b) == WornSetGroups(a) + WornSetGroups(b)
  {
    if |a| == 0 {
      assert a + b == b;
    } else {
      assert (a + b)[0] == a[0];
      assert (a + b)[1..] == a[1..] + b;
      WornSetGroupsAppend(a[1..], b);
    }
  }

  lemma {:induction false} WornSetGroupsMembership(items: seq<Item>, group: ItemSetGroup)
    ensures group in WornSetGroups(items) <==> exists i :: 0 <= i < |items| && ContributesGroup(items[i], group)
  {
    if |items| > 0 {
      WornSetGroupsMembership(items[1..], group);
      if exists i :: 0 <= i < |items| && ContributesGroup(items[i], group) {
        var i :| 0 <= i < |items| && ContributesGroup(items[i], group);
        if i > 0 {
          assert items[1..][i - 1] == items[i];
        }
      }
      if exists i :: 0 <= i < |items| - 1 && ContributesGroup(items[1..][i], group) {
        var i :| 0 <= i < |items| - 1 && ContributesGroup(items[1..][i], group);
        assert items[i + 1] == items[1..][i];
      }
    }
  }

  /** A group is processed exactly when an intact worn item lists it, and no group twice. */
  lemma ActiveSetGroupsSpec(items: seq<Item>, group: ItemSetGroup)
    ensures group in ActiveSetGroups(items) <==> exists i :: 0 <= i < |items| && ContributesGroup(items[i], group)
    ensures NoDuplicates(ActiveSetGroups(items))
  {
    WornSetGroupsMembership(items, group);
    var worn := WornSetGroups(items);
    var active := ActiveSetGroups(items);
    if group in worn {
      var k :| 0 <= k < |worn| && worn[k] == group;
      assert worn[k] in active;
    }
    if group in active {
      var k :| 0 <= k < |active| && active[k] == group;
      assert active[k] in worn;
    }
  }

  /** The definitions of all worn items whose level reaches `minimumLevel`. */
  function DefinitionsAtLevel(items: seq<Item>, minimumLevel: int): (r: seq<Option<ItemDefinition>>)
    ensures |r| <= |items|
  {
    if |items| == 0 then []
    else (if items[0].level >= minimumLevel then [items[0].definition] else []) + DefinitionsAtLevel(items[1..], minimumLevel)
  }

  /** A definition is counted exactly when some worn item whose level reaches `minimumLevel` has it. */
  lemma {:induction false} DefinitionsAtLevelMembers(items: seq<Item>, minimumLevel: int, d: Option<ItemDefinition>)
    ensures d in DefinitionsAtLevel(items, minimumLevel)
        <==> exists i :: 0 <= i < |items| && items[i].level >= minimumLevel && items[i].definition == d
  {
    if |items| > 0 {
      var rest := DefinitionsAtLevel(items[1..], minimumLevel);
      DefinitionsAtLevelMembers(items[1..], minimumLevel, d);
      if d in rest {
        var i :| 0 <= i < |items[1..]| && items[1..][i].level >= minimumLevel && items[1..][i].definition == d;
        assert items[i + 1] == items[1..][i];
      }
      if exists i :: 0 <= i < |items| && items[i].level >= minimumLevel && items[i].definition == d {
        var i :| 0 <= i < |items| && items[i].level >= minimumLevel && items[i].definition == d;
        if i > 0 {
          assert items[1..][i - 1] == items[i];
        }
      }
    }
  }

  lemma {:induction false} DefinitionsAtLevelAppend(a: seq<Item>, b: seq<Item>, minimumLevel: int)
    ensures DefinitionsAtLevel(a + b, minimumLevel) == DefinitionsAtLevel(a, minimumLevel) + DefinitionsAtLevel(b, minimumLevel)
  {
    if |a| == 0 {
      assert a + b == b;
    } else {
      var head := if a[0].level >= minimumLevel then [a[0].definition] else [];
      assert (a + b)[0] == a[0];
      assert (a + b)[1..] == a[1..] + b;
      assert DefinitionsAtLevel(a + b, minimumLevel) == head + DefinitionsAtLevel(a[1..] + b, minimumLevel);
      DefinitionsAtLevelAppend(a[1..], b, minimumLevel);
      assert DefinitionsAtLevel(a, minimumLevel) == head + DefinitionsAtLevel(a[1..], minimumLevel);
    }
  }

  /** One definition is counted per worn item whose level reaches `minimumLevel`. */
  lemma {:induction false} DefinitionsAtLevelCount(items: seq<Item>, minimumLevel: int)
    ensures |DefinitionsAtLevel(items, minimumLevel)| == |set i | 0 <= i < |items| && items[i].level >= minimumLevel|
  {
    if |items| > 0 {
      var n := |items|;
      var prefix := items[..n - 1];
      assert items == prefix + [items[n - 1]];
      DefinitionsAtLevelAppend(prefix, [items[n - 1]], minimumLevel);
      DefinitionsAtLevelCount(prefix, minimumLevel);
      var before := set i | 0 <= i < |prefix| && prefix[i].level >= minimumLevel;
      var all := set i | 0 <= i < n && items[i].level >= minimumLevel;
      if items[n - 1].level >= minimumLevel {
        assert all == before + {n - 1};
        assert n - 1 !in before;
      } else {
        assert all == before;
      }
    }
  }

  /** How many worn items count toward a set group: distinct definitions when the group says so. */
  function SetItemCount(group: ItemSetGroup, items: seq<Item>): (n: nat)
    ensures n <= |DefinitionsAtLevel(items, group.minimumSetLevel)| <= |items|
    ensures !group.countDistinct ==> n == |DefinitionsAtLevel(items, group.minimumSetLevel)|
  {
    var counted := DefinitionsAtLevel(items, group.minimumSetLevel);
    if group.countDistinct then |Distinct(counted)| else |counted|
  }

  /**
   * A set group counts the worn items whose level reaches its minimum set level, or, when it
   * counts distinct items, the different definitions among them.
   */
  lemma SetItemCountSpec(group: ItemSetGroup, items: seq<Item>)
    ensures !group.countDistinct ==>
      SetItemCount(group, items) == |set i | 0 <= i < |items| && items[i].level >= group.minimumSetLevel|
    ensures group.countDistinct ==>
      SetItemCount(group, items)
      == |set i | 0 <= i < |items| && items[i].level >= group.minimumSetLevel :: items[i].definition|
  {
    var counted := DefinitionsAtLevel(items, group.minimumSetLevel);
    DefinitionsAtLevelCount(items, group.minimumSetLevel);
    NoDuplicatesCardinality(Distinct(counted));
    var definitions := set i | 0 <= i < |items| && items[i].level >= group.minimumSetLevel :: items[i].definition;
    forall d
      ensures d in definitions <==> d in Distinct(counted)
    {
      DefinitionsAtLevelMembers(items, group.minimumSetLevel, d);
    }
    assert definitions == set d | d in Distinct(counted);
  }

  function OptionDefinitions(options: seq<ItemOption>): (r: seq<PowerUpDefinition>)
    ensures |r| == |options|
    ensures forall k :: 0 <= k < |options| ==> r[k] == options[k].powerUpDefinition
  {
    seq(|options|, k requires 0 <= k < |options| => options[k].powerUpDefinition)
  }

  /** The definitions one set group contributes (its properties are `GroupDefinitionsSpec`). */
  function GroupDefinitions(group: ItemSetGroup, items: seq<Item>): seq<PowerUpDefinition>
  {
    if group.alwaysApplies then OptionDefinitions(group.options)
    else
      var itemCount := SetItemCount(group, items);
      if itemCount >= group.minimumItemCount then OptionDefinitions(Take(group.options, itemCount - 1))
      else []
  }

  /**
   * A group contributes a prefix of its option definitions: all of them when it always applies;
   * otherwise none below the minimum item count, and the first itemCount - 1 once it is reached.
   */
  lemma GroupDefinitionsSpec(group: ItemSetGroup, items: seq<Item>)
    ensures GroupDefinitions(group, items) <= OptionDefinitions(group.options)
    ensures group.alwaysApplies ==> GroupDefinitions(group, items) == OptionDefinitions(group.options)
    ensures !group.alwaysApplies && SetItemCount(group, items) < group.minimumItemCount ==> GroupDefinitions(group, items) == []
    ensures !group.alwaysApplies && SetItemCount(group, items) >= group.minimumItemCount ==>
      |GroupDefinitions(group, items)|
      == if SetItemCount(group, items) <= 1 then 0
         else if SetItemCount(group, items) - 1 < |group.options| then SetItemCount(group, items) - 1
         else |group.options|
  {
    if !group.alwaysApplies && SetItemCount(group, items) >= group.minimumItemCount {
      var taken := Take(group.options, SetItemCount(group, items) - 1);
      assert forall k :: 0 <= k < |taken| ==> taken[k] == group.options[k];
    }
  }

  /** The accumulated definitions after processing `groups` in order (the `result` of the source's loop). */
  function SetDefinitions(groups: seq<ItemSetGroup>, items: seq<Item>): seq<PowerUpDefinition>
  {
    if |groups| == 0 then []
    else SetDefinitions(groups[..|groups| - 1], items) + GroupDefinitions(groups[|groups| - 1], items)
  }

  function OptionCount(groups: seq<ItemSetGroup>): nat
  {
    if |groups| == 0 then 0 else OptionCount(groups[..|groups| - 1]) + |groups[|groups| - 1].options|
  }

  /** No group contributes more definitions than it has options. */
  lemma {:induction false} SetDefinitionsBound(groups: seq<ItemSetGroup>, items: seq<Item>)
    ensures |SetDefinitions(groups, items)| <= OptionCount(groups)
  {
    if |groups| > 0 {
      SetDefinitionsBound(groups[..|groups| - 1], items);
      var last := groups[|groups| - 1];
      GroupDefinitionsSpec(last, items);
    }
  }

  /** Every accumulated definition is an option of one of the processed groups. */
  lemma {:induction false} SetDefinitionsFromGroups(groups: seq<ItemSetGroup>, items: seq<Item>, d: PowerUpDefinition)
    requires d in SetDefinitions(groups, items)
    ensures exists g, k :: g in groups && 0 <= k < |g.options| && g.options[k].powerUpDefinition == d
  {
    var prefix := groups[..|groups| - 1];
    var last := groups[|groups| - 1];
    if d in SetDefinitions(prefix, items) {
      SetDefinitionsFromGroups(prefix, items, d);
      var g, k :| g in prefix && 0 <= k < |g.options| && g.options[k].powerUpDefinition == d;
      assert g in groups;
    } else {
      var contributed := GroupDefinitions(last, items);
      GroupDefinitionsSpec(last, items);
      assert d in contributed;
      var k :| 0 <= k < |contributed| && contributed[k] == d;
      assert OptionDefinitions(last.options)[k] == d;
      assert last in groups;
    }
  }

  /** `d` is an option of a set group that an intact worn item lists. */
  ghost predicate OptionOfWornGroup(items: seq<Item>, d: PowerUpDefinition)
  {
    exists i, g, k ::
      (0 <= i < |items| && ContributesGroup(items[i], g) && 0 <= k < |g.options| && g.options[k].powerUpDefinition == d)
  }

  lemma ActiveGroupOptionSource(items: seq<Item>, g: ItemSetGroup, k: int, d: PowerUpDefinition)
    requires g in ActiveSetGroups(items) && 0 <= k < |g.options| && g.options[k].powerUpDefinition == d
    ensures OptionOfWornGroup(items, d)
  {
    ActiveSetGroupsSpec(items, g);
    var i :| 0 <= i < |items| && ContributesGroup(items[i], g);
    assert 0 <= i < |items| && ContributesGroup(items[i], g) && 0 <= k < |g.options| && g.options[k].powerUpDefinition == d;
  }

  /** A set bonus is only ever an option of a set group that an intact worn item lists. */
  lemma SetDefinitionSource(items: seq<Item>, d: PowerUpDefinition)
    requires d in SetDefinitions(ActiveSetGroups(items), items)
    ensures OptionOfWornGroup(items, d)
  {
    SetDefinitionsFromGroups(ActiveSetGroups(items), items, d);
    var g, k :| g in ActiveSetGroups(items) && 0 <= k < |g.options| && g.options[k].powerUpDefinition == d;
    ActiveGroupOptionSource(items, g, k, d);
  }

  lemma SetDefinitionsStep(groups: seq<ItemSetGroup>, items: seq<Item>, i: nat)
    requires i < |groups|
    ensures SetDefinitions(groups[..i + 1], items) == SetDefinitions(groups[..i], items) + GroupDefinitions(groups[i], items)
  {
    assert groups[..i + 1][..i] == groups[..i];
  }

  /** The set power-ups of the worn items. */
  method GetSetPowerUps(wearingItems: seq<Item>, expand: Expansion) returns (r: seq<PowerUpWrapper>)
    ensures r == ExpandAll(SetDefinitions(ActiveSetGroups(wearingItems), wearingItems), expand)
  {
    var itemGroups := ActiveSetGroups(wearingItems);
    var result: seq<PowerUpDefinition> := [];
    var i := 0;
    while i < |itemGroups|
      invariant 0 <= i <= |itemGroups|
      invariant result == SetDefinitions(itemGroups[..i], wearingItems)
    {
      var group := itemGroups[i];
      SetDefinitionsStep(itemGroups, wearingItems, i);
      if group.alwaysApplies {
        result := result + OptionDefinitions(group.options);
        i := i + 1;
        continue;
      }
      var itemCount := SetItemCount(group, wearingItems);
      if itemCount >= group.minimumItemCount {
        result := result + OptionDefinitions(Take(group.options, itemCount - 1));
      } else {
        assert result + [] == result;
      }
      i := i + 1;
    }
    assert itemGroups[..i] == itemGroups;
    r := ExpandAll(result, expand);
  }
}
