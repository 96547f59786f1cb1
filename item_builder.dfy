/**
 * The chainable item builder. Each builder owns one item stack and changes
 * it in place; a builder made by `And` remembers the builder it came from,
 * and `Get` collects the stacks of that whole chain. The class's static
 * state — the plugin, the listener flag and the effect table — is the one
 * `Registry` object that every builder shares.
 */
module ItemBuilders {
  import opened Wrappers
  import opened JavaTypes
  import opened Bukkit
  import opened StackEdits
  import opened EffectRegistry

  /** How a call that may throw `IllegalArgumentException` ended. */
  datatype Outcome = Pass | Fail(message: string)

  const LeatherOnlyMessage := "Color is only applicable for leather armor!"
  const WoolOnlyMessage := "Dye color is only applicable for wool!"
  const NoPluginMessage := "You can not use potion effects without setting the item builder's plugin"

  /** The materials `color(Color)` tests for, written as the test is. */
  predicate AcceptsLeatherColor(m: Material) {
    m == LeatherBoots || m == LeatherChestplate || m == LeatherLeggings || m == LeatherBoots
  }

  /**
   * The builder's static fields. The ghost `registrations` is not program
   * state: it counts the times a builder registered itself with the host's
   * plugin manager as the consumption listener.
   */
  class Registry {
    var plugin: Option<Plugin>
    var listener: bool
    var effects: EffectTable
    ghost var registrations: nat

    /**
     * The listener is registered once exactly when the flag is set, the
     * table has entries only after that, and no name maps to an empty list.
     */
    ghost predicate Valid()
      reads this
    {
      registrations == (if listener then 1 else 0) &&
      (effects != map[] ==> listener) &&
      NoEmptyLists(effects)
    }

    /** The state when the class is loaded: no plugin, no listener, no effects. */
    constructor ()
      ensures Valid()
      ensures plugin == None && !listener && effects == map[] && registrations == 0
    {
      plugin := None;
      listener := false;
      effects := map[];
      registrations := 0;
    }

    /** `setPlugin(plugin)`: `None` stands for passing `null`. */
    method SetPlugin(p: Option<Plugin>)
      requires Valid()
      modifies this`plugin
      ensures Valid() && plugin == p
    {
      plugin := p;
    }
  }

  class ItemBuilder {
    var item: ItemStack
    const parent: ItemBuilder?
    /** The builders reached by following `parent`, nearest first. */
    ghost const ancestors: seq<ItemBuilder>

    /** `ancestors` is the parent chain, so the chain is finite and ends at a root. */
    ghost predicate Valid()
      decreases |ancestors|
    {
      if parent == null then ancestors == []
      else ancestors == [parent] + parent.ancestors && parent.Valid()
    }

    /** This builder followed by its ancestors: the order `Get` visits them in. */
    ghost function Chain(): seq<ItemBuilder> {
      [this] + ancestors
    }

    /** `new ItemBuilder(material)`: a root builder over a new stack of `material`. */
    constructor FromMaterial(material: Material)
      ensures Valid() && parent == null && Chain() == [this]
      ensures item == NewStack(material)
    {
      item := NewStack(material);
      parent := null;
      ancestors := [];
    }

    /** `new ItemBuilder(stack)`: a root builder over the given stack. */
    constructor FromStack(stack: ItemStack)
      ensures Valid() && parent == null && Chain() == [this]
      ensures item == stack
    {
      item := stack;
      parent := null;
      ancestors := [];
    }

    /** The private constructor `and` uses: a builder over a new stack, below `p`. */
    constructor WithParent(p: ItemBuilder, material: Material)
      requires p.Valid()
      ensures Valid() && parent == p && Chain() == [this] + p.Chain()
      ensures item == NewStack(material)
    {
      item := NewStack(material);
      parent := p;
      ancestors := [p] + p.ancestors;
    }

    /** `amount(amount)` */
    method SetAmount(amount: int32)
      modifies this
      ensures item == old(item).(amount := amount)
    {
      item := item.(amount := amount);
    }

    /** `name(name)` */
    method SetName(name: string)
      modifies this
      ensures item == WithDisplayName(old(item), name)
    {
      var meta := MetaOf(item);
      meta := meta.(displayName := Some(name));
      item := item.(meta := Some(meta));
    }

    /** `lore(line)` */
    method AddLore(line: string)
      modifies this
      ensures item == WithLoreLine(old(item), line)
    {
      var meta := MetaOf(item);
      var lore := meta.lore;
      if lore == None {
        lore := Some([]);
      }
      lore := Some(lore.value + [line]);
      meta := meta.(lore := lore);
      item := item.(meta := Some(meta));
    }

    /** `durability(durability)` */
    method SetDurability(durability: int16)
      modifies this
      ensures item == old(item).(durability := durability)
    {
      item := item.(durability := durability);
    }

    /** `data(data)`: the data byte is `data` narrowed by Java's `(byte)` cast. */
    method SetData(data: int32)
      modifies this
      ensures item == old(item).(data := ToByte(data))
      ensures (item.data as int - data as int) % 256 == 0
    {
      item := item.(data := ToByte(data));
    }

    /** `enchantment(enchantment, level)`: adds or replaces the enchantment's level. */
    method AddEnchantment(enchantment: Enchantment, level: int32)
      modifies this
      ensures item == old(item).(enchantments := old(item).enchantments[enchantment := level])
    {
      item := item.(enchantments := item.enchantments[enchantment := level]);
    }

    /** `enchantment(enchantment)`: the same at level 1. */
    method AddEnchantmentLevelOne(enchantment: Enchantment)
      modifies this
      ensures item == old(item).(enchantments := old(item).enchantments[enchantment := 1])
    {
      AddEnchantment(enchantment, 1);
    }

    /** `type(material)` */
    method SetType(material: Material)
      modifies this
      ensures item == old(item).(material := material)
    {
      item := item.(material := material);
    }

    /**
     * `clearEnchantments()`: removes the stack's enchantments one key at a
     * time, in no particular order; afterwards there are none and nothing
     * else has changed.
     */
    method ClearEnchantments()
      modifies this
      ensures item == old(item).(enchantments := map[])
    {
      var keys := item.enchantments.Keys;
      while keys != {}
        invariant keys == item.enchantments.Keys
        invariant item == old(item).(enchantments := item.enchantments)
        decreases keys
      {
        var e :| e in keys;
        item := item.(enchantments := item.enchantments - {e});
        keys := keys - {e};
      }
      assert item.enchantments == map[];
    }

    /**
     * `color(Color)`: only boots, chestplates and leggings (boots are tested
     * twice and the helmet never) get the colour; any other material throws
     * and leaves the stack unchanged.
     */
    method ColorLeather(color: Color) returns (outcome: Outcome)
      modifies this
      ensures outcome.Pass? <==> old(item).material in {LeatherBoots, LeatherChestplate, LeatherLeggings}
      ensures outcome.Pass? ==> item == WithLeatherColor(old(item), color)
      ensures outcome.Fail? ==> outcome.message == LeatherOnlyMessage && item == old(item)
    {
      if AcceptsLeatherColor(item.material) {
        var meta := MetaOf(item);
        meta := meta.(color := Some(color));
        item := item.(meta := Some(meta));
        return Pass;
      }
      return Fail(LeatherOnlyMessage);
    }

    /**
     * `color(DyeColor)`: on wool the data byte becomes the dye's data byte;
     * any other material throws and leaves the stack unchanged.
     */
    method ColorWool(color: DyeColor) returns (outcome: Outcome)
      modifies this
      ensures outcome.Pass? <==> old(item).material == Wool
      ensures outcome.Pass? ==> item == old(item).(data := color.data)
      ensures outcome.Fail? ==> outcome.message == WoolOnlyMessage && item == old(item)
    {
      if item.material == Wool {
        SetData(color.data as int32);
        return Pass;
      }
      return Fail(WoolOnlyMessage);
    }

    /**
     * `effect(effect)`: without a plugin it throws and changes nothing.
     * Otherwise the listener is registered unless it already was, and
     * `effect` is appended to the list under the stack's current display
     * name. The builder's own stack is not touched.
     */
    method AddEffect(reg: Registry, effect: PotionEffect) returns (outcome: Outcome)
      requires reg.Valid()
      modifies reg
      ensures reg.Valid() && reg.plugin == old(reg.plugin)
      ensures outcome.Pass? <==> old(reg.plugin).Some?
      ensures outcome.Fail? ==>
        outcome.message == NoPluginMessage && reg.listener == old(reg.listener) &&
        reg.effects == old(reg.effects) && reg.registrations == old(reg.registrations)
      ensures outcome.Pass? ==>
        reg.listener && reg.registrations == 1 &&
        reg.effects == Register(old(reg.effects), DisplayName(item), effect)
    {
      if reg.plugin == None {
        return Fail(NoPluginMessage);
      }
      if !reg.listener {
        reg.registrations := reg.registrations + 1;
        reg.listener := true;
      }
      var name := DisplayName(item);
      if name !in reg.effects {
        reg.effects := reg.effects[name := []];
      }
      reg.effects := reg.effects[name := reg.effects[name] + [effect]];
      RegisterKeepsListsNonEmpty(old(reg.effects), name, effect);
      return Pass;
    }

    /** `effect(type, duration, amplifier, ambient)`: the duration is stored as given. */
    method AddEffectAmbient(reg: Registry, kind: PotionEffectType, duration: int32, amplifier: int32, ambient: bool)
      returns (outcome: Outcome)
      requires reg.Valid()
      modifies reg
      ensures reg.Valid() && reg.plugin == old(reg.plugin)
      ensures outcome.Pass? <==> old(reg.plugin).Some?
      ensures outcome.Fail? ==>
        outcome.message == NoPluginMessage && reg.listener == old(reg.listener) &&
        reg.effects == old(reg.effects) && reg.registrations == old(reg.registrations)
      ensures outcome.Pass? ==>
        reg.listener && reg.registrations == 1 &&
        reg.effects == Register(old(reg.effects), DisplayName(item), PotionEffect(kind, duration, amplifier, Some(ambient)))
    {
      outcome := AddEffect(reg, PotionEffect(kind, duration, amplifier, Some(ambient)));
    }

    /** `effect(type, duration, amplifier)`: a duration of -1 is stored as endless. */
    method AddEffectWithAmplifier(reg: Registry, kind: PotionEffectType, duration: int32, amplifier: int32)
      returns (outcome: Outcome)
      requires reg.Valid()
      modifies reg
      ensures reg.Valid() && reg.plugin == old(reg.plugin)
      ensures outcome.Pass? <==> old(reg.plugin).Some?
      ensures outcome.Fail? ==>
        outcome.message == NoPluginMessage && reg.listener == old(reg.listener) &&
        reg.effects == old(reg.effects) && reg.registrations == old(reg.registrations)
      ensures outcome.Pass? ==>
        reg.listener && reg.registrations == 1 &&
        reg.effects == Register(old(reg.effects), DisplayName(item), PotionEffect(kind, EffectiveDuration(duration), amplifier, None))
    {
      outcome := AddEffect(reg, PotionEffect(kind, if duration == -1 then EndlessDuration else duration, amplifier, None));
    }

    /** `effect(type, duration)`: as above, with amplifier 1. */
    method AddTimedEffect(reg: Registry, kind: PotionEffectType, duration: int32)
      returns (outcome: Outcome)
      requires reg.Valid()
      modifies reg
      ensures reg.Valid() && reg.plugin == old(reg.plugin)
      ensures outcome.Pass? <==> old(reg.plugin).Some?
      ensures outcome.Fail? ==>
        outcome.message == NoPluginMessage && reg.listener == old(reg.listener) &&
        reg.effects == old(reg.effects) && reg.registrations == old(reg.registrations)
      ensures outcome.Pass? ==>
        reg.listener && reg.registrations == 1 &&
        reg.effects == Register(old(reg.effects), DisplayName(item), PotionEffect(kind, EffectiveDuration(duration), DefaultAmplifier, None))
    {
      outcome := AddEffect(reg, PotionEffect(kind, if duration == -1 then EndlessDuration else duration, DefaultAmplifier, None));
    }

    /** `and(material)`: a new builder over a new stack, whose parent is this one. */
    method And(material: Material) returns (next: ItemBuilder)
      requires Valid()
      ensures fresh(next) && next.Valid()
      ensures next.parent == this && next.Chain() == [next] + Chain()
      ensures next.item == NewStack(material)
    {
      next := new ItemBuilder.WithParent(this, material);
    }

    /** `parent()`: absent exactly for a root; otherwise the rest of the chain starts there. */
    function Parent(): (p: ItemBuilder?)
      requires Valid()
      ensures p == null <==> |Chain()| == 1
      ensures p != null ==> p.Valid() && p.Chain() == Chain()[1..]
    {
      parent
    }

    /** `build()`: the stack this builder has been editing. */
    method Build() returns (stack: ItemStack)
      ensures stack == item
    {
      stack := item;
    }

    /**
     * `get()`: one stack per builder on the chain, this builder's first and
     * the root's last. The walk stops because every step moves to a builder
     * with a shorter chain.
     */
    method Get() returns (items: seq<ItemStack>)
      requires Valid()
      ensures |items| == |Chain()| && items[0] == item
      ensures forall k :: 0 <= k < |items| ==> items[k] == Chain()[k].item
    {
      items := [];
      var current: ItemBuilder? := this;
      ghost var visited := 0;
      // `current` starts non-null, so the first test passes as in the do-while.
      while current != null
        invariant current != null ==> current.Valid() && visited < |Chain()| && current.Chain() == Chain()[visited..]
        invariant current == null ==> visited == |Chain()|
        invariant |items| == visited
        invariant forall k :: 0 <= k < visited ==> items[k] == Chain()[k].item
        decreases if current == null then 0 else |current.Chain()|
      {
        var stack := current.Build();
        items := items + [stack];
        current := current.Parent();
        visited := visited + 1;
      }
    }

    /**
     * `onItemConsume(event)`: the effects applied to the player who consumed
     * `consumed`, in the order they are applied. The table is only read.
     */
    method OnItemConsume(reg: Registry, consumed: ItemStack) returns (applied: seq<PotionEffect>)
      ensures applied == ConsumedEffects(reg.effects, consumed)
    {
      applied := [];
      if HasItemMeta(consumed) {
        var name := DisplayName(consumed);
        if name !in reg.effects {
          return;
        }
        var list := reg.effects[name];
        for k := 0 to |list|
          invariant applied == list[..k]
        {
          applied := applied + [list[k]];
        }
      }
    }
  }

  /** Following `parent` from any builder on a chain gives the next one, and the last is a root. */
  lemma {:induction false} ChainFollowsParents(b: ItemBuilder)
    requires b.Valid()
    ensures forall k :: 0 <= k < |b.Chain()| - 1 ==> b.Chain()[k].parent == b.Chain()[k + 1]
    ensures b.Chain()[|b.Chain()| - 1].parent == null
    decreases |b.ancestors|
  {
    if b.parent != null {
      ChainFollowsParents(b.parent);
      assert b.Chain() == [b] + b.parent.Chain();
    }
  }

  /**
   * A usage check of the contracts above, verified only: a named food item
   * with two lore lines and two effects, then its consumption by a player.
   */
  method NamedFoodScenario(food: Material, speed: PotionEffectType)
  {
    var reg := new Registry();
    reg.SetPlugin(Some(Plugin("client")));
    var b := new ItemBuilder.FromMaterial(food);
    b.SetName("Satisfying");
    b.AddLore("First line");
    b.AddLore("Second line");
    assert LoreOf(b.item) == ["First line", "Second line"];
    var outcome := b.AddTimedEffect(reg, speed, 200);
    assert outcome == Pass && reg.registrations == 1;
    var second := b.AddTimedEffect(reg, speed, -1);
    assert reg.registrations == 1;
    var stack := b.Build();
    var applied := b.OnItemConsume(reg, stack);
    assert applied == [PotionEffect(speed, 200, 1, None), PotionEffect(speed, EndlessDuration, 1, None)];
    var unnamed := b.OnItemConsume(reg, NewStack(food));
    assert unnamed == [];
  }
}
