/**
 * The table of consumption effects the builder keeps for all its instances:
 * a map from an item's display name (`None` standing for a `null` name) to
 * the list of potion effects registered under it, in registration order.
 */
module EffectRegistry {
  import opened Wrappers
  import opened JavaTypes
  import opened Bukkit

  type Name = Option<string>
  type EffectTable = map<Name, seq<PotionEffect>>

  /** The duration that stands for an endless effect. */
  const EndlessDuration: int32 := 1000000
  /** The amplifier of an effect given only a type and a duration. */
  const DefaultAmplifier: int32 := 1

  /**
   * The duration stored for a requested one: the sentinel -1 means endless.
   * The sentinel never reaches a stored effect, and a requested endless
   * duration is indistinguishable from an explicit 1000000.
   */
  function EffectiveDuration(duration: int32): (d: int32)
    ensures d != -1
    ensures duration != -1 ==> d == duration
    ensures d == EndlessDuration <==> duration == -1 || duration == EndlessDuration
  {
    if duration == -1 then EndlessDuration else duration
  }

  /** `effects.get(name)`, an absent name reading as the empty list. */
  function EffectsFor(table: EffectTable, name: Name): seq<PotionEffect> {
    if name in table then table[name] else []
  }

  /**
   * One registration: the list under `name` is created empty when absent
   * and `e` is appended to it. The name becomes a key; every other key keeps
   * its list.
   */
  function Register(table: EffectTable, name: Name, e: PotionEffect): (t: EffectTable)
    ensures t.Keys == table.Keys + {name}
    ensures t[name] == EffectsFor(table, name) + [e]
    ensures forall n :: n in table && n != name ==> t[n] == table[n]
  {
    var created := if name in table then table else table[name := []];
    created[name := created[name] + [e]]
  }

  /** Every list in the table holds at least one effect. */
  predicate NoEmptyLists(table: EffectTable) {
    forall n :: n in table ==> table[n] != []
  }

  /** A registration never leaves an empty list behind. */
  lemma RegisterKeepsListsNonEmpty(table: EffectTable, name: Name, e: PotionEffect)
    requires NoEmptyLists(table)
    ensures NoEmptyLists(Register(table, name, e))
  {
  }

  /** The table after registering each of `es` under `name`, in order. */
  function RegisterAll(table: EffectTable, name: Name, es: seq<PotionEffect>): EffectTable
    decreases |es|
  {
    if es == [] then table else RegisterAll(Register(table, name, es[0]), name, es[1..])
  }

  /**
   * Registrations under one name append to its list in call order, and no
   * other name's list changes.
   */
  lemma {:induction false} RegisterAllAppends(table: EffectTable, name: Name, es: seq<PotionEffect>)
    ensures EffectsFor(RegisterAll(table, name, es), name) == EffectsFor(table, name) + es
    ensures forall n :: n != name ==> EffectsFor(RegisterAll(table, name, es), n) == EffectsFor(table, n)
    decreases |es|
  {
    if es != [] {
      var next := Register(table, name, es[0]);
      RegisterAllAppends(next, name, es[1..]);
      assert EffectsFor(table, name) + [es[0]] + es[1..] == EffectsFor(table, name) + es;
    }
  }

  /**
   * The effects applied when `consumed` is eaten or drunk: none for a stack
   * without meta, otherwise the list registered under its display name.
   */
  function ConsumedEffects(table: EffectTable, consumed: ItemStack): seq<PotionEffect> {
    if HasItemMeta(consumed) then EffectsFor(table, DisplayName(consumed)) else []
  }

  /**
   * In a table without empty lists, a consumed stack gets some effect
   * exactly when it has meta and its display name is a key.
   */
  lemma ConsumedEffectsNonEmpty(table: EffectTable, consumed: ItemStack)
    requires NoEmptyLists(table)
    ensures ConsumedEffects(table, consumed) != [] <==> HasItemMeta(consumed) && DisplayName(consumed) in table
  {
  }

  /**
   * The effects follow the display name alone: two stacks with meta and the
   * same display name get the same effects, whatever their material.
   */
  lemma ConsumedEffectsByNameOnly(table: EffectTable, a: ItemStack, b: ItemStack)
    requires HasItemMeta(a) && HasItemMeta(b) && DisplayName(a) == DisplayName(b)
    ensures ConsumedEffects(table, a) == ConsumedEffects(table, b)
  {
  }

  /**
   * An enchanted stack without name or lore still has meta, so it gets the
   * effects registered under the `null` name.
   */
  lemma ConsumeUnnamedEnchanted(table: EffectTable, consumed: ItemStack)
    requires consumed.meta == None && consumed.enchantments != map[]
    ensures ConsumedEffects(table, consumed) == EffectsFor(table, None)
  {
  }

  /**
   * Consuming a stack named `name` after the effects `es` were registered
   * under that new name applies exactly `es`, in registration order.
   */
  lemma ConsumeAfterRegistering(table: EffectTable, name: Name, es: seq<PotionEffect>, consumed: ItemStack)
    requires name !in table
    requires HasItemMeta(consumed) && DisplayName(consumed) == name
    ensures ConsumedEffects(RegisterAll(table, name, es), consumed) == es
  {
    RegisterAllAppends(table, name, es);
  }
}
