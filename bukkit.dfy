/**
 * The framework values the builder works on, reduced to the parts it reads
 * and writes. The framework's own behaviour (validation, copying, material
 * data tables) is not part of this model: every stack operation the builder
 * calls is a plain update of one of these fields.
 */
module Bukkit {
  import opened Wrappers
  import opened JavaTypes

  /**
   * Item materials. Only the ones the builder tests for are named; every
   * other material is `OtherMaterial`, told apart by an identifier.
   */
  datatype Material =
    | LeatherHelmet
    | LeatherChestplate
    | LeatherLeggings
    | LeatherBoots
    | Wool
    | OtherMaterial(id: nat)

  /** A leather-armour colour. */
  datatype Color = Color(red: int, green: int, blue: int)

  /** A dye colour, known here only by the data byte the framework assigns it. */
  datatype DyeColor = DyeColor(data: int8)

  datatype Enchantment = Enchantment(key: string)

  datatype PotionEffectType = PotionEffectType(key: string)

  /**
   * A potion effect. `ambient` is `None` for an effect made with the
   * framework's three-argument constructor, which supplies its own default.
   */
  datatype PotionEffect = PotionEffect(
    kind: PotionEffectType,
    duration: int32,
    amplifier: int32,
    ambient: Option<bool>)

  /** The plugin the builder registers its consumption listener under. */
  datatype Plugin = Plugin(key: string)

  /**
   * Item meta: the display name and the lore are `None` when unset (the
   * framework returns `null` for them); `color` is what leather armour meta
   * holds.
   */
  datatype ItemMeta = ItemMeta(
    displayName: Option<string>,
    lore: Option<seq<string>>,
    color: Option<Color>)

  const EmptyMeta := ItemMeta(None, None, None)

  /** An item stack; `meta` is `None` until some meta has been set on it. */
  datatype ItemStack = ItemStack(
    material: Material,
    amount: int32,
    durability: int16,
    data: int8,
    enchantments: map<Enchantment, int32>,
    meta: Option<ItemMeta>)

  /** `new ItemStack(material)`: one item, no damage, no data, no enchantment, no meta. */
  function NewStack(material: Material): ItemStack {
    ItemStack(material, 1, 0, 0, map[], None)
  }

  /** `getItemMeta()`: the stack's meta, or a fresh empty meta when it has none. */
  function MetaOf(s: ItemStack): ItemMeta {
    s.meta.GetOr(EmptyMeta)
  }

  /**
   * `hasItemMeta()`: the stack holds meta that differs from the empty meta.
   * The framework keeps enchantments in the meta, creating it when needed,
   * so a stack with any enchantment has meta even without name or lore.
   */
  predicate HasItemMeta(s: ItemStack) {
    (s.meta.Some? && s.meta.value != EmptyMeta) || s.enchantments != map[]
  }

  /** `getItemMeta().getDisplayName()`, with `None` for `null`. */
  function DisplayName(s: ItemStack): Option<string> {
    MetaOf(s).displayName
  }
}
