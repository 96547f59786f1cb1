# Item builder model

A Dafny model of `ItemBuilder`, a chainable helper that Bukkit server plugins
use to put together item stacks. Each builder owns one item stack and edits it
in place: amount, display name, lore lines, durability, data byte,
enchantments, material, and the colour of leather armour or wool. `and`
starts a new builder that points back to the current one, and `get` collects
the stacks of the whole chain. The class also has static state shared by
every builder:

- the plugin to register under;
- a flag saying whether the consumption listener is registered;
- a table from display name to potion effects.

`effect` adds entries to that table. When a player eats or drinks an item,
the listener applies the effects registered under the item's display name.

Modules:

- `Wrappers` (`wrappers.dfy`): `Option`, for Java's `null`.
- `JavaTypes` (`java_types.dfy`): the `byte`, `short` and `int` widths, and the `(byte)` narrowing cast.
- `Bukkit` (`bukkit.dfy`): item stacks, item meta, materials, colours, enchantments and potion effects. These are reduced to the fields the builder reads and writes.
- `StackEdits` (`stack_edits.dfy`): the edits the builder makes to a stack's meta (name, lore, leather colour). Each is a function from the old stack to the new one, with lemmas about chains of lore calls.
- `EffectRegistry` (`effect_registry.dfy`): the effect table as a `map` from display name to a list of effects. It has the get-or-create-then-append registration, the `-1` duration sentinel, and the effects applied on consumption, with lemmas about them.
- `ItemBuilders` (`item_builder.dfy`): the `ItemBuilder` class and the `Registry` class.
  - `ItemBuilder` has a mutable `item` field, a `parent` reference, and a ghost list of ancestors that makes the parent chain finite.
  - `Registry` holds the static fields.
  - The module also has a client method, verified only, that exercises the contracts on a named food item.

Setters that cannot fail are methods with `modifies this`. The two `color`
overloads and `effect` can throw `IllegalArgumentException`, so they return an
`Outcome` (`Pass` or `Fail` with the exception's message).

As written, `color(Color)` tests `LEATHER_BOOTS` twice and never tests
`LEATHER_HELMET`. The model keeps this: a helmet is refused like any other
non-armour material.

## Model

| member | source | states |
|---|---|---|
| `JavaTypes.ToByte` | src/io/github/onbjerg/itembuilder/ItemBuilder.java:155-156 | the `(byte)` cast keeps the value modulo 256 and leaves values already in byte range unchanged |
| `StackEdits.WithDisplayName` | src/io/github/onbjerg/itembuilder/ItemBuilder.java:112-118 | the display name becomes the given name; lore, colour and every field outside the meta are kept; the stack then has meta |
| `StackEdits.WithLoreLine` | src/io/github/onbjerg/itembuilder/ItemBuilder.java:125-136 | the lore becomes the old lore (the empty list when there was none) followed by the line; name, colour and the fields outside the meta are kept |
| `StackEdits.WithLeatherColor` | src/io/github/onbjerg/itembuilder/ItemBuilder.java:215-217 | the armour colour is set; name, lore and the fields outside the meta are kept |
| `StackEdits.LoreLinesAppend` | src/io/github/onbjerg/itembuilder/ItemBuilder.java:125-136 | a run of `lore` calls appends its lines in call order after the existing lore and changes nothing but the lore |
| `StackEdits.FreshStackLore` | src/io/github/onbjerg/itembuilder/ItemBuilder.java:125-136 | on a new stack, which has no meta, a run of `lore` calls leaves exactly those lines in order |
| `EffectRegistry.EffectiveDuration` | src/io/github/onbjerg/itembuilder/ItemBuilder.java:261-274 | -1 is never stored, every other duration is stored as given, and the stored duration is 1000000 exactly when -1 or 1000000 was asked for |
| `EffectRegistry.Register` | src/io/github/onbjerg/itembuilder/ItemBuilder.java:291-295 | the name becomes a key, its list is the old list (empty if absent) followed by the effect, and every other key keeps its list |
| `EffectRegistry.RegisterKeepsListsNonEmpty` | src/io/github/onbjerg/itembuilder/ItemBuilder.java:292-295 | get-or-create followed by append never leaves an empty list in the table |
| `EffectRegistry.RegisterAllAppends` | src/io/github/onbjerg/itembuilder/ItemBuilder.java:291-295 | repeated registrations under one name append in call order, and no other name's list changes |
| `EffectRegistry.ConsumedEffectsNonEmpty` | src/io/github/onbjerg/itembuilder/ItemBuilder.java:343-350 | a consumed item gets some effect exactly when it has meta and its display name is a key of the table |
| `EffectRegistry.ConsumedEffectsByNameOnly` | src/io/github/onbjerg/itembuilder/ItemBuilder.java:343-346 | two items with meta and the same display name get the same effects, whatever else differs |
| `EffectRegistry.ConsumeUnnamedEnchanted` | src/io/github/onbjerg/itembuilder/ItemBuilder.java:343-346 | an enchanted item without name or lore has meta, so it gets the effects registered under the `null` display name |
| `EffectRegistry.ConsumeAfterRegistering` | src/io/github/onbjerg/itembuilder/ItemBuilder.java:341-352 | consuming an item named like a new key after effects were registered under it applies exactly those effects, in registration order |
| `ItemBuilders.Registry.constructor` | src/io/github/onbjerg/itembuilder/ItemBuilder.java:58-60 | static state starts with no plugin, listener flag off, an empty table and no registration |
| `ItemBuilders.Registry.SetPlugin` | src/io/github/onbjerg/itembuilder/ItemBuilder.java:66-68 | the plugin is replaced; nothing else in the static state changes |
| `ItemBuilders.ItemBuilder.FromMaterial` | src/io/github/onbjerg/itembuilder/ItemBuilder.java:84-86 | a root builder (no parent, chain of one) over a new stack of the material |
| `ItemBuilders.ItemBuilder.FromStack` | src/io/github/onbjerg/itembuilder/ItemBuilder.java:92-94 | a root builder over the given stack |
| `ItemBuilders.ItemBuilder.WithParent` | src/io/github/onbjerg/itembuilder/ItemBuilder.java:75-78 | a builder over a new stack whose parent is the given builder and whose chain is itself followed by the parent's chain |
| `ItemBuilders.ItemBuilder.SetAmount` | src/io/github/onbjerg/itembuilder/ItemBuilder.java:101-105 | only the amount changes |
| `ItemBuilders.ItemBuilder.SetName` | src/io/github/onbjerg/itembuilder/ItemBuilder.java:112-118 | the stack becomes `WithDisplayName` of the old stack |
| `ItemBuilders.ItemBuilder.AddLore` | src/io/github/onbjerg/itembuilder/ItemBuilder.java:125-136 | the stack becomes `WithLoreLine` of the old stack: the line is appended, starting from empty lore when there was none |
| `ItemBuilders.ItemBuilder.SetDurability` | src/io/github/onbjerg/itembuilder/ItemBuilder.java:143-147 | only the durability changes |
| `ItemBuilders.ItemBuilder.SetData` | src/io/github/onbjerg/itembuilder/ItemBuilder.java:154-159 | only the data byte changes, to the argument narrowed to a byte |
| `ItemBuilders.ItemBuilder.AddEnchantment` | src/io/github/onbjerg/itembuilder/ItemBuilder.java:167-171 | the enchantment maps to the level (added or replaced); nothing else changes |
| `ItemBuilders.ItemBuilder.AddEnchantmentLevelOne` | src/io/github/onbjerg/itembuilder/ItemBuilder.java:178-180 | the same with level 1 |
| `ItemBuilders.ItemBuilder.SetType` | src/io/github/onbjerg/itembuilder/ItemBuilder.java:187-191 | only the material changes |
| `ItemBuilders.ItemBuilder.ClearEnchantments` | src/io/github/onbjerg/itembuilder/ItemBuilder.java:197-203 | after removing the keys one at a time, the stack has no enchantment and nothing else has changed |
| `ItemBuilders.ItemBuilder.ColorLeather` | src/io/github/onbjerg/itembuilder/ItemBuilder.java:210-223 | succeeds exactly for leather boots, chestplate and leggings (not the helmet) and sets the colour; otherwise fails with the leather message and the stack is unchanged |
| `ItemBuilders.ItemBuilder.ColorWool` | src/io/github/onbjerg/itembuilder/ItemBuilder.java:230-238 | succeeds exactly for wool and sets the data byte to the dye's byte; otherwise fails with the wool message and the stack is unchanged |
| `ItemBuilders.ItemBuilder.AddEffect` | src/io/github/onbjerg/itembuilder/ItemBuilder.java:282-298 | without a plugin it fails with the plugin message and the static state is unchanged; otherwise the listener is on and registered exactly once overall, the effect is appended under the stack's current display name, and the invariant (no empty list, no entries before the listener) is kept |
| `ItemBuilders.ItemBuilder.AddEffectAmbient` | src/io/github/onbjerg/itembuilder/ItemBuilder.java:249-251 | registers the effect with the duration as given (no sentinel) and the given ambient flag; without a plugin fails with the plugin message and changes nothing |
| `ItemBuilders.ItemBuilder.AddEffectWithAmplifier` | src/io/github/onbjerg/itembuilder/ItemBuilder.java:261-263 | registers the effect with -1 turned into 1000000 and the given amplifier; without a plugin fails with the plugin message and changes nothing |
| `ItemBuilders.ItemBuilder.AddTimedEffect` | src/io/github/onbjerg/itembuilder/ItemBuilder.java:272-274 | registers the effect with -1 turned into 1000000 and amplifier 1; without a plugin fails with the plugin message and changes nothing |
| `ItemBuilders.ItemBuilder.And` | src/io/github/onbjerg/itembuilder/ItemBuilder.java:304-306 | a fresh builder over a new stack whose parent is the receiver and whose chain is one longer than the receiver's |
| `ItemBuilders.ItemBuilder.Parent` | src/io/github/onbjerg/itembuilder/ItemBuilder.java:312-314 | no parent exactly for a chain of one; otherwise the parent's chain is the rest of the receiver's chain |
| `ItemBuilders.ItemBuilder.Build` | src/io/github/onbjerg/itembuilder/ItemBuilder.java:320-322 | returns the stack every setter has been editing |
| `ItemBuilders.ItemBuilder.Get` | src/io/github/onbjerg/itembuilder/ItemBuilder.java:329-339 | the walk terminates and returns one stack per builder on the chain, in order from the receiver to the root; the first is the receiver's own stack |
| `ItemBuilders.ItemBuilder.OnItemConsume` | src/io/github/onbjerg/itembuilder/ItemBuilder.java:341-352 | the effects applied, in order, are those the table lists for the item's display name: none without meta or for an unknown name; the table is only read |
| `ItemBuilders.ChainFollowsParents` | src/io/github/onbjerg/itembuilder/ItemBuilder.java:332-336 | each builder on the chain is followed by its parent, and the last one has no parent |

## Left out

- Enchantments are a field of the stack rather than of its meta. `hasItemMeta()` still counts them, as the framework stores them in the meta.
- Object identity of item stacks: `build()` and `get()` return the builder's live stack, so later setter calls show through them. The model's stacks are values, so a stack returned earlier does not see later edits. The builder made from an existing stack does not share it with its caller either.
- The fluent return value: the setters return `this`, and the model's methods return nothing (or an `Outcome`). Callers keep the reference themselves.
- The static fields are one `Registry` object passed to the methods that use them. The model allows several such objects where Java has exactly one.
- The framework's own item behaviour is not part of this model:
  - how `getItemMeta`/`setItemMeta` copy meta;
  - the `null` meta of air, which would make `name`, `lore` and `effect` throw `NullPointerException`;
  - the validity checks of `addUnsafeEnchantment`;
  - how durability, data and material interact through `MaterialData`;
  - the dye colours' data bytes;
  - the ranges Bukkit's `Color` accepts.

  Each setter is a plain field update.
- The three-argument potion effect constructor's default for `ambient` belongs to the framework. It is kept as `None`.
- `Bukkit.getPluginManager().registerEvents` and event dispatch: only the count of registrations is kept. `OnItemConsume` can be called whether or not a listener is registered.
- `Player.addPotionEffect`: the handler returns the list of effects applied, in order, instead of changing player state.
- ClearEnchantments: iterates over a snapshot of the keys. Whether removing while iterating the framework's key set is safe depends on the framework returning a copy, which is not visible here.
- `null` arguments (a `null` name, lore line, stack, enchantment or effect type) are not modelled. `setPlugin(null)` is modelled.
- The example plugins `examples/AmazingSwordPlugin.java` and `examples/SatisfyingPorkPlugin.java` are not part of this model. They only wire builder calls into plugin constructors and join handlers.
