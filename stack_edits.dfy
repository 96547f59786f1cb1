/**
 * The builder's edits of an item stack's meta (`name`, `lore`, the leather
 * colour), as functions from the old stack to the new one. Each one reads
 * the meta with `getItemMeta()`, changes one of its parts and stores it back
 * with `setItemMeta`, so afterwards the stack always holds meta.
 */
module StackEdits {
  import opened Wrappers
  import opened Bukkit

  /** The lore lines of a stack, the empty list standing for "no lore yet". */
  function LoreOf(s: ItemStack): seq<string> {
    MetaOf(s).lore.GetOr([])
  }

  /** `s` and `t` differ at most in their meta. */
  predicate SameOutsideMeta(s: ItemStack, t: ItemStack) {
    s.(meta := t.meta) == t
  }

  /** `name(name)`: the display name becomes `name`; lore and colour are kept. */
  function WithDisplayName(s: ItemStack, name: string): (t: ItemStack)
    ensures DisplayName(t) == Some(name)
    ensures t.meta.Some? && MetaOf(t).lore == MetaOf(s).lore && MetaOf(t).color == MetaOf(s).color
    ensures SameOutsideMeta(s, t)
  {
    var meta := MetaOf(s);
    s.(meta := Some(meta.(displayName := Some(name))))
  }

  /**
   * `lore(line)`: the lore becomes the old lore, or the empty list when there
   * was none, followed by `line`; the display name and colour are kept.
   */
  function WithLoreLine(s: ItemStack, line: string): (t: ItemStack)
    ensures t.meta.Some? && MetaOf(t).lore.Some?
    ensures LoreOf(t) == LoreOf(s) + [line]
    ensures DisplayName(t) == DisplayName(s) && MetaOf(t).color == MetaOf(s).color
    ensures SameOutsideMeta(s, t)
  {
    var meta := MetaOf(s);
    var lore := if meta.lore == None then [] else meta.lore.value;
    s.(meta := Some(meta.(lore := Some(lore + [line]))))
  }

  /** `color(Color)` on leather armour: the colour is set; name and lore are kept. */
  function WithLeatherColor(s: ItemStack, color: Color): (t: ItemStack)
    ensures t.meta.Some? && MetaOf(t).color == Some(color)
    ensures DisplayName(t) == DisplayName(s) && MetaOf(t).lore == MetaOf(s).lore
    ensures SameOutsideMeta(s, t)
  {
    var meta := MetaOf(s);
    s.(meta := Some(meta.(color := Some(color))))
  }

  /** The stack after one `lore` call per element of `lines`, in order. */
  function WithLoreLines(s: ItemStack, lines: seq<string>): ItemStack
    decreases |lines|
  {
    if lines == [] then s else WithLoreLines(WithLoreLine(s, lines[0]), lines[1..])
  }

  /**
   * Successive `lore` calls append their lines in call order after the
   * existing lore, and touch nothing but the lore.
   */
  lemma {:induction false} LoreLinesAppend(s: ItemStack, lines: seq<string>)
    ensures LoreOf(WithLoreLines(s, lines)) == LoreOf(s) + lines
    ensures DisplayName(WithLoreLines(s, lines)) == DisplayName(s)
    ensures MetaOf(WithLoreLines(s, lines)).color == MetaOf(s).color
    ensures SameOutsideMeta(s, WithLoreLines(s, lines))
    decreases |lines|
  {
    if lines != [] {
      var next := WithLoreLine(s, lines[0]);
      LoreLinesAppend(next, lines[1..]);
      assert LoreOf(s) + [lines[0]] + lines[1..] == LoreOf(s) + lines;
    }
  }

  /**
   * Lore added to a fresh stack is exactly the lines given, in order, even
   * though the stack starts without any meta.
   */
  lemma FreshStackLore(material: Material, lines: seq<string>)
    ensures LoreOf(WithLoreLines(NewStack(material), lines)) == lines
    ensures WithLoreLines(NewStack(material), lines).material == material
  {
    LoreLinesAppend(NewStack(material), lines);
  }
}
