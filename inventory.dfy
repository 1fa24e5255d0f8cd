/**
 * inventory.py: the layout of the inventory page. The left column lists every item
 * under an "Items:" header; the right column shows the character's current item under a
 * "Current Item:" header. Only texts, sizes, colours and positions are modelled: a
 * rendered surface is represented by the font request that produced it.
 */
module Inventories {
  import opened Wrappers
  import opened Models

  /** The Inventory class constants. */
  const HeaderTopPosition: int := 10
  const HeaderSize: int := 40
  const TextTopPosition: int := 200
  const LeftContainerTextMargin: int := 200
  const RightContainerTextMargin: int := 600
  const TestSize: int := 20
  const TestPadding: int := TestSize + 10
  const TestColor: string := "black"
  const TestSecondaryColor: string := "darkgreen"

  /** A text surface: what set_font was asked to render. */
  datatype Font = Font(text: Json, size: int, color: string)

  /** InventoryText(font, pos): its rectangle's left and top are pos[0] and pos[1]. */
  datatype InventoryText = InventoryText(image: Font, left: int, top: int)

  /** set_font(text, size, color). */
  function SetFont(text: Json, size: int, color: string): (f: Font)
    ensures f.text == text && f.size == size && f.color == color
  {
    Font(text, size, color)
  }

  /** InventoryText(font, [left, top]). */
  function NewInventoryText(font: Font, pos: (int, int)): (t: InventoryText)
    ensures t.image == font && t.left == pos.0 && t.top == pos.1
  {
    InventoryText(font, pos.0, pos.1)
  }

  /** The tops of the entries increase strictly down the list. */
  predicate TopsIncrease(fonts: seq<InventoryText>)
  {
    forall i, j :: 0 <= i < j < |fonts| ==> fonts[i].top < fonts[j].top
  }

  /**
   * create_inventory_item_fonts: the "Items:" header at (200, 200), then one line per
   * item in the order of the items, the first 30 pixels below the header and each next
   * one 20 pixels lower.
   */
  method CreateInventoryItemFonts(items: seq<Item>) returns (fonts: seq<InventoryText>)
    ensures |fonts| == |items| + 1
    ensures fonts[0] == InventoryText(Font(JStr("Items:"), 20, "darkgreen"), 200, 200)
    ensures forall i :: 0 <= i < |items| ==>
      fonts[i + 1] == InventoryText(Font(items[i].name, 20, "black"), 200, 230 + 20 * i)
    ensures TopsIncrease(fonts)
  {
    var topPosition := TextTopPosition;
    fonts := [NewInventoryText(SetFont(JStr("Items:"), TestSize, TestSecondaryColor),
                               (LeftContainerTextMargin, topPosition))];
    topPosition := topPosition + TestPadding;
    for k := 0 to |items|
      invariant |fonts| == k + 1
      invariant topPosition == 230 + 20 * k
      invariant fonts[0] == InventoryText(Font(JStr("Items:"), 20, "darkgreen"), 200, 200)
      invariant forall i :: 0 <= i < k ==>
        fonts[i + 1] == InventoryText(Font(items[i].name, 20, "black"), 200, 230 + 20 * i)
      invariant forall i :: 0 <= i <= k ==> fonts[i].top < topPosition
      invariant TopsIncrease(fonts)
    {
      var itemTextFontSurface := SetFont(items[k].name, TestSize, TestColor);
      fonts := fonts + [NewInventoryText(itemTextFontSurface, (200, topPosition))];
      topPosition := topPosition + TestSize;
    }
  }

  /** The name a current item's text shows: `None` when the value has no `name` attribute. */
  function CurrentItemName(v: Value): (r: Option<Json>)
    ensures r.Some? <==> v.Record?
    ensures v.Record? ==> r.value == v.item.name
  {
    match v
    case Record(item) => Some(item.name)
    case _ => None
  }

  /**
   * create_inventory_current_item_fonts: the "Current Item:" header at (600, 200) and the
   * current item's name 30 pixels below it. A current item that is not an ItemModel has
   * no `name`, and the function fails with an AttributeError, modelled as `None`.
   */
  method CreateInventoryCurrentItemFonts(data: DataModel) returns (r: Option<seq<InventoryText>>)
    ensures r.None? <==> !data.mainchar.record.currentItem.Record?
    ensures r.Some? ==> r.value == [
      InventoryText(Font(JStr("Current Item:"), 20, "darkgreen"), 600, 200),
      InventoryText(Font(data.mainchar.record.currentItem.item.name, 20, "black"), 600, 230)]
  {
    var currentItem := data.mainchar.record.currentItem;
    var topPosition := TextTopPosition;
    var fonts := [NewInventoryText(SetFont(JStr("Current Item:"), TestSize, TestSecondaryColor),
                                   (RightContainerTextMargin, topPosition))];
    topPosition := topPosition + TestPadding;
    var name := CurrentItemName(currentItem);
    if name.None? {
      return None;
    }
    fonts := fonts + [NewInventoryText(SetFont(name.value, TestSize, TestColor),
                                       (RightContainerTextMargin, topPosition))];
    return Some(fonts);
  }

  /** The inventory page: its two sprite groups and its header surface. */
  class Inventory {
    const currentItemFonts: seq<InventoryText>
    const allItemFonts: seq<InventoryText>
    const fontSurfaceHeader: Font

    /** Inventory(current_item_fonts, all_item_fonts): the header is "Inventory" at size 40 in blue. */
    constructor (currentItemFonts: seq<InventoryText>, allItemFonts: seq<InventoryText>)
      ensures this.currentItemFonts == currentItemFonts && this.allItemFonts == allItemFonts
      ensures fontSurfaceHeader == Font(JStr("Inventory"), 40, "blue")
    {
      this.currentItemFonts := currentItemFonts;
      this.allItemFonts := allItemFonts;
      fontSurfaceHeader := SetFont(JStr("Inventory"), HeaderSize, "blue");
    }
  }

  /**
   * create_inventory: the all-items group holds the item list and the current-item group
   * the current-item column. The item list is built first, so a failure of the current
   * item column leaves no inventory.
   */
  method CreateInventory(data: DataModel) returns (r: Option<Inventory>)
    ensures r.None? <==> !data.mainchar.record.currentItem.Record?
    ensures r.Some? ==> fresh(r.value)
    ensures r.Some? ==> var inv := r.value;
      && |inv.allItemFonts| == |data.items| + 1
      && inv.allItemFonts[0] == InventoryText(Font(JStr("Items:"), 20, "darkgreen"), 200, 200)
      && (forall i :: 0 <= i < |data.items| ==>
            inv.allItemFonts[i + 1] == InventoryText(Font(data.items[i].name, 20, "black"), 200, 230 + 20 * i))
      && TopsIncrease(inv.allItemFonts)
      && inv.currentItemFonts == [
           InventoryText(Font(JStr("Current Item:"), 20, "darkgreen"), 600, 200),
           InventoryText(Font(data.mainchar.record.currentItem.item.name, 20, "black"), 600, 230)]
  {
    var allItems := CreateInventoryItemFonts(data.items);
    var current := CreateInventoryCurrentItemFonts(data);
    if current.None? {
      return None;
    }
    var inventory := new Inventory(current.value, allItems);
    return Some(inventory);
  }
}
