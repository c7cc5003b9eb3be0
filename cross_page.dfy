/**
 * The pages share one cart and tell their own lines apart by the shape of the
 * key alone: `itemId@optionId` for stationery, `category||name` for
 * groceries, `id` or `id::label` for food. These lemmas show the shapes do
 * not collide, so one page's filter never picks up, and the stationery
 * sidebar's Clear never drops, another page's lines.
 */
module CrossPage {
  import opened Wrappers
  import opened Text
  import opened CartStore
  import FoodMenu
  import Tuck
  import Grocery

  /** A key without `@` fails the sidebar's first test, `id.includes('@')`. */
  lemma NoAtNotTuck(id: string)
    requires '@' !in id
    ensures !Tuck.TuckAdmits(id)
  {
    if Contains(id, "@") {
      ContainsFirstChar(id, "@");
    }
  }

  /** A key without `|` fails the grocery page's test, `id.includes('||')`. */
  lemma NoBarNotGrocery(id: string)
    requires '|' !in id
    ensures !Grocery.IsGroceryId(id)
  {
    if Contains(id, "||") {
      ContainsFirstChar(id, "||");
    }
  }

  /** A grocery key built from a category and a name without `@` is not a stationery line. */
  lemma GroceryKeyNotTuck(category: string, name: string)
    requires '@' !in category && '@' !in name
    ensures !Tuck.TuckAdmits(Grocery.MakeId(category, name))
  {
    NoAtNotTuck(Grocery.MakeId(category, name));
  }

  /** A food key built from a dish id and a size label without `@` is not a stationery line. */
  lemma FoodKeyNotTuck(item: FoodMenu.MenuItem, sizeLabel: Option<string>)
    requires '@' !in item.id && (sizeLabel.Some? ==> '@' !in sizeLabel.value)
    ensures !Tuck.TuckAdmits(FoodMenu.DisplayId(item, sizeLabel))
  {
    NoAtNotTuck(FoodMenu.DisplayId(item, sizeLabel));
  }

  /** A stationery key built from an item id and an option id without `|` is not a grocery line. */
  lemma TuckKeyNotGrocery(itemId: string, optionId: Option<string>)
    requires '|' !in itemId && (optionId.Some? ==> '|' !in optionId.value)
    ensures !Grocery.IsGroceryId(Tuck.MakeCartId(itemId, optionId))
  {
    NoBarNotGrocery(Tuck.MakeCartId(itemId, optionId));
  }

  /** A food key built from a dish id and a size label without `|` is not a grocery line. */
  lemma FoodKeyNotGrocery(item: FoodMenu.MenuItem, sizeLabel: Option<string>)
    requires '|' !in item.id && (sizeLabel.Some? ==> '|' !in sizeLabel.value)
    ensures !Grocery.IsGroceryId(FoodMenu.DisplayId(item, sizeLabel))
  {
    NoBarNotGrocery(FoodMenu.DisplayId(item, sizeLabel));
  }

  /** The stationery sidebar's Clear keeps a grocery line whose category and name are free of `@`. */
  lemma ClearKeepsGroceryLine(items: seq<CartItem>, category: string, name: string, x: CartItem)
    requires '@' !in category && '@' !in name
    requires x in items && x.id == Grocery.MakeId(category, name)
    ensures x in Tuck.OtherLines(items) && x !in Tuck.TuckCart(items)
  {
    GroceryKeyNotTuck(category, name);
  }

  /** The stationery sidebar's Clear keeps a food line whose dish id and label are free of `@`. */
  lemma ClearKeepsFoodLine(items: seq<CartItem>, item: FoodMenu.MenuItem, sizeLabel: Option<string>, x: CartItem)
    requires '@' !in item.id && (sizeLabel.Some? ==> '@' !in sizeLabel.value)
    requires x in items && x.id == FoodMenu.DisplayId(item, sizeLabel)
    ensures x in Tuck.OtherLines(items) && x !in Tuck.TuckCart(items)
  {
    FoodKeyNotTuck(item, sizeLabel);
  }

  /** The grocery page's view never shows a stationery line of the catalogue. */
  lemma GroceryViewSkipsTuckLine(items: seq<CartItem>, k: nat, optionId: Option<string>, x: CartItem)
    requires k < |Tuck.STATIONERY| && (optionId.Some? ==> '|' !in optionId.value)
    requires x.id == Tuck.MakeCartId(Tuck.STATIONERY[k].id, optionId)
    ensures x !in Grocery.GroceryLines(items)
  {
    Tuck.CatalogueIdsWellFormed();
    TuckKeyNotGrocery(Tuck.STATIONERY[k].id, optionId);
  }

  /** The grocery page's view never shows a food line whose dish id and label are free of `|`. */
  lemma GroceryViewSkipsFoodLine(items: seq<CartItem>, item: FoodMenu.MenuItem, sizeLabel: Option<string>, x: CartItem)
    requires '|' !in item.id && (sizeLabel.Some? ==> '|' !in sizeLabel.value)
    requires x.id == FoodMenu.DisplayId(item, sizeLabel)
    ensures x !in Grocery.GroceryLines(items)
  {
    FoodKeyNotGrocery(item, sizeLabel);
  }
}
