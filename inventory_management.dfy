/**
  The admin inventory page: the catalogue with its stock levels, stock
  changes clamped at zero, the low-stock alert list, stock and value totals,
  the per-item status label, and the add/edit product modal.
 */
module InventoryManagement {
  import opened Records
  import opened Seqs
  import opened Catalog

  /** The page's starting inventory. */
  const SeedInventory: seq<MilkVariety> :=
    StandardVarieties(["1", "2", "3", "4", "5", "6"], [150, 75, 200, 25, 100, 80])

  function StockOf(v: MilkVariety): int { v.stock }

  /** An item's value: stock times price per litre. */
  function ValueOf(v: MilkVariety): real { v.stock as real * v.pricePerLiter }

  /** `Math.max(0, n)`. */
  function ClampStock(n: int): (r: int)
    ensures r >= 0
    ensures n >= 0 ==> r == n
    ensures n < 0 ==> r == 0
  {
    if n < 0 then 0 else n
  }

  /** `updateStock`: every item with the id gets the clamped stock. */
  function WithStock(inv: seq<MilkVariety>, id: string, n: int): (r: seq<MilkVariety>)
    ensures |r| == |inv|
    ensures forall i :: 0 <= i < |inv| && inv[i].id == id ==> r[i] == inv[i].(stock := ClampStock(n))
    ensures forall i :: 0 <= i < |inv| && inv[i].id != id ==> r[i] == inv[i]
  {
    MapWhere(inv, (v: MilkVariety) => v.id == id, (v: MilkVariety) => v.(stock := ClampStock(n)))
  }

  predicate NoNegativeStock(inv: seq<MilkVariety>) {
    forall v :: v in inv ==> v.stock >= 0
  }

  /** Ids are unique and no stock is negative. */
  predicate WellFormed(inv: seq<MilkVariety>) {
    UniqueBy(inv, VarietyId) && NoNegativeStock(inv)
  }

  /** With unique ids, a stock update is the replacement of the one item
      carrying the id. */
  lemma {:induction false} WithStockIsUpdate(inv: seq<MilkVariety>, k: nat, n: int)
    requires UniqueBy(inv, VarietyId) && k < |inv|
    ensures WithStock(inv, inv[k].id, n) == inv[k := inv[k].(stock := ClampStock(n))]
  {
    var r := WithStock(inv, inv[k].id, n);
    forall i | 0 <= i < |inv| ensures r[i] == inv[k := inv[k].(stock := ClampStock(n))][i] {
      if i != k {
        assert VarietyId(inv[i]) != VarietyId(inv[k]);
      }
    }
  }

  /** A stock update keeps ids unique and stock non-negative, and changes
      neither the length nor the order of the list. */
  lemma {:induction false} WithStockKeepsWellFormed(inv: seq<MilkVariety>, id: string, n: int)
    requires WellFormed(inv)
    ensures WellFormed(WithStock(inv, id, n))
  {
    var r := WithStock(inv, id, n);
    forall i, j | 0 <= i < j < |r| ensures VarietyId(r[i]) != VarietyId(r[j]) {
      assert r[i].id == inv[i].id && r[j].id == inv[j].id;
      assert VarietyId(inv[i]) != VarietyId(inv[j]);
    }
    forall v | v in r ensures v.stock >= 0 {
      var i :| 0 <= i < |r| && r[i] == v;
      assert inv[i] in inv;
    }
  }

  /** The alert list: the items under 50 litres, in list order. */
  function LowStockItems(inv: seq<MilkVariety>): (r: seq<MilkVariety>)
    ensures IsSubsequence(r, inv)
    ensures forall v :: v in r <==> v in inv && v.stock < 50
  {
    Filter(inv, (v: MilkVariety) => v.stock < 50)
  }

  function TotalStock(inv: seq<MilkVariety>): int {
    IntSumOf(inv, StockOf)
  }

  function TotalValue(inv: seq<MilkVariety>): real {
    SumOf(inv, ValueOf)
  }

  /** Changing one item's stock moves the stock total by the change and the
      value total by the change times that item's price. */
  lemma {:induction false} TotalsAfterUpdate(inv: seq<MilkVariety>, k: nat, n: int)
    requires UniqueBy(inv, VarietyId) && k < |inv|
    ensures TotalStock(WithStock(inv, inv[k].id, n)) == TotalStock(inv) - inv[k].stock + ClampStock(n)
    ensures TotalValue(WithStock(inv, inv[k].id, n))
            == TotalValue(inv) + (ClampStock(n) - inv[k].stock) as real * inv[k].pricePerLiter
  {
    var y := inv[k].(stock := ClampStock(n));
    WithStockIsUpdate(inv, k, n);
    IntSumOfUpdate(inv, k, y, StockOf);
    SumOfUpdate(inv, k, y, ValueOf);
  }

  datatype StockLevel = Critical | Low | Good

  /** The status label: Critical under 30, Low from 30 to 49, Good from 50. */
  function StockStatus(stock: int): (l: StockLevel)
    ensures l == Critical <==> stock < 30
    ensures l == Low <==> 30 <= stock < 50
    ensures l == Good <==> stock >= 50
  {
    if stock < 30 then Critical else if stock < 50 then Low else Good
  }

  /** An item is in the alert list exactly when its label is not Good. */
  lemma FlaggedIffListed(inv: seq<MilkVariety>, v: MilkVariety)
    requires v in inv
    ensures v in LowStockItems(inv) <==> StockStatus(v.stock) != Good
  {
  }

  /** Of the starting inventory only Aavin Purple (25 litres, Critical) is
      low. */
  lemma SeedLowStock()
    ensures LowStockItems(SeedInventory) == [SeedInventory[3]]
    ensures SeedInventory[3].name == "Aavin Purple" && StockStatus(SeedInventory[3].stock) == Critical
  {
    var inv := SeedInventory;
    var p := (v: MilkVariety) => v.stock < 50;
    assert Filter(inv[5..], p) == [] by { assert inv[5..][1..] == []; }
    assert Filter(inv[4..], p) == [] by { assert inv[4..][1..] == inv[5..]; }
    assert Filter(inv[3..], p) == [inv[3]] by { assert inv[3..][1..] == inv[4..]; }
    assert Filter(inv[2..], p) == [inv[3]] by { assert inv[2..][1..] == inv[3..]; }
    assert Filter(inv[1..], p) == [inv[3]] by { assert inv[1..][1..] == inv[2..]; }
  }

  /** The starting inventory holds 630 litres worth 14700. */
  lemma SeedTotals()
    ensures TotalStock(SeedInventory) == 630
    ensures TotalValue(SeedInventory) == 14700.0
  {
    var inv := SeedInventory;
    assert inv[0].stock == 150 && inv[1].stock == 75 && inv[2].stock == 200;
    assert inv[3].stock == 25 && inv[4].stock == 100 && inv[5].stock == 80;
    assert inv[0].pricePerLiter == 28.0 && inv[1].pricePerLiter == 26.0 && inv[2].pricePerLiter == 24.0;
    assert inv[3].pricePerLiter == 22.0 && inv[4].pricePerLiter == 20.0 && inv[5].pricePerLiter == 15.0;
    assert inv == [inv[0], inv[1], inv[2], inv[3], inv[4], inv[5]];
    IntSumOfAppend([inv[0]], inv[1], StockOf);
    IntSumOfAppend([inv[0], inv[1]], inv[2], StockOf);
    IntSumOfAppend([inv[0], inv[1], inv[2]], inv[3], StockOf);
    IntSumOfAppend([inv[0], inv[1], inv[2], inv[3]], inv[4], StockOf);
    IntSumOfAppend([inv[0], inv[1], inv[2], inv[3], inv[4]], inv[5], StockOf);
    SumOfAppend([inv[0]], inv[1], ValueOf);
    SumOfAppend([inv[0], inv[1]], inv[2], ValueOf);
    SumOfAppend([inv[0], inv[1], inv[2]], inv[3], ValueOf);
    SumOfAppend([inv[0], inv[1], inv[2], inv[3]], inv[4], ValueOf);
    SumOfAppend([inv[0], inv[1], inv[2], inv[3], inv[4]], inv[5], ValueOf);
  }

  /** The product modal's fields. */
  datatype ProductForm = ProductForm(name: string, pricePerLiter: real, stock: int, description: string)

  /** `product?.name || ''` and the like: the edited product's fields, or
      empty ones for a new product (`||` changes nothing here, since each
      fallback is the falsy value it replaces). */
  function InitialProductForm(product: Option<MilkVariety>): (f: ProductForm)
    ensures product.Some? ==> f == ProductForm(product.value.name, product.value.pricePerLiter,
                                                product.value.stock, product.value.description)
    ensures product.None? ==> f == ProductForm("", 0.0, 0, "")
  {
    match product
    case None => ProductForm("", 0.0, 0, "")
    case Some(p) =>
      ProductForm(OrElse(Some(p.name), ""),
                  if p.pricePerLiter != 0.0 then p.pricePerLiter else 0.0,
                  if p.stock != 0 then p.stock else 0,
                  OrElse(Some(p.description), ""))
  }

  /** `{ ...editingItem, ...productData }`: the form's fields over the item,
      whose id and colour stay. */
  function MergeProduct(item: MilkVariety, f: ProductForm): (r: MilkVariety)
    ensures r.id == item.id && r.color == item.color
    ensures r.name == f.name && r.pricePerLiter == f.pricePerLiter && r.stock == f.stock && r.description == f.description
  {
    item.(name := f.name, pricePerLiter := f.pricePerLiter, stock := f.stock, description := f.description)
  }

  /** Saving the form unchanged leaves the edited item as it was. */
  lemma MergeInitialForm(item: MilkVariety)
    ensures MergeProduct(item, InitialProductForm(Some(item))) == item
  {
  }

  /** A new product: the random id, the form's fields and a grey swatch. */
  function NewProduct(f: ProductForm, id: string): (v: MilkVariety)
    ensures v.id == id && v.color == "bg-gray-500"
    ensures v.name == f.name && v.pricePerLiter == f.pricePerLiter && v.stock == f.stock && v.description == f.description
  {
    MilkVariety(id, f.name, "bg-gray-500", f.pricePerLiter, f.stock, f.description)
  }

  /** `onSave`: replace the edited item by id, or append a new product. */
  function SaveProduct(inv: seq<MilkVariety>, editing: Option<MilkVariety>, f: ProductForm, freshId: string): (r: seq<MilkVariety>)
    ensures editing.None? ==> r == inv + [NewProduct(f, freshId)]
    ensures editing.Some? ==> |r| == |inv|
    ensures editing.Some? ==> forall i :: 0 <= i < |inv| ==>
      r[i] == if inv[i].id == editing.value.id then MergeProduct(editing.value, f) else inv[i]
  {
    if editing.None? then inv + [NewProduct(f, freshId)]
    else MapWhere(inv, (v: MilkVariety) => v.id == editing.value.id, (v: MilkVariety) => MergeProduct(editing.value, f))
  }

  /** Saving keeps ids unique and stock non-negative when the form's stock
      is not negative (the input's `min="0"`), the edited item is on the
      list and a new product gets an unused id. */
  lemma {:induction false} SaveKeepsWellFormed(inv: seq<MilkVariety>, editing: Option<MilkVariety>, f: ProductForm, freshId: string)
    requires WellFormed(inv) && f.stock >= 0
    requires editing.None? ==> freshId !in Keys(inv, VarietyId)
    ensures WellFormed(SaveProduct(inv, editing, f, freshId))
  {
    var r := SaveProduct(inv, editing, f, freshId);
    if editing.None? {
      AppendUnique(inv, NewProduct(f, freshId), VarietyId);
    } else {
      forall i, j | 0 <= i < j < |r| ensures VarietyId(r[i]) != VarietyId(r[j]) {
        assert VarietyId(inv[i]) != VarietyId(inv[j]);
        if inv[i].id == editing.value.id {
          assert r[j] == inv[j];
        } else if inv[j].id == editing.value.id {
          assert r[i] == inv[i];
        }
      }
      forall v | v in r ensures v.stock >= 0 {
        var i :| 0 <= i < |r| && r[i] == v;
        assert inv[i] in inv;
      }
    }
  }

  class Inventory {
    var inventory: seq<MilkVariety>
    var showAddModal: bool
    var editingItem: Option<MilkVariety>

    constructor()
      ensures inventory == SeedInventory && !showAddModal && editingItem == None
      ensures WellFormed(inventory)
    {
      inventory := SeedInventory;
      showAddModal := false;
      editingItem := None;
    }

    method UpdateStock(id: string, newStock: int)
      modifies this
      ensures inventory == WithStock(old(inventory), id, newStock)
      ensures showAddModal == old(showAddModal) && editingItem == old(editingItem)
      ensures old(WellFormed(inventory)) ==> WellFormed(inventory)
    {
      if WellFormed(inventory) {
        WithStockKeepsWellFormed(inventory, id, newStock);
      }
      inventory := WithStock(inventory, id, newStock);
    }

    /** The "-" button of row `k`: ten litres less, never below zero; no
        other row changes. */
    method StepDown(k: nat)
      requires k < |inventory| && UniqueBy(inventory, VarietyId)
      modifies this
      ensures inventory == old(inventory)[k := old(inventory)[k].(stock := ClampStock(old(inventory)[k].stock - 10))]
      ensures showAddModal == old(showAddModal) && editingItem == old(editingItem)
    {
      WithStockIsUpdate(inventory, k, inventory[k].stock - 10);
      UpdateStock(inventory[k].id, inventory[k].stock - 10);
    }

    /** The "+" button of row `k`: ten litres more; no other row changes. */
    method StepUp(k: nat)
      requires k < |inventory| && UniqueBy(inventory, VarietyId) && inventory[k].stock >= 0
      modifies this
      ensures inventory == old(inventory)[k := old(inventory)[k].(stock := old(inventory)[k].stock + 10)]
      ensures showAddModal == old(showAddModal) && editingItem == old(editingItem)
    {
      WithStockIsUpdate(inventory, k, inventory[k].stock + 10);
      UpdateStock(inventory[k].id, inventory[k].stock + 10);
    }

    method OpenAddModal()
      modifies this
      ensures showAddModal && inventory == old(inventory) && editingItem == old(editingItem)
    {
      showAddModal := true;
    }

    method StartEdit(item: MilkVariety)
      modifies this
      ensures editingItem == Some(item) && inventory == old(inventory) && showAddModal == old(showAddModal)
    {
      editingItem := Some(item);
    }

    /** The modal's `onSave`, then the modal closes. */
    method Save(f: ProductForm, freshId: string)
      modifies this
      ensures inventory == SaveProduct(old(inventory), old(editingItem), f, freshId)
      ensures !showAddModal && editingItem == None
      ensures (old(WellFormed(inventory)) && f.stock >= 0 &&
               (old(editingItem).None? ==> freshId !in Keys(old(inventory), VarietyId))) ==> WellFormed(inventory)
    {
      if WellFormed(inventory) && f.stock >= 0 && (editingItem.None? ==> freshId !in Keys(inventory, VarietyId)) {
        SaveKeepsWellFormed(inventory, editingItem, f, freshId);
      }
      inventory := SaveProduct(inventory, editingItem, f, freshId);
      showAddModal := false;
      editingItem := None;
    }

    method CloseModal()
      modifies this
      ensures !showAddModal && editingItem == None && inventory == old(inventory)
    {
      showAddModal := false;
      editingItem := None;
    }
  }
}
