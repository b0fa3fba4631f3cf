/** The new-sale form: its line items and their editing, the running
    subtotal and total, the validation schema and the rows written on
    submission. Money is in integer cents. */
module SaleForm {
  import opened Options
  import opened Lists

  // ---------------------------------------------------------------- data

  /** One line of the form. `None` in `quantity` or `unitPrice` is an empty or
      non-numeric input (`valueAsNumber` gives `NaN`). */
  datatype LineItem = LineItem(
    productId: Option<string>,
    serviceId: Option<string>,
    quantity: Option<int>,
    unitPrice: Option<int>)

  /** A product or service as the form loads it: `select("id, name, price")`. */
  datatype CatalogEntry = CatalogEntry(id: string, name: string, price: int)

  /** The whole form. */
  datatype SaleDraft = SaleDraft(
    clientId: Option<string>,
    employeeId: Option<string>,
    saleDate: string,
    paymentMethod: string,
    discount: Option<int>,
    notes: Option<string>,
    items: seq<LineItem>)

  /** The row a new line starts from: `{ quantity: 1, unit_price: 0 }`. */
  const BLANK_ITEM := LineItem(None, None, Some(1), Some(0))

  // ---------------------------------------------------------------- totals

  /** `x || 0` on a number field: a missing value (or zero) counts as zero. */
  function OrZero(x: Option<int>): int
  {
    x.GetOr(0)
  }

  /** The line total shown beside each item and added into the subtotal. */
  function LineTotal(item: LineItem): int
  {
    OrZero(item.quantity) * OrZero(item.unitPrice)
  }

  /** `subtotal`: `items.reduce((acc, item) => acc + (item.quantity || 0) * (item.unit_price || 0), 0)`. */
  function Subtotal(items: seq<LineItem>): int
  {
    SumOf(items, LineTotal)
  }

  /** `total`: the subtotal less the discount, a missing discount counting as zero. */
  function Total(items: seq<LineItem>, discount: Option<int>): int
  {
    Subtotal(items) - OrZero(discount)
  }

  /** The subtotal adds up line by line: the subtotal of two runs of items is
      the sum of their subtotals. */
  lemma SubtotalAppend(a: seq<LineItem>, b: seq<LineItem>)
    ensures Subtotal(a + b) == Subtotal(a) + Subtotal(b)
  {
    SumOfAppend(a, b, LineTotal);
  }

  /** The subtotal of one item is its quantity times its unit price, a missing
      value counting as zero. */
  lemma SubtotalOfOne(item: LineItem)
    ensures Subtotal([item]) == OrZero(item.quantity) * OrZero(item.unitPrice)
    ensures item.quantity.None? || item.unitPrice.None? ==> Subtotal([item]) == 0
  {
    SumOfOne(item, LineTotal);
  }

  /** The total is the subtotal less the discount and is not clamped: it is
      negative exactly when the discount exceeds the subtotal. */
  lemma {:induction false} TotalNotClamped(items: seq<LineItem>, discount: Option<int>)
    ensures Total(items, discount) + OrZero(discount) == Subtotal(items)
    ensures Total(items, discount) < 0 <==> OrZero(discount) > Subtotal(items)
    ensures discount.None? ==> Total(items, discount) == Subtotal(items)
  {
  }

  // ---------------------------------------------------------------- editing

  /** `addItem`: append a blank line. */
  function AddItem(items: seq<LineItem>): (r: seq<LineItem>)
    ensures |r| == |items| + 1
    ensures r[..|items|] == items
    ensures r[|items|] == BLANK_ITEM
  {
    items + [BLANK_ITEM]
  }

  /** `removeItem`: drop the line at `index`, unless it is the only line left. */
  function RemoveItem(items: seq<LineItem>, index: int): (r: seq<LineItem>)
    ensures |items| > 1 && 0 <= index < |items| ==> r == items[..index] + items[index + 1..]
    ensures |items| <= 1 ==> r == items
    ensures !(0 <= index < |items|) ==> r == items
    ensures |items| >= 1 ==> |r| >= 1
  {
    if |items| > 1 then WithoutIndex(items, index) else items
  }

  /** A blank line adds nothing to the subtotal. */
  lemma AddItemKeepsSubtotal(items: seq<LineItem>)
    ensures Subtotal(AddItem(items)) == Subtotal(items)
  {
    SubtotalAppend(items, [BLANK_ITEM]);
    SumOfOne(BLANK_ITEM, LineTotal);
  }

  /** Removing the line just added restores the list. */
  lemma RemoveUndoesAdd(items: seq<LineItem>)
    requires |items| >= 1
    ensures RemoveItem(AddItem(items), |items|) == items
  {
  }

  /** Removing a line lowers the subtotal by exactly that line's total. */
  lemma {:induction false} RemoveItemSubtotal(items: seq<LineItem>, index: int)
    requires |items| > 1 && 0 <= index < |items|
    ensures Subtotal(RemoveItem(items, index)) == Subtotal(items) - LineTotal(items[index])
  {
    assert items == items[..index] + [items[index]] + items[index + 1..];
    SubtotalAppend(items[..index] + [items[index]], items[index + 1..]);
    SubtotalAppend(items[..index], [items[index]]);
    SubtotalAppend(items[..index], items[index + 1..]);
    SumOfOne(items[index], LineTotal);
  }

  /** `list.find(e => e.id === id)`: the first entry with that id, if any. */
  function FindById(catalog: seq<CatalogEntry>, id: string): (r: Option<CatalogEntry>)
    ensures r.None? <==> forall k :: 0 <= k < |catalog| ==> catalog[k].id != id
    ensures r.Some? ==> exists k :: 0 <= k < |catalog| && catalog[k] == r.value && r.value.id == id
                          && forall j :: 0 <= j < k ==> catalog[j].id != id
    decreases |catalog|
  {
    if |catalog| == 0 then None
    else if catalog[0].id == id then Some(catalog[0])
    else
      var r := FindById(catalog[1..], id);
      assert r.Some? ==> exists k :: 0 <= k < |catalog| - 1 && catalog[1..][k] == r.value && r.value.id == id
                          && forall j :: 0 <= j < k ==> catalog[1..][j].id != id;
      assert r.Some? ==> exists k :: 0 <= k < |catalog| && catalog[k] == r.value && r.value.id == id
                          && forall j :: 0 <= j < k ==> catalog[j].id != id by {
        if r.Some? {
          var k :| 0 <= k < |catalog| - 1 && catalog[1..][k] == r.value && r.value.id == id
                   && forall j :: 0 <= j < k ==> catalog[1..][j].id != id;
          assert catalog[k + 1] == r.value;
          assert forall j :: 0 <= j < k + 1 ==> catalog[j].id != id by {
            forall j | 0 <= j < k + 1
              ensures catalog[j].id != id
            {
              if j > 0 {
                assert catalog[j] == catalog[1..][j - 1];
              }
            }
          }
        }
      }
      r
  }

  /** Overwrite line `index` with `item`, leaving the other lines alone
      (a `setValue` on `items.${index}` fields). */
  function SetLine(items: seq<LineItem>, index: nat, item: LineItem): seq<LineItem>
    requires index < |items|
  {
    items[index := item]
  }

  /** `handleProductChange`: picking a known product on line `index` records
      it, clears the service and copies the product's price; an unknown id
      changes nothing. */
  function ChooseProduct(items: seq<LineItem>, index: nat, productId: string,
                         products: seq<CatalogEntry>): (r: seq<LineItem>)
    requires index < |items|
    ensures |r| == |items|
    ensures forall j :: 0 <= j < |items| && j != index ==> r[j] == items[j]
    ensures FindById(products, productId).None? ==> r == items
    ensures FindById(products, productId).Some? ==>
              && r[index].productId == Some(productId)
              && r[index].serviceId.None?
              && r[index].quantity == items[index].quantity
              && r[index].unitPrice == Some(FindById(products, productId).value.price)
  {
    match FindById(products, productId)
    case None => items
    case Some(product) =>
      SetLine(items, index, items[index].(productId := Some(productId), serviceId := None,
                                          unitPrice := Some(product.price)))
  }

  /** `handleServiceChange`: the mirror image of `ChooseProduct`. */
  function ChooseService(items: seq<LineItem>, index: nat, serviceId: string,
                         services: seq<CatalogEntry>): (r: seq<LineItem>)
    requires index < |items|
    ensures |r| == |items|
    ensures forall j :: 0 <= j < |items| && j != index ==> r[j] == items[j]
    ensures FindById(services, serviceId).None? ==> r == items
    ensures FindById(services, serviceId).Some? ==>
              && r[index].serviceId == Some(serviceId)
              && r[index].productId.None?
              && r[index].quantity == items[index].quantity
              && r[index].unitPrice == Some(FindById(services, serviceId).value.price)
  {
    match FindById(services, serviceId)
    case None => items
    case Some(service) =>
      SetLine(items, index, items[index].(serviceId := Some(serviceId), productId := None,
                                          unitPrice := Some(service.price)))
  }

  /** A line never refers to both a product and a service once either has been
      chosen through the form. */
  predicate Exclusive(item: LineItem)
  {
    !(item.productId.Some? && item.serviceId.Some?)
  }

  /** Choosing a product or a service keeps every line exclusive. */
  lemma ChoosingKeepsExclusive(items: seq<LineItem>, index: nat, id: string, catalog: seq<CatalogEntry>)
    requires index < |items|
    requires forall j :: 0 <= j < |items| ==> Exclusive(items[j])
    ensures forall j :: 0 <= j < |items| ==> Exclusive(ChooseProduct(items, index, id, catalog)[j])
    ensures forall j :: 0 <= j < |items| ==> Exclusive(ChooseService(items, index, id, catalog)[j])
  {
  }

  /** Re-pricing a line moves the subtotal by the quantity times the change in
      unit price. */
  lemma {:induction false} ChooseProductSubtotal(items: seq<LineItem>, index: nat, productId: string,
                                                 products: seq<CatalogEntry>)
    requires index < |items|
    requires FindById(products, productId).Some?
    ensures Subtotal(ChooseProduct(items, index, productId, products))
         == Subtotal(items) - LineTotal(items[index])
            + OrZero(items[index].quantity) * FindById(products, productId).value.price
  {
    var r := ChooseProduct(items, index, productId, products);
    assert items == items[..index] + [items[index]] + items[index + 1..];
    assert r == items[..index] + [r[index]] + items[index + 1..];
    SubtotalAppend(items[..index] + [items[index]], items[index + 1..]);
    SubtotalAppend(items[..index], [items[index]]);
    SubtotalAppend(items[..index] + [r[index]], items[index + 1..]);
    SubtotalAppend(items[..index], [r[index]]);
    SumOfOne(items[index], LineTotal);
    SumOfOne(r[index], LineTotal);
  }

  // ---------------------------------------------------------------- validation

  /** The payment methods the schema's enum admits. */
  const PAYMENT_METHODS: seq<string> := ["cash", "card", "pix", "transfer"]

  /** `saleItemSchema`: a numeric quantity of at least 1 and a numeric,
      non-negative unit price. */
  predicate ValidItem(item: LineItem)
  {
    && item.quantity.Some? && item.quantity.value >= 1
    && item.unitPrice.Some? && item.unitPrice.value >= 0
  }

  /** `saleSchema`: a non-empty sale date, a known payment method, a numeric
      non-negative discount and at least one item, every item valid. */
  predicate ValidSale(draft: SaleDraft)
  {
    && |draft.saleDate| >= 1
    && draft.paymentMethod in PAYMENT_METHODS
    && draft.discount.Some? && draft.discount.value >= 0
    && |draft.items| >= 1
    && forall j :: 0 <= j < |draft.items| ==> ValidItem(draft.items[j])
  }

  /** Under the schema every line total, and so the subtotal, is non-negative
      and the total never exceeds the subtotal. */
  lemma {:induction false} ValidSaleBounds(draft: SaleDraft)
    requires ValidSale(draft)
    ensures Subtotal(draft.items) >= 0
    ensures Total(draft.items, draft.discount) <= Subtotal(draft.items)
  {
    forall j | 0 <= j < |draft.items|
      ensures LineTotal(draft.items[j]) >= 0
    {
      assert ValidItem(draft.items[j]);
    }
    SumOfNonNegative(draft.items, LineTotal);
  }

  /** The form starts out valid once a date is present: one blank line, cash,
      no discount. */
  lemma DefaultDraftValid(saleDate: string)
    requires |saleDate| >= 1
    ensures ValidSale(SaleDraft(None, None, saleDate, "cash", Some(0), Some(""), [BLANK_ITEM]))
  {
  }

  // ---------------------------------------------------------------- submission

  /** A `sale_items` row as inserted. */
  datatype SaleItemRow = SaleItemRow(
    saleId: string,
    productId: Option<string>,
    serviceId: Option<string>,
    quantity: int,
    unitPrice: int,
    totalPrice: int)

  /** A `sales` row as inserted (the user id is the session's and not modelled). */
  datatype SaleRow = SaleRow(
    clientId: Option<string>,
    employeeId: Option<string>,
    saleDate: string,
    paymentMethod: string,
    subtotal: int,
    discount: int,
    total: int,
    notes: Option<string>)

  /** `x || null` on an optional id: an empty id is stored as null. */
  function NullIfEmpty(x: Option<string>): (r: Option<string>)
    ensures r.Some? <==> x.Some? && x.value != ""
    ensures r.Some? ==> r == x
  {
    if x.Some? && x.value != "" then x else None
  }

  /** The `sale_items` mapping: one row per validated line, in order, each
      carrying its quantity times unit price. */
  function ItemRows(saleId: string, items: seq<LineItem>): (rows: seq<SaleItemRow>)
    requires forall j :: 0 <= j < |items| ==> ValidItem(items[j])
    ensures |rows| == |items|
    ensures forall j :: 0 <= j < |items| ==>
              && ValidItem(items[j])
              && rows[j].saleId == saleId
              && rows[j].quantity == items[j].quantity.value
              && rows[j].unitPrice == items[j].unitPrice.value
              && rows[j].totalPrice == rows[j].quantity * rows[j].unitPrice
              && rows[j].productId == NullIfEmpty(items[j].productId)
              && rows[j].serviceId == NullIfEmpty(items[j].serviceId)
    decreases |items|
  {
    if |items| == 0 then []
    else
      var item := items[0];
      assert ValidItem(item);
      [SaleItemRow(saleId, NullIfEmpty(item.productId), NullIfEmpty(item.serviceId),
                   item.quantity.value, item.unitPrice.value,
                   item.quantity.value * item.unitPrice.value)]
      + ItemRows(saleId, items[1..])
  }

  /** The row total of a `sale_items` row. */
  function RowTotal(row: SaleItemRow): int
  {
    row.totalPrice
  }

  /** The persisted line totals add up to the subtotal the form showed. */
  lemma {:induction false} ItemRowsSumToSubtotal(saleId: string, items: seq<LineItem>)
    requires forall j :: 0 <= j < |items| ==> ValidItem(items[j])
    ensures SumOf(ItemRows(saleId, items), RowTotal) == Subtotal(items)
    decreases |items|
  {
    if |items| != 0 {
      ItemRowsSumToSubtotal(saleId, items[1..]);
      assert ItemRows(saleId, items)[1..] == ItemRows(saleId, items[1..]);
    }
  }

  /** `onSubmit`: the `sales` row and its `sale_items` rows for a validated
      draft, once the store has assigned `saleId` to the sale. */
  function Submission(draft: SaleDraft, saleId: string): (r: (SaleRow, seq<SaleItemRow>))
    requires ValidSale(draft)
    ensures r.0.subtotal == SumOf(r.1, RowTotal)
    ensures r.0.total == r.0.subtotal - r.0.discount && r.0.discount >= 0
    ensures 0 <= r.0.subtotal && r.0.total <= r.0.subtotal
    ensures |r.1| == |draft.items| >= 1
    ensures r.0.paymentMethod in PAYMENT_METHODS
    ensures r.1 == ItemRows(saleId, draft.items)
    ensures r.0.subtotal == Subtotal(draft.items)
    ensures r.0.discount == draft.discount.value
    ensures r.0.paymentMethod == draft.paymentMethod
    ensures r.0.saleDate == draft.saleDate
    ensures r.0.clientId == NullIfEmpty(draft.clientId)
    ensures r.0.employeeId == NullIfEmpty(draft.employeeId)
    ensures r.0.notes == draft.notes
  {
    ItemRowsSumToSubtotal(saleId, draft.items);
    ValidSaleBounds(draft);
    var sale := SaleRow(NullIfEmpty(draft.clientId), NullIfEmpty(draft.employeeId), draft.saleDate,
                        draft.paymentMethod, Subtotal(draft.items), draft.discount.value,
                        Total(draft.items, draft.discount), draft.notes);
    (sale, ItemRows(saleId, draft.items))
  }
}
