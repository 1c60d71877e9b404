/**
 * The bill lines kept by the create-bill screen and the bill record handed to
 * the store and the receipt printer. A line is either a scanned barcode item
 * or a weighed loose item; a loose line carries no barcode.
 */
module Bills {
  import opened Wrappers

  datatype ItemType = Barcode | Loose

  datatype BillLine = BillLine(
    name: string,
    quantity: real,
    unitPrice: real,
    subtotal: real,
    itemType: ItemType,
    barcode: Option<string>)

  /** What `save_bill` receives and the printer formats. */
  datatype BillData = BillData(
    id: nat,
    customerName: string,
    customerPhone: string,
    totalAmount: real,
    totalItems: nat,
    totalWeight: real,
    items: seq<BillLine>)

  /** The per-line invariant: the subtotal is quantity times unit price. */
  predicate LineValid(l: BillLine)
  {
    && l.quantity > 0.0
    && l.subtotal == l.quantity * l.unitPrice
    && (l.itemType == Barcode <==> l.barcode.Some?)
  }

  predicate LinesValid(items: seq<BillLine>)
  {
    forall i :: 0 <= i < |items| ==> LineValid(items[i])
  }

  /** True when `l` is the barcode line for `code`. */
  predicate IsLineFor(l: BillLine, code: string)
  {
    l.itemType == Barcode && l.barcode == Some(code)
  }

  /** No two barcode lines carry the same barcode. */
  predicate UniqueBarcodes(items: seq<BillLine>)
  {
    forall i, j ::
      (0 <= i < |items| && 0 <= j < |items| && items[i].itemType == Barcode &&
       items[j].itemType == Barcode && items[i].barcode == items[j].barcode) ==> i == j
  }

  /** The sum of the subtotals, accumulated front to back. */
  function SumSubtotals(items: seq<BillLine>): real
  {
    if items == [] then 0.0 else SumSubtotals(items[..|items| - 1]) + items[|items| - 1].subtotal
  }

  lemma {:induction false} SumSubtotalsAppend(a: seq<BillLine>, b: seq<BillLine>)
    ensures SumSubtotals(a + b) == SumSubtotals(a) + SumSubtotals(b)
  {
    if b != [] {
      var ab := a + b;
      assert ab[..|ab| - 1] == a + b[..|b| - 1];
      SumSubtotalsAppend(a, b[..|b| - 1]);
    } else {
      assert a + b == a;
    }
  }

  /** Replacing one line changes the sum by the difference of the subtotals. */
  lemma SumSubtotalsUpdate(items: seq<BillLine>, row: nat, l: BillLine)
    requires row < |items|
    ensures SumSubtotals(items[row := l]) == SumSubtotals(items) - items[row].subtotal + l.subtotal
  {
    var pre, post := items[..row], items[row + 1..];
    assert items == pre + [items[row]] + post;
    assert items[row := l] == pre + [l] + post;
    SumSubtotalsAppend(pre + [items[row]], post);
    SumSubtotalsAppend(pre + [l], post);
    SumSubtotalsAppend(pre, [items[row]]);
    SumSubtotalsAppend(pre, [l]);
    assert SumSubtotals([l]) == l.subtotal by { assert [l][..0] == []; }
    assert SumSubtotals([items[row]]) == items[row].subtotal by { assert [items[row]][..0] == []; }
  }

  /** Deleting one line lowers the sum by that line's subtotal. */
  lemma SumSubtotalsRemove(items: seq<BillLine>, row: nat)
    requires row < |items|
    ensures SumSubtotals(items[..row] + items[row + 1..]) == SumSubtotals(items) - items[row].subtotal
  {
    var pre, post := items[..row], items[row + 1..];
    assert items == pre + [items[row]] + post;
    SumSubtotalsAppend(pre + [items[row]], post);
    SumSubtotalsAppend(pre, [items[row]]);
    SumSubtotalsAppend(pre, post);
    assert SumSubtotals([items[row]]) == items[row].subtotal by { assert [items[row]][..0] == []; }
  }
}
