/**
 * The bill-in-progress of the create-bill screen: an ordered list of bill
 * lines that barcode scans and loose-item entries add to, that the +/-,
 * edit and remove buttons change, and that finishing saves and clears.
 *
 * Every state change is specified by a function on the list of lines
 * (Scanned, AddedLoose, Increased, Decreased, Edited, Removed); the lemmas
 * after them state what the screen promises about those functions.
 */
module CreateBill {
  import opened Wrappers
  import opened Text
  import opened Bills
  import opened Printer

  /** A catalogue entry as the store returns it for a barcode. */
  datatype CatalogItem = CatalogItem(name: string, price: real)

  /** What the two loose-item dialogs hand back: the item and the entered values. */
  datatype LooseSelection = LooseSelection(name: string, quantity: real, pricePerKg: real)

  datatype PrintOutcome = Printed | PrintFailed | NotConnected

  datatype FinishOutcome =
    | EmptyBill
    | CustomerCancelled
    | Saved(billId: nat, printing: PrintOutcome)

  /** The bounds of the quantity spin boxes (loose-item dialog and edit dialog). */
  predicate QuantityInRange(q: real)
  {
    0.01 <= q <= 999.99
  }

  predicate PriceInRange(p: real)
  {
    0.01 <= p <= 9999.99
  }

  /**
   * The persistent store as the screen sees it: a barcode catalogue and the
   * saved bills, each saved bill getting the next row id.
   */
  class Store {
    var catalog: map<string, CatalogItem>
    var bills: seq<BillData>

    ghost predicate Valid()
      reads this
    {
      forall i :: 0 <= i < |bills| ==> bills[i].id == i + 1
    }

    constructor (catalog: map<string, CatalogItem>)
      ensures Valid() && this.catalog == catalog && bills == []
    {
      this.catalog := catalog;
      bills := [];
    }

    method GetBarcodeItem(barcode: string) returns (item: Option<CatalogItem>)
      ensures item == if barcode in catalog then Some(catalog[barcode]) else None
    {
      item := if barcode in catalog then Some(catalog[barcode]) else None;
    }

    /** Records the bill and returns an id no earlier bill has. */
    method SaveBill(customerName: string, customerPhone: string, items: seq<BillLine>,
                    totalAmount: real, totalItems: nat, totalWeight: real) returns (id: nat)
      requires Valid()
      modifies this`bills
      ensures Valid()
      ensures forall i :: 0 <= i < |old(bills)| ==> old(bills)[i].id != id
      ensures bills == old(bills) +
        [BillData(id, customerName, customerPhone, totalAmount, totalItems, totalWeight, items)]
    {
      id := |bills| + 1;
      bills := bills + [BillData(id, customerName, customerPhone, totalAmount, totalItems, totalWeight, items)];
    }
  }

  /**
   * The customer dialog. Its OK handler stores the stripped texts and only
   * accepts a non-blank name, so an accepted dialog always carries one.
   */
  class CustomerInfoDialog {
    var customerName: string
    var customerPhone: string
    var accepted: bool

    ghost predicate Valid()
      reads this
    {
      accepted ==> customerName != "" && IsStripped(customerName)
    }

    constructor ()
      ensures Valid() && customerName == "" && customerPhone == "" && !accepted
    {
      customerName := "";
      customerPhone := "";
      accepted := false;
    }

    /** The OK button of the still open dialog. */
    method AcceptInput(nameText: string, phoneText: string)
      requires Valid() && !accepted
      modifies this
      ensures Valid()
      ensures customerName == Strip(nameText) && customerPhone == Strip(phoneText)
      ensures accepted == !AllSpace(nameText)
    {
      customerName := Strip(nameText);
      customerPhone := Strip(phoneText);
      StripBlank(nameText);
      if customerName == "" {
        return;
      }
      accepted := true;
    }
  }

  /** The quantity step of the +/- buttons: one unit, or 0.1 kg for loose items. */
  function Step(l: BillLine): real
  {
    if l.itemType == Barcode then 1.0 else 0.1
  }

  /** The line with a new quantity and its subtotal recomputed. */
  function WithQuantity(l: BillLine, q: real): (r: BillLine)
    ensures r.quantity == q && r.subtotal == q * l.unitPrice
    ensures r.name == l.name && r.unitPrice == l.unitPrice
    ensures r.itemType == l.itemType && r.barcode == l.barcode
  {
    l.(quantity := q, subtotal := q * l.unitPrice)
  }

  function NewBarcodeLine(code: string, item: CatalogItem): BillLine
  {
    BillLine(item.name, 1.0, item.price, item.price, Barcode, Some(code))
  }

  function NewLooseLine(s: LooseSelection): BillLine
  {
    BillLine(s.name, s.quantity, s.pricePerKg, s.quantity * s.pricePerKg, Loose, None)
  }

  /** The first barcode line for `code`, if any. */
  function BarcodeIndex(items: seq<BillLine>, code: string): (r: Option<nat>)
    ensures r.Some? ==>
      r.value < |items| && IsLineFor(items[r.value], code) &&
      forall j :: 0 <= j < r.value ==> !IsLineFor(items[j], code)
    ensures r.None? ==> forall j :: 0 <= j < |items| ==> !IsLineFor(items[j], code)
  {
    if items == [] then None
    else if IsLineFor(items[0], code) then Some(0)
    else match BarcodeIndex(items[1..], code)
      case None => None
      case Some(k) => Some(k + 1)
  }

  /** A scan: unknown codes change nothing, a repeat scan adds one to its line. */
  function Scanned(items: seq<BillLine>, code: string, catalog: map<string, CatalogItem>): (r: seq<BillLine>)
    ensures |items| <= |r| <= |items| + 1
    ensures forall j :: 0 <= j < |items| && !IsLineFor(items[j], code) ==> r[j] == items[j]
  {
    if code !in catalog then items
    else match BarcodeIndex(items, code)
      case Some(i) => items[i := WithQuantity(items[i], items[i].quantity + 1.0)]
      case None => items + [NewBarcodeLine(code, catalog[code])]
  }

  /** Loose items are never merged: each selection appends its own line. */
  function AddedLoose(items: seq<BillLine>, s: LooseSelection): (r: seq<BillLine>)
    ensures |r| == |items| + 1 && r[..|items|] == items
  {
    items + [NewLooseLine(s)]
  }

  function Increased(items: seq<BillLine>, row: nat): (r: seq<BillLine>)
    ensures |r| == |items| && forall j {:trigger r[j]} :: 0 <= j < |items| && j != row ==> r[j] == items[j]
  {
    if row < |items| then items[row := WithQuantity(items[row], items[row].quantity + Step(items[row]))]
    else items
  }

  function Decreased(items: seq<BillLine>, row: nat): (r: seq<BillLine>)
    ensures |r| == |items| && forall j {:trigger r[j]} :: 0 <= j < |items| && j != row ==> r[j] == items[j]
  {
    if row < |items| && items[row].quantity > Step(items[row])
    then items[row := WithQuantity(items[row], items[row].quantity - Step(items[row]))]
    else items
  }

  function Edited(items: seq<BillLine>, row: nat, q: real): (r: seq<BillLine>)
    ensures |r| == |items| && forall j {:trigger r[j]} :: 0 <= j < |items| && j != row ==> r[j] == items[j]
  {
    if row < |items| then items[row := WithQuantity(items[row], q)] else items
  }

  function Removed(items: seq<BillLine>, row: nat): (r: seq<BillLine>)
    ensures |r| == if row < |items| then |items| - 1 else |items|
  {
    if row < |items| then items[..row] + items[row + 1..] else items
  }

  // ---------------------------------------------------------------------
  // What the screen promises about these operations
  // ---------------------------------------------------------------------

  /** A scan keeps subtotal = quantity * unit price on every line. */
  lemma ScanKeepsLinesValid(items: seq<BillLine>, code: string, catalog: map<string, CatalogItem>)
    requires LinesValid(items)
    ensures LinesValid(Scanned(items, code, catalog))
  {
  }

  /** So do loose entries, +, -, edit (to a positive quantity) and remove. */
  lemma EditsKeepLinesValid(items: seq<BillLine>, row: nat, s: LooseSelection, q: real)
    requires LinesValid(items)
    requires s.quantity > 0.0 && q > 0.0
    ensures LinesValid(AddedLoose(items, s))
    ensures LinesValid(Increased(items, row))
    ensures LinesValid(Decreased(items, row))
    ensures LinesValid(Edited(items, row, q))
    ensures LinesValid(Removed(items, row))
  {
    if row < |items| {
      var r := Removed(items, row);
      forall i | 0 <= i < |r| ensures LineValid(r[i]) {
        if i < row { assert r[i] == items[i]; } else { assert r[i] == items[i + 1]; }
      }
    }
  }

  /** Scanning a code already on the bill adds one to that line and keeps the line count. */
  lemma RepeatScanMerges(items: seq<BillLine>, code: string, catalog: map<string, CatalogItem>, i: nat)
    requires UniqueBarcodes(items)
    requires code in catalog && i < |items| && IsLineFor(items[i], code)
    ensures var r := Scanned(items, code, catalog);
      && |r| == |items|
      && r[i].quantity == items[i].quantity + 1.0
      && r[i].subtotal == r[i].quantity * r[i].unitPrice
      && forall j :: 0 <= j < |items| && j != i ==> r[j] == items[j]
  {
    var k := BarcodeIndex(items, code);
    assert k.Some?;
    assert k.value == i;
  }

  /** Scanning a catalogued code not yet on the bill appends one new line for it. */
  lemma FirstScanAppends(items: seq<BillLine>, code: string, catalog: map<string, CatalogItem>)
    requires code in catalog
    requires forall j :: 0 <= j < |items| ==> !IsLineFor(items[j], code)
    ensures var r := Scanned(items, code, catalog);
      && r == items + [NewBarcodeLine(code, catalog[code])]
      && r[|items|].quantity == 1.0 && r[|items|].subtotal == catalog[code].price
  {
    var k := BarcodeIndex(items, code);
    if k.Some? {
      assert false;
    }
  }

  /** An unknown barcode leaves the bill unchanged. */
  lemma UnknownBarcodeNoChange(items: seq<BillLine>, code: string, catalog: map<string, CatalogItem>)
    requires code !in catalog
    ensures Scanned(items, code, catalog) == items
  {
  }

  /** Scans never produce two barcode lines with the same barcode. */
  lemma ScanKeepsUnique(items: seq<BillLine>, code: string, catalog: map<string, CatalogItem>)
    requires UniqueBarcodes(items)
    ensures UniqueBarcodes(Scanned(items, code, catalog))
  {
    var r := Scanned(items, code, catalog);
    if code in catalog && BarcodeIndex(items, code).None? {
      forall i, j | 0 <= i < |r| && 0 <= j < |r| && r[i].itemType == Barcode &&
        r[j].itemType == Barcode && r[i].barcode == r[j].barcode
        ensures i == j
      {
      }
    }
  }

  /** The line a loose entry appends is its own loose line, even for an item already on the bill. */
  lemma LooseAlwaysAppends(items: seq<BillLine>, s: LooseSelection)
    ensures var r := AddedLoose(items, s);
      && r[|items|].itemType == Loose && r[|items|].name == s.name
      && r[|items|].quantity == s.quantity && r[|items|].unitPrice == s.pricePerKg
  {
  }

  /** Loose entries, +, -, edit and remove keep barcode lines unique. */
  lemma EditsKeepUnique(items: seq<BillLine>, row: nat, s: LooseSelection, q: real)
    requires UniqueBarcodes(items)
    ensures UniqueBarcodes(AddedLoose(items, s))
    ensures UniqueBarcodes(Increased(items, row))
    ensures UniqueBarcodes(Decreased(items, row))
    ensures UniqueBarcodes(Edited(items, row, q))
    ensures UniqueBarcodes(Removed(items, row))
  {
    if row < |items| {
      var r := Removed(items, row);
      forall i, j | 0 <= i < |r| && 0 <= j < |r| && r[i].itemType == Barcode &&
        r[j].itemType == Barcode && r[i].barcode == r[j].barcode
        ensures i == j
      {
        var i' := if i < row then i else i + 1;
        var j' := if j < row then j else j + 1;
        assert r[i] == items[i'] && r[j] == items[j'];
      }
    }
  }

  /** + raises the quantity by one step and the bill total by one step's price. */
  lemma IncreaseTotal(items: seq<BillLine>, row: nat)
    requires LinesValid(items) && row < |items|
    ensures var r := Increased(items, row);
      && |r| == |items|
      && r[row].quantity == items[row].quantity + Step(items[row])
      && SumSubtotals(r) == SumSubtotals(items) + Step(items[row]) * items[row].unitPrice
  {
    var l := items[row];
    SumSubtotalsUpdate(items, row, WithQuantity(l, l.quantity + Step(l)));
    assert (l.quantity + Step(l)) * l.unitPrice == l.quantity * l.unitPrice + Step(l) * l.unitPrice;
  }

  /**
   * - is a no-op at the floor: it lowers a quantity only when the quantity
   * exceeds the step, so a positive quantity stays positive, and a whole
   * barcode quantity of at least 1 stays at least 1.
   */
  lemma DecreaseFloor(items: seq<BillLine>, row: nat)
    requires LinesValid(items) && row < |items|
    ensures var r := Decreased(items, row);
      && |r| == |items|
      && r[row].quantity > 0.0
      && (items[row].quantity <= Step(items[row]) ==> r == items)
      && (items[row].quantity > Step(items[row]) ==>
            r[row].quantity == items[row].quantity - Step(items[row]) &&
            SumSubtotals(r) == SumSubtotals(items) - Step(items[row]) * items[row].unitPrice)
      && ((items[row].itemType == Barcode && items[row].quantity >= 1.0 &&
           items[row].quantity == items[row].quantity.Floor as real) ==> r[row].quantity >= 1.0)
  {
    var l := items[row];
    if l.quantity > Step(l) {
      SumSubtotalsUpdate(items, row, WithQuantity(l, l.quantity - Step(l)));
      assert (l.quantity - Step(l)) * l.unitPrice == l.quantity * l.unitPrice - Step(l) * l.unitPrice;
    }
  }

  /** Remove deletes exactly the indexed line and keeps the others in order. */
  lemma RemoveKeepsOrder(items: seq<BillLine>, row: nat)
    requires row < |items|
    ensures var r := Removed(items, row);
      && |r| == |items| - 1
      && (forall i :: 0 <= i < row ==> r[i] == items[i])
      && (forall i :: row <= i < |r| ==> r[i] == items[i + 1])
      && SumSubtotals(r) == SumSubtotals(items) - items[row].subtotal
  {
    SumSubtotalsRemove(items, row);
  }

  /** +, -, edit and remove with a row past the end change nothing. */
  lemma OutOfRangeNoChange(items: seq<BillLine>, row: nat, q: real)
    requires row >= |items|
    ensures Increased(items, row) == items && Decreased(items, row) == items
    ensures Edited(items, row, q) == items && Removed(items, row) == items
  {
  }

  // ---------------------------------------------------------------------
  // Loops of the screen that only read the bill
  // ---------------------------------------------------------------------

  /** The repeat-scan search: the first barcode line for `code`. */
  method FindBarcodeLine(items: seq<BillLine>, code: string) returns (idx: Option<nat>)
    ensures idx == BarcodeIndex(items, code)
  {
    var i := 0;
    while i < |items|
      invariant 0 <= i <= |items|
      invariant forall j :: 0 <= j < i ==> !IsLineFor(items[j], code)
    {
      if items[i].itemType == Barcode && items[i].barcode == Some(code) {
        return Some(i);
      }
      i := i + 1;
    }
    return None;
  }

  /** The refresh loop: the amount is the sum of subtotals, the count is the number of lines. */
  method BillTotals(items: seq<BillLine>) returns (totalAmount: real, totalItems: nat)
    ensures totalAmount == SumSubtotals(items)
    ensures totalItems == |items|
  {
    totalAmount := 0.0;
    totalItems := |items|;
    var row := 0;
    while row < |items|
      invariant 0 <= row <= |items|
      invariant totalAmount == SumSubtotals(items[..row])
    {
      assert items[..row + 1][..row] == items[..row];
      totalAmount := totalAmount + items[row].subtotal;
      row := row + 1;
    }
    assert items[..row] == items;
  }

  // ---------------------------------------------------------------------
  // The screen
  // ---------------------------------------------------------------------

  class CreateBillWindow {
    const db: Store
    const printer: ThermalPrinter
    var billItems: seq<BillLine>
    var totalAmount: real
    var totalItems: nat
    var totalWeight: real
    var barcodeBuffer: string

    /**
     * Lines are well formed and barcode lines unique; the totals agree with
     * the lines (every change ends in a refresh); the weight is never updated.
     */
    ghost predicate Valid()
      reads this
    {
      && LinesValid(billItems)
      && UniqueBarcodes(billItems)
      && totalAmount == SumSubtotals(billItems)
      && totalItems == |billItems|
      && totalWeight == 0.0
    }

    constructor (db: Store, printer: ThermalPrinter)
      ensures Valid() && this.db == db && this.printer == printer
      ensures billItems == [] && totalAmount == 0.0 && totalItems == 0 && barcodeBuffer == ""
    {
      this.db := db;
      this.printer := printer;
      billItems := [];
      totalAmount := 0.0;
      totalItems := 0;
      totalWeight := 0.0;
      barcodeBuffer := "";
    }

    /** Recomputes the totals from the lines. */
    method UpdateBillDisplay()
      requires LinesValid(billItems) && UniqueBarcodes(billItems) && totalWeight == 0.0
      modifies this`totalAmount, this`totalItems
      ensures Valid()
    {
      totalAmount, totalItems := BillTotals(billItems);
    }

    /** Each keystroke replaces the buffer; the debounce timer restarts. */
    method OnBarcodeInput(text: string)
      modifies this`barcodeBuffer
      ensures barcodeBuffer == text
    {
      barcodeBuffer := text;
    }

    /** The debounce timeout: a non-blank buffer is scanned and cleared. */
    method ProcessBarcode() returns (found: Option<bool>)
      requires Valid()
      modifies this`billItems, this`totalAmount, this`totalItems, this`barcodeBuffer
      ensures Valid()
      ensures var code := Strip(old(barcodeBuffer));
        if code == "" then found == None && billItems == old(billItems) && barcodeBuffer == old(barcodeBuffer)
        else found == Some(code in db.catalog) && billItems == Scanned(old(billItems), code, db.catalog) &&
             barcodeBuffer == ""
    {
      var code := Strip(barcodeBuffer);
      if code == "" {
        return None;
      }
      var ok := AddBarcodeItem(code);
      barcodeBuffer := "";
      return Some(ok);
    }

    method AddBarcodeItem(code: string) returns (found: bool)
      requires Valid()
      modifies this`billItems, this`totalAmount, this`totalItems
      ensures Valid()
      ensures found == (code in db.catalog)
      ensures billItems == Scanned(old(billItems), code, db.catalog)
    {
      var item := db.GetBarcodeItem(code);
      if item.None? {
        return false;
      }
      ScanKeepsUnique(billItems, code, db.catalog);
      var existing := FindBarcodeLine(billItems, code);
      match existing {
        case Some(i) =>
          var l := billItems[i];
          billItems := billItems[i := WithQuantity(l, l.quantity + 1.0)];
        case None =>
          billItems := billItems + [NewBarcodeLine(code, item.value)];
      }
      UpdateBillDisplay();
      return true;
    }

    /** `selection` is None when either loose-item dialog is cancelled. */
    method AddLooseItems(selection: Option<LooseSelection>)
      requires Valid()
      requires selection.Some? ==> QuantityInRange(selection.value.quantity) && PriceInRange(selection.value.pricePerKg)
      modifies this`billItems, this`totalAmount, this`totalItems
      ensures Valid()
      ensures billItems == if selection.Some? then AddedLoose(old(billItems), selection.value) else old(billItems)
    {
      if selection.Some? {
        EditsKeepUnique(billItems, 0, selection.value, 1.0);
        billItems := billItems + [NewLooseLine(selection.value)];
        UpdateBillDisplay();
      }
    }

    method IncreaseQuantity(row: nat)
      requires Valid()
      modifies this`billItems, this`totalAmount, this`totalItems
      ensures Valid()
      ensures billItems == Increased(old(billItems), row)
    {
      if row < |billItems| {
        var l := billItems[row];
        EditsKeepUnique(billItems, row, LooseSelection("", 1.0, 1.0), 1.0);
        billItems := billItems[row := WithQuantity(l, l.quantity + Step(l))];
        UpdateBillDisplay();
      }
    }

    method DecreaseQuantity(row: nat)
      requires Valid()
      modifies this`billItems, this`totalAmount, this`totalItems
      ensures Valid()
      ensures billItems == Decreased(old(billItems), row)
    {
      if row < |billItems| {
        var l := billItems[row];
        EditsKeepUnique(billItems, row, LooseSelection("", 1.0, 1.0), 1.0);
        if l.itemType == Barcode {
          if l.quantity > 1.0 {
            billItems := billItems[row := WithQuantity(l, l.quantity - 1.0)];
            UpdateBillDisplay();
          }
        } else {
          if l.quantity > 0.1 {
            billItems := billItems[row := WithQuantity(l, l.quantity - 0.1)];
            UpdateBillDisplay();
          }
        }
      }
    }

    /** `entered` is None when the quantity dialog is cancelled. */
    method EditItem(row: nat, entered: Option<real>)
      requires Valid()
      requires entered.Some? ==> QuantityInRange(entered.value)
      modifies this`billItems, this`totalAmount, this`totalItems
      ensures Valid()
      ensures billItems == if entered.Some? then Edited(old(billItems), row, entered.value) else old(billItems)
    {
      if row >= |billItems| {
        return;
      }
      if entered.Some? {
        var l := billItems[row];
        EditsKeepUnique(billItems, row, LooseSelection("", 1.0, 1.0), entered.value);
        billItems := billItems[row := WithQuantity(l, entered.value)];
        UpdateBillDisplay();
      }
    }

    method RemoveItem(row: nat)
      requires Valid()
      modifies this`billItems, this`totalAmount, this`totalItems
      ensures Valid()
      ensures billItems == Removed(old(billItems), row)
    {
      if row < |billItems| {
        EditsKeepLinesValid(billItems, row, LooseSelection("", 1.0, 1.0), 1.0);
        EditsKeepUnique(billItems, row, LooseSelection("", 1.0, 1.0), 1.0);
        billItems := billItems[..row] + billItems[row + 1..];
        UpdateBillDisplay();
      }
    }

    /** The print attempt after a save: connect over USB, then print the bill. */
    method TryPrint(bill: BillData, usbOpens: bool, now: string, fmt2: real -> string,
                    failure: Option<nat>) returns (printing: PrintOutcome)
      modifies printer`printer, printer`isConnected, printer`sent, printer`cuts
      ensures printing == Printed <==> usbOpens && failure.None?
      ensures printing == NotConnected <==> !usbOpens
      ensures usbOpens ==>
        printer.sent == old(printer.sent) + Delivered(ReceiptLines(printer.CurrentShop(), bill, now, fmt2), failure)
      ensures !usbOpens ==> printer.sent == old(printer.sent)
    {
      var connected := printer.ConnectUsbPrinter(DefaultUsbVendor, DefaultUsbProduct, usbOpens);
      if connected {
        var printed := printer.PrintBill(bill, now, fmt2, failure);
        printing := if printed then Printed else PrintFailed;
      } else {
        printing := NotConnected;
      }
    }

    /**
     * Rejects an empty bill; a cancelled customer dialog saves nothing;
     * otherwise saves the bill with its totals, tries the USB printer and
     * clears the bill whatever the print result.
     */
    method FinishBill(dialog: CustomerInfoDialog, usbOpens: bool, now: string,
                      fmt2: real -> string, failure: Option<nat>) returns (outcome: FinishOutcome)
      requires Valid() && db.Valid() && dialog.Valid()
      modifies this`billItems, this`totalAmount, this`totalItems, db`bills,
               printer`printer, printer`isConnected, printer`sent, printer`cuts
      ensures Valid() && db.Valid()
      ensures old(billItems) == [] ==>
        outcome == EmptyBill && billItems == [] && db.bills == old(db.bills) &&
        printer.sent == old(printer.sent)
      ensures old(billItems) != [] && !dialog.accepted ==>
        outcome == CustomerCancelled && billItems == old(billItems) && db.bills == old(db.bills) &&
        printer.sent == old(printer.sent)
      ensures old(billItems) != [] && dialog.accepted ==>
        && outcome.Saved?
        && dialog.customerName != ""
        && (var saved := BillData(outcome.billId, dialog.customerName, dialog.customerPhone,
                                  old(totalAmount), old(totalItems), 0.0, old(billItems));
            && db.bills == old(db.bills) + [saved]
            && (usbOpens ==>
                  printer.sent == old(printer.sent) + Delivered(ReceiptLines(printer.CurrentShop(), saved, now, fmt2), failure))
            && (!usbOpens ==> printer.sent == old(printer.sent)))
        && (outcome.printing == Printed <==> usbOpens && failure.None?)
        && (outcome.printing == NotConnected <==> !usbOpens)
        && billItems == [] && totalAmount == 0.0 && totalItems == 0
    {
      if billItems == [] {
        return EmptyBill;
      }
      if !dialog.accepted {
        return CustomerCancelled;
      }
      var billId := db.SaveBill(dialog.customerName, dialog.customerPhone, billItems,
                                totalAmount, totalItems, totalWeight);
      var bill := BillData(billId, dialog.customerName, dialog.customerPhone,
                           totalAmount, totalItems, totalWeight, billItems);
      var printing := TryPrint(bill, usbOpens, now, fmt2, failure);
      billItems := [];
      UpdateBillDisplay();
      return Saved(billId, printing);
    }
  }
}
