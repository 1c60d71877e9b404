/**
 * The thermal receipt printer: the text layout of a bill receipt and the
 * connection flag that guards every call to the device. The device itself
 * (USB, serial, network) is abstract: a connection attempt either opens or
 * fails, and a printing call may fail after delivering some of its lines.
 */
module Printer {
  import opened Wrappers
  import opened Text
  import opened Bills

  datatype Transport =
    | Usb(vendorId: int, productId: int)
    | Serial(device: string, baudrate: int)
    | Network(host: string, port: int)

  datatype Shop = Shop(name: string, address: string, phone: string)

  const DefaultUsbVendor: int := 0x04b8
  const DefaultUsbProduct: int := 0x0202
  const Rupee: char := '\U{20B9}'
  const Separator: string := Repeat('-', 32)
  const ItemsHeader: string := "Item               Qty  Price"

  /** Names longer than 18 characters keep their first 15 and end in "...". */
  function TruncateName(name: string): (r: string)
    ensures |r| <= 18
    ensures |name| <= 18 ==> r == name
    ensures |name| > 18 ==> |r| == 18 && r[..15] == name[..15] && r[15..] == "..."
  {
    if |name| > 18 then name[..15] + "..." else name
  }

  /** The quantity column; only loose items carry the "kg" unit. */
  function QuantityText(l: BillLine, fmt2: real -> string): string
  {
    fmt2(l.quantity) + (if l.itemType == Loose then "kg" else "")
  }

  /** Name, quantity and price columns, at least 18 + 1 + 4 + 1 + 8 characters. */
  function ItemLine(l: BillLine, fmt2: real -> string): (r: string)
    ensures |r| >= 32
  {
    PadRight(TruncateName(l.name), 18) + (" " + PadRight(QuantityText(l, fmt2), 4) + " " +
    PadLeft([Rupee] + fmt2(l.subtotal), 8))
  }

  lemma ItemLineColumns(l: BillLine, fmt2: real -> string)
    ensures |ItemLine(l, fmt2)| >= 18
    ensures ItemLine(l, fmt2)[..18] == PadRight(TruncateName(l.name), 18)
    ensures ItemLine(l, fmt2)[18] == ' '
    ensures |l.name| <= 18 ==> ItemLine(l, fmt2)[..|l.name|] == l.name
    ensures var r := ItemLine(l, fmt2); var price := [Rupee] + fmt2(l.subtotal);
      r[|r| - |price|..] == price
  {
    var col := PadRight(TruncateName(l.name), 18);
    assert |col| == 18;
    var price := PadLeft([Rupee] + fmt2(l.subtotal), 8);
    var rest := " " + PadRight(QuantityText(l, fmt2), 4) + " " + price;
    var line := ItemLine(l, fmt2);
    assert line == col + rest;
    assert line[..18] == col;
    assert line[|line| - |price|..] == price;
  }

  /** The quantity column ends in "kg" exactly for loose items. */
  lemma QuantityUnit(l: BillLine, fmt2: real -> string)
    ensures l.itemType == Loose ==> QuantityText(l, fmt2) == fmt2(l.quantity) + "kg"
    ensures l.itemType == Barcode ==> QuantityText(l, fmt2) == fmt2(l.quantity)
  {
  }

  function ItemLines(items: seq<BillLine>, fmt2: real -> string): (r: seq<string>)
    ensures |r| == |items|
    ensures forall i :: 0 <= i < |items| ==> r[i] == ItemLine(items[i], fmt2)
  {
    seq(|items|, i requires 0 <= i < |items| => ItemLine(items[i], fmt2))
  }

  /** The header of a receipt, down to the separator under the column titles. */
  function ReceiptFront(shop: Shop, bill: BillData, now: string): seq<string>
  {
    [shop.name, shop.address, "Phone: " + shop.phone, Separator,
     "Bill ID: " + DecimalString(bill.id), "Date: " + now, "Customer: " + bill.customerName]
    + (if bill.customerPhone != "" then ["Phone: " + bill.customerPhone] else [])
    + [Separator, ItemsHeader, Separator]
  }

  /** The totals and the closing lines of a receipt. */
  function ReceiptBack(bill: BillData, fmt2: real -> string): seq<string>
  {
    [Separator, "Total Items: " + DecimalString(bill.totalItems)]
    + (if bill.totalWeight > 0.0 then ["Total Weight: " + fmt2(bill.totalWeight) + "kg"] else [])
    + ["TOTAL: " + [Rupee] + fmt2(bill.totalAmount), Separator,
       "Thank you for shopping!", "Visit us again!"]
  }

  /** The receipt, line by line, without the line terminators. */
  function ReceiptLines(shop: Shop, bill: BillData, now: string, fmt2: real -> string): (r: seq<string>)
    ensures |r| == 16 + |bill.items| + (if bill.customerPhone != "" then 1 else 0)
                    + (if bill.totalWeight > 0.0 then 1 else 0)
    ensures r[0] == shop.name && r[|r| - 1] == "Visit us again!"
  {
    ReceiptFront(shop, bill, now) + ItemLines(bill.items, fmt2) + ReceiptBack(bill, fmt2)
  }

  /** Every line followed by a newline. */
  function Join(lines: seq<string>): (r: string)
    ensures lines != [] ==> |r| > |lines[0]| && r[..|lines[0]| + 1] == lines[0] + "\n"
    ensures lines != [] ==>
      var last := lines[|lines| - 1]; |r| > |last| && r[|r| - |last| - 1..] == last + "\n"
  {
    if lines == [] then ""
    else
      var init := lines[..|lines| - 1];
      var tail := lines[|lines| - 1] + "\n";
      var j := Join(init);
      assert init != [] ==> init[0] == lines[0];
      assert (j + tail)[|j|..] == tail;
      assert init != [] ==> (j + tail)[..|lines[0]| + 1] == j[..|lines[0]| + 1];
      j + tail
  }

  /** The header lines of a receipt, place by place. */
  lemma FrontLayout(shop: Shop, bill: BillData, now: string)
    ensures var f := ReceiptFront(shop, bill, now);
      var p := if bill.customerPhone != "" then 1 else 0;
      && |f| == 10 + p
      && f[0] == shop.name && f[1] == shop.address && f[2] == "Phone: " + shop.phone && f[3] == Separator
      && f[4] == "Bill ID: " + DecimalString(bill.id) && f[5] == "Date: " + now
      && f[6] == "Customer: " + bill.customerName
      && (p == 1 ==> f[7] == "Phone: " + bill.customerPhone)
      && f[7 + p] == Separator && f[8 + p] == ItemsHeader && f[9 + p] == Separator
  {
  }

  /** The totals and closing lines of a receipt, place by place. */
  lemma BackLayout(bill: BillData, fmt2: real -> string)
    ensures var b := ReceiptBack(bill, fmt2);
      var w := if bill.totalWeight > 0.0 then 1 else 0;
      && |b| == 6 + w
      && b[0] == Separator && b[1] == "Total Items: " + DecimalString(bill.totalItems)
      && (w == 1 ==> b[2] == "Total Weight: " + fmt2(bill.totalWeight) + "kg")
      && b[2 + w] == "TOTAL: " + [Rupee] + fmt2(bill.totalAmount) && b[3 + w] == Separator
      && b[4 + w] == "Thank you for shopping!" && b[5 + w] == "Visit us again!"
  {
  }

  /** The first lines of a receipt are its header. */
  lemma ReceiptHead(shop: Shop, bill: BillData, now: string, fmt2: real -> string)
    ensures var r := ReceiptLines(shop, bill, now, fmt2);
      var p := if bill.customerPhone != "" then 1 else 0;
      && r[1] == shop.address && r[2] == "Phone: " + shop.phone && r[3] == Separator
      && r[4] == "Bill ID: " + DecimalString(bill.id) && r[5] == "Date: " + now
      && r[6] == "Customer: " + bill.customerName
      && (p == 1 ==> r[7] == "Phone: " + bill.customerPhone)
      && r[7 + p] == Separator && r[8 + p] == ItemsHeader && r[9 + p] == Separator
  {
    var front := ReceiptFront(shop, bill, now);
    var r := front + ItemLines(bill.items, fmt2) + ReceiptBack(bill, fmt2);
    var p := if bill.customerPhone != "" then 1 else 0;
    FrontLayout(shop, bill, now);
    assert r[..|front|] == front;
  }

  /** The item lines of a receipt follow its header, one per bill item, in bill order. */
  lemma ReceiptItems(shop: Shop, bill: BillData, now: string, fmt2: real -> string)
    ensures var r := ReceiptLines(shop, bill, now, fmt2);
      var p := if bill.customerPhone != "" then 1 else 0;
      forall i :: 0 <= i < |bill.items| ==> r[10 + p + i] == ItemLine(bill.items[i], fmt2)
  {
    var front := ReceiptFront(shop, bill, now);
    var items := ItemLines(bill.items, fmt2);
    var p := if bill.customerPhone != "" then 1 else 0;
    assert |front| == 10 + p;
    Middle(front, items, ReceiptBack(bill, fmt2));
  }

  /** The middle part of a three-part concatenation keeps its positions, shifted. */
  lemma Middle<T>(a: seq<T>, b: seq<T>, c: seq<T>)
    ensures forall i :: 0 <= i < |b| ==> (a + b + c)[|a| + i] == b[i]
  {
  }

  /** The last lines of a receipt are its totals and closing lines. */
  lemma ReceiptTail(shop: Shop, bill: BillData, now: string, fmt2: real -> string)
    ensures var r := ReceiptLines(shop, bill, now, fmt2);
      var p := if bill.customerPhone != "" then 1 else 0;
      var w := if bill.totalWeight > 0.0 then 1 else 0;
      var n := |bill.items|;
      && r[10 + p + n] == Separator
      && r[11 + p + n] == "Total Items: " + DecimalString(bill.totalItems)
      && (w == 1 ==> r[12 + p + n] == "Total Weight: " + fmt2(bill.totalWeight) + "kg")
      && r[12 + p + n + w] == "TOTAL: " + [Rupee] + fmt2(bill.totalAmount)
      && r[13 + p + n + w] == Separator
      && r[14 + p + n + w] == "Thank you for shopping!"
  {
    var back := ReceiptBack(bill, fmt2);
    var r := ReceiptFront(shop, bill, now) + ItemLines(bill.items, fmt2) + back;
    FrontLayout(shop, bill, now);
    BackLayout(bill, fmt2);
    assert r[|r| - |back|..] == back;
  }

  /**
   * The layout of a receipt: with p the customer-phone line (present only
   * for a non-empty phone) and w the weight line (present only for a
   * positive weight), there is exactly one item line per bill item, in bill
   * order, the shop and bill headings open it, "Thank you for shopping!"
   * comes just before the closing line, and the five separators, 32 dashes
   * each, sit at fixed places.
   */
  lemma ReceiptLayout(shop: Shop, bill: BillData, now: string, fmt2: real -> string)
    ensures var r := ReceiptLines(shop, bill, now, fmt2);
      var p := if bill.customerPhone != "" then 1 else 0;
      var w := if bill.totalWeight > 0.0 then 1 else 0;
      var n := |bill.items|;
      && r[1] == shop.address && r[2] == "Phone: " + shop.phone
      && r[4] == "Bill ID: " + DecimalString(bill.id) && r[5] == "Date: " + now
      && r[6] == "Customer: " + bill.customerName
      && (p == 1 ==> r[7] == "Phone: " + bill.customerPhone)
      && r[8 + p] == ItemsHeader
      && (forall i :: 0 <= i < n ==> r[10 + p + i] == ItemLine(bill.items[i], fmt2))
      && r[11 + p + n] == "Total Items: " + DecimalString(bill.totalItems)
      && (w == 1 ==> r[12 + p + n] == "Total Weight: " + fmt2(bill.totalWeight) + "kg")
      && r[12 + p + n + w] == "TOTAL: " + [Rupee] + fmt2(bill.totalAmount)
      && r[3] == Separator && r[7 + p] == Separator && r[9 + p] == Separator
      && r[10 + p + n] == Separator && r[13 + p + n + w] == Separator
      && r[14 + p + n + w] == "Thank you for shopping!"
  {
    ReceiptHead(shop, bill, now, fmt2);
    ReceiptItems(shop, bill, now, fmt2);
    ReceiptTail(shop, bill, now, fmt2);
  }

  lemma SeparatorIsDashes()
    ensures |Separator| == 32 && forall i :: 0 <= i < 32 ==> Separator[i] == '-'
  {
  }

  /** The lines a device accepts before it fails at line `k`, if it fails. */
  function Delivered(lines: seq<string>, failure: Option<nat>): (r: seq<string>)
    ensures failure.None? ==> r == lines
    ensures failure.Some? ==> r == lines[..if failure.value < |lines| then failure.value else |lines|]
  {
    match failure
    case None => lines
    case Some(k) => if k < |lines| then lines[..k] else lines
  }

  class ThermalPrinter {
    var printer: Option<Transport>
    var isConnected: bool
    var shopName: string
    var shopAddress: string
    var shopPhone: string
    /** Text lines delivered to the device, in order. */
    var sent: seq<string>
    /** Paper cuts performed by the device. */
    var cuts: nat

    /** The guard every device call checks first. */
    predicate Ready()
      reads this
    {
      isConnected && printer.Some?
    }

    function CurrentShop(): Shop
      reads this
    {
      Shop(shopName, shopAddress, shopPhone)
    }

    constructor ()
      ensures printer == None && !isConnected
      ensures shopName == "Your Shop Name" && shopAddress == "Your Shop Address"
      ensures shopPhone == "Your Phone Number"
      ensures sent == [] && cuts == 0
    {
      printer := None;
      isConnected := false;
      shopName := "Your Shop Name";
      shopAddress := "Your Shop Address";
      shopPhone := "Your Phone Number";
      sent := [];
      cuts := 0;
    }

    /** `opens` says whether the device could be opened. */
    method ConnectUsbPrinter(vendorId: int, productId: int, opens: bool) returns (ok: bool)
      modifies this`printer, this`isConnected
      ensures ok == opens
      ensures opens ==> printer == Some(Usb(vendorId, productId)) && isConnected
      ensures !opens ==> printer == old(printer) && isConnected == old(isConnected)
    {
      if !opens {
        return false;
      }
      printer := Some(Usb(vendorId, productId));
      isConnected := true;
      return true;
    }

    method ConnectSerialPrinter(port: string, baudrate: int, opens: bool) returns (ok: bool)
      modifies this`printer, this`isConnected
      ensures ok == opens
      ensures opens ==> printer == Some(Serial(port, baudrate)) && isConnected
      ensures !opens ==> printer == old(printer) && isConnected == old(isConnected)
    {
      if !opens {
        return false;
      }
      printer := Some(Serial(port, baudrate));
      isConnected := true;
      return true;
    }

    method ConnectNetworkPrinter(host: string, port: int, opens: bool) returns (ok: bool)
      modifies this`printer, this`isConnected
      ensures ok == opens
      ensures opens ==> printer == Some(Network(host, port)) && isConnected
      ensures !opens ==> printer == old(printer) && isConnected == old(isConnected)
    {
      if !opens {
        return false;
      }
      printer := Some(Network(host, port));
      isConnected := true;
      return true;
    }

    /** Sends "Test" and cuts; `failure` is where the device raises, if it does. */
    method TestConnection(failure: Option<nat>) returns (ok: bool)
      modifies this`sent, this`cuts
      ensures !old(Ready()) ==> !ok && sent == old(sent) && cuts == old(cuts)
      ensures old(Ready()) ==> ok == failure.None? && sent == old(sent) + Delivered(["Test"], failure)
      ensures cuts == old(cuts) + (if ok then 1 else 0)
    {
      if !(isConnected && printer.Some?) {
        return false;
      }
      sent := sent + Delivered(["Test"], failure);
      if failure.Some? {
        return false;
      }
      cuts := cuts + 1;
      return true;
    }

    /** The receipt text: it opens with the shop name and closes with the farewell line. */
    function FormatBillReceipt(bill: BillData, now: string, fmt2: real -> string): (r: string)
      reads this
      ensures |r| > |shopName| && r[..|shopName| + 1] == shopName + "\n"
      ensures var bye := "Visit us again!\n"; |r| >= |bye| && r[|r| - |bye|..] == bye
    {
      Join(ReceiptLines(CurrentShop(), bill, now, fmt2))
    }

    /** Prints exactly the lines of the formatted receipt, then cuts. */
    method PrintBill(bill: BillData, now: string, fmt2: real -> string, failure: Option<nat>) returns (ok: bool)
      modifies this`sent, this`cuts
      ensures !old(Ready()) ==> !ok && sent == old(sent) && cuts == old(cuts)
      ensures old(Ready()) ==>
        ok == failure.None? && sent == old(sent) + Delivered(ReceiptLines(CurrentShop(), bill, now, fmt2), failure)
      ensures cuts == old(cuts) + (if ok then 1 else 0)
    {
      if !(isConnected && printer.Some?) {
        return false;
      }
      sent := sent + Delivered(ReceiptLines(CurrentShop(), bill, now, fmt2), failure);
      if failure.Some? {
        return false;
      }
      cuts := cuts + 1;
      return true;
    }

    function TestPageLines(now: string): seq<string>
      reads this
    {
      ["TEST PAGE", shopName, Separator, "Date: " + now, "Printer is working correctly!", Separator]
    }

    method PrintTestPage(now: string, failure: Option<nat>) returns (ok: bool)
      modifies this`sent, this`cuts
      ensures !old(Ready()) ==> !ok && sent == old(sent) && cuts == old(cuts)
      ensures old(Ready()) ==> ok == failure.None? && sent == old(sent) + Delivered(TestPageLines(now), failure)
      ensures cuts == old(cuts) + (if ok then 1 else 0)
    {
      if !(isConnected && printer.Some?) {
        return false;
      }
      sent := sent + Delivered(TestPageLines(now), failure);
      if failure.Some? {
        return false;
      }
      cuts := cuts + 1;
      return true;
    }

    /** Always disconnects, whether or not closing the device fails. */
    method CloseConnection()
      modifies this`printer, this`isConnected
      ensures !isConnected && printer == None && !Ready()
    {
      isConnected := false;
      printer := None;
    }
  }
}
