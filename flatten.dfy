/** The pure half of `save_to_db`: from the dumped record (a JSON dict) to
    the invoices row and the item rows it inserts, read with Python's own
    `.get` and `[]`, and what those rows are in terms of the typed record. */
module Flatten {
  import opened Wrappers
  import opened PyJson
  import opened DocTemplate
  import opened Sql

  /** `data.get(key, {})`. */
  function GetDict(data: map<Key, Json>, key: Key): Json {
    if key in data then data[key] else JObject(map[])
  }

  /** The key the company columns are read from. The record has no such field,
      its company address is `aquachile_address`. */
  const COMPANY_KEY: Key := Other("address")

  const CUSTOMER_KEY: Key := InvoiceKey(CustomerAddress)

  /** The key an address column is read from. */
  function PartKey(p: AddressColumn): Key {
    match p
    case Part(f) => AddressKey(f)
    case Phone => Other("phone")
  }

  /** The value of the named parameter for column `c`, given the two address
      dicts already fetched. */
  function Parameter(data: map<Key, Json>, company: map<Key, Json>, customer: map<Key, Json>,
                     pdfName: string, c: Column): Json
  {
    match c
    case Header(f) => Lookup(data, InvoiceKey(f))
    case PdfFilename => JString(pdfName)
    case Company(p) => Lookup(company, PartKey(p))
    case Customer(p) => Lookup(customer, PartKey(p))
  }

  /** `invoice_values`, the named parameters of the invoices INSERT. Building
      the dict calls `.get` on `data.get("address", {})` and on
      `data.get("customer_address", {})`; either raises AttributeError when it
      is not a dict. */
  function InvoiceValues(data: map<Key, Json>, pdfName: string): (r: Result<map<Column, Json>, PyError>)
    ensures r.Err? <==> !GetDict(data, COMPANY_KEY).JObject? || !GetDict(data, CUSTOMER_KEY).JObject?
    ensures r.Err? ==> r.error == AttributeError
    ensures r.Ok? ==> r.value.Keys == COLUMNS
  {
    var company := GetDict(data, COMPANY_KEY);
    var customer := GetDict(data, CUSTOMER_KEY);
    if !company.JObject? || !customer.JObject? then Err(AttributeError)
    else Ok(map c | c in COLUMNS :: Parameter(data, company.fields, customer.fields, pdfName, c))
  }

  /** The named parameters in the order the VALUES list names them: the
      `i`-th placeholder names the column the table declares at position `i`,
      and takes that column's entry of `invoice_values`. */
  function ParameterList(values: map<Column, Json>): (vs: seq<Json>)
    requires values.Keys == COLUMNS
    ensures |vs| == 29 && forall i :: 0 <= i < 29 ==> vs[i] == values[ColumnAt(i)]
    ensures forall i :: 0 <= i < 29 ==> ColumnName(ColumnAt(i)) == VALUES_NAMES[i] == DDL_NAMES[i]
  {
    ColumnNames();
    seq(29, i requires 0 <= i < 29 => values[ColumnAt(i)])
  }

  /** The invoices row `save_to_db` inserts: the parameters bound in column
      order, the first one sqlite3 cannot bind raising its error. */
  function InvoiceRowOf(data: map<Key, Json>, pdfName: string): (r: Result<InvoiceRow, PyError>)
    ensures r.Ok? ==> InvoiceValues(data, pdfName).Ok? && r.value.Keys == COLUMNS
    ensures r.Ok? ==> forall c :: c in COLUMNS ==> Ok(r.value[c]) == Bind(InvoiceValues(data, pdfName).value[c])
  {
    var values :- InvoiceValues(data, pdfName);
    var bound :- BindAll(ParameterList(values));
    Ok(map c | c in COLUMNS :: bound[ColumnIndex(c)])
  }

  // ----- Item rows -----

  /** The parameter tuple of one items INSERT: `data["invoice_number"]`
      first, then `.get` of five fields on the item, which raises
      AttributeError when the item is not a dict. */
  function ItemParameters(data: map<Key, Json>, item: Json): (r: Result<seq<Json>, PyError>)
    ensures InvoiceKey(InvoiceNumber) !in data ==> r == Err(KeyError(InvoiceKey(InvoiceNumber)))
    ensures InvoiceKey(InvoiceNumber) in data && !item.JObject? ==> r == Err(AttributeError)
    ensures r.Ok? ==> item.JObject? && |r.value| == 6 && r.value[0] == data[InvoiceKey(InvoiceNumber)]
  {
    var number :- Subscript(data, InvoiceKey(InvoiceNumber));
    if !item.JObject? then Err(AttributeError)
    else
      var o := item.fields;
      Ok([number, Lookup(o, ItemKey(Cases)), Lookup(o, ItemKey(Code)),
          Lookup(o, ItemKey(GoodsDescriptions)), Lookup(o, ItemKey(Quantity)),
          Lookup(o, ItemKey(UnitValue))])
  }

  /** The items row inserted for `item` under the AUTOINCREMENT id `id`. */
  function ItemRowOf(data: map<Key, Json>, item: Json, id: int): (r: Result<ItemRow, PyError>)
    ensures ItemParameters(data, item).Err? ==> r == Err(ItemParameters(data, item).error)
    ensures r.Ok? <==> ItemParameters(data, item).Ok? && BindAll(ItemParameters(data, item).value).Ok?
    ensures r.Ok? ==> r.value.id == id
  {
    var params :- ItemParameters(data, item);
    var b :- BindAll(params);
    Ok(ItemRow(id, b[0], b[1], b[2], b[3], b[4], b[5]))
  }

  /** The rows inserted for the items `elems`, in order, with ids counting up
      from `firstId`; the first item that fails stops the loop with its error. */
  function ItemRowsFrom(data: map<Key, Json>, elems: seq<Json>, firstId: int): (r: Result<seq<ItemRow>, PyError>)
    ensures r.Ok? ==> |r.value| == |elems|
    decreases |elems|
  {
    if elems == [] then Ok([])
    else
      var n := |elems| - 1;
      var init := ItemRowsFrom(data, elems[..n], firstId);
      var last := ItemRowOf(data, elems[n], firstId + n);
      if init.Err? then init
      else if last.Err? then Err(last.error)
      else Ok(init.value + [last.value])
  }

  /** The loop succeeds exactly when every item gives a row. */
  lemma {:induction false} RowsFromOk(data: map<Key, Json>, elems: seq<Json>, firstId: int)
    ensures ItemRowsFrom(data, elems, firstId).Ok?
            <==> forall i :: 0 <= i < |elems| ==> ItemRowOf(data, elems[i], firstId + i).Ok?
    decreases |elems|
  {
    if elems != [] {
      var n := |elems| - 1;
      RowsFromOk(data, elems[..n], firstId);
      assert forall i :: 0 <= i < n ==> elems[..n][i] == elems[i];
    }
  }

  /** A successful loop holds each item's row at the item's position, under
      id `firstId` plus that position. */
  lemma {:induction false} RowsFromAt(data: map<Key, Json>, elems: seq<Json>, firstId: int)
    requires ItemRowsFrom(data, elems, firstId).Ok?
    ensures forall i :: 0 <= i < |elems| ==>
              Ok(ItemRowsFrom(data, elems, firstId).value[i]) == ItemRowOf(data, elems[i], firstId + i)
    decreases |elems|
  {
    if elems != [] {
      var n := |elems| - 1;
      var init := ItemRowsFrom(data, elems[..n], firstId);
      RowsFromAt(data, elems[..n], firstId);
      assert forall i :: 0 <= i < n ==> elems[..n][i] == elems[i];
      assert ItemRowsFrom(data, elems, firstId).value == init.value + [ItemRowOf(data, elems[n], firstId + n).value];
    }
  }

  /** The loop over `elems` stops at item `k`: every item before it gives a
      row and item `k` does not. */
  predicate StopsAt(data: map<Key, Json>, elems: seq<Json>, firstId: int, k: int) {
    0 <= k < |elems| && ItemRowsFrom(data, elems[..k], firstId).Ok? && ItemRowOf(data, elems[k], firstId + k).Err?
  }

  /** A failure among the first `k` items is the failure of the whole loop. */
  lemma {:induction false} PrefixFailure(data: map<Key, Json>, elems: seq<Json>, firstId: int, k: nat)
    requires k <= |elems| && ItemRowsFrom(data, elems[..k], firstId).Err?
    ensures ItemRowsFrom(data, elems, firstId) == ItemRowsFrom(data, elems[..k], firstId)
    decreases |elems|
  {
    if k < |elems| {
      var n := |elems| - 1;
      assert elems[..n][..k] == elems[..k];
      PrefixFailure(data, elems[..n], firstId, k);
    } else {
      assert elems[..k] == elems;
    }
  }

  /** The loop fails exactly when it stops at some item, and then with that
      item's error. */
  lemma {:induction false} RowsFromFails(data: map<Key, Json>, elems: seq<Json>, firstId: int)
    ensures ItemRowsFrom(data, elems, firstId).Err? <==> exists k :: StopsAt(data, elems, firstId, k)
    ensures forall k :: StopsAt(data, elems, firstId, k) ==>
              ItemRowsFrom(data, elems, firstId) == Err(ItemRowOf(data, elems[k], firstId + k).error)
    decreases |elems|
  {
    forall k | StopsAt(data, elems, firstId, k)
      ensures ItemRowsFrom(data, elems, firstId) == Err(ItemRowOf(data, elems[k], firstId + k).error)
    {
      RowsStep(data, elems, firstId, k);
      PrefixFailure(data, elems, firstId, k + 1);
    }
    if ItemRowsFrom(data, elems, firstId).Err? {
      var n := |elems| - 1;
      if ItemRowsFrom(data, elems[..n], firstId).Err? {
        RowsFromFails(data, elems[..n], firstId);
        var k :| StopsAt(data, elems[..n], firstId, k);
        assert elems[..n][..k] == elems[..k] && elems[..n][k] == elems[k];
        assert StopsAt(data, elems, firstId, k);
      } else {
        assert StopsAt(data, elems, firstId, n);
      }
    }
  }

  /** One more item: the loop over the first `i + 1` items is the loop over
      the first `i` followed by item `i`. */
  lemma RowsStep(data: map<Key, Json>, elems: seq<Json>, firstId: int, i: nat)
    requires i < |elems| && ItemRowsFrom(data, elems[..i], firstId).Ok?
    ensures ItemRowOf(data, elems[i], firstId + i).Ok? ==>
              ItemRowsFrom(data, elems[..i + 1], firstId).Ok?
              && ItemRowsFrom(data, elems[..i + 1], firstId).value
                 == ItemRowsFrom(data, elems[..i], firstId).value + [ItemRowOf(data, elems[i], firstId + i).value]
    ensures ItemRowOf(data, elems[i], firstId + i).Err? ==>
              ItemRowsFrom(data, elems[..i + 1], firstId) == Err(ItemRowOf(data, elems[i], firstId + i).error)
  {
    assert elems[..i + 1][..i] == elems[..i];
    assert elems[..i + 1][i] == elems[i];
  }

  /** The same step, for the rows appended after `earlier` ones. */
  lemma RowsStepAfter(data: map<Key, Json>, elems: seq<Json>, firstId: int, i: nat, earlier: seq<ItemRow>)
    requires i < |elems| && ItemRowsFrom(data, elems[..i], firstId).Ok?
    requires ItemRowOf(data, elems[i], firstId + i).Ok?
    ensures ItemRowsFrom(data, elems[..i + 1], firstId).Ok?
    ensures earlier + ItemRowsFrom(data, elems[..i + 1], firstId).value
         == (earlier + ItemRowsFrom(data, elems[..i], firstId).value) + [ItemRowOf(data, elems[i], firstId + i).value]
  {
    RowsStep(data, elems, firstId, i);
  }

  /** When every item gives the row `rows` holds at its position, the loop
      gives `rows`. */
  lemma RowsFromAll(data: map<Key, Json>, elems: seq<Json>, firstId: int, rows: seq<ItemRow>)
    requires |rows| == |elems|
    requires forall i :: 0 <= i < |elems| ==> ItemRowOf(data, elems[i], firstId + i) == Ok(rows[i])
    ensures ItemRowsFrom(data, elems, firstId) == Ok(rows)
  {
    var r := ItemRowsFrom(data, elems, firstId);
    RowsFromOk(data, elems, firstId);
    assert r.Ok?;
    RowsFromAt(data, elems, firstId);
    forall i | 0 <= i < |elems|
      ensures r.value[i] == rows[i]
    {
      assert Ok(r.value[i]) == ItemRowOf(data, elems[i], firstId + i);
    }
    assert r.value == rows;
  }

  /** The first item that fails ends the loop with its error. */
  lemma FirstFailure(data: map<Key, Json>, elems: seq<Json>, firstId: int, k: nat)
    requires k < |elems| && ItemRowOf(data, elems[k], firstId + k).Err?
    requires forall j :: 0 <= j < k ==> ItemRowOf(data, elems[j], firstId + j).Ok?
    ensures ItemRowsFrom(data, elems, firstId).Err?
    ensures ItemRowsFrom(data, elems, firstId).error == ItemRowOf(data, elems[k], firstId + k).error
  {
    assert forall j :: 0 <= j < k ==> elems[..k][j] == elems[j];
    RowsFromOk(data, elems[..k], firstId);
    RowsStep(data, elems, firstId, k);
    PrefixFailure(data, elems, firstId, k + 1);
  }

  /** The item loop of `save_to_db`. `if data.get("items"):` skips it for an
      absent, null or empty list. A truthy str or dict is iterated over its
      characters or keys, and the first of those, a str, fails after
      `data["invoice_number"]` is read; any other truthy value is not
      iterable. */
  function ItemRows(data: map<Key, Json>, firstId: int): (r: Result<seq<ItemRow>, PyError>)
    ensures !Truthy(Lookup(data, InvoiceKey(Items))) ==> r == Ok([])
    ensures r.Ok? && r.value != [] ==>
              Lookup(data, InvoiceKey(Items)).JArray? && |r.value| == |Lookup(data, InvoiceKey(Items)).elems|
    ensures r.Ok? ==> forall i :: 0 <= i < |r.value| ==> r.value[i].id == firstId + i
  {
    var items := Lookup(data, InvoiceKey(Items));
    if !Truthy(items) then Ok([])
    else match items
      case JArray(elems) =>
        var rows := ItemRowsFrom(data, elems, firstId);
        if rows.Ok? then RowsFromAt(data, elems, firstId); rows else rows
      case JString(_) | JObject(_) =>
        if InvoiceKey(InvoiceNumber) in data then Err(AttributeError)
        else Err(KeyError(InvoiceKey(InvoiceNumber)))
      case _ => Err(TypeError)
  }

  // ----- The rows in terms of the record -----

  function TextOrNull(o: Option<string>): SqlValue {
    match o
    case None => Null
    case Some(s) => Text(s)
  }

  /** The cell a header column holds: the record's field of that name. */
  function HeaderCell(inv: Invoice, f: InvoiceField): SqlValue
    requires IsHeader(f)
  {
    match f
    case InvoiceNumber => TextOrNull(inv.invoiceNumber)
    case Date => TextOrNull(inv.date)
    case DueDate => TextOrNull(inv.dueDate)
    case Currency => TextOrNull(inv.currency)
    case CustomerId => TextOrNull(inv.customerId)
    case PoNumber => TextOrNull(inv.poNumber)
    case SalesOrder => TextOrNull(inv.salesOrder)
    case SapNumber => TextOrNull(inv.sapNumber)
    case Container => TextOrNull(inv.container)
    case Incoterms => TextOrNull(inv.incoterms)
    case Messers => TextOrNull(inv.messers)
    case Origin => TextOrNull(inv.origin)
    case PaymentTerms => TextOrNull(inv.paymentTerms)
    case TotalCases => Integer(inv.totalCases)
    case TotalQuantity => Text(inv.totalQuantity)
    case TotalValue => Real(inv.totalValue)
  }

  /** The cell an address column holds for an address; there is no phone. */
  function AddressCell(a: Address, p: AddressColumn): SqlValue {
    match p
    case Part(City) => TextOrNull(a.city)
    case Part(Country) => TextOrNull(a.country)
    case Part(State) => TextOrNull(a.state)
    case Part(Street) => TextOrNull(a.street)
    case Part(ZipCode) => TextOrNull(a.zipCode)
    case Phone => Null
  }

  /** The cell column `c` holds for a record with the customer address `a`. */
  function ExpectedCell(inv: Invoice, pdfName: string, a: Address, c: Column): SqlValue {
    match c
    case Header(f) => if IsHeader(f) then HeaderCell(inv, f) else Null
    case PdfFilename => Text(pdfName)
    case Company(_) => Null
    case Customer(p) => AddressCell(a, p)
  }

  /** The invoices row of a record with the customer address `a`: the header
      fields as they are, the file name, the customer's address, and nothing
      in the company columns. */
  function ExpectedInvoiceRow(inv: Invoice, pdfName: string, a: Address): (row: InvoiceRow)
    ensures row.Keys == COLUMNS
  {
    map c | c in COLUMNS :: ExpectedCell(inv, pdfName, a, c)
  }

  /** The cell of each column of a record's row. */
  lemma ExpectedRowAt(inv: Invoice, pdfName: string, a: Address, c: Column)
    ensures c in ExpectedInvoiceRow(inv, pdfName, a) <==> c in COLUMNS
    ensures c in COLUMNS ==> ExpectedInvoiceRow(inv, pdfName, a)[c] == ExpectedCell(inv, pdfName, a, c)
  {
    ColumnsMembership(c);
  }

  /** The `invoice_number` cell of a record's row. */
  lemma NumberCell(inv: Invoice, pdfName: string, a: Address)
    ensures Header(InvoiceNumber) in ExpectedInvoiceRow(inv, pdfName, a)
    ensures ExpectedInvoiceRow(inv, pdfName, a)[Header(InvoiceNumber)] == TextOrNull(inv.invoiceNumber)
  {
    var c := Header(InvoiceNumber);
    ColumnsMembership(c);
    ExpectedRowAt(inv, pdfName, a, c);
    NumberCellValue(inv, pdfName, a);
  }

  lemma NumberCellValue(inv: Invoice, pdfName: string, a: Address)
    ensures ExpectedCell(inv, pdfName, a, Header(InvoiceNumber)) == TextOrNull(inv.invoiceNumber)
  {
  }

  /** The items row of one item of a record. */
  function ExpectedItemRow(number: Option<string>, it: Item, id: int): ItemRow {
    ItemRow(id, TextOrNull(number), Integer(it.cases), Text(it.code),
            Text(it.goodsDescriptions), Text(it.quantity), Real(it.unitValue))
  }

  /** The items rows of `items` under the invoice number `number`, one per
      item in order, ids counting up from `firstId`. */
  function ItemRowsOf(number: Option<string>, items: seq<Item>, firstId: int): (rows: seq<ItemRow>)
    ensures |rows| == |items|
    ensures forall i :: 0 <= i < |items| ==> rows[i] == ExpectedItemRow(number, items[i], firstId + i)
  {
    seq(|items|, i requires 0 <= i < |items| => ExpectedItemRow(number, items[i], firstId + i))
  }

  /** The items rows of a record. */
  function ExpectedItemRows(inv: Invoice, firstId: int): (rows: seq<ItemRow>)
    ensures |rows| == (if inv.items.Some? then |inv.items.value| else 0)
  {
    match inv.items
    case None => []
    case Some(items) => ItemRowsOf(inv.invoiceNumber, items, firstId)
  }

  /** A record's item rows take consecutive ids from `firstId`. */
  lemma ItemIds(inv: Invoice, firstId: int)
    ensures forall i :: 0 <= i < |ExpectedItemRows(inv, firstId)| ==> ExpectedItemRows(inv, firstId)[i].id == firstId + i
  {
  }

  /** Whether every item's case count fits SQLite's INTEGER. */
  predicate CasesFit(inv: Invoice) {
    inv.items.Some? ==> forall i :: 0 <= i < |inv.items.value| ==> InInt64(inv.items.value[i].cases)
  }

  // ----- From parameters to the invoices row -----

  /** The parameter of column `c` is read from `data` or from the address
      dict `c` belongs to. */
  lemma ValueOf(data: map<Key, Json>, pdfName: string, c: Column)
    requires InvoiceValues(data, pdfName).Ok? && c in COLUMNS
    ensures InvoiceValues(data, pdfName).value[c]
         == Parameter(data, GetDict(data, COMPANY_KEY).fields, GetDict(data, CUSTOMER_KEY).fields, pdfName, c)
  {
  }

  /** Two rows with the same columns and the same cell under each are equal. */
  lemma SameCells(row: InvoiceRow, expected: InvoiceRow)
    requires row.Keys == COLUMNS && expected.Keys == COLUMNS
    requires forall c :: c in COLUMNS ==> row[c] == expected[c]
    ensures row == expected
  {
  }

  /** When every parameter can be bound, the INSERT's row exists. */
  lemma AllBind(data: map<Key, Json>, pdfName: string)
    requires InvoiceValues(data, pdfName).Ok?
    requires forall c :: c in COLUMNS ==> Bindable(InvoiceValues(data, pdfName).value[c])
    ensures InvoiceRowOf(data, pdfName).Ok?
  {
    var vs := ParameterList(InvoiceValues(data, pdfName).value);
    assert forall i :: 0 <= i < 29 ==> Bindable(vs[i]);
  }

  /** When every parameter binds to the cell `expected` holds, the row is
      `expected`. */
  lemma RowFromCells(data: map<Key, Json>, pdfName: string, expected: InvoiceRow)
    requires InvoiceValues(data, pdfName).Ok? && expected.Keys == COLUMNS
    requires forall c :: c in COLUMNS ==> Bind(InvoiceValues(data, pdfName).value[c]) == Ok(expected[c])
    ensures InvoiceRowOf(data, pdfName) == Ok(expected)
  {
    var values := InvoiceValues(data, pdfName).value;
    AllBind(data, pdfName);
    var row := InvoiceRowOf(data, pdfName).value;
    forall c | c in COLUMNS
      ensures row[c] == expected[c]
    {
      assert Ok(row[c]) == Bind(values[c]);
    }
    SameCells(row, expected);
  }

  /** When some parameter cannot be bound and every one that cannot fails
      with `e`, the INSERT fails with `e`. */
  lemma RowFailsWith(data: map<Key, Json>, pdfName: string, c0: Column, e: PyError)
    requires InvoiceValues(data, pdfName).Ok? && c0 in COLUMNS
    requires !Bindable(InvoiceValues(data, pdfName).value[c0])
    requires forall c :: c in COLUMNS && !Bindable(InvoiceValues(data, pdfName).value[c]) ==>
                           Bind(InvoiceValues(data, pdfName).value[c]) == Err(e)
    ensures InvoiceRowOf(data, pdfName) == Err(e)
  {
    var values := InvoiceValues(data, pdfName).value;
    var vs := ParameterList(values);
    assert vs[ColumnIndex(c0)] == values[c0];
    var r := BindAll(vs);
    assert r.Err?;
    FirstUnbindable(vs);
    var i :| 0 <= i < 29 && Bind(vs[i]) == Err(r.error);
    assert vs[i] == values[ColumnAt(i)];
  }

  // ----- The flattening of a dumped record -----

  /** For a dumped record, the INSERT's parameters exist exactly when the
      record has a customer address; `data.get("address", {})` always falls
      back to the empty dict, since no field of the record has that name. */
  lemma ValuesOfRecord(inv: Invoice, pdfName: string)
    ensures InvoiceValues(DumpInvoice(inv), pdfName).Ok? <==> inv.customerAddress.Some?
    ensures InvoiceValues(DumpInvoice(inv), pdfName).Err? ==>
              InvoiceValues(DumpInvoice(inv), pdfName).error == AttributeError
    ensures GetDict(DumpInvoice(inv), COMPANY_KEY) == JObject(map[])
    ensures GetDict(DumpInvoice(inv), CUSTOMER_KEY) == DumpOptAddress(inv.customerAddress)
  {
    var d := DumpInvoice(inv);
    assert COMPANY_KEY !in d;
    assert d[CUSTOMER_KEY] == DumpOptAddress(inv.customerAddress);
  }

  /** The dumped value of a header field binds to that field's cell; only an
      oversized total case count fails, with OverflowError. */
  lemma HeaderBinds(inv: Invoice, f: InvoiceField)
    requires IsHeader(f)
    ensures Bind(DumpField(inv, f))
         == if f == TotalCases && !InInt64(inv.totalCases) then Err(OverflowError)
            else Ok(HeaderCell(inv, f))
  {
  }

  /** A header column's parameter is the dumped field of that name. */
  lemma HeaderOfRecord(inv: Invoice, pdfName: string, f: InvoiceField)
    requires inv.customerAddress.Some? && IsHeader(f)
    ensures InvoiceValues(DumpInvoice(inv), pdfName).Ok?
    ensures InvoiceValues(DumpInvoice(inv), pdfName).value[Header(f)] == DumpField(inv, f)
  {
    ValuesOfRecord(inv, pdfName);
    var d := DumpInvoice(inv);
    ColumnsMembership(Header(f));
    ValueOf(d, pdfName, Header(f));
    assert InvoiceKey(f) in d;
  }

  /** A header column's parameter binds to the record's field of that name. */
  lemma HeaderCellOfRecord(inv: Invoice, pdfName: string, f: InvoiceField)
    requires inv.customerAddress.Some? && IsHeader(f)
    ensures InvoiceValues(DumpInvoice(inv), pdfName).Ok?
    ensures Bind(InvoiceValues(DumpInvoice(inv), pdfName).value[Header(f)])
         == if f == TotalCases && !InInt64(inv.totalCases) then Err(OverflowError)
            else Ok(HeaderCell(inv, f))
  {
    HeaderOfRecord(inv, pdfName, f);
    HeaderBinds(inv, f);
  }

  /** An address column binds to the customer's address field, or to null for
      the phone and for every company column. */
  lemma AddressOfRecord(inv: Invoice, pdfName: string, p: AddressColumn)
    requires inv.customerAddress.Some?
    ensures InvoiceValues(DumpInvoice(inv), pdfName).Ok?
    ensures Bind(InvoiceValues(DumpInvoice(inv), pdfName).value[Company(p)]) == Ok(Null)
    ensures Bind(InvoiceValues(DumpInvoice(inv), pdfName).value[Customer(p)])
         == Ok(AddressCell(inv.customerAddress.value, p))
  {
    ValuesOfRecord(inv, pdfName);
    var d := DumpInvoice(inv);
    var a := inv.customerAddress.value;
    ColumnsMembership(Company(p));
    ColumnsMembership(Customer(p));
    ValueOf(d, pdfName, Company(p));
    ValueOf(d, pdfName, Customer(p));
    CustomerPart(a, p);
  }

  /** An address column's parameter, read from the dumped customer address. */
  lemma CustomerPart(a: Address, p: AddressColumn)
    ensures Bind(Lookup(DumpAddress(a), PartKey(p))) == Ok(AddressCell(a, p))
  {
    match p
    case Part(f) =>
      assert DumpAddress(a)[AddressKey(f)] == DumpAddressField(a, f);
    case Phone =>
      assert Other("phone") !in ADDRESS_KEYS;
  }

  /** The cell a column of a dumped record binds to. */
  function CellBinding(inv: Invoice, pdfName: string, c: Column): Result<SqlValue, PyError>
    requires inv.customerAddress.Some?
  {
    if c == Header(TotalCases) && !InInt64(inv.totalCases) then Err(OverflowError)
    else Ok(ExpectedCell(inv, pdfName, inv.customerAddress.value, c))
  }

  lemma HeaderColumnOfRecord(inv: Invoice, pdfName: string, c: Column)
    requires inv.customerAddress.Some? && c in COLUMNS && c.Header?
    ensures InvoiceValues(DumpInvoice(inv), pdfName).Ok?
    ensures Bind(InvoiceValues(DumpInvoice(inv), pdfName).value[c]) == CellBinding(inv, pdfName, c)
  {
    ColumnsMembership(c);
    HeaderCellOfRecord(inv, pdfName, c.field);
  }

  lemma OtherColumnOfRecord(inv: Invoice, pdfName: string, c: Column)
    requires inv.customerAddress.Some? && c in COLUMNS && !c.Header?
    ensures InvoiceValues(DumpInvoice(inv), pdfName).Ok?
    ensures Bind(InvoiceValues(DumpInvoice(inv), pdfName).value[c]) == CellBinding(inv, pdfName, c)
  {
    ValuesOfRecord(inv, pdfName);
    match c
    case PdfFilename => ValueOf(DumpInvoice(inv), pdfName, c);
    case Company(p) => AddressOfRecord(inv, pdfName, p);
    case Customer(p) => AddressOfRecord(inv, pdfName, p);
  }

  /** Every column of a dumped record binds to its expected cell, except the
      total case count when it does not fit 64 bits. */
  lemma CellOfRecord(inv: Invoice, pdfName: string, c: Column)
    requires inv.customerAddress.Some? && c in COLUMNS
    ensures InvoiceValues(DumpInvoice(inv), pdfName).Ok?
    ensures Bind(InvoiceValues(DumpInvoice(inv), pdfName).value[c])
         == if c == Header(TotalCases) && !InInt64(inv.totalCases) then Err(OverflowError)
            else Ok(ExpectedCell(inv, pdfName, inv.customerAddress.value, c))
  {
    if c.Header? {
      HeaderColumnOfRecord(inv, pdfName, c);
    } else {
      OtherColumnOfRecord(inv, pdfName, c);
    }
  }

  /** The invoices row `save_to_db` builds from a record: without a customer
      address the `.get` on None fails; with one, an oversized total case
      count fails to bind; otherwise the row holds the 16 header fields
      verbatim, the file name, the customer address, and null in all six
      company columns and in `customer_phone`. */
  lemma InvoiceRowOfRecord(inv: Invoice, pdfName: string)
    ensures InvoiceRowOf(DumpInvoice(inv), pdfName)
         == if inv.customerAddress.None? then Err(AttributeError)
            else if !InInt64(inv.totalCases) then Err(OverflowError)
            else Ok(ExpectedInvoiceRow(inv, pdfName, inv.customerAddress.value))
  {
    ValuesOfRecord(inv, pdfName);
    var d := DumpInvoice(inv);
    if inv.customerAddress.Some? {
      var a := inv.customerAddress.value;
      forall c | c in COLUMNS
        ensures Bind(InvoiceValues(d, pdfName).value[c])
             == if c == Header(TotalCases) && !InInt64(inv.totalCases) then Err(OverflowError)
                else Ok(ExpectedCell(inv, pdfName, a, c))
      {
        CellOfRecord(inv, pdfName, c);
      }
      if InInt64(inv.totalCases) {
        RowFromCells(d, pdfName, ExpectedInvoiceRow(inv, pdfName, a));
      } else {
        HeaderOfRecord(inv, pdfName, TotalCases);
        RowFailsWith(d, pdfName, Header(TotalCases), OverflowError);
      }
    }
  }

  /** The items row of one dumped item, for any dict holding the invoice
      number `number`: an oversized case count fails to bind; otherwise the
      row carries the invoice number and five of the item's six fields,
      `item_total_value` being dropped. */
  lemma ItemRowOfDumped(data: map<Key, Json>, number: Option<string>, it: Item, id: int)
    requires InvoiceKey(InvoiceNumber) in data && data[InvoiceKey(InvoiceNumber)] == DumpOptString(number)
    ensures ItemRowOf(data, JObject(DumpItem(it)), id)
         == if InInt64(it.cases) then Ok(ExpectedItemRow(number, it, id)) else Err(OverflowError)
  {
    var o := DumpItem(it);
    assert o[ItemKey(Cases)] == JInt(it.cases);
    assert o[ItemKey(Code)] == JString(it.code);
    assert o[ItemKey(GoodsDescriptions)] == JString(it.goodsDescriptions);
    assert o[ItemKey(Quantity)] == JString(it.quantity);
    assert o[ItemKey(UnitValue)] == JFloat(it.unitValue);
    if !InInt64(it.cases) {
      FirstUnbindable(ItemParameters(data, JObject(o)).value);
    }
  }

  /** Every dumped item gives its expected row, or fails with OverflowError. */
  lemma EachDumpedRow(data: map<Key, Json>, number: Option<string>, items: seq<Item>, firstId: int)
    requires InvoiceKey(InvoiceNumber) in data && data[InvoiceKey(InvoiceNumber)] == DumpOptString(number)
    ensures forall i :: 0 <= i < |items| ==>
              ItemRowOf(data, DumpItems(items)[i], firstId + i)
              == if InInt64(items[i].cases) then Ok(ExpectedItemRow(number, items[i], firstId + i))
                 else Err(OverflowError)
  {
    forall i | 0 <= i < |items|
      ensures ItemRowOf(data, DumpItems(items)[i], firstId + i)
           == if InInt64(items[i].cases) then Ok(ExpectedItemRow(number, items[i], firstId + i))
              else Err(OverflowError)
    {
      ItemRowOfDumped(data, number, items[i], firstId + i);
    }
  }

  /** The loop over a dumped item list whose case counts all fit. */
  lemma DumpedRowsFit(data: map<Key, Json>, number: Option<string>, items: seq<Item>, firstId: int)
    requires InvoiceKey(InvoiceNumber) in data && data[InvoiceKey(InvoiceNumber)] == DumpOptString(number)
    requires forall i :: 0 <= i < |items| ==> InInt64(items[i].cases)
    ensures ItemRowsFrom(data, DumpItems(items), firstId) == Ok(ItemRowsOf(number, items, firstId))
  {
    EachDumpedRow(data, number, items, firstId);
    RowsFromAll(data, DumpItems(items), firstId, ItemRowsOf(number, items, firstId));
  }

  /** The first item, from position `k` back, whose case count does not
      fit. */
  function FirstOverflow(items: seq<Item>, k: nat): (m: nat)
    requires k < |items| && !InInt64(items[k].cases)
    ensures m <= k && !InInt64(items[m].cases)
    ensures forall j :: 0 <= j < m ==> InInt64(items[j].cases)
    decreases k
  {
    if forall j :: 0 <= j < k ==> InInt64(items[j].cases) then k
    else
      var j :| 0 <= j < k && !InInt64(items[j].cases);
      FirstOverflow(items, j)
  }

  /** The loop over a dumped item list with an oversized case count. */
  lemma DumpedRowsOverflow(data: map<Key, Json>, number: Option<string>, items: seq<Item>, firstId: int, k: nat)
    requires InvoiceKey(InvoiceNumber) in data && data[InvoiceKey(InvoiceNumber)] == DumpOptString(number)
    requires k < |items| && !InInt64(items[k].cases)
    ensures ItemRowsFrom(data, DumpItems(items), firstId) == Err(OverflowError)
  {
    var elems := DumpItems(items);
    var m := FirstOverflow(items, k);
    EachDumpedRow(data, number, items, firstId);
    FirstFailure(data, elems, firstId, m);
  }

  /** The loop over a dumped item list. */
  lemma RowsOfDumped(data: map<Key, Json>, number: Option<string>, items: seq<Item>, firstId: int)
    requires InvoiceKey(InvoiceNumber) in data && data[InvoiceKey(InvoiceNumber)] == DumpOptString(number)
    ensures ItemRowsFrom(data, DumpItems(items), firstId)
         == if forall i :: 0 <= i < |items| ==> InInt64(items[i].cases)
            then Ok(ItemRowsOf(number, items, firstId)) else Err(OverflowError)
  {
    if forall i :: 0 <= i < |items| ==> InInt64(items[i].cases) {
      DumpedRowsFit(data, number, items, firstId);
    } else {
      var k :| 0 <= k < |items| && !InInt64(items[k].cases);
      DumpedRowsOverflow(data, number, items, firstId, k);
    }
  }

  /** The item rows of any dict holding the dump of `items` and the invoice
      number `number`. */
  lemma RowsOfDumpedList(data: map<Key, Json>, number: Option<string>, items: Option<seq<Item>>, firstId: int)
    requires InvoiceKey(InvoiceNumber) in data && data[InvoiceKey(InvoiceNumber)] == DumpOptString(number)
    requires Lookup(data, InvoiceKey(Items)) == DumpOptItems(items)
    ensures ItemRows(data, firstId)
         == if items.None? then Ok([])
            else if forall i :: 0 <= i < |items.value| ==> InInt64(items.value[i].cases)
            then Ok(ItemRowsOf(number, items.value, firstId)) else Err(OverflowError)
  {
    if items.Some? && items.value != [] {
      RowsOfDumped(data, number, items.value, firstId);
    }
  }

  /** The item list and the invoice number of a dump. */
  lemma DumpedItemsAndNumber(inv: Invoice)
    ensures Lookup(DumpInvoice(inv), InvoiceKey(Items)) == DumpOptItems(inv.items)
    ensures InvoiceKey(InvoiceNumber) in DumpInvoice(inv)
    ensures DumpInvoice(inv)[InvoiceKey(InvoiceNumber)] == DumpOptString(inv.invoiceNumber)
  {
  }

  /** The item rows of a dumped record: none for an absent or empty list;
      otherwise one per item in order, ids counting up from `firstId`, unless
      some item's case count does not fit 64 bits. */
  lemma ItemRowsOfRecord(inv: Invoice, firstId: int)
    ensures ItemRows(DumpInvoice(inv), firstId)
         == if CasesFit(inv) then Ok(ExpectedItemRows(inv, firstId)) else Err(OverflowError)
  {
    DumpedItemsAndNumber(inv);
    RowsOfDumpedList(DumpInvoice(inv), inv.invoiceNumber, inv.items, firstId);
  }
}
