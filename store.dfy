/** `save_to_db` as a change to the two tables: the invoices row goes in
    with INSERT OR REPLACE, the item rows are appended under fresh
    AUTOINCREMENT ids, and nothing is kept when any statement fails, since
    the connection is closed without a commit. */
module Database {
  import opened Wrappers
  import opened PyJson
  import opened DocTemplate
  import opened Sql
  import opened Flatten

  /** The contents of `invoices.db`. Rows whose `invoice_number` is NULL never
      conflict with one another under the TEXT PRIMARY KEY, so each is kept
      apart in `unkeyed`. `nextId` is the id AUTOINCREMENT hands out next. */
  datatype Db = Db(
    invoices: map<string, InvoiceRow>,
    unkeyed: seq<InvoiceRow>,
    items: seq<ItemRow>,
    nextId: int)

  /** A database `init_db` has just created. */
  const EMPTY: Db := Db(map[], [], [], 1)

  /** The primary key of an invoices row, when it is text. */
  function KeyOf(row: InvoiceRow): Option<string> {
    if Header(InvoiceNumber) in row && row[Header(InvoiceNumber)].Text? then
      Some(row[Header(InvoiceNumber)].s)
    else None
  }

  /** INSERT OR REPLACE of one invoices row. */
  function Upsert(db: Db, row: InvoiceRow): (r: Db)
    ensures r.items == db.items && r.nextId == db.nextId
  {
    match KeyOf(row)
    case Some(k) => db.(invoices := db.invoices[k := row])
    case None => db.(unkeyed := db.unkeyed + [row])
  }

  /** The statements `save_to_db` runs on the dumped dict `data`, in order,
      the first failure discarding all of them. */
  function SaveData(db: Db, data: map<Key, Json>, pdfName: string): (r: Result<Db, PyError>)
    ensures r.Ok? <==> InvoiceRowOf(data, pdfName).Ok? && ItemRows(data, db.nextId).Ok?
    ensures r.Ok? ==> db.items <= r.value.items && r.value.nextId == db.nextId + |r.value.items| - |db.items|
  {
    var row :- InvoiceRowOf(data, pdfName);
    var rows :- ItemRows(data, db.nextId);
    var db' := Upsert(db, row);
    Ok(db'.(items := db.items + rows, nextId := db.nextId + |rows|))
  }

  /** The effect of `save_to_db(result, pdf_file)` on the database. */
  function Save(db: Db, inv: Invoice, pdfName: string): (r: Result<Db, PyError>)
    ensures r.Ok? ==> db.items <= r.value.items && db.nextId <= r.value.nextId
  {
    SaveData(db, DumpInvoice(inv), pdfName)
  }

  /** The records `save_to_db` stores without raising. */
  predicate Savable(inv: Invoice) {
    inv.customerAddress.Some? && InInt64(inv.totalCases) && CasesFit(inv)
  }

  /** The database after storing a savable record, in terms of the record:
      its invoices row upserted, its item rows appended. */
  function SavedDb(db: Db, inv: Invoice, pdfName: string): Db
    requires inv.customerAddress.Some?
  {
    var rows := ExpectedItemRows(inv, db.nextId);
    var db' := Upsert(db, ExpectedInvoiceRow(inv, pdfName, inv.customerAddress.value));
    db'.(items := db.items + rows, nextId := db.nextId + |rows|)
  }

  // ----- The upsert -----

  /** After an upsert the key maps to the new row and every other key keeps
      its row; a row without a text key is added beside the others. */
  lemma UpsertEffect(db: Db, row: InvoiceRow)
    ensures KeyOf(row).Some? ==>
              Upsert(db, row).invoices.Keys == db.invoices.Keys + {KeyOf(row).value}
              && Upsert(db, row).invoices[KeyOf(row).value] == row
              && (forall k :: k in db.invoices && k != KeyOf(row).value ==>
                                Upsert(db, row).invoices[k] == db.invoices[k])
              && Upsert(db, row).unkeyed == db.unkeyed
    ensures KeyOf(row).None? ==>
              Upsert(db, row).invoices == db.invoices && Upsert(db, row).unkeyed == db.unkeyed + [row]
    ensures Upsert(db, row).items == db.items && Upsert(db, row).nextId == db.nextId
  {
  }

  /** The row of a record is keyed by the record's invoice number. */
  lemma KeyOfRecordRow(inv: Invoice, pdfName: string, a: Address)
    ensures KeyOf(ExpectedInvoiceRow(inv, pdfName, a)) == inv.invoiceNumber
  {
    NumberCell(inv, pdfName, a);
  }

  // ----- What saving a record does -----

  /** `save_to_db` raises exactly when the record has no customer address
      (AttributeError) or a case count that does not fit SQLite's INTEGER
      (OverflowError), the invoices row being built first; otherwise it
      stores the record's rows. */
  lemma SaveResult(db: Db, inv: Invoice, pdfName: string)
    ensures Save(db, inv, pdfName).Ok? <==> Savable(inv)
    ensures inv.customerAddress.None? ==> Save(db, inv, pdfName).error == AttributeError
    ensures inv.customerAddress.Some? && !Savable(inv) ==> Save(db, inv, pdfName).error == OverflowError
    ensures Savable(inv) ==> Save(db, inv, pdfName).value == SavedDb(db, inv, pdfName)
  {
    var data := DumpInvoice(inv);
    InvoiceRowOfRecord(inv, pdfName);
    if inv.customerAddress.Some? && InInt64(inv.totalCases) {
      var row := ExpectedInvoiceRow(inv, pdfName, inv.customerAddress.value);
      ItemRowsOfRecord(inv, db.nextId);
      if CasesFit(inv) {
        var rows := ExpectedItemRows(inv, db.nextId);
        StoresRows(db, data, pdfName, row, rows);
        SameDb(Upsert(db, row).(items := db.items + rows, nextId := db.nextId + |rows|), SavedDb(db, inv, pdfName));
      } else {
        FailsOnItems(db, data, pdfName, row, OverflowError);
      }
    }
  }

  /** Two databases with the same tables and counter are the same. */
  lemma SameDb(a: Db, b: Db)
    requires a.invoices == b.invoices && a.unkeyed == b.unkeyed
    requires a.items == b.items && a.nextId == b.nextId
    ensures a == b
  {
  }

  /** The statements succeed when both the row and the item rows exist. */
  lemma StoresRows(db: Db, data: map<Key, Json>, pdfName: string, row: InvoiceRow, rows: seq<ItemRow>)
    requires InvoiceRowOf(data, pdfName) == Ok(row) && ItemRows(data, db.nextId) == Ok(rows)
    ensures SaveData(db, data, pdfName)
         == Ok(Upsert(db, row).(items := db.items + rows, nextId := db.nextId + |rows|))
  {
    var saved := SaveData(db, data, pdfName);
    assert saved.Ok?;
    assert saved.value.invoices == Upsert(db, row).invoices;
    assert saved.value.unkeyed == Upsert(db, row).unkeyed;
    assert saved.value.items == db.items + rows;
    assert saved.value.nextId == db.nextId + |rows|;
    SameDb(saved.value, Upsert(db, row).(items := db.items + rows, nextId := db.nextId + |rows|));
  }

  /** An item that fails makes the whole save fail with its error. */
  lemma FailsOnItems(db: Db, data: map<Key, Json>, pdfName: string, row: InvoiceRow, e: PyError)
    requires InvoiceRowOf(data, pdfName) == Ok(row) && ItemRows(data, db.nextId) == Err(e)
    ensures SaveData(db, data, pdfName) == Err(e)
  {
  }

  /** A saved record's invoices row: keyed by its invoice number, it replaces
      any row with that number and leaves every other row alone; without a
      number it is one more row. */
  lemma SaveInvoiceRow(db: Db, inv: Invoice, pdfName: string)
    requires Savable(inv)
    ensures Save(db, inv, pdfName).Ok?
    ensures var db' := Save(db, inv, pdfName).value;
            var row := ExpectedInvoiceRow(inv, pdfName, inv.customerAddress.value);
            match inv.invoiceNumber
            case Some(n) =>
              db'.invoices.Keys == db.invoices.Keys + {n} && db'.invoices[n] == row
              && (forall k :: k in db.invoices && k != n ==> db'.invoices[k] == db.invoices[k])
              && db'.unkeyed == db.unkeyed
            case None =>
              db'.invoices == db.invoices && db'.unkeyed == db.unkeyed + [row]
  {
    SaveResult(db, inv, pdfName);
    var row := ExpectedInvoiceRow(inv, pdfName, inv.customerAddress.value);
    KeyOfRecordRow(inv, pdfName, inv.customerAddress.value);
    UpsertEffect(db, row);
  }

  /** A saved record's item rows: appended after every earlier row, which
      stays as it was, one per item in order, with ids counting up from the
      next free id. */
  lemma SaveItemRows(db: Db, inv: Invoice, pdfName: string)
    requires Savable(inv)
    ensures Save(db, inv, pdfName).Ok?
    ensures Save(db, inv, pdfName).value.items == db.items + ExpectedItemRows(inv, db.nextId)
    ensures Save(db, inv, pdfName).value.nextId == db.nextId + |ExpectedItemRows(inv, db.nextId)|
  {
    SaveResult(db, inv, pdfName);
    UpsertEffect(db, ExpectedInvoiceRow(inv, pdfName, inv.customerAddress.value));
  }

  // ----- Invariants of the database -----

  /** The row has nothing in its company columns. */
  predicate CompanyEmpty(row: InvoiceRow) {
    forall p :: p in ADDRESS_COLUMNS && Company(p) in row ==> row[Company(p)] == Null
  }

  /** No stored invoices row has anything in its company columns. */
  predicate NoCompanyData(db: Db) {
    (forall k :: k in db.invoices ==> CompanyEmpty(db.invoices[k]))
    && (forall i :: 0 <= i < |db.unkeyed| ==> CompanyEmpty(db.unkeyed[i]))
  }

  lemma CompanyEmptyRow(inv: Invoice, pdfName: string, a: Address)
    ensures CompanyEmpty(ExpectedInvoiceRow(inv, pdfName, a))
  {
    forall p | p in ADDRESS_COLUMNS && Company(p) in ExpectedInvoiceRow(inv, pdfName, a)
      ensures ExpectedInvoiceRow(inv, pdfName, a)[Company(p)] == Null
    {
      ExpectedRowAt(inv, pdfName, a, Company(p));
    }
  }

  /** Storing a record's rows adds no company data. */
  lemma SavedKeepsCompanyEmpty(db: Db, inv: Invoice, pdfName: string)
    requires NoCompanyData(db) && inv.customerAddress.Some?
    ensures NoCompanyData(SavedDb(db, inv, pdfName))
  {
    var row := ExpectedInvoiceRow(inv, pdfName, inv.customerAddress.value);
    CompanyEmptyRow(inv, pdfName, inv.customerAddress.value);
    UpsertEffect(db, row);
  }

  /** The company columns never get data: the code reads them from an
      `address` key the record does not have. */
  lemma SaveKeepsCompanyEmpty(db: Db, inv: Invoice, pdfName: string, db': Db)
    requires NoCompanyData(db) && Save(db, inv, pdfName) == Ok(db')
    ensures NoCompanyData(db')
  {
    SaveResult(db, inv, pdfName);
    SavedKeepsCompanyEmpty(db, inv, pdfName);
  }

  /** Item ids are increasing and below the next free id. */
  predicate IdsIncreasing(db: Db) {
    (forall i, j :: 0 <= i < j < |db.items| ==> db.items[i].id < db.items[j].id)
    && (forall i :: 0 <= i < |db.items| ==> db.items[i].id < db.nextId)
  }

  lemma EmptyIsConsistent()
    ensures IdsIncreasing(EMPTY) && NoCompanyData(EMPTY)
  {
  }

  /** Appending rows whose ids count up from the next free id, and moving
      the counter past them, keeps the ids increasing. */
  lemma AppendKeepsIds(db: Db, rows: seq<ItemRow>, db': Db)
    requires IdsIncreasing(db)
    requires forall i :: 0 <= i < |rows| ==> rows[i].id == db.nextId + i
    requires db'.items == db.items + rows && db'.nextId == db.nextId + |rows|
    ensures IdsIncreasing(db') && db'.nextId >= db.nextId
  {
  }

  /** The item part of a saved database. */
  lemma SavedItems(db: Db, inv: Invoice, pdfName: string)
    requires inv.customerAddress.Some?
    ensures SavedDb(db, inv, pdfName).items == db.items + ExpectedItemRows(inv, db.nextId)
    ensures SavedDb(db, inv, pdfName).nextId == db.nextId + |ExpectedItemRows(inv, db.nextId)|
  {
    UpsertEffect(db, ExpectedInvoiceRow(inv, pdfName, inv.customerAddress.value));
  }

  /** Storing a record's rows keeps the ids increasing. */
  lemma SavedKeepsIdsIncreasing(db: Db, inv: Invoice, pdfName: string)
    requires IdsIncreasing(db) && inv.customerAddress.Some?
    ensures IdsIncreasing(SavedDb(db, inv, pdfName)) && SavedDb(db, inv, pdfName).nextId >= db.nextId
  {
    SavedItems(db, inv, pdfName);
    ItemIds(inv, db.nextId);
    AppendKeepsIds(db, ExpectedItemRows(inv, db.nextId), SavedDb(db, inv, pdfName));
  }

  /** Ids only increase: saving keeps them increasing and below the counter. */
  lemma SaveKeepsIdsIncreasing(db: Db, inv: Invoice, pdfName: string, db': Db)
    requires IdsIncreasing(db) && Save(db, inv, pdfName) == Ok(db')
    ensures IdsIncreasing(db') && db'.nextId >= db.nextId
  {
    SaveResult(db, inv, pdfName);
    SavedKeepsIdsIncreasing(db, inv, pdfName);
  }

  // ----- Item rows accumulate -----

  /** How many item rows carry the invoice number `number`. */
  function CountTagged(rows: seq<ItemRow>, number: SqlValue): nat {
    if rows == [] then 0
    else CountTagged(rows[..|rows| - 1], number) + (if rows[|rows| - 1].invoiceNumber == number then 1 else 0)
  }

  lemma {:induction false} CountTaggedAppend(a: seq<ItemRow>, b: seq<ItemRow>, number: SqlValue)
    ensures CountTagged(a + b, number) == CountTagged(a, number) + CountTagged(b, number)
    decreases |b|
  {
    if b != [] {
      var n := |b| - 1;
      assert (a + b)[..|a + b| - 1] == a + b[..n];
      CountTaggedAppend(a, b[..n], number);
    } else {
      assert a + b == a;
    }
  }

  /** Rows whose invoice number is all `number`. */
  lemma {:induction false} CountAllTagged(rows: seq<ItemRow>, number: SqlValue)
    requires forall i :: 0 <= i < |rows| ==> rows[i].invoiceNumber == number
    ensures CountTagged(rows, number) == |rows|
    decreases |rows|
  {
    if rows != [] {
      CountAllTagged(rows[..|rows| - 1], number);
    }
  }

  /** Saving a record adds one tagged item row per item and removes none. */
  lemma SaveAddsTaggedRows(db: Db, inv: Invoice, pdfName: string)
    requires Savable(inv)
    ensures Save(db, inv, pdfName).Ok?
    ensures CountTagged(Save(db, inv, pdfName).value.items, TextOrNull(inv.invoiceNumber))
         == CountTagged(db.items, TextOrNull(inv.invoiceNumber)) + |ExpectedItemRows(inv, db.nextId)|
  {
    SaveItemRows(db, inv, pdfName);
    var rows := ExpectedItemRows(inv, db.nextId);
    CountTaggedAppend(db.items, rows, TextOrNull(inv.invoiceNumber));
    CountAllTagged(rows, TextOrNull(inv.invoiceNumber));
  }

  /** Saving the same record twice keeps one invoices row under its number
      but doubles its item rows, the REPLACE leaving the old items in place. */
  lemma SaveTwice(db: Db, inv: Invoice, pdfName: string, db1: Db, db2: Db)
    requires Save(db, inv, pdfName) == Ok(db1) && Save(db1, inv, pdfName) == Ok(db2)
    requires inv.invoiceNumber.Some?
    ensures var n := inv.invoiceNumber.value;
            var count := if inv.items.Some? then |inv.items.value| else 0;
            inv.customerAddress.Some? && db2.invoices.Keys == db.invoices.Keys + {n}
            && db2.invoices[n] == ExpectedInvoiceRow(inv, pdfName, inv.customerAddress.value)
            && CountTagged(db2.items, Text(n)) == CountTagged(db.items, Text(n)) + 2 * count
  {
    SaveResult(db, inv, pdfName);
    SaveInvoiceRow(db, inv, pdfName);
    SaveAddsTaggedRows(db, inv, pdfName);
    SaveInvoiceRow(db1, inv, pdfName);
    SaveAddsTaggedRows(db1, inv, pdfName);
  }

  // ----- The store as the program updates it -----

  /** The database file, updated in place one statement at a time. */
  class Store {
    var invoices: map<string, InvoiceRow>
    var unkeyed: seq<InvoiceRow>
    var items: seq<ItemRow>
    var nextId: int

    function State(): Db
      reads this
    {
      Db(invoices, unkeyed, items, nextId)
    }

    /** `init_db` on a new file. */
    constructor ()
      ensures State() == EMPTY
    {
      invoices := map[];
      unkeyed := [];
      items := [];
      nextId := 1;
    }

    /** Puts the tables back as they were at the last commit. */
    method Rollback(snapshot: Db)
      modifies this
      ensures State() == snapshot
    {
      invoices, unkeyed, items, nextId := snapshot.invoices, snapshot.unkeyed, snapshot.items, snapshot.nextId;
    }

    /** `save_to_db(result, pdf_file)`. */
    method SaveToDb(result: Invoice, pdfName: string) returns (outcome: Outcome<PyError>)
      modifies this
      ensures Save(old(State()), result, pdfName).Ok? ==>
                outcome == Pass && State() == Save(old(State()), result, pdfName).value
      ensures Save(old(State()), result, pdfName).Err? ==>
                outcome == Fail(Save(old(State()), result, pdfName).error) && State() == old(State())
    {
      outcome := Execute(DumpInvoice(result), pdfName);
    }

    /** The statements of `save_to_db` on the dumped dict `data`: the
        invoices INSERT OR REPLACE, then one items INSERT per item; on an
        error the transaction is rolled back and the error is raised. */
    method Execute(data: map<Key, Json>, pdfName: string) returns (outcome: Outcome<PyError>)
      modifies this
      ensures SaveData(old(State()), data, pdfName).Ok? ==>
                outcome == Pass && State() == SaveData(old(State()), data, pdfName).value
      ensures SaveData(old(State()), data, pdfName).Err? ==>
                outcome == Fail(SaveData(old(State()), data, pdfName).error) && State() == old(State())
    {
      var snapshot := State();
      var row := InvoiceRowOf(data, pdfName);
      if row.Err? {
        return Fail(row.error);
      }
      InsertOrReplace(row.value);
      ghost var expected := ItemRows(data, snapshot.nextId);
      var failure := InsertItemList(data);
      if failure.Some? {
        Rollback(snapshot);
        FailsOnItems(snapshot, data, pdfName, row.value, failure.value);
        return Fail(failure.value);
      }
      StoresRows(snapshot, data, pdfName, row.value, expected.value);
      SameDb(State(), SaveData(snapshot, data, pdfName).value);
      return Pass;
    }

    /** `if data.get("items"): for item in data["items"]: ...`: the item
        INSERTs, or the error the loop raises. */
    method InsertItemList(data: map<Key, Json>) returns (failure: Option<PyError>)
      modifies this
      ensures invoices == old(invoices) && unkeyed == old(unkeyed)
      ensures ItemRows(data, old(nextId)).Ok? ==>
                failure.None? && items == old(items) + ItemRows(data, old(nextId)).value
                && nextId == old(nextId) + |ItemRows(data, old(nextId)).value|
      ensures ItemRows(data, old(nextId)).Err? ==>
                && failure == Some(ItemRows(data, old(nextId)).error)
                && var list := Lookup(data, InvoiceKey(Items));
                   if list.JArray? then
                     exists k :: StopsAt(data, list.elems, old(nextId), k)
                       && items == old(items) + ItemRowsFrom(data, list.elems[..k], old(nextId)).value
                       && nextId == old(nextId) + k
                   else items == old(items) && nextId == old(nextId)
    {
      var list := Lookup(data, InvoiceKey(Items));
      if !Truthy(list) {
        assert items == old(items) + [];
        return None;
      }
      if !list.JArray? {
        return Some(ItemRows(data, nextId).error);
      }
      failure := InsertItems(data, list.elems);
    }

    /** The INSERT OR REPLACE of an invoices row. */
    method InsertOrReplace(row: InvoiceRow)
      modifies this
      ensures invoices == Upsert(old(State()), row).invoices && unkeyed == Upsert(old(State()), row).unkeyed
      ensures items == old(items) && nextId == old(nextId)
    {
      match KeyOf(row) {
        case Some(k) => invoices := invoices[k := row];
        case None => unkeyed := unkeyed + [row];
      }
    }

    /** `for item in data["items"]`: one items INSERT per element, in order,
        each under the next AUTOINCREMENT id, stopping at the first that
        raises. */
    method InsertItems(data: map<Key, Json>, elems: seq<Json>) returns (failure: Option<PyError>)
      modifies this
      ensures invoices == old(invoices) && unkeyed == old(unkeyed)
      ensures ItemRowsFrom(data, elems, old(nextId)).Ok? ==>
                failure.None? && items == old(items) + ItemRowsFrom(data, elems, old(nextId)).value
                && nextId == old(nextId) + |elems|
      ensures ItemRowsFrom(data, elems, old(nextId)).Err? ==>
                && failure == Some(ItemRowsFrom(data, elems, old(nextId)).error)
                && exists k :: StopsAt(data, elems, old(nextId), k)
                     && items == old(items) + ItemRowsFrom(data, elems[..k], old(nextId)).value
                     && nextId == old(nextId) + k
    {
      var first := nextId;
      ghost var before := items;
      var i := 0;
      while i < |elems|
        invariant 0 <= i <= |elems|
        invariant invoices == old(invoices) && unkeyed == old(unkeyed)
        invariant ItemRowsFrom(data, elems[..i], first).Ok?
        invariant items == before + ItemRowsFrom(data, elems[..i], first).value
        invariant nextId == first + i
      {
        var next := ItemRowOf(data, elems[i], nextId);
        RowsStep(data, elems, first, i);
        if next.Err? {
          PrefixFailure(data, elems, first, i + 1);
          assert StopsAt(data, elems, first, i);
          return Some(next.error);
        }
        RowsStepAfter(data, elems, first, i, before);
        items := items + [next.value];
        nextId := nextId + 1;
        i := i + 1;
      }
      assert elems[..i] == elems;
      return None;
    }
  }
}
