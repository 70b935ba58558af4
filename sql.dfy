/** The SQLite side of the store: the values a cell holds, how the sqlite3
    module binds a Python value as a statement parameter, and the columns of
    the two tables `init_db` creates. */
module Sql {
  import opened Wrappers
  import opened PyJson

  /** A cell value, one per SQLite storage class the tables use. */
  datatype SqlValue = Null | Integer(i: int) | Real(f: Float) | Text(s: string)

  const INT64_MIN: int := -0x8000_0000_0000_0000
  const INT64_MAX: int := 0x7FFF_FFFF_FFFF_FFFF

  /** Whether `n` fits SQLite's 64-bit INTEGER. */
  predicate InInt64(n: int) {
    INT64_MIN <= n <= INT64_MAX
  }

  /** The values sqlite3 accepts as parameters: None, bool, int within 64
      bits, float and str. */
  predicate Bindable(v: Json) {
    match v
    case JInt(n) => InInt64(n)
    case JArray(_) => false
    case JObject(_) => false
    case _ => true
  }

  /** Binding one parameter: bool is an int subclass and binds as 1 or 0; an
      int that does not fit 64 bits raises OverflowError; a list or dict is
      not a supported type. */
  function Bind(v: Json): (r: Result<SqlValue, PyError>)
    ensures r.Ok? <==> Bindable(v)
    ensures r.Err? ==> r.error == (if v.JInt? then OverflowError else ProgrammingError)
  {
    match v
    case JNull => Ok(Null)
    case JBool(b) => Ok(Integer(if b then 1 else 0))
    case JInt(n) => if InInt64(n) then Ok(Integer(n)) else Err(OverflowError)
    case JFloat(f) => Ok(Real(f))
    case JString(s) => Ok(Text(s))
    case JArray(_) => Err(ProgrammingError)
    case JObject(_) => Err(ProgrammingError)
  }

  /** The Python value sqlite3 hands back when a cell is read. */
  function Fetch(s: SqlValue): Json {
    match s
    case Null => JNull
    case Integer(n) => JInt(n)
    case Real(f) => JFloat(f)
    case Text(t) => JString(t)
  }

  /** A bound parameter reads back as the value that was bound, except that a
      bool reads back as the int 1 or 0. */
  lemma BindThenFetch(v: Json)
    requires Bindable(v)
    ensures Fetch(Bind(v).value) == (if v.JBool? then JInt(if v.b then 1 else 0) else v)
  {
  }

  /** Every cell value that fits the storage classes is what binding its read
      back value gives. */
  lemma FetchThenBind(s: SqlValue)
    requires s.Integer? ==> InInt64(s.i)
    ensures Bind(Fetch(s)) == Ok(s)
  {
  }

  /** Binding a parameter list in order, as a statement's parameters are
      bound. */
  function BindAll(vs: seq<Json>): (r: Result<seq<SqlValue>, PyError>)
    ensures r.Ok? <==> forall i :: 0 <= i < |vs| ==> Bindable(vs[i])
    ensures r.Ok? ==> |r.value| == |vs| && forall i :: 0 <= i < |vs| ==> Ok(r.value[i]) == Bind(vs[i])
  {
    if vs == [] then Ok([])
    else
      var first :- Bind(vs[0]);
      var rest :- BindAll(vs[1..]);
      assert forall i :: 1 <= i < |vs| ==> vs[i] == vs[1..][i - 1];
      Ok([first] + rest)
  }

  /** The first parameter that cannot be bound raises its error. */
  lemma {:induction false} FirstUnbindable(vs: seq<Json>)
    requires BindAll(vs).Err?
    ensures exists i :: 0 <= i < |vs| && Bind(vs[i]) == Err(BindAll(vs).error)
                        && forall j :: 0 <= j < i ==> Bindable(vs[j])
  {
    if Bindable(vs[0]) {
      FirstUnbindable(vs[1..]);
      var i :| 0 <= i < |vs[1..]| && Bind(vs[1..][i]) == Err(BindAll(vs[1..]).error)
               && forall j :: 0 <= j < i ==> Bindable(vs[1..][j]);
      assert vs[i + 1] == vs[1..][i];
      assert forall j :: 1 <= j < i + 1 ==> vs[j] == vs[1..][j - 1];
    } else {
      assert Bind(vs[0]) == Err(BindAll(vs).error);
    }
  }

  // ----- The invoices table -----

  /** An address column, the suffix after `company_` or `customer_`. The
      schema's Address has no phone field; the table does. */
  datatype AddressColumn = Part(field: AddressField) | Phone

  const ADDRESS_COLUMNS: set<AddressColumn> := (set f: AddressField :: Part(f)) + {Phone}

  /** A column of the invoices table. */
  datatype Column =
    | Header(field: InvoiceField)     // a record field copied under its own name
    | PdfFilename
    | Company(part: AddressColumn)
    | Customer(part: AddressColumn)

  /** The 16 record fields that have a column of their own: all but the two
      addresses, the items and the sale conditions. */
  predicate IsHeader(f: InvoiceField) {
    !(f.AquachileAddress? || f.CustomerAddress? || f.Items? || f.SaleConditions?)
  }

  /** The 29 columns of the invoices table. */
  const COLUMNS: set<Column> :=
    (set f: InvoiceField | IsHeader(f) :: Header(f)) + {PdfFilename}
    + (set p | p in ADDRESS_COLUMNS :: Company(p)) + (set p | p in ADDRESS_COLUMNS :: Customer(p))

  /** The columns are the header fields, the file name and both groups of
      address columns. */
  lemma ColumnsMembership(c: Column)
    ensures c in COLUMNS <==> (c.Header? ==> IsHeader(c.field))
  {
    match c
    case Header(f) =>
      if IsHeader(f) {
        assert Header(f) in (set f: InvoiceField | IsHeader(f) :: Header(f));
      }
    case PdfFilename =>
    case Company(p) =>
      assert p in ADDRESS_COLUMNS by {
        if p.Part? {
          assert Part(p.field) in (set f: AddressField :: Part(f));
        }
      }
    case Customer(p) =>
      assert p in ADDRESS_COLUMNS by {
        if p.Part? {
          assert Part(p.field) in (set f: AddressField :: Part(f));
        }
      }
  }

  /** The header column at position `i` of `CREATE TABLE invoices`. */
  function HeaderAt(i: nat): (f: InvoiceField)
    requires i < 16
    ensures IsHeader(f)
  {
    match i
    case 0 => InvoiceNumber
    case 1 => Date
    case 2 => DueDate
    case 3 => Currency
    case 4 => CustomerId
    case 5 => PoNumber
    case 6 => SalesOrder
    case 7 => SapNumber
    case 8 => Container
    case 9 => Incoterms
    case 10 => Messers
    case 11 => Origin
    case 12 => PaymentTerms
    case 13 => TotalCases
    case 14 => TotalQuantity
    case _ => TotalValue
  }

  /** The address column at position `j` of its group of six. */
  function PartAt(j: nat): (p: AddressColumn)
    requires j < 6
    ensures p in ADDRESS_COLUMNS
  {
    match j
    case 0 => Part(Street)
    case 1 => Part(City)
    case 2 => Part(State)
    case 3 => Part(ZipCode)
    case 4 => Part(Country)
    case _ => Phone
  }

  /** The column at position `i` of `CREATE TABLE invoices`: the 16 header
      fields, the file name, then the company and the customer address. The
      INSERT's VALUES list names its parameters in the same order. */
  function ColumnAt(i: nat): (c: Column)
    requires i < 29
    ensures c in COLUMNS
  {
    if i < 16 then
      var f := HeaderAt(i);
      assert Header(f) in (set f: InvoiceField | IsHeader(f) :: Header(f));
      Header(f)
    else if i == 16 then PdfFilename
    else if i < 23 then Company(PartAt(i - 17))
    else Customer(PartAt(i - 23))
  }

  /** The column names of `CREATE TABLE invoices`, in declaration order:
      the header columns, the file name, then the company and the customer
      address fields. */
  const DDL_NAMES: seq<string> := HEADER_NAMES + ["pdf_filename"] + COMPANY_NAMES + CUSTOMER_NAMES

  const HEADER_NAMES: seq<string> := [
    "invoice_number", "date", "due_date", "currency", "customer_id", "po_number",
    "sales_order", "sap_number", "container", "incoterms", "messers", "origin",
    "payment_terms", "total_cases", "total_quantity", "total_value"]

  const COMPANY_NAMES: seq<string> := [
    "company_street", "company_city", "company_state", "company_zip_code",
    "company_country", "company_phone"]

  const CUSTOMER_NAMES: seq<string> := [
    "customer_street", "customer_city", "customer_state", "customer_zip_code",
    "customer_country", "customer_phone"]

  /** The named parameters of the invoices INSERT's VALUES list, in order. */
  const VALUES_NAMES: seq<string> := [
    "invoice_number", "date", "due_date", "currency", "customer_id",
    "po_number", "sales_order", "sap_number", "container", "incoterms",
    "messers", "origin", "payment_terms", "total_cases", "total_quantity",
    "total_value", "pdf_filename",
    "company_street", "company_city", "company_state", "company_zip_code",
    "company_country", "company_phone",
    "customer_street", "customer_city", "customer_state", "customer_zip_code",
    "customer_country", "customer_phone"]

  /** The column at each position has the name the table declares there, and
      the VALUES list names that same column at that position, so the
      positional INSERT puts every parameter under its own column. */
  lemma ColumnNames()
    ensures |DDL_NAMES| == 29 && |VALUES_NAMES| == 29
    ensures forall i :: 0 <= i < 29 ==> ColumnName(ColumnAt(i)) == DDL_NAMES[i] == VALUES_NAMES[i]
  {
    NameListsAgree();
    forall i | 0 <= i < 29 ensures ColumnName(ColumnAt(i)) == DDL_NAMES[i] {
      ColumnNameAt(i);
    }
  }

  lemma NameListsAgree()
    ensures DDL_NAMES == VALUES_NAMES
  {
  }

  lemma ColumnNameAt(i: nat)
    requires i < 29
    ensures ColumnName(ColumnAt(i)) == DDL_NAMES[i]
  {
    var prefix := HEADER_NAMES + ["pdf_filename"];
    assert |prefix| == 17;
    if i < 16 {
      assert DDL_NAMES[i] == HEADER_NAMES[i];
      HeaderName(i);
    } else if i == 16 {
      assert DDL_NAMES[i] == prefix[16];
    } else if i < 23 {
      assert DDL_NAMES[i] == COMPANY_NAMES[i - 17];
      CompanyName(i - 17);
    } else {
      assert DDL_NAMES[i] == CUSTOMER_NAMES[i - 23];
      CustomerName(i - 23);
    }
  }

  lemma HeaderName(i: nat)
    requires i < 16
    ensures ColumnName(Header(HeaderAt(i))) == HEADER_NAMES[i]
  {
  }

  lemma CompanyName(j: nat)
    requires j < 6
    ensures ColumnName(Company(PartAt(j))) == COMPANY_NAMES[j]
  {
  }

  lemma CustomerName(j: nat)
    requires j < 6
    ensures ColumnName(Customer(PartAt(j))) == CUSTOMER_NAMES[j]
  {
  }

  /** The columns in declaration order: 29 distinct columns, which are all the
      columns of the table, each under the name `init_db` gives it. */
  function InvoiceColumns(): (cols: seq<Column>)
    ensures |cols| == 29
    ensures forall i :: 0 <= i < 29 ==> ColumnName(cols[i]) == DDL_NAMES[i]
    ensures forall i, j :: 0 <= i < j < 29 ==> cols[i] != cols[j]
    ensures (set c | c in cols) == COLUMNS
  {
    var cols := seq(29, i requires 0 <= i < 29 => ColumnAt(i));
    ColumnNames();
    ColumnsListed(cols);
    cols
  }

  /** The column of every position, listed in order, lists each column once. */
  lemma ColumnsListed(cols: seq<Column>)
    requires |cols| == 29 && forall i :: 0 <= i < 29 ==> cols[i] == ColumnAt(i)
    ensures forall i, j :: 0 <= i < j < 29 ==> cols[i] != cols[j]
    ensures (set c | c in cols) == COLUMNS
  {
    forall i, j | 0 <= i < j < 29 ensures cols[i] != cols[j] {
      ColumnPositions(i);
      ColumnPositions(j);
    }
    forall c | c in COLUMNS ensures c in cols {
      assert cols[ColumnIndex(c)] == c;
    }
  }

  /** Where an address column stands among the six of its group. */
  function PartIndex(p: AddressColumn): (j: nat)
    ensures j < 6 && PartAt(j) == p
  {
    match p
    case Part(Street) => 0
    case Part(City) => 1
    case Part(State) => 2
    case Part(ZipCode) => 3
    case Part(Country) => 4
    case Phone => 5
  }

  /** Where a header column stands in the table. */
  function HeaderIndex(f: InvoiceField): (i: nat)
    requires IsHeader(f)
    ensures i < 16 && HeaderAt(i) == f
  {
    match f
    case InvoiceNumber => 0
    case Date => 1
    case DueDate => 2
    case Currency => 3
    case CustomerId => 4
    case PoNumber => 5
    case SalesOrder => 6
    case SapNumber => 7
    case Container => 8
    case Incoterms => 9
    case Messers => 10
    case Origin => 11
    case PaymentTerms => 12
    case TotalCases => 13
    case TotalQuantity => 14
    case TotalValue => 15
  }

  /** Where a column stands in the table. */
  function ColumnIndex(c: Column): (i: nat)
    requires c in COLUMNS
    ensures i < 29 && ColumnAt(i) == c
  {
    match c
    case Header(f) => HeaderIndex(f)
    case PdfFilename => 16
    case Company(p) => 17 + PartIndex(p)
    case Customer(p) => 23 + PartIndex(p)
  }

  lemma HeaderPositions(i: nat)
    requires i < 16
    ensures HeaderIndex(HeaderAt(i)) == i
  {
  }

  lemma PartPositions(j: nat)
    requires j < 6
    ensures PartIndex(PartAt(j)) == j
  {
  }

  /** Positions and columns correspond one to one: the 29 listed columns are
      pairwise distinct and are all the columns of the table. */
  lemma ColumnPositions(i: nat)
    requires i < 29
    ensures ColumnIndex(ColumnAt(i)) == i
  {
    if i < 16 {
      HeaderPositions(i);
    } else if 16 < i < 23 {
      PartPositions(i - 17);
    } else if 23 <= i {
      PartPositions(i - 23);
    }
  }

  /** The name `init_db` gives a column. */
  function ColumnName(c: Column): string {
    match c
    case Header(f) => FieldName(f)
    case PdfFilename => "pdf_filename"
    case Company(Part(Street)) => "company_street"
    case Company(Part(City)) => "company_city"
    case Company(Part(State)) => "company_state"
    case Company(Part(ZipCode)) => "company_zip_code"
    case Company(Part(Country)) => "company_country"
    case Company(Phone) => "company_phone"
    case Customer(Part(Street)) => "customer_street"
    case Customer(Part(City)) => "customer_city"
    case Customer(Part(State)) => "customer_state"
    case Customer(Part(ZipCode)) => "customer_zip_code"
    case Customer(Part(Country)) => "customer_country"
    case Customer(Phone) => "customer_phone"
  }

  /** A row of the invoices table: a value under each of its 29 columns. */
  type InvoiceRow = map<Column, SqlValue>

  // ----- The items table -----

  /** A row of the items table, field by field in the column order `init_db`
      declares: `id` is an AUTOINCREMENT key and there is no
      `item_total_value`. */
  datatype ItemRow = ItemRow(
    id: int,
    invoiceNumber: SqlValue,
    cases: SqlValue,
    code: SqlValue,
    goodsDescriptions: SqlValue,
    quantity: SqlValue,
    unitValue: SqlValue)
}
