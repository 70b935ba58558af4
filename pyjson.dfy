/** Python values as `json.loads` produces them, and the few Python operations
    on them that the flattening code relies on. */
module PyJson {
  import opened Wrappers

  /** A Python float. The core only passes floats through, so one is carried as
      its IEEE 754 binary64 bit pattern and never computed with. */
  datatype Float = Float(bits: bv64) {
    /** 0.0 and -0.0, the two floats Python treats as false. */
    predicate IsZero() { bits & 0x7FFF_FFFF_FFFF_FFFF == 0 }
  }

  /** The field names of Invoice, in declaration order, each spelled in
      PascalCase (`InvoiceNumber` is "invoice_number"). */
  datatype InvoiceField =
    | AquachileAddress | Container | Currency | CustomerAddress | CustomerId
    | Date | DueDate | Incoterms | InvoiceNumber | Items | Messers | Origin
    | PaymentTerms | PoNumber | SaleConditions | SalesOrder | SapNumber
    | TotalCases | TotalQuantity | TotalValue

  /** The field names of Address. */
  datatype AddressField = City | Country | State | Street | ZipCode

  /** The field names of Item. */
  datatype ItemField = Cases | Code | GoodsDescriptions | Quantity | UnitValue | ItemTotalValue

  /** The 31 field names of the record schema: Invoice's, Address's and Item's. */
  const SCHEMA_NAMES: set<string> := {
    "aquachile_address", "container", "currency", "customer_address", "customer_id",
    "date", "due_date", "incoterms", "invoice_number", "items", "messers", "origin",
    "payment_terms", "po_number", "sale_conditions", "sales_order", "sap_number",
    "total_cases", "total_quantity", "total_value",
    "city", "country", "state", "street", "zip_code",
    "cases", "code", "goods_descriptions", "quantity", "unit_value", "item_total_value"
  }

  /** The text of a key that is not a field name of the schema. */
  type OtherName = s: string | s !in SCHEMA_NAMES witness "address"

  /** A dict key. The 31 field names of the record schema are pairwise
      distinct strings, each written as a constructor of its own, grouped by
      the model that declares it; `Other(text)` is any key whose text is none
      of those names, such as "address" or "phone". Every Python string key
      thus has exactly one encoding. */
  datatype Key =
    | InvoiceKey(invoiceField: InvoiceField)
    | AddressKey(addressField: AddressField)
    | ItemKey(itemField: ItemField)
    | Other(text: OtherName)

  /** The text of an Invoice field name. */
  function FieldName(f: InvoiceField): string {
    match f
    case AquachileAddress => "aquachile_address"
    case Container => "container"
    case Currency => "currency"
    case CustomerAddress => "customer_address"
    case CustomerId => "customer_id"
    case Date => "date"
    case DueDate => "due_date"
    case Incoterms => "incoterms"
    case InvoiceNumber => "invoice_number"
    case Items => "items"
    case Messers => "messers"
    case Origin => "origin"
    case PaymentTerms => "payment_terms"
    case PoNumber => "po_number"
    case SaleConditions => "sale_conditions"
    case SalesOrder => "sales_order"
    case SapNumber => "sap_number"
    case TotalCases => "total_cases"
    case TotalQuantity => "total_quantity"
    case TotalValue => "total_value"
  }

  /** The text of an Address field name. */
  function AddressFieldName(f: AddressField): string {
    match f
    case City => "city"
    case Country => "country"
    case State => "state"
    case Street => "street"
    case ZipCode => "zip_code"
  }

  /** The text of an Item field name. */
  function ItemFieldName(f: ItemField): string {
    match f
    case Cases => "cases"
    case Code => "code"
    case GoodsDescriptions => "goods_descriptions"
    case Quantity => "quantity"
    case UnitValue => "unit_value"
    case ItemTotalValue => "item_total_value"
  }

  /** The Python string a key stands for. */
  function KeyName(k: Key): string {
    match k
    case InvoiceKey(f) => FieldName(f)
    case AddressKey(f) => AddressFieldName(f)
    case ItemKey(f) => ItemFieldName(f)
    case Other(text) => text
  }

  /** The schema names are exactly the texts of the field-name constructors. */
  lemma SchemaNames(k: Key)
    ensures KeyName(k) in SCHEMA_NAMES <==> !k.Other?
  {
  }

  /** Two keys stand for the same Python string only when they are the same
      key, so a dict over `Key` is a dict over strings. */
  lemma KeyNameInjective(a: Key, b: Key)
    requires KeyName(a) == KeyName(b)
    ensures a == b
  {
    SchemaNames(a);
    SchemaNames(b);
  }

  /** A decoded JSON document: None, bool, int, float, str, list or dict. */
  datatype Json =
    | JNull
    | JBool(b: bool)
    | JInt(i: int)
    | JFloat(f: Float)
    | JString(s: string)
    | JArray(elems: seq<Json>)
    | JObject(fields: map<Key, Json>)

  /** The exceptions the flattening and storing code can raise. */
  datatype PyError =
    | AttributeError    // `.get` on a value that is not a dict (on None, in practice)
    | KeyError(key: Key)  // `d[key]` with `key` missing
    | TypeError         // `for x in v` over a value that cannot be iterated
    | OverflowError     // an int outside SQLite's 64-bit INTEGER range
    | ProgrammingError  // a statement parameter sqlite3 cannot bind

  /** `d.get(key)` on a dict: a missing key reads as None. */
  function Lookup(d: map<Key, Json>, key: Key): Json {
    if key in d then d[key] else JNull
  }

  /** `d[key]` on a dict. */
  function Subscript(d: map<Key, Json>, key: Key): Result<Json, PyError> {
    if key in d then Ok(d[key]) else Err(KeyError(key))
  }

  /** Python truthiness, as `if v:` tests it. */
  predicate Truthy(v: Json) {
    match v
    case JNull => false
    case JBool(b) => b
    case JInt(i) => i != 0
    case JFloat(f) => !f.IsZero()
    case JString(s) => s != []
    case JArray(elems) => elems != []
    case JObject(fields) => fields != map[]
  }
}
