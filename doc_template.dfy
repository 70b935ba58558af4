/** The invoice record schema (the pydantic models Item, Address and Invoice):
    the records themselves, their dump to a JSON dict (`model_dump`), and the
    shape check pydantic applies when it builds a record from a JSON value. */
module DocTemplate {
  import opened Wrappers
  import opened PyJson

  /** One invoice line; all six fields are required. */
  datatype Item = Item(
    cases: int,
    code: string,
    goodsDescriptions: string,
    quantity: string,
    unitValue: Float,
    itemTotalValue: Float)

  /** A postal address; every field is optional and defaults to None. There is
      no phone field. */
  datatype Address = Address(
    city: Option<string>,
    country: Option<string>,
    state: Option<string>,
    street: Option<string>,
    zipCode: Option<string>)

  /** The extracted invoice. Only `saleConditions`, `totalCases`,
      `totalQuantity` and `totalValue` are required; `items` is optional, so
      an absent list (None) and an empty one (Some([])) are different records. */
  datatype Invoice = Invoice(
    aquachileAddress: Option<Address>,
    container: Option<string>,
    currency: Option<string>,
    customerAddress: Option<Address>,
    customerId: Option<string>,
    date: Option<string>,
    dueDate: Option<string>,
    incoterms: Option<string>,
    invoiceNumber: Option<string>,
    items: Option<seq<Item>>,
    messers: Option<string>,
    origin: Option<string>,
    paymentTerms: Option<string>,
    poNumber: Option<string>,
    saleConditions: seq<string>,
    salesOrder: Option<string>,
    sapNumber: Option<string>,
    totalCases: int,
    totalQuantity: string,
    totalValue: Float)

  const ITEM_KEYS: set<Key> := set f: ItemField :: ItemKey(f)

  const ADDRESS_KEYS: set<Key> := set f: AddressField :: AddressKey(f)

  /** Every field of Invoice. */
  const INVOICE_KEYS: set<Key> := set f: InvoiceField :: InvoiceKey(f)

  /** The declared type of an Invoice field, as the shape check sees it. */
  datatype Shape =
    | OptString | OptAddress | OptItems           // Optional[...] = None
    | RequiredStrings | RequiredInt | RequiredStr | RequiredFloat  // list[str], int, str, float

  function ShapeOf(f: InvoiceField): Shape {
    match f
    case AquachileAddress | CustomerAddress => OptAddress
    case Items => OptItems
    case SaleConditions => RequiredStrings
    case TotalCases => RequiredInt
    case TotalQuantity => RequiredStr
    case TotalValue => RequiredFloat
    case _ => OptString
  }

  /** The fields an invoice cannot be built without: those with no default. */
  predicate Required(f: InvoiceField) {
    !(ShapeOf(f).OptString? || ShapeOf(f).OptAddress? || ShapeOf(f).OptItems?)
  }

  /** The fields of Invoice in declaration order, the order in which
      pydantic validates them and reports their errors. */
  const FIELD_ORDER: seq<InvoiceField> :=
    [AquachileAddress, Container, Currency, CustomerAddress, CustomerId, Date,
     DueDate, Incoterms, InvoiceNumber, Items, Messers, Origin, PaymentTerms,
     PoNumber, SaleConditions, SalesOrder, SapNumber, TotalCases, TotalQuantity,
     TotalValue]

  // ----- model_dump: a record as the JSON dict pydantic writes for it -----

  function DumpOptString(o: Option<string>): Json {
    match o
    case None => JNull
    case Some(s) => JString(s)
  }

  function DumpAddressField(a: Address, f: AddressField): Json {
    match f
    case City => DumpOptString(a.city)
    case Country => DumpOptString(a.country)
    case State => DumpOptString(a.state)
    case Street => DumpOptString(a.street)
    case ZipCode => DumpOptString(a.zipCode)
  }

  function DumpAddress(a: Address): (d: map<Key, Json>)
    ensures d.Keys == ADDRESS_KEYS
  {
    map f: AddressField :: AddressKey(f) := DumpAddressField(a, f)
  }

  function DumpOptAddress(o: Option<Address>): Json {
    match o
    case None => JNull
    case Some(a) => JObject(DumpAddress(a))
  }

  function DumpItemField(it: Item, f: ItemField): Json {
    match f
    case Cases => JInt(it.cases)
    case Code => JString(it.code)
    case GoodsDescriptions => JString(it.goodsDescriptions)
    case Quantity => JString(it.quantity)
    case UnitValue => JFloat(it.unitValue)
    case ItemTotalValue => JFloat(it.itemTotalValue)
  }

  function DumpItem(it: Item): (d: map<Key, Json>)
    ensures d.Keys == ITEM_KEYS
  {
    map f: ItemField :: ItemKey(f) := DumpItemField(it, f)
  }

  function DumpItems(items: seq<Item>): (js: seq<Json>)
    ensures |js| == |items|
    ensures forall i :: 0 <= i < |items| ==> js[i] == JObject(DumpItem(items[i]))
  {
    seq(|items|, i requires 0 <= i < |items| => JObject(DumpItem(items[i])))
  }

  function DumpOptItems(o: Option<seq<Item>>): Json {
    match o
    case None => JNull
    case Some(items) => JArray(DumpItems(items))
  }

  function DumpStrings(ss: seq<string>): (js: seq<Json>)
    ensures |js| == |ss|
    ensures forall i :: 0 <= i < |ss| ==> js[i] == JString(ss[i])
  {
    seq(|ss|, i requires 0 <= i < |ss| => JString(ss[i]))
  }

  /** The dumped value of one field of the record. */
  function DumpField(inv: Invoice, f: InvoiceField): Json {
    match f
    case AquachileAddress => DumpOptAddress(inv.aquachileAddress)
    case Container => DumpOptString(inv.container)
    case Currency => DumpOptString(inv.currency)
    case CustomerAddress => DumpOptAddress(inv.customerAddress)
    case CustomerId => DumpOptString(inv.customerId)
    case Date => DumpOptString(inv.date)
    case DueDate => DumpOptString(inv.dueDate)
    case Incoterms => DumpOptString(inv.incoterms)
    case InvoiceNumber => DumpOptString(inv.invoiceNumber)
    case Items => DumpOptItems(inv.items)
    case Messers => DumpOptString(inv.messers)
    case Origin => DumpOptString(inv.origin)
    case PaymentTerms => DumpOptString(inv.paymentTerms)
    case PoNumber => DumpOptString(inv.poNumber)
    case SaleConditions => JArray(DumpStrings(inv.saleConditions))
    case SalesOrder => DumpOptString(inv.salesOrder)
    case SapNumber => DumpOptString(inv.sapNumber)
    case TotalCases => JInt(inv.totalCases)
    case TotalQuantity => JString(inv.totalQuantity)
    case TotalValue => JFloat(inv.totalValue)
  }

  /** `json.loads(inv.model_dump_json())`: every field under its own name,
      absent optional fields as null, nested records as dicts. */
  function DumpInvoice(inv: Invoice): (d: map<Key, Json>)
    ensures d.Keys == INVOICE_KEYS
  {
    map f: InvoiceField :: InvoiceKey(f) := DumpField(inv, f)
  }

  // ----- The shape each model demands of a JSON value -----

  predicate IsOptString(o: map<Key, Json>, key: Key) {
    key !in o || o[key].JNull? || o[key].JString?
  }

  predicate HasString(o: map<Key, Json>, key: Key) {
    key in o && o[key].JString?
  }

  predicate HasInt(o: map<Key, Json>, key: Key) {
    key in o && o[key].JInt?
  }

  predicate HasFloat(o: map<Key, Json>, key: Key) {
    key in o && o[key].JFloat?
  }

  predicate AllStrings(js: seq<Json>) {
    forall i :: 0 <= i < |js| ==> js[i].JString?
  }

  predicate HasStrings(o: map<Key, Json>, key: Key) {
    key in o && o[key].JArray? && AllStrings(o[key].elems)
  }

  predicate ConformsAddress(v: Json) {
    && v.JObject?
    && IsOptString(v.fields, AddressKey(City))
    && IsOptString(v.fields, AddressKey(Country))
    && IsOptString(v.fields, AddressKey(State))
    && IsOptString(v.fields, AddressKey(Street))
    && IsOptString(v.fields, AddressKey(ZipCode))
  }

  predicate IsOptAddress(o: map<Key, Json>, key: Key) {
    key !in o || o[key].JNull? || ConformsAddress(o[key])
  }

  predicate ConformsItem(v: Json) {
    && v.JObject?
    && HasInt(v.fields, ItemKey(Cases))
    && HasString(v.fields, ItemKey(Code))
    && HasString(v.fields, ItemKey(GoodsDescriptions))
    && HasString(v.fields, ItemKey(Quantity))
    && HasFloat(v.fields, ItemKey(UnitValue))
    && HasFloat(v.fields, ItemKey(ItemTotalValue))
  }

  predicate AllItems(js: seq<Json>) {
    forall i :: 0 <= i < |js| ==> ConformsItem(js[i])
  }

  predicate IsOptItems(o: map<Key, Json>, key: Key) {
    key !in o || o[key].JNull? || (o[key].JArray? && AllItems(o[key].elems))
  }

  /** Whether the value `o` holds for field `f` (if any) is acceptable for
      the field's declared type; an optional field may be absent or null. */
  predicate FieldOk(o: map<Key, Json>, f: InvoiceField) {
    var key := InvoiceKey(f);
    match ShapeOf(f)
    case OptString => IsOptString(o, key)
    case OptAddress => IsOptAddress(o, key)
    case OptItems => IsOptItems(o, key)
    case RequiredStrings => HasStrings(o, key)
    case RequiredInt => HasInt(o, key)
    case RequiredStr => HasString(o, key)
    case RequiredFloat => HasFloat(o, key)
  }

  /** The shape check of Invoice: the required fields present with their
      types, every optional field absent, null or of its type. Keys outside the
      schema are ignored. */
  predicate ConformsInvoice(v: Json) {
    v.JObject? && forall f: InvoiceField :: FieldOk(v.fields, f)
  }

  // ----- Validation: building a record from a JSON value -----

  /** One entry of a pydantic ValidationError: the field and why it failed. */
  datatype SchemaError =
    | NotAnObject          // the value to validate is not a dict at all
    | Missing(field: Key)  // a required field is absent
    | WrongType(field: Key)  // a field is present with a value of the wrong type

  /** The error a single field contributes, if any. */
  function FieldErrors(o: map<Key, Json>, f: InvoiceField): (errs: seq<SchemaError>)
    ensures errs == [] <==> FieldOk(o, f)
    ensures |errs| <= 1
    ensures errs != [] && InvoiceKey(f) !in o && Required(f) ==> errs == [Missing(InvoiceKey(f))]
    ensures errs != [] && InvoiceKey(f) in o ==> errs == [WrongType(InvoiceKey(f))]
    ensures forall e :: e in errs ==> (e.Missing? || e.WrongType?) && e.field == InvoiceKey(f)
  {
    if FieldOk(o, f) then []
    else if Required(f) && InvoiceKey(f) !in o then [Missing(InvoiceKey(f))]
    else [WrongType(InvoiceKey(f))]
  }

  /** The errors of the fields `fs`, in that order. */
  function ErrorsIn(o: map<Key, Json>, fs: seq<InvoiceField>): seq<SchemaError>
    decreases |fs|
  {
    if fs == [] then [] else ErrorsIn(o, fs[..|fs| - 1]) + FieldErrors(o, fs[|fs| - 1])
  }

  /** No errors exactly when every field passes. */
  lemma {:induction false} ErrorsInEmpty(o: map<Key, Json>, fs: seq<InvoiceField>)
    ensures ErrorsIn(o, fs) == [] <==> forall i :: 0 <= i < |fs| ==> FieldOk(o, fs[i])
    decreases |fs|
  {
    if fs != [] {
      var init := fs[..|fs| - 1];
      ErrorsInEmpty(o, init);
      assert forall i :: 0 <= i < |init| ==> init[i] == fs[i];
    }
  }

  /** Every field's error is among the errors. */
  lemma {:induction false} ErrorsInHas(o: map<Key, Json>, fs: seq<InvoiceField>)
    ensures forall i, e :: 0 <= i < |fs| && e in FieldErrors(o, fs[i]) ==> e in ErrorsIn(o, fs)
    decreases |fs|
  {
    if fs != [] {
      var init := fs[..|fs| - 1];
      ErrorsInHas(o, init);
      assert forall i :: 0 <= i < |init| ==> init[i] == fs[i];
    }
  }

  /** Every error comes from one of the fields. */
  lemma {:induction false} ErrorsInFrom(o: map<Key, Json>, fs: seq<InvoiceField>)
    ensures forall e :: e in ErrorsIn(o, fs) ==> exists i :: 0 <= i < |fs| && e in FieldErrors(o, fs[i])
    decreases |fs|
  {
    if fs != [] {
      var init := fs[..|fs| - 1];
      ErrorsInFrom(o, init);
      forall e | e in ErrorsIn(o, fs) ensures exists i :: 0 <= i < |fs| && e in FieldErrors(o, fs[i]) {
        if e in ErrorsIn(o, init) {
          var i :| 0 <= i < |init| && e in FieldErrors(o, init[i]);
          assert init[i] == fs[i];
        } else {
          assert e in FieldErrors(o, fs[|fs| - 1]);
        }
      }
    }
  }

  /** Where field `f` stands in the declaration order. */
  function Position(f: InvoiceField): (i: nat)
    ensures i < |FIELD_ORDER| && FIELD_ORDER[i] == f
  {
    match f
    case AquachileAddress => 0
    case Container => 1
    case Currency => 2
    case CustomerAddress => 3
    case CustomerId => 4
    case Date => 5
    case DueDate => 6
    case Incoterms => 7
    case InvoiceNumber => 8
    case Items => 9
    case Messers => 10
    case Origin => 11
    case PaymentTerms => 12
    case PoNumber => 13
    case SaleConditions => 14
    case SalesOrder => 15
    case SapNumber => 16
    case TotalCases => 17
    case TotalQuantity => 18
    case TotalValue => 19
  }

  /** The errors of every field of `o` that fails the Invoice shape check;
      pydantic reports them all at once. */
  function InvoiceErrors(o: map<Key, Json>): (errs: seq<SchemaError>)
    ensures errs == [] <==> ConformsInvoice(JObject(o))
    ensures forall f: InvoiceField :: forall e :: e in FieldErrors(o, f) ==> e in errs
    ensures forall e :: e in errs ==> exists f: InvoiceField :: e in FieldErrors(o, f)
  {
    var errs := ErrorsIn(o, FIELD_ORDER);
    ErrorsInEmpty(o, FIELD_ORDER);
    ErrorsInHas(o, FIELD_ORDER);
    ErrorsInFrom(o, FIELD_ORDER);
    assert (forall f: InvoiceField :: FieldOk(o, f)) ==> errs == [];
    forall f: InvoiceField | errs == [] ensures FieldOk(o, f) {
      var i := Position(f);
    }
    forall f: InvoiceField, e | e in FieldErrors(o, f) ensures e in errs {
      var i := Position(f);
    }
    errs
  }

  /** An optional string field as validated: null and absent both give None. */
  function StringField(o: map<Key, Json>, key: Key): Option<string> {
    if key in o && o[key].JString? then Some(o[key].s) else None
  }

  function AddressOf(o: map<Key, Json>): Address {
    Address(StringField(o, AddressKey(City)), StringField(o, AddressKey(Country)), StringField(o, AddressKey(State)),
            StringField(o, AddressKey(Street)), StringField(o, AddressKey(ZipCode)))
  }

  function AddressField(o: map<Key, Json>, key: Key): Option<Address> {
    if key in o && o[key].JObject? then Some(AddressOf(o[key].fields)) else None
  }

  function ItemOf(v: Json): Item
    requires ConformsItem(v)
  {
    var o := v.fields;
    Item(o[ItemKey(Cases)].i, o[ItemKey(Code)].s, o[ItemKey(GoodsDescriptions)].s, o[ItemKey(Quantity)].s,
         o[ItemKey(UnitValue)].f, o[ItemKey(ItemTotalValue)].f)
  }

  /** The items of a conforming JSON list, in the list's order. */
  function ItemsOf(js: seq<Json>): (items: seq<Item>)
    requires AllItems(js)
    ensures |items| == |js|
  {
    seq(|js|, i requires 0 <= i < |js| => ItemOf(js[i]))
  }

  function ItemsField(o: map<Key, Json>, key: Key): Option<seq<Item>>
    requires IsOptItems(o, key)
  {
    if key in o && o[key].JArray? then Some(ItemsOf(o[key].elems)) else None
  }

  function StringsOf(js: seq<Json>): (ss: seq<string>)
    requires AllStrings(js)
    ensures |ss| == |js|
  {
    seq(|js|, i requires 0 <= i < |js| => js[i].s)
  }

  /** The record a conforming JSON object describes. */
  function InvoiceOf(o: map<Key, Json>): Invoice
    requires ConformsInvoice(JObject(o))
  {
    assert FieldOk(o, Items) && FieldOk(o, SaleConditions) && FieldOk(o, TotalCases)
      && FieldOk(o, TotalQuantity) && FieldOk(o, TotalValue);
    Invoice(
      AddressField(o, InvoiceKey(AquachileAddress)),
      StringField(o, InvoiceKey(Container)),
      StringField(o, InvoiceKey(Currency)),
      AddressField(o, InvoiceKey(CustomerAddress)),
      StringField(o, InvoiceKey(CustomerId)),
      StringField(o, InvoiceKey(Date)),
      StringField(o, InvoiceKey(DueDate)),
      StringField(o, InvoiceKey(Incoterms)),
      StringField(o, InvoiceKey(InvoiceNumber)),
      ItemsField(o, InvoiceKey(Items)),
      StringField(o, InvoiceKey(Messers)),
      StringField(o, InvoiceKey(Origin)),
      StringField(o, InvoiceKey(PaymentTerms)),
      StringField(o, InvoiceKey(PoNumber)),
      StringsOf(o[InvoiceKey(SaleConditions)].elems),
      StringField(o, InvoiceKey(SalesOrder)),
      StringField(o, InvoiceKey(SapNumber)),
      o[InvoiceKey(TotalCases)].i,
      o[InvoiceKey(TotalQuantity)].s,
      o[InvoiceKey(TotalValue)].f)
  }

  /** `Invoice.model_validate(v)`: the record, or every field that does not
      conform. */
  function ParseInvoice(v: Json): (r: Result<Invoice, seq<SchemaError>>)
    ensures r.Ok? <==> ConformsInvoice(v)
    ensures r.Err? ==> r.error != []
  {
    if !v.JObject? then Err([NotAnObject])
    else
      var errs := InvoiceErrors(v.fields);
      if errs == [] then Ok(InvoiceOf(v.fields)) else Err(errs)
  }

  // ----- Properties of the schema -----

  lemma AddressRoundTrip(a: Address)
    ensures ConformsAddress(JObject(DumpAddress(a)))
    ensures AddressOf(DumpAddress(a)) == a
  {
  }

  lemma ItemRoundTrip(it: Item)
    ensures ConformsItem(JObject(DumpItem(it)))
    ensures ItemOf(JObject(DumpItem(it))) == it
  {
  }

  /** Dumping a list of items and validating it again gives back the same
      items, in the same order. */
  lemma ItemsRoundTrip(items: seq<Item>)
    ensures AllItems(DumpItems(items))
    ensures ItemsOf(DumpItems(items)) == items
  {
    forall i | 0 <= i < |items| ensures ConformsItem(DumpItems(items)[i]) {
      ItemRoundTrip(items[i]);
    }
    forall i | 0 <= i < |items| ensures ItemsOf(DumpItems(items))[i] == items[i] {
      ItemRoundTrip(items[i]);
    }
  }

  lemma StringsRoundTrip(ss: seq<string>)
    ensures AllStrings(DumpStrings(ss))
    ensures StringsOf(DumpStrings(ss)) == ss
  {
  }

  /** The dump of each field passes that field's shape check. */
  lemma DumpFieldOk(inv: Invoice, f: InvoiceField)
    ensures FieldOk(DumpInvoice(inv), f)
  {
    assert DumpInvoice(inv)[InvoiceKey(f)] == DumpField(inv, f);
    match f
    case AquachileAddress =>
      if inv.aquachileAddress.Some? { AddressRoundTrip(inv.aquachileAddress.value); }
    case CustomerAddress =>
      if inv.customerAddress.Some? { AddressRoundTrip(inv.customerAddress.value); }
    case Items =>
      if inv.items.Some? { ItemsRoundTrip(inv.items.value); }
    case SaleConditions => StringsRoundTrip(inv.saleConditions);
    case _ =>
  }

  /** Every dump passes the shape check. */
  lemma DumpConforms(inv: Invoice)
    ensures ConformsInvoice(JObject(DumpInvoice(inv)))
  {
    forall f: InvoiceField ensures FieldOk(DumpInvoice(inv), f) {
      DumpFieldOk(inv, f);
    }
  }

  /** The field readers, applied to a dump, give back the first five fields of the record. */
  lemma ReadDumpedFields1(inv: Invoice)
    ensures var d := DumpInvoice(inv);
      && AddressField(d, InvoiceKey(AquachileAddress)) == inv.aquachileAddress
      && StringField(d, InvoiceKey(Container)) == inv.container
      && StringField(d, InvoiceKey(Currency)) == inv.currency
      && AddressField(d, InvoiceKey(CustomerAddress)) == inv.customerAddress
      && StringField(d, InvoiceKey(CustomerId)) == inv.customerId
  {
    if inv.aquachileAddress.Some? { AddressRoundTrip(inv.aquachileAddress.value); }
    if inv.customerAddress.Some? { AddressRoundTrip(inv.customerAddress.value); }
  }

  /** The field readers, applied to a dump, give back fields six to ten of the record. */
  lemma ReadDumpedFields2(inv: Invoice)
    ensures var d := DumpInvoice(inv);
      && StringField(d, InvoiceKey(Date)) == inv.date
      && StringField(d, InvoiceKey(DueDate)) == inv.dueDate
      && StringField(d, InvoiceKey(Incoterms)) == inv.incoterms
      && StringField(d, InvoiceKey(InvoiceNumber)) == inv.invoiceNumber
      && d[InvoiceKey(Items)] == DumpOptItems(inv.items)
  {
  }

  /** The field readers, applied to a dump, give back fields eleven to fifteen of the record. */
  lemma ReadDumpedFields3(inv: Invoice)
    ensures var d := DumpInvoice(inv);
      && StringField(d, InvoiceKey(Messers)) == inv.messers
      && StringField(d, InvoiceKey(Origin)) == inv.origin
      && StringField(d, InvoiceKey(PaymentTerms)) == inv.paymentTerms
      && StringField(d, InvoiceKey(PoNumber)) == inv.poNumber
      && d[InvoiceKey(SaleConditions)] == JArray(DumpStrings(inv.saleConditions))
  {
  }

  /** The field readers, applied to a dump, give back the last five fields of the record. */
  lemma ReadDumpedFields4(inv: Invoice)
    ensures var d := DumpInvoice(inv);
      && StringField(d, InvoiceKey(SalesOrder)) == inv.salesOrder
      && StringField(d, InvoiceKey(SapNumber)) == inv.sapNumber
      && d[InvoiceKey(TotalCases)] == JInt(inv.totalCases)
      && d[InvoiceKey(TotalQuantity)] == JString(inv.totalQuantity)
      && d[InvoiceKey(TotalValue)] == JFloat(inv.totalValue)
  {
  }

  /** Building a record from a dump gives back the dumped record. */
  lemma BuildFromDump(inv: Invoice)
    ensures ConformsInvoice(JObject(DumpInvoice(inv))) && InvoiceOf(DumpInvoice(inv)) == inv
  {
    DumpConforms(inv);
    ReadDumpedFields1(inv);
    ReadDumpedFields2(inv);
    ReadDumpedFields3(inv);
    ReadDumpedFields4(inv);
    if inv.items.Some? { ItemsRoundTrip(inv.items.value); }
    StringsRoundTrip(inv.saleConditions);
  }

  /** Writing a record as JSON and validating that JSON again gives back the
      same record: null stays distinct from an empty list, every value is kept. */
  lemma InvoiceRoundTrip(inv: Invoice)
    ensures ParseInvoice(JObject(DumpInvoice(inv))) == Ok(inv)
  {
    BuildFromDump(inv);
  }

  /** Validation carries values through unconverted: each optional string
      field of the record dumps back to exactly the value it was read from
      (null when the key was absent), and so do the three required scalars. */
  lemma ParsePreservesScalars(o: map<Key, Json>, f: InvoiceField)
    requires ConformsInvoice(JObject(o))
    requires ShapeOf(f) in {OptString, RequiredInt, RequiredStr, RequiredFloat}
    ensures ParseInvoice(JObject(o)).Ok? && ParseInvoice(JObject(o)).value == InvoiceOf(o)
    ensures DumpInvoice(InvoiceOf(o))[InvoiceKey(f)] == Lookup(o, InvoiceKey(f))
  {
    DumpAt(InvoiceOf(o), f);
    ScalarReadBack(o, f);
  }

  /** The dump of a record holds each field's dumped value under its name. */
  lemma DumpAt(inv: Invoice, f: InvoiceField)
    ensures InvoiceKey(f) in DumpInvoice(inv) && DumpInvoice(inv)[InvoiceKey(f)] == DumpField(inv, f)
  {
  }

  lemma ScalarReadBack(o: map<Key, Json>, f: InvoiceField)
    requires ConformsInvoice(JObject(o))
    requires ShapeOf(f) in {OptString, RequiredInt, RequiredStr, RequiredFloat}
    ensures DumpField(InvoiceOf(o), f) == Lookup(o, InvoiceKey(f))
  {
    assert FieldOk(o, f);
  }

  /** Validation keeps the sale conditions of any valid object, in order. */
  lemma ParsePreservesConditions(o: map<Key, Json>)
    requires ConformsInvoice(JObject(o))
    ensures ParseInvoice(JObject(o)).Ok? && ParseInvoice(JObject(o)).value == InvoiceOf(o)
    ensures InvoiceKey(SaleConditions) in o
    ensures JArray(DumpStrings(InvoiceOf(o).saleConditions)) == o[InvoiceKey(SaleConditions)]
  {
    assert FieldOk(o, SaleConditions);
    var js := o[InvoiceKey(SaleConditions)].elems;
    assert DumpStrings(StringsOf(js)) == js;
  }

  /** The address an address field of a valid object validates to: None for
      an absent or null value; otherwise every one of its five fields reads
      back as the object's own value under that name (null when absent). */
  lemma ParsePreservesAddress(o: map<Key, Json>, f: InvoiceField)
    requires ConformsInvoice(JObject(o)) && ShapeOf(f) == OptAddress
    ensures ParseInvoice(JObject(o)).Ok? && ParseInvoice(JObject(o)).value == InvoiceOf(o)
    ensures var a := if f == CustomerAddress then InvoiceOf(o).customerAddress else InvoiceOf(o).aquachileAddress;
            && (a.None? <==> Lookup(o, InvoiceKey(f)) == JNull)
            && (a.Some? ==> InvoiceKey(f) in o && o[InvoiceKey(f)].JObject?
                            && forall g: AddressField ::
                                 DumpAddressField(a.value, g) == Lookup(o[InvoiceKey(f)].fields, AddressKey(g)))
  {
    assert FieldOk(o, f);
    AddressReadBack(o, InvoiceKey(f));
  }

  /** An address-shaped entry of a dict validates to None exactly when it is
      absent or null, and otherwise to the address whose fields read back. */
  lemma AddressReadBack(o: map<Key, Json>, key: Key)
    requires IsOptAddress(o, key)
    ensures var a := AddressField(o, key);
            && (a.None? <==> Lookup(o, key) == JNull)
            && (a.Some? ==> key in o && o[key].JObject?
                            && forall g: AddressField :: DumpAddressField(a.value, g) == Lookup(o[key].fields, AddressKey(g)))
  {
  }

  /** Each field of a conforming item dumps back to the item's own value. */
  lemma ItemFieldReadBack(v: Json, g: ItemField)
    requires ConformsItem(v)
    ensures v.JObject? && ItemKey(g) in v.fields && DumpItemField(ItemOf(v), g) == v.fields[ItemKey(g)]
  {
  }

  /** The item list of any valid object: None for an absent or null value;
      otherwise one item per element, in the list's order, each field of
      each item read back unchanged. */
  lemma ParsePreservesItems(o: map<Key, Json>)
    requires ConformsInvoice(JObject(o))
    ensures ParseInvoice(JObject(o)).Ok? && ParseInvoice(JObject(o)).value == InvoiceOf(o)
    ensures var items := InvoiceOf(o).items;
            && (items.None? <==> Lookup(o, InvoiceKey(Items)) == JNull)
            && (items.Some? ==>
                  && InvoiceKey(Items) in o && o[InvoiceKey(Items)].JArray?
                  && |items.value| == |o[InvoiceKey(Items)].elems|
                  && forall i, g: ItemField :: 0 <= i < |items.value| ==>
                       o[InvoiceKey(Items)].elems[i].JObject? && ItemKey(g) in o[InvoiceKey(Items)].elems[i].fields
                       && DumpItemField(items.value[i], g) == o[InvoiceKey(Items)].elems[i].fields[ItemKey(g)])
  {
    assert FieldOk(o, Items);
    ItemsReadBack(o, InvoiceKey(Items));
  }

  /** An item-list entry of a dict validates to None exactly when it is
      absent or null, and otherwise to one item per element whose fields read
      back unchanged. */
  lemma ItemsReadBack(o: map<Key, Json>, key: Key)
    requires IsOptItems(o, key)
    ensures var items := ItemsField(o, key);
            && (items.None? <==> Lookup(o, key) == JNull)
            && (items.Some? ==>
                  && key in o && o[key].JArray? && |items.value| == |o[key].elems|
                  && forall i, g: ItemField :: 0 <= i < |items.value| ==>
                       o[key].elems[i].JObject? && ItemKey(g) in o[key].elems[i].fields
                       && DumpItemField(items.value[i], g) == o[key].elems[i].fields[ItemKey(g)])
  {
    var items := ItemsField(o, key);
    if items.Some? {
      var js := o[key].elems;
      forall i, g: ItemField | 0 <= i < |items.value|
        ensures js[i].JObject? && ItemKey(g) in js[i].fields && DumpItemField(items.value[i], g) == js[i].fields[ItemKey(g)]
      {
        assert items.value[i] == ItemOf(js[i]);
        ItemFieldReadBack(js[i], g);
      }
    }
  }

  /** A JSON object that lacks a required field is rejected with that field
      reported missing. */
  lemma MissingRequiredRejected(o: map<Key, Json>, f: InvoiceField)
    requires Required(f) && InvoiceKey(f) !in o
    ensures ParseInvoice(JObject(o)).Err?
    ensures Missing(InvoiceKey(f)) in ParseInvoice(JObject(o)).error
  {
    assert FieldErrors(o, f) == [Missing(InvoiceKey(f))];
  }

  /** The object holding only the required fields. */
  function RequiredOnly(conditions: seq<string>, cases: int, quantity: string, value: Float): map<Key, Json> {
    map[InvoiceKey(SaleConditions) := JArray(DumpStrings(conditions)),
        InvoiceKey(TotalCases) := JInt(cases),
        InvoiceKey(TotalQuantity) := JString(quantity),
        InvoiceKey(TotalValue) := JFloat(value)]
  }

  lemma RequiredOnlyConforms(conditions: seq<string>, cases: int, quantity: string, value: Float)
    ensures ConformsInvoice(JObject(RequiredOnly(conditions, cases, quantity, value)))
  {
    var m := RequiredOnly(conditions, cases, quantity, value);
    StringsRoundTrip(conditions);
    forall f: InvoiceField ensures FieldOk(m, f) {
      if !Required(f) {
        assert InvoiceKey(f) !in m;
      }
    }
  }

  /** The record built from the required fields alone. */
  lemma RequiredOnlyRecord(conditions: seq<string>, cases: int, quantity: string, value: Float)
    ensures ConformsInvoice(JObject(RequiredOnly(conditions, cases, quantity, value)))
    ensures InvoiceOf(RequiredOnly(conditions, cases, quantity, value))
         == Invoice(None, None, None, None, None, None, None, None, None, None, None,
                    None, None, None, conditions, None, None, cases, quantity, value)
  {
    RequiredOnlyConforms(conditions, cases, quantity, value);
    StringsRoundTrip(conditions);
    var r := InvoiceOf(RequiredOnly(conditions, cases, quantity, value));
    assert r.saleConditions == conditions;
  }

  /** The smallest valid record: only the required fields present, so every
      optional field, both addresses and the item list are None. */
  lemma RequiredFieldsSuffice(conditions: seq<string>, cases: int, quantity: string, value: Float)
    ensures var r := ParseInvoice(JObject(RequiredOnly(conditions, cases, quantity, value)));
            r.Ok? && r.value == Invoice(None, None, None, None, None, None, None, None, None, None, None,
                                        None, None, None, conditions, None, None, cases, quantity, value)
  {
    RequiredOnlyRecord(conditions, cases, quantity, value);
  }

  /** An absent item list and a null one give None; an empty one gives Some([]). */
  lemma ItemsAbsentNullOrEmpty(o: map<Key, Json>)
    requires ConformsInvoice(JObject(o))
    ensures ParseInvoice(JObject(o)).Ok?
    ensures InvoiceKey(Items) !in o ==> ParseInvoice(JObject(o)).value.items == None
    ensures InvoiceKey(Items) in o && o[InvoiceKey(Items)] == JNull ==> ParseInvoice(JObject(o)).value.items == None
    ensures InvoiceKey(Items) in o && o[InvoiceKey(Items)] == JArray([]) ==> ParseInvoice(JObject(o)).value.items == Some([])
  {
  }

  /** Two objects whose fields fail in the same way report the same errors. */
  lemma {:induction false} ErrorsInAgree(o: map<Key, Json>, o': map<Key, Json>, fs: seq<InvoiceField>)
    requires forall f: InvoiceField :: FieldErrors(o, f) == FieldErrors(o', f)
    ensures ErrorsIn(o, fs) == ErrorsIn(o', fs)
    decreases |fs|
  {
    if fs != [] {
      ErrorsInAgree(o, o', fs[..|fs| - 1]);
    }
  }

  /** Whether two objects hold the same value, or none, under every Invoice
      field name. */
  predicate AgreeOnFields(o: map<Key, Json>, o': map<Key, Json>) {
    forall f: InvoiceField ::
      (InvoiceKey(f) in o <==> InvoiceKey(f) in o') && (InvoiceKey(f) in o ==> o[InvoiceKey(f)] == o'[InvoiceKey(f)])
  }

  /** Objects that agree on the Invoice fields both pass the shape check or
      both fail it. */
  lemma SameFieldsConform(o: map<Key, Json>, o': map<Key, Json>)
    requires AgreeOnFields(o, o')
    ensures ConformsInvoice(JObject(o')) <==> ConformsInvoice(JObject(o))
  {
    forall f: InvoiceField ensures FieldOk(o', f) <==> FieldOk(o, f) {
    }
  }

  /** Objects that agree on the Invoice fields read the same under each. */
  lemma SameFieldsSameReads(o: map<Key, Json>, o': map<Key, Json>)
    requires AgreeOnFields(o, o')
    ensures forall f: InvoiceField ::
              && StringField(o', InvoiceKey(f)) == StringField(o, InvoiceKey(f))
              && AddressField(o', InvoiceKey(f)) == AddressField(o, InvoiceKey(f))
              && Lookup(o', InvoiceKey(f)) == Lookup(o, InvoiceKey(f))
  {
    forall f: InvoiceField ensures StringField(o', InvoiceKey(f)) == StringField(o, InvoiceKey(f))
      && AddressField(o', InvoiceKey(f)) == AddressField(o, InvoiceKey(f))
      && Lookup(o', InvoiceKey(f)) == Lookup(o, InvoiceKey(f))
    {
    }
  }

  /** Objects that agree on the Invoice fields validate to the same record. */
  lemma SameFieldsSameRecord(o: map<Key, Json>, o': map<Key, Json>)
    requires AgreeOnFields(o, o') && ConformsInvoice(JObject(o)) && ConformsInvoice(JObject(o'))
    ensures InvoiceOf(o') == InvoiceOf(o)
  {
    var r, r' := InvoiceOf(o), InvoiceOf(o');
    SameFieldsSameReads(o, o');
    assert FieldOk(o, Items) && FieldOk(o, SaleConditions) && FieldOk(o, TotalCases)
      && FieldOk(o, TotalQuantity) && FieldOk(o, TotalValue);
    assert r'.items == r.items;
    assert r'.saleConditions == r.saleConditions;
  }

  /** Objects that agree on the Invoice fields report the same errors. */
  lemma SameFieldsSameErrors(o: map<Key, Json>, o': map<Key, Json>)
    requires AgreeOnFields(o, o')
    ensures InvoiceErrors(o') == InvoiceErrors(o)
  {
    forall f: InvoiceField ensures FieldErrors(o, f) == FieldErrors(o', f) {
      assert FieldOk(o, f) == FieldOk(o', f);
    }
    ErrorsInAgree(o, o', FIELD_ORDER);
  }

  /** Keys outside the schema do not affect validation: neither the errors
      reported nor the record built. */
  lemma ExtraKeysIgnored(o: map<Key, Json>, extra: map<Key, Json>)
    requires extra.Keys !! INVOICE_KEYS
    ensures ParseInvoice(JObject(o + extra)) == ParseInvoice(JObject(o))
  {
    forall f: InvoiceField ensures InvoiceKey(f) !in extra {
      assert InvoiceKey(f) in INVOICE_KEYS;
    }
    SameFieldsSameErrors(o, o + extra);
    SameFieldsConform(o, o + extra);
    if ConformsInvoice(JObject(o)) {
      SameFieldsSameRecord(o, o + extra);
    }
  }
}
