# Invoice extraction pipeline: schema, flattening and storage

This project models the deterministic core of an invoice extraction tool.
It is written in Dafny and verified.

The tool works in four steps:
1. It reads the text of each PDF.
2. It asks a language model to turn the text into an `Invoice` record.
3. It writes each record as a JSON file named after the PDF.
4. It stores each record in an SQLite database with two tables, `invoices` and `items`.

The model covers:

- **The record schema** (`DocTemplate`). `Item`, `Address` and `Invoice` mirror the pydantic models.
  - Python's optional fields become `Option`.
  - `items` is an `Option<seq<Item>>`, so an absent list and an empty list stay distinct.
  - A float is an opaque bit pattern with only its truthiness.
  - `DumpInvoice` is `json.loads(model_dump_json())`: a dict holding every field under its own name.
  - `ParseInvoice` is `model_validate`: the shape check, which reports each failing top-level field once, and then the record.
- **Python and sqlite3 values** (`PyJson`, `Sql`).
  - `PyJson` holds the decoded JSON values, the exceptions the code can raise, and Python's `.get`, `[]` and truthiness.
  - `Sql` holds sqlite3's parameter binding:
    - a bool binds as 1 or 0;
    - an int outside 64 bits raises OverflowError;
    - a list or dict raises ProgrammingError.
  - `Sql` also holds the column lists of the two tables `init_db` creates.
- **The pure half of `save_to_db`** (`Flatten`).
  - The invoices row and the item rows are computed from the dumped dict, with Python's own `.get` semantics.
  - Reference definitions state the same rows in terms of the typed record (`ExpectedInvoiceRow`, `ExpectedItemRows`). Lemmas connect the two.
  - Because of this, the quirks of the code are proved rather than assumed:
    - the company columns read key `"address"`, which the dump never holds, so they are always null;
    - `customer_phone` is always null;
    - a null `customer_address` makes `.get` fail with AttributeError;
    - an oversized case count fails to bind with OverflowError.
- **The database** (`Database`).
  - `Save` is `save_to_db` as a function on the database. It does an INSERT OR REPLACE keyed by `invoice_number`, then appends one item row per item under fresh AUTOINCREMENT ids. If any statement raises, the database is left unchanged.
  - Rows whose `invoice_number` is NULL never conflict under the TEXT PRIMARY KEY, so they are kept in a list of their own.
  - `Store` is a class whose fields are the two tables and the id counter. Its methods run the statements one at a time and roll back on an error. `SaveToDb` is proved against `Save`, `Execute` against `SaveData`, `InsertOrReplace` against `Upsert`, and `InsertItemList` and `InsertItems` against `ItemRows` and `ItemRowsFrom`.
- **The driver** (`Pipeline`).
  - `read_pdf` appends each page's text and a newline.
  - `process_pdfs` builds one prompt per text, using a prompt function passed in as a parameter.
  - `Path.stem` and the JSON file name come from the PDF's name.
  - `save_results` walks `zip(pdf_files, results)`. For each pair it writes the JSON file, then stores the record. The first exception ends the loop.
  - `Run` states the loop for any storing step. `OutputDir.SaveResults` is the class and loop version, proved against `Run` with `Save` as the step.

Some behaviour of the code is easy to miss. The model follows the code:

- There is no addresses table. The addresses are inlined into six `company_*` and six `customer_*` columns of `invoices`.
- Item rows are never deleted. Re-processing an invoice replaces its invoices row, but saving a record twice doubles its item rows (`SaveTwice`).
- The items table has no `item_total_value` column, although `Item` has that field. `Address` has no phone field, so both `*_phone` columns are always null.
- A record whose `invoice_number` is None gets no fallback key. Its invoices row has a NULL key, never conflicts with another row and is never replaced. Its item rows are tagged NULL.

## Model

| member | source | states |
|---|---|---|
| DocTemplate.DumpItem | doc_template.py:6-26 | the dump of an item holds exactly its six fields |
| DocTemplate.DumpAddress | doc_template.py:29-49 | the dump of an address holds exactly its five fields, with no phone |
| DocTemplate.DumpInvoice | doc_template.py:52-116 | the dump of a record holds exactly the twenty Invoice fields, absent ones included as null |
| DocTemplate.FieldErrors | doc_template.py:52-116 | a field reports an error exactly when its value fails the field's shape check, and then exactly one, under the field's own name: Missing for an absent required field, WrongType for a present value of the wrong type |
| DocTemplate.ErrorsInFrom | doc_template.py:52-116 | every error in the list of a sequence of fields is the error of one of those fields |
| DocTemplate.InvoiceErrors | doc_template.py:52-116 | the error list is empty exactly when the object passes the shape check; it contains every field's error, and each of its errors is some field's error |
| DocTemplate.ParseInvoice | doc_template.py:52-116 | validation succeeds exactly when the object passes the shape check; a failure always reports at least one error |
| DocTemplate.AddressRoundTrip | doc_template.py:29-49 | a dumped address passes the shape check and reads back as the same address |
| DocTemplate.ItemRoundTrip | doc_template.py:6-26 | a dumped item passes the shape check and reads back as the same item |
| DocTemplate.ItemsRoundTrip | doc_template.py:84-86 | a dumped item list reads back as the same items, in the same order |
| DocTemplate.DumpConforms | doc_template.py:52-116 | every record's dump passes the shape check |
| DocTemplate.BuildFromDump | doc_template.py:52-116 | every dump passes the shape check, and the record built from it is the dumped record |
| DocTemplate.InvoiceRoundTrip | doc_template.py:52-116 | dumping a record and validating the dump gives back that record |
| DocTemplate.ParsePreservesScalars | doc_template.py:58-116 | every optional string and every required int, str or float field of a valid object is carried into the record unconverted, so dumping the record gives back the input's value under that field |
| DocTemplate.ParsePreservesConditions | doc_template.py:99-101 | a valid object's `sale_conditions` list validates to a list whose dump is that list, element by element and in order |
| DocTemplate.ParsePreservesAddress | doc_template.py:55-67 | each address field of a valid object validates to None exactly when it is absent or null; otherwise each of the five address fields dumps to the input's value under that name, null when absent |
| DocTemplate.AddressReadBack | doc_template.py:29-49 | an entry that passes the Address shape check validates to None exactly when it is absent or null, and otherwise to an address whose fields dump back to the entry's values |
| DocTemplate.ItemFieldReadBack | doc_template.py:6-26 | each of the six fields of an object that passes the Item shape check dumps back to the object's value |
| DocTemplate.ParsePreservesItems | doc_template.py:84-86 | a valid object's `items` validates to None exactly when it is absent or null; otherwise to one item per element, in order, each field dumping back to the element's value |
| DocTemplate.ItemsReadBack | doc_template.py:84-86 | an entry that passes the item-list shape check validates to None exactly when it is absent or null, and otherwise to one item per element whose fields dump back unchanged |
| DocTemplate.MissingRequiredRejected | doc_template.py:99-116 | an object lacking any of `sale_conditions`, `total_cases`, `total_quantity` or `total_value` is rejected, and the error names that field as missing |
| DocTemplate.RequiredFieldsSuffice | doc_template.py:52-116 | an object holding only the four required fields is valid, and every other field of the record is None |
| DocTemplate.ItemsAbsentNullOrEmpty | doc_template.py:84-86 | an absent or null `items` gives None and an empty list gives Some([]) |
| DocTemplate.SameFieldsConform | doc_template.py:52-116 | objects that agree on every Invoice field either both pass the shape check or both fail it |
| DocTemplate.SameFieldsSameRecord | doc_template.py:52-116 | valid objects that agree on every Invoice field give the same record |
| DocTemplate.SameFieldsSameErrors | doc_template.py:52-116 | objects that agree on every Invoice field report the same errors |
| DocTemplate.ExtraKeysIgnored | doc_template.py:52-116 | keys outside the schema change neither the record nor the errors |
| Sql.Bind | parser.py:138-151 | a parameter binds exactly when it is None, a bool, a 64-bit int, a float or a str; otherwise int raises OverflowError and list or dict raises ProgrammingError |
| Sql.BindThenFetch | parser.py:138-151 | a bound value reads back as itself, except that a bool reads back as 1 or 0 |
| Sql.FetchThenBind | parser.py:138-151 | every cell value that fits its storage class is what binding its read-back value gives |
| Sql.BindAll | parser.py:156-170 | a parameter tuple binds exactly when each of its members binds, element by element |
| Sql.FirstUnbindable | parser.py:156-170 | a tuple that fails to bind fails with the error of its first unbindable member |
| Sql.ColumnsMembership | parser.py:45-77 | the invoices columns are the 16 header fields, `pdf_filename`, and the six company and six customer address columns |
| Sql.InvoiceColumns | parser.py:45-77 | the table has 29 distinct columns, the `i`-th one named by the `i`-th name of the CREATE TABLE list, and every column is among them |
| Sql.ColumnNames | parser.py:45-77 | the CREATE TABLE list and the VALUES list both have 29 names, and at each position both name the column that stands there |
| Sql.ColumnIndex | parser.py:141-148 | every column has a position in the VALUES list that names it |
| Sql.ColumnPositions | parser.py:141-148 | positions and columns correspond one to one |
| PyJson.SchemaNames | doc_template.py:6-116 | a key spells one of the schema's field names exactly when it is a schema key; every other name is a key outside the schema |
| PyJson.KeyNameInjective | doc_template.py:6-116 | different keys have different names, so no dict can hold two entries under one name |
| Flatten.InvoiceValues | parser.py:104-136 | building the parameters fails with AttributeError exactly when an address lookup gives a non-dict; otherwise there is one parameter per column |
| Flatten.ParameterList | parser.py:141-148 | the `i`-th placeholder of the VALUES list names the column the table declares at position `i`, and the `i`-th parameter is that column's entry of `invoice_values` |
| Flatten.InvoiceRowOf | parser.py:138-151 | the inserted row binds each column's parameter |
| Flatten.ItemParameters | parser.py:162-169 | the parameter tuple of an item: KeyError without an `invoice_number` key, AttributeError when the item is not a dict, otherwise six values led by the invoice number |
| Flatten.ItemRowOf | parser.py:156-170 | an item's row exists exactly when its parameters exist and bind; it raises the parameters' error first, and the row takes the given id |
| Flatten.ItemRowsFrom | parser.py:155-170 | a loop that runs through gives one row per item |
| Flatten.ItemRows | parser.py:154-170 | an absent or falsy `items` inserts nothing; inserted rows come from a list, one per element, with ids counting up from the next free id |
| Flatten.RowsFromOk | parser.py:155-170 | the item loop runs through exactly when every item gives a row |
| Flatten.RowsFromAt | parser.py:155-170 | a successful loop holds each item's row at that item's position, with ids counting up |
| Flatten.FirstFailure | parser.py:155-170 | the first item that fails ends the loop with its error |
| Flatten.RowsFromFails | parser.py:155-170 | the loop fails exactly when it stops at an item, one whose predecessors all give rows and which does not, and the loop's error is that item's error |
| Flatten.PrefixFailure | parser.py:155-170 | a failure among the first `k` items is the failure of the whole loop |
| Flatten.RowsFromAll | parser.py:155-170 | when every item gives the row at its position, the loop gives exactly those rows |
| Flatten.ExpectedInvoiceRow | parser.py:104-151 | the row of a record in terms of the typed record has exactly the 29 columns |
| Flatten.ExpectedItemRows | parser.py:154-170 | the item rows of a record in terms of the typed record: one per item, none when the list is absent |
| Flatten.ItemRowsOf | parser.py:154-170 | one row per item in order, tagged with the invoice number, under consecutive ids |
| Flatten.ItemIds | parser.py:83 | a record's item rows take consecutive ids from the next free id |
| Flatten.ValuesOfRecord | parser.py:123-135 | for a dump, the parameters exist exactly when `customer_address` is set; the company lookup always gives `{}`; the customer lookup gives the dumped address |
| Flatten.HeaderOfRecord | parser.py:105-120 | each header column's parameter is the dumped field of the same name |
| Flatten.AddressOfRecord | parser.py:123-135 | every company column binds to null; each customer column binds to the customer address field, and `customer_phone` to null |
| Flatten.CellOfRecord | parser.py:104-136 | each column of a dumped record binds to its expected cell, unless the total case count does not fit 64 bits |
| Flatten.InvoiceRowOfRecord | parser.py:104-151 | the invoices row of a record is AttributeError without a customer address, OverflowError for an oversized total case count, and otherwise the expected row: the 16 header fields verbatim, the file name, the customer address, and null company and phone columns |
| Flatten.ItemRowOfDumped | parser.py:156-170 | a dumped item gives a row with the invoice number and five of its six fields, dropping `item_total_value`, or OverflowError for an oversized case count |
| Flatten.DumpedRowsFit | parser.py:154-170 | a dumped item list whose case counts fit gives one expected row per item |
| Flatten.DumpedRowsOverflow | parser.py:154-170 | a dumped item list with an oversized case count fails with OverflowError |
| Flatten.ItemRowsOfRecord | parser.py:154-170 | a record's item rows: none for an absent or empty list, otherwise one per item in order, unless some case count overflows |
| Database.Upsert | parser.py:138-151 | INSERT OR REPLACE leaves the items table and the id counter alone |
| Database.SaveData | parser.py:101-172 | the statements succeed exactly when the invoices row and the item rows can be built; then the earlier item rows stay as a prefix and the counter moves past the new ones |
| Database.Save | parser.py:96-172 | a successful `save_to_db` keeps the earlier item rows as a prefix and never moves the counter back |
| Database.UpsertEffect | parser.py:138-151 | after INSERT OR REPLACE, the key maps to the new row and every other key keeps its row; a row with a NULL key is one more row |
| Database.KeyOfRecordRow | parser.py:46 | the row of a record is keyed by the record's invoice number |
| Database.SaveResult | parser.py:96-172 | `save_to_db` succeeds exactly when the record has a customer address and all its case counts fit; otherwise it raises AttributeError or OverflowError; on success the database is the record's rows upserted and appended |
| Database.SaveInvoiceRow | parser.py:138-151 | a saved record's invoices row replaces any row with its number and leaves every other row alone; without a number it is one more row |
| Database.SaveItemRows | parser.py:154-170 | a saved record's item rows are appended after every earlier row, and the counter moves past them |
| Database.CompanyEmptyRow | parser.py:123-128 | a record's row holds null in every company column |
| Database.SaveKeepsCompanyEmpty | parser.py:123-128 | saving never puts data into a company column |
| Database.EmptyIsConsistent | parser.py:39-93 | a new database has increasing ids and no company data |
| Database.SaveKeepsIdsIncreasing | parser.py:83 | item ids stay increasing and below the counter, and the counter never decreases |
| Database.SaveAddsTaggedRows | parser.py:154-170 | saving adds one item row tagged with the invoice number per item and removes none |
| Database.SaveTwice | parser.py:138-170 | saving a record twice keeps one invoices row under its number and doubles its item rows |
| Database.Store.constructor | parser.py:39-93 | `init_db` on a new file gives empty tables and the first id 1 |
| Database.Store.Rollback | parser.py:98-172 | closing without a commit puts the tables back as they were |
| Database.Store.SaveToDb | parser.py:96-172 | the state after `save_to_db` is what `Save` gives; on an error the method fails with `Save`'s error and the state is unchanged |
| Database.Store.Execute | parser.py:101-172 | running the statements on a dumped dict gives the state of `SaveData`, or its error with the state unchanged |
| Database.Store.InsertOrReplace | parser.py:138-151 | the INSERT OR REPLACE changes the invoices table as `Upsert` does, and nothing else |
| Database.Store.InsertItemList | parser.py:154-170 | `if data.get("items")` and its loop append the rows of `ItemRows` or raise its error; after an error in the loop the rows of the items before the failing one have been appended and the counter moved past them, and a non-list value appends nothing; invoices are unchanged |
| Database.Store.InsertItems | parser.py:155-170 | the loop appends the rows of `ItemRowsFrom` under consecutive ids; on an error it stops at the first failing item, having appended exactly the rows of the items before it and moved the counter past them |
| Pipeline.Joined | parser.py:18-23 | the text is as long as the pages together plus one newline per page, and it is empty exactly when there are no pages |
| Pipeline.JoinedAppend | parser.py:20-22 | joining the pages of two documents gives the two texts concatenated |
| Pipeline.JoinedSingle | parser.py:20-22 | one page gives its text and a newline |
| Pipeline.JoinedPage | parser.py:20-22 | each page's text stands in the result right after the earlier pages' text, followed by a newline |
| Pipeline.ReadPdf | parser.py:18-23 | the loop computes `Joined` of the pages |
| Pipeline.ProcessPdfs | parser.py:26-36 | one prompt per PDF, in order, each made from that PDF's joined text |
| Pipeline.LastDot | parser.py:187 | the position found holds the last dot of the name, or there is no dot |
| Pipeline.Stem | parser.py:187 | the stem is a prefix of the name; when the last dot is neither the first nor the final character, the stem is the name up to that dot, and otherwise the stem is the whole name |
| Pipeline.JsonName | parser.py:187 | the JSON file name is the stem followed by `.json` |
| Pipeline.StemOfPdf | parser.py:187 | the stem of `<s>.pdf` is `s` |
| Pipeline.JsonNameShared | parser.py:187 | two PDFs share a JSON file exactly when they share a stem |
| Pipeline.PdfNamesDistinctFiles | parser.py:187 | distinct `<s>.pdf` names get distinct JSON files |
| Pipeline.Run | parser.py:185-193 | the loop ends without an exception exactly when storing every pair succeeds |
| Pipeline.WrittenNames | parser.py:185-189 | after the loop the directory holds the files it had and the JSON file of every pair, and no other |
| Pipeline.RunTruncates | parser.py:185 | pairs past the shorter list play no part |
| Pipeline.RunPasses | parser.py:185-193 | when every record stores, every pair's file is written and the database holds every record, stored in order |
| Pipeline.SaveAllStops | parser.py:185-193 | a loop whose storing fails stopped at a first pair that did not store: every record before it stored, and its error is the loop's |
| Pipeline.RunStopsAt | parser.py:185-193 | when record `k` is the first that fails to store, its file is still written, the loop stops with that error, and the database holds exactly the records before it |
| Pipeline.SavableStoresAll | parser.py:185-193 | with `save_to_db` as the step, the loop runs through when every paired record is savable |
| Pipeline.LastWriteWins | parser.py:187-189 | a JSON file holds the record of the last pair written under its name |
| Pipeline.Untouched | parser.py:185-189 | a file that no pair writes keeps its contents |
| Pipeline.WrittenFileReadsBack | parser.py:189 | each JSON file written validates back to the record it was written from |
| Pipeline.OutputDir.constructor | parser.py:177-182 | the directory keeps the files it had and uses the given database |
| Pipeline.OutputDir.SaveResults | parser.py:175-193 | the files, the database and the outcome after the loop are those of `Run` with `save_to_db` as the step |

## Left out

- The language model call. `llm.with_structured_output(...).batch(prompts)` is a foreign network client with non-deterministic output. `ProcessPdfs` stops at the prompts, and the prompt template is an uninterpreted function parameter.
- PDF text extraction. `PdfReader` and `page.extract_text()` are a foreign library, so a PDF is given as the sequence of its page texts.
- The SQLite engine. The connection, cursor, `closing`, `commit`, the DDL text, type affinity and the FOREIGN KEY clause are not modelled; the tables are in-memory values.
- Transactions. An error is modelled as putting the tables back as they were (the connection is closed without a commit). Concurrent writers are not modelled.
- The filesystem: `mkdir`, `write_text`, the `*.pdf` glob in `main`, and the database's path. The output directory is a map from file name to the dumped record.
- PDF paths. A path is reduced to its file name, which is what `pdf_file.name` and `pdf_file.stem` read.
- JSON text. `model_dump_json(indent=2)`, the printing of floats, and the dump of non-finite floats as null are left out; a JSON file holds the decoded dump.
- Float semantics. Floats are only carried and tested for truthiness.
- Pydantic's lax mode. Coercions such as a numeric string accepted as an int are not modelled; the shape check is strict about JSON types.
- DocTemplate.ParseInvoice: a JSON int given for a float field (`total_value`, `unit_value`, `item_total_value`) is rejected, while pydantic accepts it as a float. A dump always writes floats as JSON floats, so the round trip is unaffected.
- DocTemplate.FieldErrors: one error per top-level field. Pydantic reports each failing nested location, such as `items.0.cases`, as its own error; the model reports only the field that holds it.
- The per-field extraction descriptions in the schema. They are text for the language model and carry no behaviour.
- `load_dotenv`, the environment variables, `main` and the `print` calls.
- app.py, which is a Streamlit interface with a copy of `read_pdf` and of the batch call.
- Database.KeyOf: a non-text `invoice_number` cell counts as a NULL key. `save_to_db` only ever binds a str or None there, so no other case arises.
- Path.stem follows the rule of Python before 3.14: the suffix starts at the last dot, unless that dot is the first or the last character.
- Pipeline.Run: it is stated for any storing step, and `OutputDir.SaveResults` ties it to `save_to_db`.
