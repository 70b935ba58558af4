/** The driver around the store: `read_pdf` joins the page texts of a PDF,
    `process_pdfs` turns each text into a prompt, and `save_results` walks
    the records and the PDF files pairwise, writing one JSON file per record
    and storing it in the database. */
module Pipeline {
  import opened Wrappers
  import opened PyJson
  import opened DocTemplate
  import opened Database

  // ----- read_pdf -----

  /** The total length of the page texts. */
  function SumLengths(pages: seq<string>): nat {
    if pages == [] then 0 else SumLengths(pages[..|pages| - 1]) + |pages[|pages| - 1]|
  }

  /** The text `read_pdf` returns: every page's text followed by a newline,
      in page order. Its length counts one newline per page, so it is empty
      exactly when there are no pages. */
  function Joined(pages: seq<string>): (text: string)
    ensures |text| == SumLengths(pages) + |pages|
    ensures text == "" <==> pages == []
  {
    if pages == [] then "" else Joined(pages[..|pages| - 1]) + pages[|pages| - 1] + "\n"
  }

  /** Joining distributes over splitting the pages in two. */
  lemma {:induction false} JoinedAppend(a: seq<string>, b: seq<string>)
    ensures Joined(a + b) == Joined(a) + Joined(b)
  {
    if b == [] {
      assert a + b == a;
    } else {
      var b' := b[..|b| - 1];
      assert (a + b)[..|a + b| - 1] == a + b';
      JoinedAppend(a, b');
    }
  }

  /** One page on its own gives its text and a newline. */
  lemma JoinedSingle(page: string)
    ensures Joined([page]) == page + "\n"
  {
    assert [page][..0] == [];
  }

  /** Each page's text stands in the joined text right after the text of the
      pages before it, and is followed by a newline. */
  lemma JoinedPage(pages: seq<string>, i: nat)
    requires i < |pages|
    ensures var start := |Joined(pages[..i])|;
            var text := Joined(pages);
            start + |pages[i]| < |text|
            && text[start..start + |pages[i]|] == pages[i] && text[start + |pages[i]|] == '\n'
  {
    assert pages == pages[..i] + [pages[i]] + pages[i + 1..];
    JoinedAppend(pages[..i] + [pages[i]], pages[i + 1..]);
    JoinedAppend(pages[..i], [pages[i]]);
    JoinedSingle(pages[i]);
    var start := |Joined(pages[..i])|;
    var text := Joined(pages);
    assert text == Joined(pages[..i]) + (pages[i] + "\n") + Joined(pages[i + 1..]);
  }

  /** `read_pdf(file_path)` on a PDF whose pages extract to `pages`. */
  method ReadPdf(pages: seq<string>) returns (text: string)
    ensures text == Joined(pages)
  {
    text := "";
    var i := 0;
    while i < |pages|
      invariant i <= |pages|
      invariant text == Joined(pages[..i])
    {
      assert pages[..i + 1][..i] == pages[..i];
      text := text + pages[i] + "\n";
      i := i + 1;
    }
    assert pages[..i] == pages;
  }

  // ----- process_pdfs -----

  /** The prompts `process_pdfs` hands to the model: `template` formats one
      text, and there is one prompt per PDF, in order. */
  method ProcessPdfs<P>(docs: seq<seq<string>>, template: string -> P) returns (prompts: seq<P>)
    ensures |prompts| == |docs|
    ensures forall i :: 0 <= i < |docs| ==> prompts[i] == template(Joined(docs[i]))
  {
    var texts: seq<string> := [];
    var i := 0;
    while i < |docs|
      invariant i <= |docs| && |texts| == i
      invariant forall j :: 0 <= j < i ==> texts[j] == Joined(docs[j])
    {
      var text := ReadPdf(docs[i]);
      texts := texts + [text];
      i := i + 1;
    }
    prompts := [];
    i := 0;
    while i < |texts|
      invariant i <= |texts| && |prompts| == i
      invariant forall j :: 0 <= j < i ==> prompts[j] == template(texts[j])
    {
      prompts := prompts + [template(texts[i])];
      i := i + 1;
    }
  }

  // ----- File names -----

  /** The position of the last dot in `name`, or -1 when there is none. */
  function LastDot(name: string): (i: int)
    ensures -1 <= i < |name|
    ensures i >= 0 ==> name[i] == '.'
    ensures forall j :: i < j < |name| ==> name[j] != '.'
  {
    if name == [] then -1
    else if name[|name| - 1] == '.' then |name| - 1
    else LastDot(name[..|name| - 1])
  }

  /** `Path(name).stem`: the name without its suffix, where the suffix runs
      from the last dot, provided that dot is neither the first nor the last
      character. */
  function Stem(name: string): (stem: string)
    ensures |stem| <= |name| && stem == name[..|stem|]
    ensures stem != name ==> 0 < |stem| < |name| - 1 && name[|stem|] == '.'
                             && forall j :: |stem| < j < |name| ==> name[j] != '.'
    ensures forall i :: 0 < i < |name| - 1 && name[i] == '.' && (forall j :: i < j < |name| ==> name[j] != '.')
                        ==> stem == name[..i]
  {
    var i := LastDot(name);
    if 0 < i < |name| - 1 then name[..i] else name
  }

  /** The JSON file `save_results` writes for a PDF. */
  function JsonName(pdfName: string): (n: string)
    ensures |n| >= 5 && n[..|n| - 5] == Stem(pdfName) && n[|n| - 5..] == ".json"
  {
    Stem(pdfName) + ".json"
  }

  /** The stem of a `<s>.pdf` file with `s` not empty is `s`. */
  lemma StemOfPdf(s: string)
    requires s != ""
    ensures Stem(s + ".pdf") == s
  {
    var name := s + ".pdf";
    assert name[|s|] == '.';
    assert forall j :: |s| < j < |name| ==> name[j] != '.';
    assert LastDot(name) == |s|;
    assert name[..|s|] == s;
  }

  /** Two PDFs share a JSON file exactly when they share a stem. */
  lemma JsonNameShared(a: string, b: string)
    ensures JsonName(a) == JsonName(b) <==> Stem(a) == Stem(b)
  {
    if JsonName(a) == JsonName(b) {
      assert |Stem(a)| == |Stem(b)|;
      assert Stem(a) == JsonName(a)[..|Stem(a)|];
      assert Stem(b) == JsonName(b)[..|Stem(b)|];
    }
  }

  /** Distinct `<s>.pdf` names, as a `*.pdf` glob of one directory finds
      them, get distinct JSON files. */
  lemma PdfNamesDistinctFiles(s: string, t: string)
    requires s != "" && t != "" && s != t
    ensures JsonName(s + ".pdf") != JsonName(t + ".pdf")
  {
    StemOfPdf(s);
    StemOfPdf(t);
    JsonNameShared(s + ".pdf", t + ".pdf");
  }

  // ----- save_results -----

  /** The output directory's JSON files by name; each holds the dump of one
      record. */
  type Files = map<string, map<Key, Json>>

  /** How many pairs `zip(pdf_files, results)` yields. */
  function Pairs<A, B>(a: seq<A>, b: seq<B>): nat {
    if |a| < |b| then |a| else |b|
  }

  /** A way of storing one record, as `save_to_db` does (`Database.Save`);
      the loop below is stated for any such step. */
  type Saver = (Db, Invoice, string) -> Result<Db, PyError>

  /** The state `save_results` leaves behind: the files written, the
      database, and whether an exception stopped it. */
  datatype RunState = RunState(files: Files, db: Db, outcome: Outcome<PyError>)

  /** `save_results(results, pdf_files)` from the files `files` and the
      database `db`, storing with `save`: for each pair in order, the JSON
      file is written and then the record is stored; the first error stops
      the loop. */
  function Run(save: Saver, files: Files, db: Db, pdfs: seq<string>, results: seq<Invoice>): (r: RunState)
    ensures r.outcome == Pass <==> SaveAll(save, db, pdfs, results).Ok?
    decreases |pdfs|
  {
    if pdfs == [] || results == [] then RunState(files, db, Pass)
    else
      var files' := files[JsonName(pdfs[0]) := DumpInvoice(results[0])];
      match save(db, results[0], pdfs[0])
      case Err(e) => RunState(files', db, Fail(e))
      case Ok(db') => Run(save, files', db', pdfs[1..], results[1..])
  }

  /** The database part alone: the records stored in order up to the shorter
      list, the first error discarding the rest. */
  function SaveAll(save: Saver, db: Db, pdfs: seq<string>, results: seq<Invoice>): Result<Db, PyError>
    decreases |pdfs|
  {
    if pdfs == [] || results == [] then Ok(db)
    else
      var db' :- save(db, results[0], pdfs[0]);
      SaveAll(save, db', pdfs[1..], results[1..])
  }

  /** The files part alone: every pair's JSON file written in order. */
  function WriteAll(files: Files, pdfs: seq<string>, results: seq<Invoice>): Files
    decreases |pdfs|
  {
    if pdfs == [] || results == [] then files
    else WriteAll(files[JsonName(pdfs[0]) := DumpInvoice(results[0])], pdfs[1..], results[1..])
  }

  /** Whether some pair's JSON file is called `name`. */
  predicate Writes(pdfs: seq<string>, results: seq<Invoice>, name: string) {
    exists i :: 0 <= i < Pairs(pdfs, results) && JsonName(pdfs[i]) == name
  }

  /** A name is written by the first pair or by one of the rest. */
  lemma WritesFirstOrRest(pdfs: seq<string>, results: seq<Invoice>, name: string)
    requires pdfs != [] && results != []
    ensures Writes(pdfs, results, name) <==> JsonName(pdfs[0]) == name || Writes(pdfs[1..], results[1..], name)
  {
    var p, r := pdfs[1..], results[1..];
    assert Pairs(p, r) == Pairs(pdfs, results) - 1;
    if Writes(p, r, name) {
      var i :| 0 <= i < Pairs(p, r) && JsonName(p[i]) == name;
      assert JsonName(pdfs[i + 1]) == name;
    }
    if Writes(pdfs, results, name) {
      var i :| 0 <= i < Pairs(pdfs, results) && JsonName(pdfs[i]) == name;
      if i > 0 {
        assert JsonName(p[i - 1]) == name;
      }
    }
  }

  /** After the loop the directory holds the files it had and one JSON file
      per pair's name, and no other. */
  lemma {:induction false} WrittenNames(files: Files, pdfs: seq<string>, results: seq<Invoice>, name: string)
    ensures name in WriteAll(files, pdfs, results) <==> name in files || Writes(pdfs, results, name)
    decreases |pdfs|
  {
    if pdfs != [] && results != [] {
      WrittenNames(files[JsonName(pdfs[0]) := DumpInvoice(results[0])], pdfs[1..], results[1..], name);
      WritesFirstOrRest(pdfs, results, name);
    }
  }

  /** Elements past the shorter list play no part. */
  lemma {:induction false} RunTruncates(save: Saver, files: Files, db: Db, pdfs: seq<string>, results: seq<Invoice>)
    ensures var n := Pairs(pdfs, results);
            Run(save, files, db, pdfs, results) == Run(save, files, db, pdfs[..n], results[..n])
    decreases |pdfs|
  {
    var n := Pairs(pdfs, results);
    if pdfs != [] && results != [] {
      var files' := files[JsonName(pdfs[0]) := DumpInvoice(results[0])];
      PrefixTail(pdfs, n);
      PrefixTail(results, n);
      var p, r := pdfs[..n], results[..n];
      assert p != [] && r != [] && p[0] == pdfs[0] && r[0] == results[0];
      match save(db, results[0], pdfs[0]) {
        case Err(e) =>
        case Ok(db') =>
          assert Pairs(pdfs[1..], results[1..]) == n - 1;
          RunTruncates(save, files', db', pdfs[1..], results[1..]);
      }
    }
  }

  /** When every record stores, every pair's JSON file is written and the
      database holds all of them. */
  lemma {:induction false} RunPasses(save: Saver, files: Files, db: Db, pdfs: seq<string>, results: seq<Invoice>)
    requires SaveAll(save, db, pdfs, results).Ok?
    ensures Run(save, files, db, pdfs, results).outcome == Pass
    ensures Run(save, files, db, pdfs, results).files == WriteAll(files, pdfs, results)
    ensures Run(save, files, db, pdfs, results).db == SaveAll(save, db, pdfs, results).value
    decreases |pdfs|
  {
    if pdfs != [] && results != [] {
      var db' := save(db, results[0], pdfs[0]).value;
      RunPasses(save, files[JsonName(pdfs[0]) := DumpInvoice(results[0])], db', pdfs[1..], results[1..]);
    }
  }

  /** When the `k`-th record is the first that does not store, its JSON file
      is written all the same, the exception it raises ends the loop, and the
      database holds exactly the records before it. */
  lemma {:induction false} RunStopsAt(save: Saver, files: Files, db: Db, pdfs: seq<string>, results: seq<Invoice>, k: nat)
    requires k < Pairs(pdfs, results)
    requires SaveAll(save, db, pdfs[..k], results[..k]).Ok?
    requires save(SaveAll(save, db, pdfs[..k], results[..k]).value, results[k], pdfs[k]).Err?
    ensures var before := SaveAll(save, db, pdfs[..k], results[..k]).value;
            var r := Run(save, files, db, pdfs, results);
            r.outcome == Fail(save(before, results[k], pdfs[k]).error)
            && r.db == before
            && r.files == WriteAll(files, pdfs[..k + 1], results[..k + 1])
    decreases k
  {
    var files' := files[JsonName(pdfs[0]) := DumpInvoice(results[0])];
    PrefixTail(pdfs, k + 1);
    PrefixTail(results, k + 1);
    if k > 0 {
      PrefixTail(pdfs, k);
      PrefixTail(results, k);
      var db' := save(db, results[0], pdfs[0]).value;
      RunStopsAt(save, files', db', pdfs[1..], results[1..], k - 1);
    }
  }

  /** A loop that fails stopped at a first record that did not store: every
      record before it stored, and its error is the loop's. */
  lemma {:induction false} SaveAllStops(save: Saver, db: Db, pdfs: seq<string>, results: seq<Invoice>)
    requires SaveAll(save, db, pdfs, results).Err?
    ensures exists k :: 0 <= k < Pairs(pdfs, results) && SaveAll(save, db, pdfs[..k], results[..k]).Ok?
                        && save(SaveAll(save, db, pdfs[..k], results[..k]).value, results[k], pdfs[k])
                           == Err(SaveAll(save, db, pdfs, results).error)
    decreases |pdfs|
  {
    var e := SaveAll(save, db, pdfs, results).error;
    match save(db, results[0], pdfs[0]) {
      case Err(_) =>
        assert pdfs[..0] == [] && results[..0] == [];
        assert SaveAll(save, db, pdfs[..0], results[..0]) == Ok(db);
      case Ok(db') =>
        var p, r := pdfs[1..], results[1..];
        SaveAllStops(save, db', p, r);
        var k :| 0 <= k < Pairs(p, r) && SaveAll(save, db', p[..k], r[..k]).Ok?
                 && save(SaveAll(save, db', p[..k], r[..k]).value, r[k], p[k]) == Err(e);
        PrefixTail(pdfs, k + 1);
        PrefixTail(results, k + 1);
        assert SaveAll(save, db, pdfs[..k + 1], results[..k + 1]) == SaveAll(save, db', p[..k], r[..k]);
        assert p[k] == pdfs[k + 1] && r[k] == results[k + 1];
    }
  }

  /** A non-empty prefix starts as the sequence does and goes on with a
      prefix of its tail. */
  lemma PrefixTail<T>(s: seq<T>, k: nat)
    requires 0 < k <= |s|
    ensures s[..k][0] == s[0] && s[..k][1..] == s[1..][..k - 1]
  {
  }

  /** With `save_to_db` as the step, the loop runs through whenever every
      paired record is one the store accepts. */
  lemma {:induction false} SavableStoresAll(db: Db, pdfs: seq<string>, results: seq<Invoice>)
    requires forall i :: 0 <= i < Pairs(pdfs, results) ==> Savable(results[i])
    ensures SaveAll(Save, db, pdfs, results).Ok?
    decreases |pdfs|
  {
    if pdfs != [] && results != [] {
      SaveResult(db, results[0], pdfs[0]);
      assert forall i :: 0 <= i < Pairs(pdfs[1..], results[1..]) ==> results[1..][i] == results[i + 1];
      SavableStoresAll(Save(db, results[0], pdfs[0]).value, pdfs[1..], results[1..]);
    }
  }

  /** The JSON file of a name holds the record of the last pair written under
      it. */
  lemma {:induction false} LastWriteWins(files: Files, pdfs: seq<string>, results: seq<Invoice>, i: nat)
    requires i < Pairs(pdfs, results)
    requires forall j :: i < j < Pairs(pdfs, results) ==> JsonName(pdfs[j]) != JsonName(pdfs[i])
    ensures JsonName(pdfs[i]) in WriteAll(files, pdfs, results)
    ensures WriteAll(files, pdfs, results)[JsonName(pdfs[i])] == DumpInvoice(results[i])
    decreases |pdfs|
  {
    var files' := files[JsonName(pdfs[0]) := DumpInvoice(results[0])];
    var p, r := pdfs[1..], results[1..];
    assert Pairs(p, r) == Pairs(pdfs, results) - 1;
    assert forall j :: 0 <= j < |p| ==> p[j] == pdfs[j + 1];
    if i == 0 {
      Untouched(files', p, r, JsonName(pdfs[0]));
    } else {
      LastWriteWins(files', p, r, i - 1);
    }
  }

  /** A name no pair writes keeps the file it had. */
  lemma {:induction false} Untouched(files: Files, pdfs: seq<string>, results: seq<Invoice>, name: string)
    requires forall j :: 0 <= j < Pairs(pdfs, results) ==> JsonName(pdfs[j]) != name
    ensures name in WriteAll(files, pdfs, results) <==> name in files
    ensures name in files ==> WriteAll(files, pdfs, results)[name] == files[name]
    decreases |pdfs|
  {
    if pdfs != [] && results != [] {
      assert JsonName(pdfs[0]) != name;
      Untouched(files[JsonName(pdfs[0]) := DumpInvoice(results[0])], pdfs[1..], results[1..], name);
    }
  }

  /** Each JSON file written reads back as the record it was written from. */
  lemma WrittenFileReadsBack(files: Files, pdfs: seq<string>, results: seq<Invoice>, i: nat)
    requires i < Pairs(pdfs, results)
    requires forall j :: i < j < Pairs(pdfs, results) ==> JsonName(pdfs[j]) != JsonName(pdfs[i])
    ensures JsonName(pdfs[i]) in WriteAll(files, pdfs, results)
    ensures ParseInvoice(JObject(WriteAll(files, pdfs, results)[JsonName(pdfs[i])])) == Ok(results[i])
  {
    LastWriteWins(files, pdfs, results, i);
    InvoiceRoundTrip(results[i]);
  }

  /** The output directory: the JSON files it holds and the database file
      inside it. */
  class OutputDir {
    var files: Files
    const store: Store

    /** `Path(output_dir).mkdir(exist_ok=True)` over a directory holding
        `existing`, and `init_db`, which leaves an existing database as it
        is. */
    constructor (existing: Files, store: Store)
      ensures files == existing && this.store == store
    {
      files := existing;
      this.store := store;
    }

    /** `save_results(results, pdf_files)`; a `Fail` outcome is the
        exception `save_to_db` raised. */
    method SaveResults(results: seq<Invoice>, pdfFiles: seq<string>) returns (outcome: Outcome<PyError>)
      modifies this, store
      ensures var r := Run(Save, old(files), old(store.State()), pdfFiles, results);
              files == r.files && store.State() == r.db && outcome == r.outcome
    {
      var i := 0;
      var n := Pairs(pdfFiles, results);
      outcome := Pass;
      while i < n
        invariant i <= n && outcome == Pass
        invariant Run(Save, old(files), old(store.State()), pdfFiles, results)
                  == Run(Save, files, store.State(), pdfFiles[i..], results[i..])
      {
        assert pdfFiles[i..][0] == pdfFiles[i] && results[i..][0] == results[i];
        assert pdfFiles[i..][1..] == pdfFiles[i + 1..] && results[i..][1..] == results[i + 1..];
        files := files[JsonName(pdfFiles[i]) := DumpInvoice(results[i])];
        outcome := store.SaveToDb(results[i], pdfFiles[i]);
        if outcome.Fail? {
          return;
        }
        i := i + 1;
      }
    }
  }
}
