/**
 * routers/newsapi/test_data.py: serving a stored category file as it is,
 * and listing the categories the data directory holds.
 */
module TestData {
  import opened Wrappers
  import opened Seqs
  import opened News

  /** The endpoint's outcome: the file's JSON, or an HTTP error. */
  datatype Reply = Data(doc: Document) | Refused(code: int, detail: string)

  /** `str()` of the 404 `HTTPException` raised for a missing category: `"{status_code}: {detail}"`. */
  function NotFoundText(category: string): string {
    "404: Category " + category + " not found"
  }

  /**
   * `get_test_data`. `decodeError` is the message `json.load` raises on a
   * garbled file. The 404 raised for a missing file is caught by the
   * handler's own `except Exception`, so the client sees a 500 whose
   * detail carries the 404 text.
   */
  function GetTestData(files: FileSystem, category: string, decodeError: string): (r: Reply)
    ensures r.Data? <==> CategoryPath(category) in files && files[CategoryPath(category)].Json?
    ensures r.Data? ==> r.doc == files[CategoryPath(category)].doc
    ensures CategoryPath(category) !in files ==>
              r == Refused(500, NotFoundText(category))
    ensures r.Refused? ==> r.code == 500
  {
    var path := CategoryPath(category);
    if path !in files then Refused(500, NotFoundText(category))
    else match files[path]
      case Json(doc) => Data(doc)
      case Garbled => Refused(500, decodeError)
  }

  /** A missing category never reaches the client as a 404. */
  lemma MissingIsNot404(files: FileSystem, category: string, decodeError: string)
    ensures GetTestData(files, category, decodeError) != Refused(404, "Category " + category + " not found")
  {
  }

  predicate EndsWith(s: string, suffix: string) {
    |suffix| <= |s| && s[|s| - |suffix|..] == suffix
  }

  /** `s.split('.')[0]`: everything before the first dot, or all of `s`. */
  function BeforeFirstDot(s: string): (r: string)
    ensures |r| <= |s| && r == s[..|r|]
    ensures '.' !in r
    ensures |r| < |s| ==> s[|r|] == '.'
  {
    if s == [] || s[0] == '.' then [] else [s[0]] + BeforeFirstDot(s[1..])
  }

  /** The filter of the comprehension: a `.json` name that does not end in `.sample`. */
  predicate Listed(f: string) {
    EndsWith(f, ".json") && !EndsWith(f, ".sample")
  }

  /** The `.sample` test is dead once `.json` has matched: the filter is `.json` alone. */
  lemma SampleTestRedundant(f: string)
    ensures Listed(f) <==> EndsWith(f, ".json")
  {
    if EndsWith(f, ".json") {
      assert f[|f| - 1] == f[|f| - 5..][4] == 'n';
      assert |".sample"| <= |f| ==> f[|f| - 7..][6] == f[|f| - 1];
    }
  }

  /** The comprehension `[f.split('.')[0] for f in names if …]`. */
  function CategoryNames(names: seq<string>): (r: seq<string>)
    ensures |r| <= |names|
  {
    if names == [] then []
    else
      var init := CategoryNames(names[..|names| - 1]);
      var f := names[|names| - 1];
      if Listed(f) then init + [BeforeFirstDot(f)] else init
  }

  lemma {:induction false} CategoryNamesSpec(names: seq<string>)
    ensures forall c :: c in CategoryNames(names) <==> exists f :: f in names && EndsWith(f, ".json") && c == BeforeFirstDot(f)
  {
    if names != [] {
      var init := names[..|names| - 1];
      CategoryNamesSpec(init);
      assert names == init + [names[|names| - 1]];
      SampleTestRedundant(names[|names| - 1]);
      forall c ensures c in CategoryNames(names) <==> exists f :: f in names && EndsWith(f, ".json") && c == BeforeFirstDot(f) {
        if exists f :: f in names && EndsWith(f, ".json") && c == BeforeFirstDot(f) {
          var f :| f in names && EndsWith(f, ".json") && c == BeforeFirstDot(f);
          SampleTestRedundant(f);
          if f != names[|names| - 1] {
            assert f in init;
          }
        }
      }
    }
  }

  /**
   * `get_available_categories`. `listing` is `os.listdir` of the category
   * directory, or the error it raises. `list(set(...))` has no fixed order
   * in Python; the model lists each category once, in first-seen order.
   */
  function AvailableCategories(listing: Result<seq<string>, string>): (r: CategoryList)
    ensures r.Failed? <==> listing.Err?
    ensures r.Categories? ==> |r.names| <= |listing.value|
  {
    match listing
    case Err(e) => Failed(500, e)
    case Ok(names) =>
      DedupSpec(CategoryNames(names));
      Categories(Dedup(CategoryNames(names)))
  }

  datatype CategoryList = Categories(names: seq<string>) | Failed(code: int, detail: string)

  /**
   * The categories listed are exactly the dot-free prefixes of the `.json`
   * file names, each once; a directory that cannot be read answers 500.
   */
  lemma AvailableCategoriesSpec(listing: Result<seq<string>, string>)
    ensures var r := AvailableCategories(listing);
            && (listing.Err? ==> r == Failed(500, listing.error))
            && (r.Failed? ==> listing.Err?)
            && (r.Categories? ==> Distinct(r.names))
            && (r.Categories? ==> forall c :: c in r.names <==>
                  exists f :: f in listing.value && EndsWith(f, ".json") && c == BeforeFirstDot(f))
            && (r.Categories? ==> forall c :: c in r.names ==> '.' !in c)
  {
    if listing.Ok? {
      CategoryNamesSpec(listing.value);
      DedupSpec(CategoryNames(listing.value));
    }
  }
}
