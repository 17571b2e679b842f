/**
 * The records the pipeline passes around: articles as the news API and the
 * JSON store hold them, the location entries enrichment attaches, and the
 * stored documents.
 */
module News {
  import opened Wrappers

  /** A JSON string field read with `dict.get(key, "")`: absent, `null`, or a string. */
  datatype JsonText = Missing | Null | Text(s: string)

  /** A `{lat, lng}` pair as the geocoder or the override table gives it. */
  datatype Coords = Coords(lat: real, lng: real)

  /** One `{"location": name, "lat": …, "lng": …}` entry of an article's `location` list. */
  datatype LocationInfo = LocationInfo(location: string, lat: real, lng: real)

  /**
   * An article record. Only the fields the core reads or writes are kept;
   * `url` stands for the untouched rest of the record.
   */
  datatype Article = Article(
    url: Option<string>,
    title: JsonText,
    description: JsonText,
    publishedAt: Option<string>,
    location: Option<seq<LocationInfo>>)

  /** A stored or fetched document `{"status", "totalResults", "articles"}`; each key may be absent. */
  datatype Document = Document(
    status: Option<string>,
    totalResults: Option<int>,
    articles: Option<seq<Article>>)

  /** What a file on disk holds: a JSON document, or text `json.load` rejects. */
  datatype FileContent = Json(doc: Document) | Garbled

  /** The data directory: path to content; an absent path is a missing file. */
  type FileSystem = map<string, FileContent>

  /** The same article with its `location` field cleared: what enrichment does not change. */
  function Unlocated(a: Article): Article {
    a.(location := None)
  }

  function UnlocatedAll(articles: seq<Article>): (r: seq<Article>)
    ensures |r| == |articles|
  {
    if articles == [] then []
    else UnlocatedAll(articles[..|articles| - 1]) + [Unlocated(articles[|articles| - 1])]
  }

  const CategoryDir := "data/top-headlines/category/"
  const EverythingDir := "data/everything/"

  /** `data/top-headlines/category/{category}.json`. */
  function CategoryPath(category: string): string {
    CategoryDir + category + ".json"
  }

  /** `data/everything/{source}.json`. */
  function SourcePath(source: string): string {
    EverythingDir + source + ".json"
  }

  const Categories: seq<string> :=
    ["business", "entertainment", "general", "health", "science", "sports", "technology"]

  /** The keys of `COUNTRIES_LANGUAGES`, in insertion order. */
  const Countries: seq<string> := ["in", "us", "au", "ru", "fr", "gb", "cn"]

  const Sources: seq<string> := ["bbc.co.uk", "cnn.com", "foxnews.com", "google.com"]

  /** `a` and `b` agree on every path outside `paths`. */
  ghost predicate SameOutside(a: FileSystem, b: FileSystem, paths: set<string>) {
    forall q :: q !in paths ==> (q in a ==> q in b && a[q] == b[q]) && (q in b ==> q in a)
  }

  /** The data directory as mutable state: the savers write files in place. */
  class Disk {
    var files: FileSystem

    constructor (files: FileSystem)
      ensures this.files == files
    {
      this.files := files;
    }

    /** `json.dump(content, open(path, "w"))`: the file now holds exactly `doc`. */
    method Write(path: string, doc: Document)
      modifies this
      ensures files == old(files)[path := Json(doc)]
    {
      files := files[path := Json(doc)];
    }
  }
}
