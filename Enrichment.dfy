/**
 * `add_location_info`, in its synchronous form and its `asyncio.gather`
 * form: per article, skip blank text, collect the GPE/NORP spans, normalise
 * them by exact alias lookup into a set, geocode each distinct name once,
 * attach the non-null results, and keep only articles that got at least one.
 *
 * Python iterates a `set` in hash order; the model lists each set in
 * first-mention order. The set of names, the number of geocoder calls and
 * of key rotations do not depend on that order. Which key each name is sent
 * with does: keys are handed out in list order, so when the service's answer
 * depends on the key, the names that resolve, the names attached and whether
 * the article is kept can all change with the order.
 */
module Enrichment {
  import opened Wrappers
  import opened Seqs
  import opened News
  import opened Text
  import opened Gazetteer
  import opened KeyRotation
  import opened Geocoder

  /** One entity span of the language model's output: its label (`label_`) and its text. */
  datatype Entity = Entity(kind: string, text: string)

  /** The entity recogniser: text to `doc.ents`, in document order. */
  type Recognizer = string -> seq<Entity>

  /** What one enrichment run works with: the tables, the recogniser and the geocoding service. */
  datatype Pipeline = Pipeline(gazetteer: Gazetteer, recognize: Recognizer, respond: Responder)

  predicate IsPlaceLabel(kind: string) {
    kind == "GPE" || kind == "NORP"
  }

  /** The texts of the GPE and NORP spans, in document order. */
  function PlaceSpans(ents: seq<Entity>): (r: seq<string>)
    ensures |r| <= |ents|
  {
    if ents == [] then []
    else
      var init := PlaceSpans(ents[..|ents| - 1]);
      var e := ents[|ents| - 1];
      if IsPlaceLabel(e.kind) then init + [e.text] else init
  }

  /** Every place span is the text of an entity labelled GPE or NORP, and every such text is one. */
  lemma {:induction false} PlaceSpansSpec(ents: seq<Entity>)
    ensures forall s :: s in PlaceSpans(ents) ==> exists e :: e in ents && IsPlaceLabel(e.kind) && e.text == s
    ensures forall e :: e in ents && IsPlaceLabel(e.kind) ==> e.text in PlaceSpans(ents)
  {
    if ents != [] {
      var init := ents[..|ents| - 1];
      PlaceSpansSpec(init);
      assert ents == init + [ents[|ents| - 1]];
    }
  }

  /** `location_mapping.get(loc, loc)` over a list. */
  function LookupAll(aliases: map<string, string>, names: seq<string>): (r: seq<string>)
    ensures |r| == |names|
    ensures forall k :: 0 <= k < |names| ==> r[k] == Lookup(aliases, names[k])
  {
    if names == [] then []
    else LookupAll(aliases, names[..|names| - 1]) + [Lookup(aliases, names[|names| - 1])]
  }

  /** `normalized_locs`: the set of looked-up names over the distinct place spans. */
  function CanonicalNames(aliases: map<string, string>, ents: seq<Entity>): (r: seq<string>)
    ensures Distinct(r) && |r| <= |ents|
  {
    DedupSpec(PlaceSpans(ents));
    DedupSpec(LookupAll(aliases, Dedup(PlaceSpans(ents))));
    Dedup(LookupAll(aliases, Dedup(PlaceSpans(ents))))
  }

  /** The names geocoded for an article: each once, at most one per distinct place span. */
  lemma CanonicalNamesBound(aliases: map<string, string>, ents: seq<Entity>)
    ensures Distinct(CanonicalNames(aliases, ents))
    ensures |CanonicalNames(aliases, ents)| == |set n | n in LookupAll(aliases, Dedup(PlaceSpans(ents)))|
    ensures |CanonicalNames(aliases, ents)| <= |set s | s in PlaceSpans(ents)|
  {
    var looked := LookupAll(aliases, Dedup(PlaceSpans(ents)));
    DedupSpec(looked);
    DedupCard(looked);
    DedupCard(PlaceSpans(ents));
  }

  /** Every geocoded name is the lookup of some GPE/NORP span of the text. */
  lemma CanonicalNamesOrigin(aliases: map<string, string>, ents: seq<Entity>, n: string)
    requires n in CanonicalNames(aliases, ents)
    ensures exists s :: s in PlaceSpans(ents) && Lookup(aliases, s) == n
  {
    var spans := Dedup(PlaceSpans(ents));
    var looked := LookupAll(aliases, spans);
    DedupSpec(looked);
    DedupSpec(PlaceSpans(ents));
    assert n in looked;
    var k :| 0 <= k < |looked| && looked[k] == n;
    assert spans[k] in spans;
  }

  /**
   * The geocoder results for `names`, in order, called one after the other
   * from counter state `index`: what `asyncio.gather` returns, and the
   * counter afterwards.
   */
  function GeocodeResults(overrides: map<string, Coords>, respond: Responder, keys: seq<string>,
                          index: nat, names: seq<string>): (r: (seq<Option<Coords>>, nat))
    requires index < |keys|
    ensures |r.0| == |names| && r.1 < |keys|
  {
    if names == [] then ([], index)
    else
      var (results, mid) := GeocodeResults(overrides, respond, keys, index, names[..|names| - 1]);
      var (c, after) := GeocodeStep(overrides, respond, keys, mid, names[|names| - 1]);
      (results + [c], after)
  }

  /** Names that are not overrides: each costs one key rotation. */
  function Unresolved(overrides: map<string, Coords>, names: seq<string>): (r: nat)
    ensures r <= |names|
  {
    if names == [] then 0
    else Unresolved(overrides, names[..|names| - 1]) + (if names[|names| - 1] in overrides then 0 else 1)
  }

  /** The counter advances once per name outside the override table, and never otherwise. */
  lemma {:induction false} GeocodeResultsRotations(overrides: map<string, Coords>, respond: Responder,
                                                   keys: seq<string>, index: nat, names: seq<string>)
    requires index < |keys|
    ensures GeocodeResults(overrides, respond, keys, index, names).1
            == Steps(index, |keys|, Unresolved(overrides, names))
  {
    if names != [] {
      GeocodeResultsRotations(overrides, respond, keys, index, names[..|names| - 1]);
    }
  }

  /** Each result is the geocoder's answer for the name at the same position. */
  lemma {:induction false} GeocodeResultsPaired(overrides: map<string, Coords>, respond: Responder,
                                                keys: seq<string>, index: nat, names: seq<string>, k: nat)
    requires index < |keys| && k < |names|
    ensures names[k] in overrides ==> GeocodeResults(overrides, respond, keys, index, names).0[k] == Some(overrides[names[k]])
    ensures names[k] !in overrides ==>
              exists key :: key in keys && GeocodeResults(overrides, respond, keys, index, names).0[k] == Interpret(respond(names[k], key))
  {
    var init := names[..|names| - 1];
    if k < |names| - 1 {
      GeocodeResultsPaired(overrides, respond, keys, index, init, k);
      assert init[k] == names[k];
    } else {
      var mid := GeocodeResults(overrides, respond, keys, index, init).1;
      if names[k] !in overrides {
        assert keys[Next(mid, |keys|)] in keys;
      }
    }
  }

  /** `for loc, coords in zip(names, results): if coords: loc_infos.append(...)`. */
  function Attach(names: seq<string>, results: seq<Option<Coords>>): (r: seq<LocationInfo>)
    requires |names| == |results|
    ensures |r| <= |names|
  {
    if names == [] then []
    else
      var init := Attach(names[..|names| - 1], results[..|results| - 1]);
      match results[|results| - 1]
      case None => init
      case Some(c) => init + [LocationInfo(names[|names| - 1], c.lat, c.lng)]
  }

  /** Each attached entry carries a name with its OWN coordinates, and every non-null result is attached. */
  lemma {:induction false} AttachPaired(names: seq<string>, results: seq<Option<Coords>>)
    requires |names| == |results|
    ensures forall info :: info in Attach(names, results) ==>
              exists k :: 0 <= k < |names| && names[k] == info.location && results[k] == Some(Coords(info.lat, info.lng))
    ensures forall k :: 0 <= k < |names| && results[k].Some? ==>
              LocationInfo(names[k], results[k].value.lat, results[k].value.lng) in Attach(names, results)
  {
    if names != [] {
      var n, rs := names[..|names| - 1], results[..|results| - 1];
      AttachPaired(n, rs);
      forall k | 0 <= k < |names| && results[k].Some?
        ensures LocationInfo(names[k], results[k].value.lat, results[k].value.lng) in Attach(names, results)
      {
        if k < |n| {
          assert n[k] == names[k] && rs[k] == results[k];
        }
      }
      forall info | info in Attach(names, results)
        ensures exists k :: 0 <= k < |names| && names[k] == info.location && results[k] == Some(Coords(info.lat, info.lng))
      {
        if info in Attach(n, rs) {
          var k :| 0 <= k < |n| && n[k] == info.location && rs[k] == Some(Coords(info.lat, info.lng));
          assert names[k] == n[k] && results[k] == rs[k];
        }
      }
    }
  }

  /** Distinct names give an entry list with distinct locations: one entry per place. */
  lemma {:induction false} AttachDistinct(names: seq<string>, results: seq<Option<Coords>>)
    requires |names| == |results| && Distinct(names)
    ensures forall i, j :: 0 <= i < j < |Attach(names, results)| ==>
              Attach(names, results)[i].location != Attach(names, results)[j].location
  {
    if names != [] {
      var n, rs := names[..|names| - 1], results[..|results| - 1];
      AttachDistinct(n, rs);
      AttachPaired(n, rs);
      var last := names[|names| - 1];
      forall info | info in Attach(n, rs) ensures info.location != last {
        var k :| 0 <= k < |n| && n[k] == info.location && rs[k] == Some(Coords(info.lat, info.lng));
        assert names[k] == n[k];
      }
    }
  }

  /**
   * One article: `(Some(updated article), counter)` when it is kept,
   * `(None, counter)` when it is skipped or dropped.
   */
  function EnrichArticle(p: Pipeline, keys: seq<string>, index: nat, a: Article): (r: (Option<Article>, nat))
    requires index < |keys|
    ensures r.1 < |keys|
  {
    var text := CombinedText(a);
    if text == [] then (None, index)
    else
      var names := CanonicalNames(p.gazetteer.aliases, p.recognize(text));
      var (results, after) := GeocodeResults(p.gazetteer.overrides, p.respond, keys, index, names);
      var infos := Attach(names, results);
      if infos == [] then (None, after) else (Some(a.(location := Some(infos))), after)
  }

  /** The enriched batch and the counter afterwards. */
  function Enrich(p: Pipeline, keys: seq<string>, index: nat, articles: seq<Article>): (r: (seq<Article>, nat))
    requires index < |keys|
    ensures r.1 < |keys| && |r.0| <= |articles|
  {
    if articles == [] then ([], index)
    else
      var (kept, mid) := Enrich(p, keys, index, articles[..|articles| - 1]);
      var (one, after) := EnrichArticle(p, keys, mid, articles[|articles| - 1]);
      (if one.Some? then kept + [one.value] else kept, after)
  }

  /** What every enriched article satisfies: non-blank text and a non-empty location list drawn from its own names. */
  predicate Located(p: Pipeline, a: Article) {
    && CombinedText(a) != []
    && a.location.Some? && a.location.value != []
    && forall info :: info in a.location.value ==>
         info.location in CanonicalNames(p.gazetteer.aliases, p.recognize(CombinedText(a)))
  }

  /** Some geocode came back with coordinates. */
  predicate SomeResult(results: seq<Option<Coords>>) {
    exists k :: 0 <= k < |results| && results[k].Some?
  }

  /**
   * An article is kept exactly when its text is not blank and some of its
   * names geocodes; a kept article is the input article with a non-empty,
   * well-sourced `location` list.
   */
  lemma EnrichArticleKept(p: Pipeline, keys: seq<string>, index: nat, a: Article)
    requires index < |keys|
    ensures var one := EnrichArticle(p, keys, index, a).0;
            one.Some? <==> CombinedText(a) != [] && SomeResult(GeocodeResults(p.gazetteer.overrides, p.respond, keys, index,
                                                    CanonicalNames(p.gazetteer.aliases, p.recognize(CombinedText(a)))).0)
    ensures var one := EnrichArticle(p, keys, index, a).0;
            one.Some? ==> Located(p, one.value) && Unlocated(one.value) == Unlocated(a)
  {
    var text := CombinedText(a);
    if text != [] {
      var names := CanonicalNames(p.gazetteer.aliases, p.recognize(text));
      var results := GeocodeResults(p.gazetteer.overrides, p.respond, keys, index, names).0;
      var infos := Attach(names, results);
      AttachPaired(names, results);
      if infos != [] {
        assert infos[0] in infos;
      }
      if SomeResult(results) {
        var k :| 0 <= k < |results| && results[k].Some?;
        assert LocationInfo(names[k], results[k].value.lat, results[k].value.lng) in infos;
      }
    }
  }

  /** The output is an order-preserving subsequence of the input (up to the `location` field), and every output article is located. */
  lemma {:induction false} EnrichKeepsOrder(p: Pipeline, keys: seq<string>, index: nat, articles: seq<Article>)
    requires index < |keys|
    ensures IsSubsequence(UnlocatedAll(Enrich(p, keys, index, articles).0), UnlocatedAll(articles))
    ensures forall a :: a in Enrich(p, keys, index, articles).0 ==> Located(p, a)
  {
    if articles != [] {
      var init := articles[..|articles| - 1];
      var last := articles[|articles| - 1];
      EnrichKeepsOrder(p, keys, index, init);
      var (kept, mid) := Enrich(p, keys, index, init);
      var one := EnrichArticle(p, keys, mid, last).0;
      EnrichArticleKept(p, keys, mid, last);
      if one.Some? {
        assert UnlocatedAll(kept + [one.value]) == UnlocatedAll(kept) + [Unlocated(one.value)] by {
          assert (kept + [one.value])[..|kept|] == kept;
        }
        SubsequenceTake(UnlocatedAll(kept), UnlocatedAll(init), Unlocated(last));
      } else {
        SubsequenceSkip(UnlocatedAll(kept), UnlocatedAll(init), Unlocated(last));
      }
    }
  }

  /** A blank article never reaches the recogniser or the geocoder: neither affects its outcome, and no key is used. */
  lemma BlankArticleSkipped(p: Pipeline, q: Pipeline, keys: seq<string>, index: nat, a: Article)
    requires index < |keys| && p.gazetteer == q.gazetteer
    requires IsBlank(Render(a.title)) && IsBlank(Render(a.description))
    ensures EnrichArticle(p, keys, index, a) == EnrichArticle(q, keys, index, a) == (None, index)
  {
    CombinedTextEmpty(a);
  }

  /**
   * Key rotations per article: one per canonical name outside the override
   * table, so at most one per distinct GPE/NORP span, and none for blank text.
   */
  lemma ArticleRotations(p: Pipeline, keys: seq<string>, index: nat, a: Article)
    requires index < |keys|
    ensures CombinedText(a) == [] ==> EnrichArticle(p, keys, index, a).1 == index
    ensures CombinedText(a) != [] ==>
              var names := CanonicalNames(p.gazetteer.aliases, p.recognize(CombinedText(a)));
              && EnrichArticle(p, keys, index, a).1 == Steps(index, |keys|, Unresolved(p.gazetteer.overrides, names))
              && Unresolved(p.gazetteer.overrides, names) <= |set s | s in PlaceSpans(p.recognize(CombinedText(a)))|
  {
    var text := CombinedText(a);
    if text != [] {
      var names := CanonicalNames(p.gazetteer.aliases, p.recognize(text));
      GeocodeResultsRotations(p.gazetteer.overrides, p.respond, keys, index, names);
      CanonicalNamesBound(p.gazetteer.aliases, p.recognize(text));
    }
  }

  /** A non-blank article with a name in the override table is always kept, carrying the override coordinates. */
  lemma OverrideKeepsArticle(p: Pipeline, keys: seq<string>, index: nat, a: Article, n: string)
    requires index < |keys| && CombinedText(a) != []
    requires n in CanonicalNames(p.gazetteer.aliases, p.recognize(CombinedText(a))) && n in p.gazetteer.overrides
    ensures var one := EnrichArticle(p, keys, index, a).0;
            one.Some? && LocationInfo(n, p.gazetteer.overrides[n].lat, p.gazetteer.overrides[n].lng) in one.value.location.value
  {
    var names := CanonicalNames(p.gazetteer.aliases, p.recognize(CombinedText(a)));
    var results := GeocodeResults(p.gazetteer.overrides, p.respond, keys, index, names).0;
    var k :| 0 <= k < |names| && names[k] == n;
    GeocodeResultsPaired(p.gazetteer.overrides, p.respond, keys, index, names, k);
    AttachPaired(names, results);
  }

  /** No article carries the same place twice. */
  lemma ArticleLocationsDistinct(p: Pipeline, keys: seq<string>, index: nat, a: Article)
    requires index < |keys|
    ensures var one := EnrichArticle(p, keys, index, a).0;
            one.Some? ==> forall i, j :: 0 <= i < j < |one.value.location.value| ==>
                            one.value.location.value[i].location != one.value.location.value[j].location
  {
    var text := CombinedText(a);
    if text != [] {
      var names := CanonicalNames(p.gazetteer.aliases, p.recognize(text));
      var results := GeocodeResults(p.gazetteer.overrides, p.respond, keys, index, names).0;
      CanonicalNamesBound(p.gazetteer.aliases, p.recognize(text));
      AttachDistinct(names, results);
    }
  }

  /** The inner loop of utils/utiles.py: geocode each name in turn, appending the ones that resolve. */
  method LocateNames(p: Pipeline, pool: KeyRing, names: seq<string>) returns (infos: seq<LocationInfo>)
    requires pool.Valid()
    modifies pool
    ensures pool.Valid()
    ensures var (results, idx) := GeocodeResults(p.gazetteer.overrides, p.respond, pool.keys, old(pool.index), names);
            infos == Attach(names, results) && pool.index == idx
  {
    infos := [];
    var k := 0;
    while k < |names|
      invariant 0 <= k <= |names| && pool.Valid()
      invariant var (results, idx) := GeocodeResults(p.gazetteer.overrides, p.respond, pool.keys, old(pool.index), names[..k]);
                infos == Attach(names[..k], results) && pool.index == idx
    {
      assert names[..k + 1][..k] == names[..k];
      var coords := GeocodeLocation(pool, p.gazetteer.overrides, p.respond, names[k]);
      if coords.Some? {
        infos := infos + [LocationInfo(names[k], coords.value.lat, coords.value.lng)];
      }
      k := k + 1;
    }
    assert names[..k] == names;
  }

  /** `add_location_info` of utils/utiles.py: a geocoder call per name, appending as results come in. */
  method AddLocationInfo(p: Pipeline, pool: KeyRing, articles: seq<Article>) returns (kept: seq<Article>)
    requires pool.Valid()
    modifies pool
    ensures pool.Valid()
    ensures (kept, pool.index) == Enrich(p, pool.keys, old(pool.index), articles)
  {
    kept := [];
    var i := 0;
    while i < |articles|
      invariant 0 <= i <= |articles| && pool.Valid()
      invariant (kept, pool.index) == Enrich(p, pool.keys, old(pool.index), articles[..i])
    {
      assert articles[..i + 1][..i] == articles[..i];
      var article := articles[i];
      var text := CombinedText(article);
      if text != [] {
        var names := CanonicalNames(p.gazetteer.aliases, p.recognize(text));
        var infos := LocateNames(p, pool, names);
        if infos != [] {
          kept := kept + [article.(location := Some(infos))];
        }
      }
      i := i + 1;
    }
    assert articles[..i] == articles;
  }

  /** `asyncio.gather` over one task per name, run in order: results stay paired with their names. */
  method GatherGeocodes(p: Pipeline, pool: KeyRing, names: seq<string>) returns (results: seq<Option<Coords>>)
    requires pool.Valid()
    modifies pool
    ensures pool.Valid()
    ensures (results, pool.index) == GeocodeResults(p.gazetteer.overrides, p.respond, pool.keys, old(pool.index), names)
  {
    results := [];
    var k := 0;
    while k < |names|
      invariant 0 <= k <= |names| && pool.Valid()
      invariant (results, pool.index) == GeocodeResults(p.gazetteer.overrides, p.respond, pool.keys, old(pool.index), names[..k])
    {
      assert names[..k + 1][..k] == names[..k];
      var coords := GeocodeLocation(pool, p.gazetteer.overrides, p.respond, names[k]);
      results := results + [coords];
      k := k + 1;
    }
    assert names[..k] == names;
  }

  /** `for loc, coords in zip(normalized_locs, coords_results): if coords: loc_infos.append(...)`. */
  method ZipLocations(names: seq<string>, results: seq<Option<Coords>>) returns (infos: seq<LocationInfo>)
    requires |names| == |results|
    ensures infos == Attach(names, results)
  {
    infos := [];
    var k := 0;
    while k < |names|
      invariant 0 <= k <= |names|
      invariant infos == Attach(names[..k], results[..k])
    {
      assert names[..k + 1][..k] == names[..k];
      assert results[..k + 1][..k] == results[..k];
      if results[k].Some? {
        infos := infos + [LocationInfo(names[k], results[k].value.lat, results[k].value.lng)];
      }
      k := k + 1;
    }
    assert names[..k] == names && results[..k] == results;
  }

  /** `add_location_info` of routers/newsapi/utiles.py: gather every result first, then zip names with results. */
  method AddLocationInfoGathered(p: Pipeline, pool: KeyRing, articles: seq<Article>) returns (kept: seq<Article>)
    requires pool.Valid()
    modifies pool
    ensures pool.Valid()
    ensures (kept, pool.index) == Enrich(p, pool.keys, old(pool.index), articles)
  {
    kept := [];
    var i := 0;
    while i < |articles|
      invariant 0 <= i <= |articles| && pool.Valid()
      invariant (kept, pool.index) == Enrich(p, pool.keys, old(pool.index), articles[..i])
    {
      assert articles[..i + 1][..i] == articles[..i];
      var article := articles[i];
      var text := CombinedText(article);
      if text != [] {
        var names := CanonicalNames(p.gazetteer.aliases, p.recognize(text));
        var results := GatherGeocodes(p, pool, names);
        var infos := ZipLocations(names, results);
        if infos != [] {
          kept := kept + [article.(location := Some(infos))];
        }
      }
      i := i + 1;
    }
    assert articles[..i] == articles;
  }
}
