/**
 * `smart_map_location`: exact alias lookup, then the best fuzzy match if it
 * scores at least 80, then pass-through. The enrichment pipeline does NOT
 * call it (it uses `Gazetteer.Lookup`); it is modelled for its own contract.
 */
module Normalizer {
  import opened Wrappers
  import opened Gazetteer

  const FuzzyThreshold := 80

  /** `process.extractOne`'s answer: the best choice and its score. */
  datatype Match = Match(key: string, score: int)

  /** The fuzzy scorer: (query, choices) to the best match, `None` when there are no choices. */
  type Scorer = (string, seq<string>) -> Option<Match>

  /** What the scorer promises for one query: a match among the choices, scored 0 to 100. */
  predicate HonestAnswer(scorer: Scorer, raw: string, choices: seq<string>) {
    match scorer(raw, choices)
    case None => choices == []
    case Some(m) => m.key in choices && 0 <= m.score <= 100
  }

  /** `best_match, score = None` raises: an empty alias table leaves nothing to unpack. */
  datatype NormalizeError = NothingToUnpack

  function SmartMapLocation(g: Gazetteer, scorer: Scorer, raw: string): (r: Result<string, NormalizeError>)
    requires WellFormed(g) && HonestAnswer(scorer, raw, g.referenceNames)
    ensures raw in g.aliases ==> r == Ok(g.aliases[raw])
    ensures r.Err? <==> raw !in g.aliases && g.aliases == map[]
    ensures r.Ok? ==> r.value == raw || r.value in g.aliases.Values
  {
    if raw in g.aliases then Ok(g.aliases[raw])
    else
      match scorer(raw, g.referenceNames)
      case None => Err(NothingToUnpack)
      case Some(m) =>
        if m.score >= FuzzyThreshold then Ok(g.aliases[m.key]) else Ok(raw)
  }

  /** An exact key never consults the scorer: any two scorers give the same answer. */
  lemma ExactMatchIgnoresScorer(g: Gazetteer, s1: Scorer, s2: Scorer, raw: string)
    requires WellFormed(g) && HonestAnswer(s1, raw, g.referenceNames) && HonestAnswer(s2, raw, g.referenceNames)
    requires raw in g.aliases
    ensures SmartMapLocation(g, s1, raw) == SmartMapLocation(g, s2, raw) == Ok(g.aliases[raw])
  {
  }

  /** Without an exact key, the fuzzy tier decides: at least 80 maps through the best key, below 80 passes through. */
  lemma FuzzyTier(g: Gazetteer, scorer: Scorer, raw: string)
    requires WellFormed(g) && HonestAnswer(scorer, raw, g.referenceNames)
    requires raw !in g.aliases && g.aliases != map[]
    ensures scorer(raw, g.referenceNames).Some?
    ensures var m := scorer(raw, g.referenceNames).value;
            SmartMapLocation(g, scorer, raw) == if m.score >= FuzzyThreshold then Ok(g.aliases[m.key]) else Ok(raw)
  {
    var k :| k in g.aliases;
    assert k in g.referenceNames;
  }
}
