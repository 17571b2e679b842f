/**
 * The two lookup tables loaded at start-up: `location_mapping` (raw alias to
 * canonical name) and `manual_coords_mapping` (canonical name to literal
 * coordinates), plus `all_reference_names`, the alias keys as a list.
 */
module Gazetteer {
  import opened Wrappers
  import opened Seqs
  import opened News

  datatype Gazetteer = Gazetteer(
    aliases: map<string, string>,
    referenceNames: seq<string>,
    overrides: map<string, Coords>)

  /** `all_reference_names = list(location_mapping.keys())`: every key once. */
  predicate WellFormed(g: Gazetteer) {
    && Distinct(g.referenceNames)
    && (forall n :: n in g.referenceNames ==> n in g.aliases)
    && (forall n :: n in g.aliases ==> n in g.referenceNames)
  }

  /**
   * A table as the start-up code loads it: `parsed` is `json.load`'s result,
   * `None` when the file is missing or malformed, which degrades to `{}`.
   */
  function LoadTable<V>(parsed: Option<map<string, V>>): (r: map<string, V>)
    ensures parsed.None? ==> r == map[]
    ensures parsed.Some? ==> r == parsed.value
  {
    parsed.GetOr(map[])
  }

  /** `location_mapping.get(raw, raw)`: the exact lookup the orchestrators use. */
  function Lookup(aliases: map<string, string>, raw: string): (r: string)
    ensures raw in aliases ==> r == aliases[raw]
    ensures raw !in aliases ==> r == raw
  {
    if raw in aliases then aliases[raw] else raw
  }
}
