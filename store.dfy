/**
 * The substitution cache, as already loaded from its JSON file: start
 * offset, then end offset, both as decimal strings, then the exact prompt
 * text, to the generated code.
 */
module Store {
  import opened Wrappers
  import opened Text
  import opened Ast

  /** A generated fragment: the statements of the new body and, possibly, imports they need. */
  datatype Substitution = Substitution(code: string, imports: Option<string>)

  type SubstitutionMap = map<string, map<string, map<string, Substitution>>>

  /** The cache holds an entry under exactly these three keys. */
  predicate HasEntry(m: SubstitutionMap, lo: string, hi: string, prompt: string) {
    lo in m && hi in m[lo] && prompt in m[lo][hi]
  }

  /**
   * The lookup in `transform_fn_body`: the entry keyed by the decimal
   * strings of `span.lo` and `span.hi` and by the prompt, if there is one.
   */
  function Lookup(m: SubstitutionMap, span: Span, prompt: string): (r: Option<Substitution>)
    ensures r.Some? <==> HasEntry(m, NatToString(span.lo), NatToString(span.hi), prompt)
    ensures r.Some? ==> r.value == m[NatToString(span.lo)][NatToString(span.hi)][prompt]
  {
    var lo := NatToString(span.lo);
    var hi := NatToString(span.hi);
    if lo in m && hi in m[lo] && prompt in m[lo][hi] then Some(m[lo][hi][prompt]) else None
  }

  /** The cache holding a single entry, for the site `span` and the prompt `prompt`. */
  function Singleton(span: Span, prompt: string, s: Substitution): SubstitutionMap {
    map[NatToString(span.lo) := map[NatToString(span.hi) := map[prompt := s]]]
  }

  /**
   * Matching is exact on all three keys: an entry is found for a site and a
   * prompt only when both offsets and the prompt text are the ones it was
   * stored under.
   */
  lemma LookupIsExact(span: Span, prompt: string, s: Substitution, site: Span, text: string)
    ensures Lookup(Singleton(span, prompt, s), site, text) == (if site == span && text == prompt then Some(s) else None)
  {
    NatToStringInjective(site.lo, span.lo);
    NatToStringInjective(site.hi, span.hi);
  }

  /**
   * Entries under a start-offset key that is not a canonical decimal (a
   * leading zero, a sign, a space, ...) are never found: dropping them
   * changes no lookup.
   */
  lemma NonCanonicalStartKeyIgnored(m: SubstitutionMap, key: string, span: Span, prompt: string)
    requires !IsCanonicalDecimal(key)
    ensures Lookup(m, span, prompt) == Lookup(m - {key}, span, prompt)
  {
    assert NatToString(span.lo) != key;
  }

  /** The same for an end-offset key under any start offset. */
  lemma NonCanonicalEndKeyIgnored(m: SubstitutionMap, lo: string, key: string, span: Span, prompt: string)
    requires lo in m && !IsCanonicalDecimal(key)
    ensures Lookup(m, span, prompt) == Lookup(m[lo := m[lo] - {key}], span, prompt)
  {
    assert NatToString(span.hi) != key;
  }

  /** A missing cache file reads as the empty map, in which nothing is found. */
  lemma EmptyStoreFindsNothing(span: Span, prompt: string)
    ensures Lookup(map[], span, prompt) == None
  {
  }
}
