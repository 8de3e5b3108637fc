/**
 * Persisted-state migration 005 (src/state/migrations/005_disable_yearn_opportunities.ts).
 * The Redux state is an object of slices keyed by name; the migration
 * replaces the `opportunities` slice with that slice's initial state.
 */
module Migration005 {

  const OpportunitiesKey: string := "opportunities"

  /**
   * `disableYearnOpportunities`: `{...state, opportunities: initialState}`.
   * `S` stands for any slice's state; `initialOpportunities` is the
   * opportunities slice's `initialState`.
   */
  function DisableYearnOpportunities<S>(state: map<string, S>, initialOpportunities: S): (r: map<string, S>)
    ensures OpportunitiesKey in r && r[OpportunitiesKey] == initialOpportunities
    ensures r.Keys == state.Keys + {OpportunitiesKey}
    ensures forall k :: k in state && k != OpportunitiesKey ==> r[k] == state[k]
  {
    state[OpportunitiesKey := initialOpportunities]
  }

  /** Migrating twice is migrating once. */
  lemma DisableYearnOpportunitiesIdempotent<S>(state: map<string, S>, initialOpportunities: S)
    ensures DisableYearnOpportunities(DisableYearnOpportunities(state, initialOpportunities), initialOpportunities)
         == DisableYearnOpportunities(state, initialOpportunities)
  {
  }

  /** The result does not depend on the previous opportunities slice. */
  lemma IndependentOfPreviousOpportunities<S>(state: map<string, S>, before: S, after: S, initialOpportunities: S)
    ensures DisableYearnOpportunities(state[OpportunitiesKey := before], initialOpportunities)
         == DisableYearnOpportunities(state[OpportunitiesKey := after], initialOpportunities)
  {
  }
}
