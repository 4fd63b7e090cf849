/**
 * Selection of interactions from a stream of pacts: flatten every pact's interaction list,
 * keep those whose provider state equals the expected one (when given), then those whose
 * description equals the expected one (when given).
 */
module ConversionUtils {
  import opened Wrappers
  import opened PactModel
  import opened Streams

  /** `pactStream.flatMap(pact -> pact.getInteractions().stream())`: all interactions,
      ordered by pact and then by position in the pact. */
  function AllInteractions(pacts: seq<Pact>): seq<Interaction> {
    if pacts == [] then [] else pacts[0].interactions + AllInteractions(pacts[1..])
  }

  /** The provider-state filter of the interaction stream. */
  function StateMatch(state: Option<string>): Interaction -> bool {
    (i: Interaction) => Admits(state, i.providerState)
  }

  /** The description filter of the interaction stream. */
  function DescriptionMatch(description: Option<string>): Interaction -> bool {
    (i: Interaction) => Admits(description, Some(i.description))
  }

  /** `getInteractions(pactStream, providerState, interactionDescription)`. */
  function GetInteractions(pacts: seq<Pact>, state: Option<string>, description: Option<string>)
    : (r: seq<Interaction>)
    ensures forall i :: i in r ==>
              i in AllInteractions(pacts)
              && (state.Some? ==> i.providerState == state)
              && (description.Some? ==> i.description == description.value)
  {
    var byState := Filter(AllInteractions(pacts), StateMatch(state));
    FilterSound(AllInteractions(pacts), StateMatch(state));
    FilterSound(byState, DescriptionMatch(description));
    Filter(byState, DescriptionMatch(description))
  }

  /** An interaction belongs to the flattened stream exactly when some pact holds it. */
  lemma {:induction false} AllInteractionsMembership(pacts: seq<Pact>, i: Interaction)
    ensures i in AllInteractions(pacts) <==> exists p :: p in pacts && i in p.interactions
  {
    if pacts != [] {
      AllInteractionsMembership(pacts[1..], i);
      assert forall p :: p in pacts <==> p == pacts[0] || p in pacts[1..];
    }
  }

  /** Flattening a concatenation of pact streams concatenates their interactions. */
  lemma {:induction false} AllInteractionsAppend(a: seq<Pact>, b: seq<Pact>)
    ensures AllInteractions(a + b) == AllInteractions(a) + AllInteractions(b)
  {
    if a == [] {
      assert a + b == b;
    } else {
      assert (a + b)[1..] == a[1..] + b;
      AllInteractionsAppend(a[1..], b);
    }
  }

  /** Completeness, with multiplicity: an interaction of the input that passes both present
      filters is returned as many times as it occurs; any other interaction never. */
  lemma GetInteractionsCount(pacts: seq<Pact>, state: Option<string>, description: Option<string>,
                             i: Interaction)
    ensures multiset(GetInteractions(pacts, state, description))[i]
         == if Admits(state, i.providerState) && Admits(description, Some(i.description))
            then multiset(AllInteractions(pacts))[i] else 0
  {
    var all := AllInteractions(pacts);
    FilterCount(all, StateMatch(state), i);
    FilterCount(Filter(all, StateMatch(state)), DescriptionMatch(description), i);
  }

  /** Completeness: every interaction of every pact that passes both present filters is
      returned. */
  lemma GetInteractionsComplete(pacts: seq<Pact>, state: Option<string>, description: Option<string>,
                                p: Pact, i: Interaction)
    requires p in pacts && i in p.interactions
    requires state.Some? ==> i.providerState == state
    requires description.Some? ==> i.description == description.value
    ensures i in GetInteractions(pacts, state, description)
  {
    AllInteractionsMembership(pacts, i);
    GetInteractionsCount(pacts, state, description, i);
  }

  /** Order: the result is a subsequence of the concatenated interaction lists. */
  lemma GetInteractionsOrdered(pacts: seq<Pact>, state: Option<string>, description: Option<string>)
    ensures IsSubsequence(GetInteractions(pacts, state, description), AllInteractions(pacts))
  {
    var all := AllInteractions(pacts);
    var byState := Filter(all, StateMatch(state));
    FilterIsSubsequence(all, StateMatch(state));
    FilterIsSubsequence(byState, DescriptionMatch(description));
    SubsequenceTransitive(Filter(byState, DescriptionMatch(description)), byState, all);
  }

  /** Without filters the result is the whole flattened stream. */
  lemma GetInteractionsUnfiltered(pacts: seq<Pact>)
    ensures GetInteractions(pacts, None, None) == AllInteractions(pacts)
  {
    var all := AllInteractions(pacts);
    FilterKeepAll(all, StateMatch(None));
    FilterKeepAll(all, DescriptionMatch(None));
  }

  /** No pacts, no interactions. */
  lemma GetInteractionsNoPacts(state: Option<string>, description: Option<string>)
    ensures GetInteractions([], state, description) == []
  {
  }

  /** Filtering by state and description at once equals filtering by either one first and
      then by the other. */
  lemma GetInteractionsFilterOrder(pacts: seq<Pact>, state: Option<string>, description: Option<string>)
    ensures GetInteractions(pacts, state, description)
         == Filter(GetInteractions(pacts, state, None), DescriptionMatch(description))
    ensures GetInteractions(pacts, state, description)
         == Filter(GetInteractions(pacts, None, description), StateMatch(state))
  {
    var all := AllInteractions(pacts);
    var byS := Filter(all, StateMatch(state));
    FilterKeepAll(byS, DescriptionMatch(None));
    FilterKeepAll(all, StateMatch(None));
    FilterCommute(all, StateMatch(state), DescriptionMatch(description));
  }

  /** A state or description that no interaction carries selects nothing. */
  lemma GetInteractionsNoMatch(pacts: seq<Pact>, state: Option<string>, description: Option<string>)
    requires forall p, i :: p in pacts && i in p.interactions ==>
               !Admits(state, i.providerState) || !Admits(description, Some(i.description))
    ensures GetInteractions(pacts, state, description) == []
  {
    var r := GetInteractions(pacts, state, description);
    if r != [] {
      var i := r[0];
      AllInteractionsMembership(pacts, i);
      assert false;
    }
  }
}
