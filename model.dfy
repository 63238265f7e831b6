/**
 * The state and command model of the Alok contract: the asset state, its
 * owner-independent grouping key, and the kinds of command the contract knows.
 */
module AlokModel {
  import opened Identity

  /** One unit of the asset at one point of ledger history; an immutable value. */
  datatype AlokState = AlokState(thought: string, issuer: Party, owner: Party)

  /**
   * The command data of AlokContract.Commands. Other stands for any further
   * implementation of that open interface, which the contract does not recognise.
   */
  datatype Commands = Issue | Move | Other

  /** The parties that must see the state: the owner first, then the issuer. */
  function Participants(s: AlokState): (r: seq<Party>)
    ensures |r| == 2 && r[0] == s.owner
    ensures forall p :: p in r <==> p == s.owner || p == s.issuer
  {
    [s.owner, s.issuer]
  }

  /** The grouping key of a state: the state with its owner replaced by the null-key party. */
  function WithoutOwner(s: AlokState): (k: AlokState)
    ensures k.thought == s.thought && k.issuer == s.issuer
    ensures k.owner == NullParty
  {
    s.(owner := NullParty)
  }

  /** The same asset held by another owner. */
  function WithOwner(s: AlokState, newOwner: Party): (r: AlokState)
    ensures r.owner == newOwner
    ensures WithoutOwner(r) == WithoutOwner(s)
  {
    s.(owner := newOwner)
  }

  /** Two states fall in the same group exactly when they agree on everything but the owner. */
  lemma SameGroupIff(s: AlokState, t: AlokState)
    ensures WithoutOwner(s) == WithoutOwner(t) <==> s.thought == t.thought && s.issuer == t.issuer
  {
  }

  /** Handing a state back to its previous owner restores it exactly. */
  lemma WithOwnerRoundTrip(s: AlokState, newOwner: Party)
    ensures WithOwner(WithOwner(s, newOwner), s.owner) == s
  {
  }
}
