/**
 * Keys and parties as the contract sees them. Cryptography is out of scope:
 * a public key is an opaque value compared only for equality, and a party is
 * known to the contract only through its owning key (the platform's
 * AbstractParty compares parties by owning key, so a party's name adds
 * nothing to what the contract can observe).
 */
module Identity {
  /** A public key; NullKey is the platform's sentinel key that no real party holds. */
  datatype PublicKey = NullKey | Key(id: nat)

  /** An abstract party (well-known or anonymous), identified by its owning key. */
  datatype Party = Party(owningKey: PublicKey)

  /** The anonymous party holding the null key: the placeholder owner of a grouping key. */
  const NullParty: Party := Party(NullKey)
}
