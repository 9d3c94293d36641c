/** Values shared by every component of the router. */
module RouterTypes {

  datatype Option<+T> = None | Some(value: T)

  datatype Result<+T, +E> = Ok(value: T) | Err(error: E)

  /** A 32-byte address; the router only ever compares addresses for equality. */
  type Pubkey = nat

  const U64_MAX: nat := 0xFFFF_FFFF_FFFF_FFFF

  /** A parsed delegation record. */
  datatype Record = Record(authority: Pubkey, owner: Pubkey, delegationSlot: nat, lamports: nat)

  /** An iteration order: every element, each exactly once. */
  predicate Enumerates<T(==)>(order: seq<T>, elements: set<T>) {
    && (forall i, j | 0 <= i < j < |order| :: order[i] != order[j])
    && (forall x <- order :: x in elements)
    && (forall x <- elements :: x in order)
  }
}
