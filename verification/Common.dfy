/** Result and option types shared by every module, and the errors the services raise. */
module Common {

  datatype Option<+T> = None | Some(value: T)

  /** The exceptions of `app/domain/errors.py` that the modelled code raises. */
  datatype Error =
    | ValidationFailed
    | Conflict
    | NotFound
    | InvariantViolation
    | IntegrityError

  datatype Result<+T> = Ok(value: T) | Err(error: Error)

  /** UTC instants, in microseconds. */
  type Instant = int

  /** UUIDs: opaque, totally ordered names. */
  type Id = nat

  /** SHA-256 as an ideal hash: equal digests have equal preimages. */
  datatype Sha256<+T> = Sha256(preimage: T)

  /** Least to most sensitive (`PRIVACY_ORDER`). */
  datatype PrivacyScope = Public | Internal | Confidential | Restricted

  /** Position in `PRIVACY_ORDER`. */
  function Sensitivity(scope: PrivacyScope): nat {
    match scope
    case Public => 0
    case Internal => 1
    case Confidential => 2
    case Restricted => 3
  }

  /** No element twice. */
  predicate Distinct<T(==)>(xs: seq<T>) {
    forall i, j :: 0 <= i < j < |xs| ==> xs[i] != xs[j]
  }

  function SetOf<T(==)>(xs: seq<T>): set<T> {
    set x | x in xs
  }

  lemma SubsetSize(a: set<Id>, b: set<Id>)
    requires a <= b
    ensures |a| <= |b|
  {
    assert b == a + (b - a);
  }

  /** At some element, with what came before it, the predicate holds. */
  ghost predicate Ever<A(!new)>(p: (seq<A>, A) -> bool, xs: seq<A>) {
    exists i :: 0 <= i < |xs| && p(xs[..i], xs[i])
  }

  lemma EverOneMore<A(!new)>(p: (seq<A>, A) -> bool, init: seq<A>, last: A)
    ensures Ever(p, init + [last]) <==> Ever(p, init) || p(init, last)
  {
    var xs := init + [last];
    assert xs[..|init|] == init && xs[|init|] == last;
    assert forall i :: 0 <= i < |init| ==> xs[..i] == init[..i] && xs[i] == init[i];
  }
}
