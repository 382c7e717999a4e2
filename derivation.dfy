/** `tw_coin_entry::derivation`: the closed set of HD derivation strategies. */
module Derivations {
  import opened Wrappers
  import opened Primitives

  datatype Derivation = Default

  /** The declared discriminant, `d as u32` (`Default = 0`). */
  function Discriminant(d: Derivation): u32 {
    match d
    case Default => 0
  }

  /** `Derivation::from_raw`: total, and empty for every unknown code. */
  function FromRaw(derivation: u32): (r: Option<Derivation>)
    ensures r.Some? <==> derivation == 0
    ensures r.Some? ==> Discriminant(r.value) == derivation
  {
    match derivation
    case 0 => Some(Default)
    case _ => None
  }

  /** Both directions: a code is accepted as `d` exactly when it is `d`'s discriminant. */
  lemma FromRawInverse(n: u32, d: Derivation)
    ensures FromRaw(n) == Some(d) <==> Discriminant(d) == n
  {
  }

  lemma FromRawRoundTrip(d: Derivation)
    ensures FromRaw(Discriminant(d)) == Some(d)
  {
    FromRawInverse(Discriminant(d), d);
  }

  /** Code 0 is `Default`; every other code, 1 and the top of the range included, is empty. */
  lemma FromRawVectors(n: u32)
    requires n != 0
    ensures FromRaw(0) == Some(Default)
    ensures FromRaw(n) == None && FromRaw(1) == None && FromRaw(0xFFFF_FFFF) == None
  {
  }
}
