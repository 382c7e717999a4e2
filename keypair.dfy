/** `tw_keypair::tw`: the curve and public-key-type enumerations with their C discriminants. */
module Keypair {
  import opened Wrappers
  import opened Primitives

  datatype Curve =
    | Secp256k1
    | Ed25519
    | Ed25519Blake2bNano
    /** Waves blockchain specific `curve25519`. */
    | Curve25519Waves
    | Nist256p1
    /** Cardano blockchain specific `ed25519` extended key. */
    | Ed25519ExtendedCardano
    | Starkex

  /** The `#[repr(C)]` discriminant, `curve as u32`, as declared on the enum. */
  function CurveDiscriminant(c: Curve): u32 {
    match c
    case Secp256k1 => 0
    case Ed25519 => 1
    case Ed25519Blake2bNano => 2
    case Curve25519Waves => 3
    case Nist256p1 => 4
    case Ed25519ExtendedCardano => 5
    case Starkex => 6
  }

  /** `Curve::from_raw`: `None` if the curve is not supported. */
  function CurveFromRaw(curve: u32): (r: Option<Curve>)
    ensures r.Some? <==> curve < 7
    ensures r.Some? ==> CurveDiscriminant(r.value) == curve
  {
    match curve
    case 0 => Some(Curve.Secp256k1)
    case 1 => Some(Curve.Ed25519)
    case 2 => Some(Ed25519Blake2bNano)
    case 3 => Some(Curve.Curve25519Waves)
    case 4 => Some(Nist256p1)
    case 5 => Some(Curve.Ed25519ExtendedCardano)
    case 6 => Some(Curve.Starkex)
    case _ => None
  }

  /** Both directions: code `n` denotes `c` exactly when `n` is `c`'s discriminant. */
  lemma CurveFromRawInverse(n: u32, c: Curve)
    ensures CurveFromRaw(n) == Some(c) <==> CurveDiscriminant(c) == n
  {
    if CurveDiscriminant(c) == n {
      match c
      case Secp256k1 =>
      case Ed25519 =>
      case Ed25519Blake2bNano =>
      case Curve25519Waves =>
      case Nist256p1 =>
      case Ed25519ExtendedCardano =>
      case Starkex =>
    }
  }

  lemma CurveRoundTrip(c: Curve)
    ensures CurveFromRaw(CurveDiscriminant(c)) == Some(c)
  {
    CurveFromRawInverse(CurveDiscriminant(c), c);
  }

  /** Distinct accepted codes give distinct curves. */
  lemma CurveFromRawInjective(m: u32, n: u32)
    requires CurveFromRaw(m).Some? && CurveFromRaw(m) == CurveFromRaw(n)
    ensures m == n
  {
  }

  /** The table of `test_curve_from_raw`. */
  lemma CurveFromRawTestVectors()
    ensures CurveFromRaw(0) == Some(Curve.Secp256k1)
    ensures CurveFromRaw(1) == Some(Curve.Ed25519)
    ensures CurveFromRaw(2) == Some(Ed25519Blake2bNano)
    ensures CurveFromRaw(3) == Some(Curve.Curve25519Waves)
    ensures CurveFromRaw(4) == Some(Nist256p1)
    ensures CurveFromRaw(5) == Some(Curve.Ed25519ExtendedCardano)
    ensures CurveFromRaw(6) == Some(Curve.Starkex)
    ensures CurveFromRaw(7) == None
  {
  }

  datatype PublicKeyType =
    | Secp256k1
    | Secp256k1Extended
    | Nist256k1
    | Nist256k1Extended
    | Ed25519
    | Ed25519Blake2b
    /** Waves blockchain specific public key. */
    | Curve25519Waves
    /** Cardano blockchain specific extended public key. */
    | Ed25519ExtendedCardano
    | Starkex

  /** The `#[repr(C)]` discriminant, `ty as u32`, as declared on the enum. */
  function PublicKeyTypeDiscriminant(t: PublicKeyType): u32 {
    match t
    case Secp256k1 => 0
    case Secp256k1Extended => 1
    case Nist256k1 => 2
    case Nist256k1Extended => 3
    case Ed25519 => 4
    case Ed25519Blake2b => 5
    case Curve25519Waves => 6
    case Ed25519ExtendedCardano => 7
    case Starkex => 8
  }

  /** `PublicKeyType::from_raw`: `None` if the key type is not supported. */
  function PublicKeyTypeFromRaw(ty: u32): (r: Option<PublicKeyType>)
    ensures r.Some? <==> ty < 9
    ensures r.Some? ==> PublicKeyTypeDiscriminant(r.value) == ty
  {
    match ty
    case 0 => Some(PublicKeyType.Secp256k1)
    case 1 => Some(Secp256k1Extended)
    case 2 => Some(Nist256k1)
    case 3 => Some(Nist256k1Extended)
    case 4 => Some(PublicKeyType.Ed25519)
    case 5 => Some(Ed25519Blake2b)
    case 6 => Some(PublicKeyType.Curve25519Waves)
    case 7 => Some(PublicKeyType.Ed25519ExtendedCardano)
    case 8 => Some(PublicKeyType.Starkex)
    case _ => None
  }

  /** Both directions: code `n` denotes `t` exactly when `n` is `t`'s discriminant. */
  lemma PublicKeyTypeFromRawInverse(n: u32, t: PublicKeyType)
    ensures PublicKeyTypeFromRaw(n) == Some(t) <==> PublicKeyTypeDiscriminant(t) == n
  {
    if PublicKeyTypeDiscriminant(t) == n {
      match t
      case Secp256k1 =>
      case Secp256k1Extended =>
      case Nist256k1 =>
      case Nist256k1Extended =>
      case Ed25519 =>
      case Ed25519Blake2b =>
      case Curve25519Waves =>
      case Ed25519ExtendedCardano =>
      case Starkex =>
    }
  }

  lemma PublicKeyTypeRoundTrip(t: PublicKeyType)
    ensures PublicKeyTypeFromRaw(PublicKeyTypeDiscriminant(t)) == Some(t)
  {
    PublicKeyTypeFromRawInverse(PublicKeyTypeDiscriminant(t), t);
  }

  /** Distinct accepted codes give distinct key types. */
  lemma PublicKeyTypeFromRawInjective(m: u32, n: u32)
    requires PublicKeyTypeFromRaw(m).Some? && PublicKeyTypeFromRaw(m) == PublicKeyTypeFromRaw(n)
    ensures m == n
  {
  }

  /** The table of `test_public_key_type_from_raw`. */
  lemma PublicKeyTypeFromRawTestVectors()
    ensures PublicKeyTypeFromRaw(0) == Some(PublicKeyType.Secp256k1)
    ensures PublicKeyTypeFromRaw(1) == Some(Secp256k1Extended)
    ensures PublicKeyTypeFromRaw(2) == Some(Nist256k1)
    ensures PublicKeyTypeFromRaw(3) == Some(Nist256k1Extended)
    ensures PublicKeyTypeFromRaw(4) == Some(PublicKeyType.Ed25519)
    ensures PublicKeyTypeFromRaw(5) == Some(Ed25519Blake2b)
    ensures PublicKeyTypeFromRaw(6) == Some(PublicKeyType.Curve25519Waves)
    ensures PublicKeyTypeFromRaw(7) == Some(PublicKeyType.Ed25519ExtendedCardano)
    ensures PublicKeyTypeFromRaw(8) == Some(PublicKeyType.Starkex)
    ensures PublicKeyTypeFromRaw(9) == None
  {
  }
}
