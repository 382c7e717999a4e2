/**
 * `tw_ethereum::transaction`: the unsigned -> signed transaction lifecycle and
 * its type-erased (boxed) counterpart.
 *
 * A Rust trait becomes a record of the functions an implementing type
 * supplies; the trait's default methods are functions over that record. A
 * `Box<dyn ...>` becomes a class holding a record of closures over the typed
 * value (its vtable), so the boxed types carry no type parameter.
 */
module Transaction {
  import opened Primitives

  /** `secp256k1::Signature`; its layout is not part of this model. */
  datatype Secp256k1Signature = Secp256k1Signature(bytes: Bytes)

  /**
   * What `&dyn EthSignature` gives access to: the signature components. The
   * capability's definition is not part of this model; it is taken to be the
   * `v`, `r`, `s` accessors.
   */
  datatype EthSignatureView = EthSignatureView(v: U256, r: H256, s: H256)

  /** `impl UnsignedTransaction for Tx` (with `TransactionCommon`), `STx` its `SignedTransaction` type. */
  datatype UnsignedTransactionImpl<!Tx, !STx> = UnsignedTransactionImpl(
    payload: Tx -> Bytes,
    encode: (Tx, U256) -> Bytes,
    intoSigned: (Tx, Secp256k1Signature, U256) -> STx)

  /** `impl SignedTransaction for STx` (with `TransactionCommon`), `Sig` its `Signature: EthSignature` type. */
  datatype SignedTransactionImpl<!STx, !Sig> = SignedTransactionImpl(
    payload: STx -> Bytes,
    encode: STx -> Bytes,
    signature: STx -> Sig,
    ethSignature: Sig -> EthSignatureView)

  /** The default `UnsignedTransaction::pre_hash`: the Keccak-256 digest of the chain-qualified encoding. */
  function PreHash<Tx, STx>(keccak: Keccak256, u: UnsignedTransactionImpl<Tx, STx>, tx: Tx, chainId: U256): (h: H256)
    ensures |h| == 32 && h == keccak(u.encode(tx, chainId))
  {
    var hash: Bytes := keccak(u.encode(tx, chainId));
    match H256TryFrom(hash)
    case Some(h) => h
    case None => assert false; ZERO_H256
  }

  /** The default `SignedTransaction::hash`: the Keccak-256 digest of the full, signed encoding. */
  function Hash<STx, Sig>(keccak: Keccak256, s: SignedTransactionImpl<STx, Sig>, stx: STx): (h: H256)
    ensures |h| == 32 && h == keccak(s.encode(stx))
  {
    var hash: Bytes := keccak(s.encode(stx));
    match H256TryFrom(hash)
    case Some(h) => h
    case None => assert false; ZERO_H256
  }

  /** `pre_hash` sees the transaction only through its encoding, so it is deterministic in it. */
  lemma PreHashDependsOnlyOnEncoding<Tx, STx, Tx', STx'>(
    keccak: Keccak256,
    u: UnsignedTransactionImpl<Tx, STx>, a: Tx,
    u': UnsignedTransactionImpl<Tx', STx'>, b: Tx',
    chainId: U256)
    requires u.encode(a, chainId) == u'.encode(b, chainId)
    ensures PreHash(keccak, u, a, chainId) == PreHash(keccak, u', b, chainId)
  {
  }

  /** `hash` sees the signed transaction only through its encoding. */
  lemma HashDependsOnlyOnEncoding<STx, Sig, STx', Sig'>(
    keccak: Keccak256,
    s: SignedTransactionImpl<STx, Sig>, a: STx,
    s': SignedTransactionImpl<STx', Sig'>, b: STx')
    requires s.encode(a) == s'.encode(b)
    ensures Hash(keccak, s, a) == Hash(keccak, s', b)
  {
  }

  /** The method table of a `dyn SignedTransactionBox`, closed over the typed signed value. */
  datatype SignedVTable = SignedVTable(
    payload: () -> Bytes,
    hash: () -> H256,
    encode: () -> Bytes,
    signature: () -> EthSignatureView)

  /** The method table of a `dyn UnsignedTransactionBox`, closed over the typed unsigned value. */
  datatype UnsignedVTable = UnsignedVTable(
    payload: () -> Bytes,
    preHash: U256 -> H256,
    encode: U256 -> Bytes,
    intoSigned: (Secp256k1Signature, U256) -> SignedVTable)

  /** `impl<T: SignedTransaction> SignedTransactionBox for T`: every entry forwards to the typed method. */
  function SignedVTableOf<STx, Sig>(keccak: Keccak256, s: SignedTransactionImpl<STx, Sig>, stx: STx): (v: SignedVTable)
    ensures v.payload() == s.payload(stx)
    ensures v.hash() == Hash(keccak, s, stx)
    ensures v.encode() == s.encode(stx)
    ensures v.signature() == s.ethSignature(s.signature(stx))
  {
    SignedVTable(
      () => s.payload(stx),
      () => Hash(keccak, s, stx),
      () => s.encode(stx),
      () => s.ethSignature(s.signature(stx)))
  }

  /**
   * `impl<T: UnsignedTransaction> UnsignedTransactionBox for T`: every entry
   * forwards to the typed method; `into_signed` boxes the typed result.
   */
  function UnsignedVTableOf<Tx, STx, Sig>(
    keccak: Keccak256, u: UnsignedTransactionImpl<Tx, STx>, s: SignedTransactionImpl<STx, Sig>, tx: Tx): (v: UnsignedVTable)
    ensures v.payload() == u.payload(tx)
    ensures forall chainId :: v.preHash(chainId) == PreHash(keccak, u, tx, chainId)
    ensures forall chainId :: v.encode(chainId) == u.encode(tx, chainId)
    ensures forall sig, chainId :: v.intoSigned(sig, chainId) == SignedVTableOf(keccak, s, u.intoSigned(tx, sig, chainId))
  {
    UnsignedVTable(
      () => u.payload(tx),
      (chainId: U256) => PreHash(keccak, u, tx, chainId),
      (chainId: U256) => u.encode(tx, chainId),
      (sig: Secp256k1Signature, chainId: U256) => SignedVTableOf(keccak, s, u.intoSigned(tx, sig, chainId)))
  }

  /**
   * Signing through the box and signing the typed value agree: the boxed
   * result's `hash`, `encode` and `signature` are those of the typed
   * `into_signed` result for the same signature and chain id.
   */
  lemma BoxedSigningMatchesTyped<Tx, STx, Sig>(
    keccak: Keccak256, u: UnsignedTransactionImpl<Tx, STx>, s: SignedTransactionImpl<STx, Sig>,
    tx: Tx, sig: Secp256k1Signature, chainId: U256)
    ensures var boxed := UnsignedVTableOf(keccak, u, s, tx).intoSigned(sig, chainId);
            var typed := u.intoSigned(tx, sig, chainId);
            && boxed.hash() == keccak(s.encode(typed))
            && boxed.encode() == s.encode(typed)
            && boxed.signature() == s.ethSignature(s.signature(typed))
  {
    var boxed := UnsignedVTableOf(keccak, u, s, tx).intoSigned(sig, chainId);
    assert boxed == SignedVTableOf(keccak, s, u.intoSigned(tx, sig, chainId));
  }

  /** A `Box<dyn SignedTransactionBox>`: terminal, never mutated. */
  class SignedTransactionBox {
    const vtable: SignedVTable

    constructor (vtable: SignedVTable)
      ensures this.vtable == vtable
    {
      this.vtable := vtable;
    }

    function Payload(): Bytes { vtable.payload() }

    function Hash(): H256 { vtable.hash() }

    function Encode(): Bytes { vtable.encode() }

    function Signature(): EthSignatureView { vtable.signature() }
  }

  /**
   * A `Box<dyn UnsignedTransactionBox>`. `into_signed` takes `self: Box<Self>`
   * by value; `consumed` records that move, after which no method of the box
   * may be called.
   */
  class UnsignedTransactionBox {
    const vtable: UnsignedVTable
    var consumed: bool

    constructor (vtable: UnsignedVTable)
      ensures this.vtable == vtable && !consumed
    {
      this.vtable := vtable;
      consumed := false;
    }

    function Payload(): Bytes
      reads this
      requires !consumed
    {
      vtable.payload()
    }

    function PreHash(chainId: U256): H256
      reads this
      requires !consumed
    {
      vtable.preHash(chainId)
    }

    function Encode(chainId: U256): Bytes
      reads this
      requires !consumed
    {
      vtable.encode(chainId)
    }

    /** Consumes the box and returns the boxed signed transaction. */
    method IntoSigned(signature: Secp256k1Signature, chainId: U256) returns (signed: SignedTransactionBox)
      requires !consumed
      modifies this
      ensures consumed
      ensures fresh(signed) && signed.vtable == vtable.intoSigned(signature, chainId)
    {
      consumed := true;
      signed := new SignedTransactionBox(vtable.intoSigned(signature, chainId));
    }
  }

  /**
   * `UnsignedTransactionBox::into_boxed`: wraps the typed value without
   * changing it, so every operation on the box agrees with the typed one.
   */
  method IntoBoxed<Tx, STx, Sig>(
    keccak: Keccak256, u: UnsignedTransactionImpl<Tx, STx>, s: SignedTransactionImpl<STx, Sig>, tx: Tx)
    returns (b: UnsignedTransactionBox)
    ensures fresh(b) && !b.consumed
    ensures b.vtable == UnsignedVTableOf(keccak, u, s, tx)
    ensures b.Payload() == u.payload(tx)
    ensures forall chainId :: b.PreHash(chainId) == PreHash(keccak, u, tx, chainId)
    ensures forall chainId :: b.Encode(chainId) == u.encode(tx, chainId)
  {
    b := new UnsignedTransactionBox(UnsignedVTableOf(keccak, u, s, tx));
  }

  /**
   * Boxing, signing through the box, then reading the result gives what the
   * typed path gives; the unsigned box is used up.
   */
  method SignBoxed<Tx, STx, Sig>(
    keccak: Keccak256, u: UnsignedTransactionImpl<Tx, STx>, s: SignedTransactionImpl<STx, Sig>,
    tx: Tx, sig: Secp256k1Signature, chainId: U256)
    returns (unsigned: UnsignedTransactionBox, signed: SignedTransactionBox)
    ensures unsigned.consumed
    ensures signed.Hash() == Hash(keccak, s, u.intoSigned(tx, sig, chainId))
    ensures signed.Encode() == s.encode(u.intoSigned(tx, sig, chainId))
    ensures signed.Payload() == s.payload(u.intoSigned(tx, sig, chainId))
    ensures signed.Signature() == s.ethSignature(s.signature(u.intoSigned(tx, sig, chainId)))
  {
    unsigned := IntoBoxed(keccak, u, s, tx);
    signed := unsigned.IntoSigned(sig, chainId);
  }
}
