/**
 * `tw_ethereum::entry`: `EthereumEntry`, the reference `CoinEntry`.
 *
 * The code it delegates to is not part of this model and is passed in as
 * `Collaborators`: secp256k1 public-key parsing, `Address::from_str`,
 * `Address::with_secp256k1_pubkey`, the address's `Display` and `data`,
 * `Signer::sign_proto`, `Compiler::preimage_hashes` and `Compiler::compile`.
 */
module EthereumEntry {
  import opened Wrappers
  import opened Primitives
  import opened Derivations
  import opened CoinEntries

  /** `tw_coin_entry::prefix::NoPrefix`: Ethereum takes no address prefix. */
  datatype NoPrefix = NoPrefix

  /** The optional-module types `EthJsonSigner`, `EthInputBuilder` and `NoPlanBuilder` (unit structs). */
  datatype EthJsonSigner = EthJsonSigner
  datatype EthInputBuilder = EthInputBuilder
  datatype NoPlanBuilder = NoPlanBuilder

  datatype Collaborators<!PublicKey, !Addr, !In, !Out, !Pre> = Collaborators(
    publicKeyTryFrom: Bytes -> Option<PublicKey>,
    addressFromStr: string -> AddressResult<Addr>,
    addressWithSecp256k1Pubkey: PublicKey -> Addr,
    addressDisplay: Addr -> string,
    addressData: Addr -> Bytes,
    signProto: In -> Out,
    preimageHashes: In -> Pre,
    compile: (In, seq<SignatureBytes>, seq<PublicKeyBytes>) -> Out)

  /** `EthereumEntry::parse_address`: `Address::from_str`, whatever the coin context and prefix. */
  function ParseAddress<Ctx, PublicKey, Addr, In, Out, Pre>(
    env: Collaborators<PublicKey, Addr, In, Out, Pre>, coin: Ctx, address: string, prefix: Option<NoPrefix>): AddressResult<Addr>
  {
    env.addressFromStr(address)
  }

  /**
   * `EthereumEntry::derive_address`: rejects bytes that are not a secp256k1
   * public key with `PublicKeyTypeMismatch`, otherwise derives the address
   * from the parsed key.
   */
  function DeriveAddress<Ctx, PublicKey, Addr, In, Out, Pre>(
    env: Collaborators<PublicKey, Addr, In, Out, Pre>, coin: Ctx, publicKey: PublicKeyBytes,
    derivation: Derivation, prefix: Option<NoPrefix>): (r: AddressResult<Addr>)
    ensures r == Err(PublicKeyTypeMismatch) <==> env.publicKeyTryFrom(publicKey).None?
    ensures r.Err? ==> r.error == PublicKeyTypeMismatch
    ensures env.publicKeyTryFrom(publicKey).Some? ==>
              r == Ok(env.addressWithSecp256k1Pubkey(env.publicKeyTryFrom(publicKey).value))
  {
    match env.publicKeyTryFrom(publicKey)
    case None => Err(PublicKeyTypeMismatch)
    case Some(pk) => Ok(env.addressWithSecp256k1Pubkey(pk))
  }

  /** The result of `derive_address` is the same for every coin context, derivation and prefix. */
  lemma DeriveAddressIgnoresContextDerivationPrefix<Ctx, PublicKey, Addr, In, Out, Pre>(
    env: Collaborators<PublicKey, Addr, In, Out, Pre>, publicKey: PublicKeyBytes,
    coin: Ctx, derivation: Derivation, prefix: Option<NoPrefix>,
    coin': Ctx, derivation': Derivation, prefix': Option<NoPrefix>)
    ensures DeriveAddress(env, coin, publicKey, derivation, prefix)
         == DeriveAddress(env, coin', publicKey, derivation', prefix')
  {
  }

  /** `EthereumEntry::sign`: `Signer::sign_proto`, whatever the coin context. */
  function Sign<Ctx, PublicKey, Addr, In, Out, Pre>(env: Collaborators<PublicKey, Addr, In, Out, Pre>, coin: Ctx, input: In): Out
  {
    env.signProto(input)
  }

  /** `EthereumEntry::preimage_hashes`: `Compiler::preimage_hashes`, whatever the coin context. */
  function PreimageHashes<Ctx, PublicKey, Addr, In, Out, Pre>(env: Collaborators<PublicKey, Addr, In, Out, Pre>, coin: Ctx, input: In): Pre
  {
    env.preimageHashes(input)
  }

  /** `EthereumEntry::compile`: `Compiler::compile`, whatever the coin context. */
  function Compile<Ctx, PublicKey, Addr, In, Out, Pre>(
    env: Collaborators<PublicKey, Addr, In, Out, Pre>, coin: Ctx, input: In,
    signatures: seq<SignatureBytes>, publicKeys: seq<PublicKeyBytes>): Out
  {
    env.compile(input, signatures, publicKeys)
  }

  /** `impl CoinEntry for EthereumEntry`: overrides `json_signer` and `signing_input_builder`, inherits `plan_builder`. */
  function Entry<Ctx(!new), PublicKey, Addr, In(!new), Out, Pre>(env: Collaborators<PublicKey, Addr, In, Out, Pre>):
    (e: CoinEntry<Ctx, NoPrefix, Addr, In, Out, Pre, EthJsonSigner, EthInputBuilder, NoPlanBuilder>)
    ensures JsonSigner(e) == Some(EthJsonSigner)
    ensures SigningInputBuilder(e) == Some(EthInputBuilder)
    ensures PlanBuilder(e) == None
    ensures forall coin, address, prefix :: e.parseAddress(coin, address, prefix) == env.addressFromStr(address)
    ensures forall coin, publicKey, derivation, prefix ::
              e.deriveAddress(coin, publicKey, derivation, prefix) == DeriveAddress(env, coin, publicKey, derivation, prefix)
    ensures forall coin, input :: e.sign(coin, input) == env.signProto(input)
    ensures forall coin, input :: e.preimageHashes(coin, input) == env.preimageHashes(input)
    ensures forall coin, input, signatures, publicKeys ::
              e.compile(coin, input, signatures, publicKeys) == env.compile(input, signatures, publicKeys)
  {
    CoinEntry(
      CoinAddressImpl(env.addressDisplay, env.addressData),
      (coin: Ctx, address: string, prefix: Option<NoPrefix>) => ParseAddress(env, coin, address, prefix),
      (coin: Ctx, publicKey: PublicKeyBytes, derivation: Derivation, prefix: Option<NoPrefix>) =>
        DeriveAddress(env, coin, publicKey, derivation, prefix),
      (coin: Ctx, input: In) => Sign(env, coin, input),
      (coin: Ctx, input: In) => PreimageHashes(env, coin, input),
      (coin: Ctx, input: In, signatures: seq<SignatureBytes>, publicKeys: seq<PublicKeyBytes>) =>
        Compile(env, coin, input, signatures, publicKeys),
      Overridden(Some(EthJsonSigner)),
      Inherited,
      Overridden(Some(EthInputBuilder)))
  }

  /**
   * Every operation of the entry ignores the coin context it is given, and
   * `parse_address` also ignores the prefix.
   */
  lemma EntryIgnoresContext<Ctx(!new), PublicKey, Addr, In(!new), Out, Pre>(
    env: Collaborators<PublicKey, Addr, In, Out, Pre>, coin: Ctx, coin': Ctx, input: In,
    signatures: seq<SignatureBytes>, publicKeys: seq<PublicKeyBytes>,
    address: string, prefix: Option<NoPrefix>, prefix': Option<NoPrefix>)
    ensures var e := Entry<Ctx, PublicKey, Addr, In, Out, Pre>(env);
            && e.parseAddress(coin, address, prefix) == e.parseAddress(coin', address, prefix')
            && e.sign(coin, input) == e.sign(coin', input)
            && e.preimageHashes(coin, input) == e.preimageHashes(coin', input)
            && e.compile(coin, input, signatures, publicKeys) == e.compile(coin', input, signatures, publicKeys)
  {
  }
}
