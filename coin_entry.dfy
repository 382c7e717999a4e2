/**
 * `tw_coin_entry::coin_entry`: the per-chain plugin contract.
 *
 * The `CoinEntry` trait becomes a record of the operations an implementing
 * chain supplies. Its associated types are type parameters: `Ctx` for
 * `&dyn CoinContext`, `Prefix`, `Addr`, the three wire-format messages `In`,
 * `Out`, `Pre`, and the three optional module types.
 */
module CoinEntries {
  import opened Wrappers
  import opened Primitives
  import opened Derivations

  type SignatureBytes = Bytes
  type PublicKeyBytes = Bytes

  /**
   * `tw_coin_entry::error::AddressError`. Its source is not part of this
   * model. `PublicKeyTypeMismatch` is the variant `EthereumEntry` produces;
   * the other variants are placeholders that nothing in this model produces.
   */
  datatype AddressError =
    | InvalidFormat
    | InvalidChecksum
    | PublicKeyTypeMismatch
    | UnsupportedDerivation

  type AddressResult<T> = Result<T, AddressError>

  /** `CoinAddress`: a display string (`fmt::Display`) and the raw bytes (`data`). */
  datatype CoinAddressImpl<!Addr> = CoinAddressImpl(display: Addr -> string, data: Addr -> Bytes)

  /** Whether an implementation overrides a trait method that has a default body. */
  datatype Override<T> = Inherited | Overridden(body: T)

  /**
   * `impl CoinEntry for E`. The five required operations are total arrows:
   * the address operations answer with an `AddressResult`, the signing
   * operations answer with an output message and have no error channel.
   */
  datatype CoinEntry<!Ctx, !Prefix, !Addr, !In, !Out, !Pre, !Json, !Builder, !Plan> = CoinEntry(
    coinAddress: CoinAddressImpl<Addr>,
    parseAddress: (Ctx, string, Option<Prefix>) -> AddressResult<Addr>,
    deriveAddress: (Ctx, PublicKeyBytes, Derivation, Option<Prefix>) -> AddressResult<Addr>,
    sign: (Ctx, In) -> Out,
    preimageHashes: (Ctx, In) -> Pre,
    compile: (Ctx, In, seq<SignatureBytes>, seq<PublicKeyBytes>) -> Out,
    jsonSigner: Override<Option<Json>>,
    planBuilder: Override<Option<Plan>>,
    signingInputBuilder: Override<Option<Builder>>)

  /** `CoinEntry::json_signer`: absent unless the chain overrides it. */
  function JsonSigner<Ctx, Prefix, Addr, In, Out, Pre, Json, Builder, Plan>(
    e: CoinEntry<Ctx, Prefix, Addr, In, Out, Pre, Json, Builder, Plan>): Option<Json>
  {
    match e.jsonSigner
    case Inherited => None
    case Overridden(body) => body
  }

  /** `CoinEntry::plan_builder`: absent unless the chain overrides it. */
  function PlanBuilder<Ctx, Prefix, Addr, In, Out, Pre, Json, Builder, Plan>(
    e: CoinEntry<Ctx, Prefix, Addr, In, Out, Pre, Json, Builder, Plan>): Option<Plan>
  {
    match e.planBuilder
    case Inherited => None
    case Overridden(body) => body
  }

  /** `CoinEntry::signing_input_builder`: absent unless the chain overrides it. */
  function SigningInputBuilder<Ctx, Prefix, Addr, In, Out, Pre, Json, Builder, Plan>(
    e: CoinEntry<Ctx, Prefix, Addr, In, Out, Pre, Json, Builder, Plan>): Option<Builder>
  {
    match e.signingInputBuilder
    case Inherited => None
    case Overridden(body) => body
  }

  /** A chain that keeps a default body reports that optional module as absent. */
  lemma DefaultModulesAbsent<Ctx, Prefix, Addr, In, Out, Pre, Json, Builder, Plan>(
    e: CoinEntry<Ctx, Prefix, Addr, In, Out, Pre, Json, Builder, Plan>)
    ensures e.jsonSigner == Inherited ==> JsonSigner(e) == None
    ensures e.planBuilder == Inherited ==> PlanBuilder(e) == None
    ensures e.signingInputBuilder == Inherited ==> SigningInputBuilder(e) == None
  {
  }

  /**
   * An optional module is present only through an override: a chain that
   * keeps the default never reports a placeholder instance.
   */
  lemma PresentOnlyIfOverridden<Ctx, Prefix, Addr, In, Out, Pre, Json, Builder, Plan>(
    e: CoinEntry<Ctx, Prefix, Addr, In, Out, Pre, Json, Builder, Plan>)
    ensures JsonSigner(e).Some? ==> e.jsonSigner == Overridden(JsonSigner(e))
    ensures PlanBuilder(e).Some? ==> e.planBuilder == Overridden(PlanBuilder(e))
    ensures SigningInputBuilder(e).Some? ==> e.signingInputBuilder == Overridden(SigningInputBuilder(e))
  {
  }
}
