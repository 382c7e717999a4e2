# Wallet-core chain plugin contract and codegen grammar, in Dafny

This project models four parts of a multi-chain wallet core:

- **The transaction lifecycle** of the Ethereum crate. An unsigned transaction is encoded per chain id. Its
  `pre_hash` is the Keccak-256 digest of that encoding. `into_signed` turns it into a signed transaction,
  whose `hash` is the digest of the full signed encoding. The type-erased `UnsignedTransactionBox` and
  `SignedTransactionBox` forward every call to the typed value.
- **The `CoinEntry` plugin contract** and its Ethereum implementation, `EthereumEntry`. This covers address
  parsing and derivation, the three signing operations, and the three optional modules.
- **The closed code-to-variant lookups**: `Derivation`, `Curve`, `PublicKeyType` and `BlockchainType`.
- **The codegen grammar combinators**. These are a non-empty list (`Continuum`), one-or-more repetition,
  ordered choice, and the separator, end-of-input, keyword, name and marker rules. The two parameter rules
  are built from them.

Rust traits become records of functions (`UnsignedTransactionImpl`, `SignedTransactionImpl`, `CoinEntry`).
A trait's default methods become functions over that record. A default that an
implementation may override is a field of type `Override<T>`, which is either `Inherited` or
`Overridden(body)`. A `Box<dyn …>` becomes a class whose constant field is a method table of closures over
the typed value, so the boxed classes take no type parameter. `into_signed` takes `self: Box<Self>` by
value. The unsigned box records that move in its `consumed` field and then refuses every further call.

`Collaborators` is not a trait. It is a separate record of the associated functions and library calls that
`EthereumEntry` delegates to and that are not shown. It holds secp256k1 public-key parsing, `Address::from_str`, `Address::with_secp256k1_pubkey`, the
address's `Display` and `data`, `Signer::sign_proto`, `Compiler::preimage_hashes` and `Compiler::compile`.
Keccak-256 is a parameter of type `Bytes -> H256`. The only assumption it carries is that every digest is
32 bytes long, which is what the source's `expect` relies on.

The grammar's `Reader` is not shown either. It is modelled as the input text plus a cursor, under this
stated assumption:
- `checkout` saves the cursor, and `discard`/`reset` return to the saved cursor.
- `merge`/`commit` adopt the cursor that the child rule reached.
- `read_amt(1)` yields the next character, or nothing at the end of input.
- `read_until::<P>()` yields the text up to the first position at or after the cursor where `P` derives,
  and leaves the cursor there. It fails if there is no such position.

Several properties hold by typing and have no member of their own:
- `sign`, `preimage_hashes` and `compile` are total. They are arrows with no precondition whose result is
  an output message, not a `Result`.
- `parse_address` and `derive_address` return an `AddressResult`, so they either give an address or fail
  with an `AddressError`.
- A `Continuum` is never empty, because it has no empty constructor (see also `Grammar.Items`).
- `Derivation::from_raw`, `Curve::from_raw` and `PublicKeyType::from_raw` are total on `u32`.

`EthereumEntry::derive_address` ignores its `_derivation` argument (`rust/tw_ethereum/src/entry.rs:50`), so it
never fails with `UnsupportedDerivation`; `DeriveAddressIgnoresContextDerivationPrefix` proves this.

## Model

| member | source | states |
|---|---|---|
| `Derivations.FromRaw` | rust/tw_coin_entry/src/derivation.rs:14-20 | defined on every `u32`; gives a variant exactly for code 0, and that variant's declared discriminant is the code |
| `Derivations.FromRawInverse` | rust/tw_coin_entry/src/derivation.rs:9-20 | for every code and variant, `from_raw(n) == Some(d)` iff `n` is `d`'s discriminant (both directions) |
| `Derivations.FromRawRoundTrip` | rust/tw_coin_entry/src/derivation.rs:11-17 | `from_raw(Default as u32) == Some(Default)` |
| `Derivations.FromRawVectors` | rust/tw_coin_entry/src/derivation.rs:15-19 | code 0 gives `Default`; every non-zero code, including 1 and `u32::MAX`, gives `None` |
| `Keypair.CurveFromRaw` | rust/tw_keypair/src/tw/mod.rs:28-41 | defined on every `u32`; `Some` exactly for codes below 7, and the curve returned has the code as its declared discriminant |
| `Keypair.CurveFromRawInverse` | rust/tw_keypair/src/tw/mod.rs:16-41 | `Curve::from_raw(n) == Some(c)` iff `c as u32 == n`, for every code and curve |
| `Keypair.CurveRoundTrip` | rust/tw_keypair/src/tw/mod.rs:16-41 | `Curve::from_raw(c as u32) == Some(c)` for every curve |
| `Keypair.CurveFromRawInjective` | rust/tw_keypair/src/tw/mod.rs:30-41 | two accepted codes that give the same curve are equal |
| `Keypair.CurveFromRawTestVectors` | rust/tw_keypair/src/tw/mod.rs:83-98 | the test table: codes 0 to 6 give the seven curves in declaration order, code 7 gives `None` |
| `Keypair.PublicKeyTypeFromRaw` | rust/tw_keypair/src/tw/mod.rs:61-76 | defined on every `u32`; `Some` exactly for codes below 9, and the key type returned has the code as its declared discriminant |
| `Keypair.PublicKeyTypeFromRawInverse` | rust/tw_keypair/src/tw/mod.rs:47-76 | `PublicKeyType::from_raw(n) == Some(t)` iff `t as u32 == n`, for every code and key type |
| `Keypair.PublicKeyTypeRoundTrip` | rust/tw_keypair/src/tw/mod.rs:47-76 | `PublicKeyType::from_raw(t as u32) == Some(t)` for every key type |
| `Keypair.PublicKeyTypeFromRawInjective` | rust/tw_keypair/src/tw/mod.rs:63-76 | two accepted codes that give the same key type are equal |
| `Keypair.PublicKeyTypeFromRawTestVectors` | rust/tw_keypair/src/tw/mod.rs:100-117 | the test table: codes 0 to 8 give the nine key types in declaration order, code 9 gives `None` |
| `Registry.FromStr` | rust/tw_coin_registry/src/blockchain_type.rs:30-38 | never returns `Err`; gives `Ethereum` iff the string is exactly `"Ethereum"`, otherwise `Unsupported` |
| `Registry.FromStrCaseSensitive` | rust/tw_coin_registry/src/blockchain_type.rs:33-37 | `"ethereum"`, `"ETHEREUM"`, `"Ethereum "` and `""` give `Unsupported`; `"Ethereum"` gives `Ethereum` |
| `Primitives.H256TryFrom` | rust/tw_ethereum/src/transaction/mod.rs:26 | `H256::try_from` gives a value exactly for a 32-byte slice, and that value is the slice itself; so the `expect` in `pre_hash` could fire only on a digest of another length |
| `Transaction.PreHash` | rust/tw_ethereum/src/transaction/mod.rs:24-27 | the default `pre_hash(chain_id)` is 32 bytes and equals `keccak256(encode(chain_id))`; the `expect` never fires |
| `Transaction.Hash` | rust/tw_ethereum/src/transaction/mod.rs:41-44 | the default `hash()` is 32 bytes and equals `keccak256` of the signed `encode()` |
| `Transaction.PreHashDependsOnlyOnEncoding` | rust/tw_ethereum/src/transaction/mod.rs:24-29 | two unsigned transactions (of any types) with equal `encode(chain_id)` have equal `pre_hash(chain_id)` |
| `Transaction.HashDependsOnlyOnEncoding` | rust/tw_ethereum/src/transaction/mod.rs:41-46 | two signed transactions with equal `encode()` have equal `hash()` |
| `Transaction.SignedVTableOf` | rust/tw_ethereum/src/transaction/mod.rs:101-116 | the boxed `payload`, `hash`, `encode` and `signature` return what the typed methods return; `signature` goes through the `EthSignature` view |
| `Transaction.UnsignedVTableOf` | rust/tw_ethereum/src/transaction/mod.rs:70-91 | the boxed `payload`, `pre_hash(c)` and `encode(c)` equal the typed ones for every chain id; boxed `into_signed` boxes the typed `into_signed` result |
| `Transaction.BoxedSigningMatchesTyped` | rust/tw_ethereum/src/transaction/mod.rs:82-115 | for the same signature and chain id, the boxed signed `hash`, `encode` and `signature` equal those of the typed `into_signed` result |
| `Transaction.UnsignedTransactionBox.IntoSigned` | rust/tw_ethereum/src/transaction/mod.rs:63-67 | signing consumes the box (no further call is allowed) and yields a fresh signed box built from the typed result |
| `Transaction.SignedTransactionBox.Payload` | rust/tw_ethereum/src/transaction/mod.rs:17-18 | no contract of its own; `SignBoxed` states that it is the typed signed transaction's `payload()` |
| `Transaction.SignedTransactionBox.Hash` | rust/tw_ethereum/src/transaction/mod.rs:94 | no contract of its own; `SignBoxed` and `BoxedSigningMatchesTyped` state that it is the typed `hash()`, the Keccak-256 digest of the signed encoding |
| `Transaction.SignedTransactionBox.Encode` | rust/tw_ethereum/src/transaction/mod.rs:96 | no contract of its own; `SignBoxed` and `BoxedSigningMatchesTyped` state that it is the typed `encode()` |
| `Transaction.SignedTransactionBox.Signature` | rust/tw_ethereum/src/transaction/mod.rs:98 | no contract of its own; `SignBoxed` and `BoxedSigningMatchesTyped` state that it is the typed `signature()` seen through the `EthSignature` view |
| `Transaction.UnsignedTransactionBox.Payload` | rust/tw_ethereum/src/transaction/mod.rs:17-18 | no contract of its own; `IntoBoxed` states that it is the typed transaction's `payload()` |
| `Transaction.UnsignedTransactionBox.PreHash` | rust/tw_ethereum/src/transaction/mod.rs:59 | no contract of its own; `IntoBoxed` states that it equals the typed `pre_hash(chain_id)` for every chain id |
| `Transaction.UnsignedTransactionBox.Encode` | rust/tw_ethereum/src/transaction/mod.rs:61 | no contract of its own; `IntoBoxed` states that it equals the typed `encode(chain_id)` for every chain id |
| `Transaction.IntoBoxed` | rust/tw_ethereum/src/transaction/mod.rs:52-57 | boxing yields a fresh, unconsumed box whose `payload`, `pre_hash` and `encode` agree with the typed value's for every chain id |
| `Transaction.SignBoxed` | rust/tw_ethereum/src/transaction/mod.rs:82-115 | boxing and then signing through the box gives the typed result's `hash`, `encode`, `payload` and `signature`, and leaves the unsigned box consumed |
| `CoinEntries.JsonSigner` | rust/tw_coin_entry/src/coin_entry.rs:76-78 | no contract of its own; `DefaultModulesAbsent` states that the default gives `None`, and `PresentOnlyIfOverridden` that a signer is present only through an override |
| `CoinEntries.PlanBuilder` | rust/tw_coin_entry/src/coin_entry.rs:82-84 | no contract of its own; `DefaultModulesAbsent` states that the default gives `None`, and `PresentOnlyIfOverridden` that a builder is present only through an override |
| `CoinEntries.SigningInputBuilder` | rust/tw_coin_entry/src/coin_entry.rs:90-92 | no contract of its own; `DefaultModulesAbsent` states that the default gives `None`, and `PresentOnlyIfOverridden` that a builder is present only through an override |
| `CoinEntries.DefaultModulesAbsent` | rust/tw_coin_entry/src/coin_entry.rs:74-92 | a chain that keeps the default `json_signer`, `plan_builder` or `signing_input_builder` gets `None` |
| `CoinEntries.PresentOnlyIfOverridden` | rust/tw_coin_entry/src/coin_entry.rs:74-92 | an optional module is present only when the chain overrides the default, never as a placeholder instance |
| `EthereumEntry.ParseAddress` | rust/tw_ethereum/src/entry.rs:37-44 | no contract of its own; `Entry` states that `parse_address` is `Address::from_str` on the address, and `EntryIgnoresContext` that it ignores the context and prefix |
| `EthereumEntry.DeriveAddress` | rust/tw_ethereum/src/entry.rs:46-56 | returns `Err(PublicKeyTypeMismatch)` exactly when the bytes do not parse as a secp256k1 key, has no other error, and otherwise returns `Ok(Address::with_secp256k1_pubkey(pk))` |
| `EthereumEntry.DeriveAddressIgnoresContextDerivationPrefix` | rust/tw_ethereum/src/entry.rs:46-56 | `derive_address` gives the same result for every coin context, derivation and prefix |
| `EthereumEntry.Sign` | rust/tw_ethereum/src/entry.rs:58-60 | no contract of its own; `Entry` states that `sign` is `Signer::sign_proto` on the same input, and `EntryIgnoresContext` that it ignores the context |
| `EthereumEntry.PreimageHashes` | rust/tw_ethereum/src/entry.rs:62-68 | no contract of its own; `Entry` states that `preimage_hashes` is `Compiler::preimage_hashes` on the same input, and `EntryIgnoresContext` that it ignores the context |
| `EthereumEntry.Compile` | rust/tw_ethereum/src/entry.rs:70-78 | no contract of its own; `Entry` states that `compile` is `Compiler::compile` on the same input, signatures and keys, and `EntryIgnoresContext` that it ignores the context |
| `EthereumEntry.Entry` | rust/tw_ethereum/src/entry.rs:25-87 | `json_signer` and `signing_input_builder` are present; `plan_builder` is inherited, so absent; `parse_address` is `Address::from_str`; `sign`, `preimage_hashes` and `compile` are the `Signer`/`Compiler` calls on the same input |
| `EthereumEntry.EntryIgnoresContext` | rust/tw_ethereum/src/entry.rs:37-78 | `parse_address` ignores the context and prefix; `sign`, `preimage_hashes` and `compile` ignore the context |
| `Grammar.Items` | codegen-v2/src/grammar.rs:77-87 | every `Continuum` holds at least one thing |
| `Grammar.Add` | codegen-v2/src/grammar.rs:304-316 | the things of `c.add(x)` are those of `c` followed by `x`: one longer, and the old things keep their order |
| `Grammar.ItemsInjective` | codegen-v2/src/grammar.rs:77-87 | two `Continuum` values with the same things are equal |
| `Grammar.EofDerive` | codegen-v2/src/grammar.rs:114-128 | `GEof` derives iff no character remains, and then consumes nothing |
| `Grammar.SeparatorItemDerive` | codegen-v2/src/grammar.rs:174-198 | succeeds iff the next character is a space, newline or tab (not at end of input); consumes exactly that character and returns its item |
| `Grammar.EitherOrDerive` | codegen-v2/src/grammar.rs:89-111 | `Either` with the left result if the left rule derives; otherwise `Or` with the right rule's result at the same cursor; otherwise `Err` |
| `Grammar.Repeat` | codegen-v2/src/grammar.rs:322-349 | the successive successes of a rule stay in the same input and move forward; the run is empty iff the first attempt fails; it stops at the first failure |
| `Grammar.ContinuumDerive` | codegen-v2/src/grammar.rs:319-349 | one-or-more repetition fails iff the first attempt fails; otherwise it holds every success in order and the cursor ends after the last success |
| `Grammar.ContinuumDeriveLoop` | codegen-v2/src/grammar.rs:322-349 | the source's loop (accumulating with `add`, discarding the failed attempt) computes exactly `ContinuumDerive` |
| `Grammar.SeparatorRepeat` | codegen-v2/src/grammar.rs:322-349 | repeating the separator item consumes exactly the run of separators at the cursor, and the items spell that run |
| `Grammar.SeparatorDerive` | codegen-v2/src/grammar.rs:35-42 | `GSeparator` derives iff a separator is at the cursor; it holds the whole run and ends after it |
| `Grammar.SeparatorOrEofDerive` | codegen-v2/src/grammar.rs:89-128 | `EitherOr<GSeparator, GEof>` derives iff the cursor is at the end of input or at a separator, and it ends after the separator run |
| `Grammar.FindSeparatorOrEof` | codegen-v2/src/grammar.rs:137 | reading until a separator or the end stops at the end of the current word, and always succeeds |
| `Grammar.FindSeparator` | codegen-v2/src/grammar.rs:295 | reading until a separator stops at the end of the current word, and fails if no separator follows |
| `Grammar.StructDerive` | codegen-v2/src/grammar.rs:166-172 | no contract of its own; it stands for the `todo!()` panic as `Err(Unimplemented)`, and `GTypeDerive` states that exactly the non-keyword words reach it |
| `Grammar.GTypeDerive` | codegen-v2/src/grammar.rs:131-163 | succeeds iff the word at the cursor is `bool`, `char` or `int`, and then returns the type with that spelling and ends after the word; no other word gives one of the three; any other word reaches the struct fallback's panic |
| `Grammar.ParamNameDerive` | codegen-v2/src/grammar.rs:278-289 | never fails; the name is the word up to the next separator or the end, and the cursor ends after it |
| `Grammar.MarkerDerive` | codegen-v2/src/grammar.rs:291-302 | succeeds iff a separator follows the word at the cursor; the marker is that word and the cursor ends before the separator |
| `Grammar.OptionalSeparatorsLand` | codegen-v2/src/grammar.rs:210-216 | after the optional separators (merge on success, discard on failure), the cursor is on the first non-separator at or after the old one |
| `Grammar.DeriveParamItemWithoutMarker` | codegen-v2/src/grammar.rs:247-276 | fails (by the struct panic) iff the leading word is not a type keyword; otherwise `ty` is that keyword's type, `name` is the word after any run of separators, and the cursor ends after the name |
| `Grammar.DeriveParamItemWithMarker` | codegen-v2/src/grammar.rs:201-245 | succeeds iff the leading word is a type keyword and a separator follows the marker word; then it returns the type, a non-empty marker and the name, each the word after the separators, and the cursor ends after the name; the error tells the two failures apart |

## Left out

- Cryptography is not modelled. This covers Keccak-256, secp256k1 key parsing and signing, and the
  internals of `U256` and `H256`. Keccak-256 is an arbitrary function whose digests are 32 bytes.
- `Address::from_str`, `Address::with_secp256k1_pubkey`, `Signer::sign_proto`, `Compiler::preimage_hashes`
  and `Compiler::compile` are opaque parameters, because their source is not part of this model. So is the
  public-key parser. As a result, the claim that `sign` and `compile` converge on the same output cannot be
  proved here. Neither can the claim that an address round-trips through `parse_address`.
- The concrete transaction types (EIP-1559, legacy, user operation) are not modelled. The lifecycle is
  proved for every implementation record.
- `Transaction.PreHash`, `Transaction.Hash`: these model the default bodies only. An implementation that
  overrides `pre_hash` or `hash` falls outside them, because the concrete types are not shown.
- The `secp256k1::Signature` layout and the `EthSignature` capability are not shown. The capability view is
  taken to be the `v`, `r` and `s` accessors.
- `AddressError` is not shown. `PublicKeyTypeMismatch` is the variant `EthereumEntry` produces; the other
  variants are placeholders that nothing in the model produces. `RegistryError` is not shown either and is a
  single placeholder variant.
- The move of a typed value into `into_signed` is Rust ownership. Dafny values are immutable, so the model
  captures the move only for the boxed form, through `consumed`.
- Protobuf wire formats (`SigningInput`, `SigningOutput`, `PreSigningOutput`) are type parameters, because
  they are external message plumbing. The coin context is also a type parameter.
- `rust/tw_ethereum/src/abi/mod.rs` is not modelled. It is an adapter over external libraries whose only
  logic collapses every library error into `InvalidParams`.
- `BlockchainType::deserialize` is not modelled, because it is serde integration.
- The `dbg!` calls have no behaviour to model, so they are left out.
- The internals of `Reader` are not modelled. Only the cursor assumption stated above is used. `read_amt(1)`
  is taken never to fail.
- `GStruct::derive` is `todo!()`. The model turns its panic into the error value `Unimplemented` and
  propagates it through `GTypeDerive` and the parameter rules. `EitherOrDerive` and `ContinuumDerive` treat
  it like any other error. The two behaviours would differ only if a rule that reaches `GType` were tried
  inside a choice (on either side) or a repetition, which the source never does.
- `Grammar.ContinuumDerive`, `Grammar.ContinuumDeriveLoop`: these require the repeated rule to move the cursor
  forward on every success (`Advances`). A rule that succeeds without consuming would make the source's loop
  run forever. `GSeparatorItem`, the only rule the source repeats, does advance (`SeparatorItemAdvances`).
- The empty enum `GParamItem` has no values and no rule, so it is not modelled.
