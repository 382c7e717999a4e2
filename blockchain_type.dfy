/** `tw_coin_registry::blockchain_type`: the implementation family of a registry entry. */
module Registry {
  import opened Wrappers

  datatype BlockchainType = Ethereum | Unsupported

  /**
   * `RegistryError` lives in a file that is not part of this model; a single
   * placeholder variant stands for it, and `FromStr` never produces it.
   */
  datatype RegistryError = RegistryError

  /** `BlockchainType::from_str`: an exact, case-sensitive match that never fails. */
  function FromStr(s: string): (r: Result<BlockchainType, RegistryError>)
    ensures r.Ok?
    ensures r.value == Ethereum <==> s == "Ethereum"
    ensures r.value == Unsupported <==> s != "Ethereum"
  {
    match s
    case "Ethereum" => Ok(Ethereum)
    case _ => Ok(Unsupported)
  }

  /** Other spellings of the same name are not recognised. */
  lemma FromStrCaseSensitive()
    ensures FromStr("ethereum") == Ok(Unsupported)
    ensures FromStr("ETHEREUM") == Ok(Unsupported)
    ensures FromStr("Ethereum ") == Ok(Unsupported)
    ensures FromStr("") == Ok(Unsupported)
    ensures FromStr("Ethereum") == Ok(Ethereum)
  {
  }
}
