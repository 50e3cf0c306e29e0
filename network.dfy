/** How `create` turns the network name into bitcoinjs-lib network parameters and an
    HD derivation path (src/did-btc1.ts:82-92). */
module Networks {
  import opened Types

  /** Indexing the network enum by a name: the member whose key is `name`. The keys of this
      string enum equal its values, so the lookup inverts `Value`. */
  function LookupNetwork(name: string): (n: Option<Network>)
    ensures n.Some? ==> n.value.Value() == name
    ensures n.None? ==> forall k: Network :: k.Value() != name
  {
    if name == "mainnet" then Some(Mainnet)
    else if name == "testnet" then Some(Testnet)
    else if name == "signet" then Some(Signet)
    else if name == "regtest" then Some(Regtest)
    else None
  }

  /** `isMainnet`: the truthiness of indexing the network enum by the name, a string or undefined. */
  function IsMainnet(name: string): (b: bool)
    ensures b <==> LookupNetwork(name).Some?
  {
    var n := LookupNetwork(name);
    n.Some? && n.value.Value() != ""
  }

  /** The bitcoinjs-lib parameters for a name: never the testnet ones, since every name that
      could select them already counts as mainnet. */
  function SelectBitcoinNetwork(name: string): (n: BitcoinNetwork)
    ensures n != BitcoinTestnet
    ensures n == Bitcoin <==> LookupNetwork(name).Some?
    ensures n == BitcoinRegtest <==> LookupNetwork(name).None?
  {
    if IsMainnet(name) then Bitcoin
    else if name in [Testnet.Value(), Signet.Value()] then BitcoinTestnet
    else BitcoinRegtest
  }

  const MainnetPath := "m/44'/0'/0'/0/0"
  const TestPath := "m/44'/1'/0'/0/0"

  /** The BIP 44 path: coin type 0 for a name of the enum, coin type 1 for any other. */
  function DerivationPath(name: string): (p: string)
    ensures p == (if LookupNetwork(name).Some? then MainnetPath else TestPath)
  {
    "m/44'/" + (if IsMainnet(name) then "0" else "1") + "'/0'/0/0"
  }

  /** A name that passes the network check is one of the enum's names or empty. */
  predicate AcceptedNetwork(network: Option<string>) {
    network.None? || network.value == "" || LookupNetwork(network.value).Some?
  }

  /** Every enum value is a non-empty string, so every one of the four network names,
      testnet, signet and regtest included, selects the bitcoin mainnet parameters
      and coin type 0. */
  lemma EnumNamesSelectMainnet(k: Network)
    ensures LookupNetwork(k.Value()) == Some(k)
    ensures SelectBitcoinNetwork(k.Value()) == Bitcoin
    ensures DerivationPath(k.Value()) == MainnetPath
  {
  }

  /** After the network check and the `mainnet` default, the testnet parameters are never
      chosen, and the regtest parameters and coin type 1 are chosen only for the empty name. */
  lemma AcceptedNetworkChoice(network: Option<string>)
    requires AcceptedNetwork(network)
    ensures var name := network.GetOr("mainnet");
      && SelectBitcoinNetwork(name) != BitcoinTestnet
      && (SelectBitcoinNetwork(name) == BitcoinRegtest <==> name == "")
      && (SelectBitcoinNetwork(name) == Bitcoin <==> name != "")
      && DerivationPath(name) == (if name == "" then TestPath else MainnetPath)
  {
    var name := network.GetOr("mainnet");
    if name != "" {
      EnumNamesSelectMainnet(LookupNetwork(name).value);
    }
  }
}
