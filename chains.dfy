/** The static table of the two Viction networks the kit supports, keyed by
    the NETWORK enumeration (src/chains/index.ts). */
module Chains {

  datatype NativeCurrency = NativeCurrency(decimals: nat, name: string, symbol: string)

  datatype RpcUrls = RpcUrls(http: seq<string>, webSocket: seq<string>)

  datatype BlockExplorer = BlockExplorer(name: string, url: string)

  /** viem's `Chain` descriptor, restricted to the fields the table fills in. */
  datatype Chain = Chain(
    id: nat,
    name: string,
    nativeCurrency: NativeCurrency,
    rpcUrls: RpcUrls,
    blockExplorers: BlockExplorer,
    testnet: bool)

  /** The NETWORK enumeration. */
  datatype Network = MAINNET | TESTNET

  const VictionMainnet: Chain := Chain(
    88,
    "Viction Mainnet",
    NativeCurrency(18, "Viction", "VIC"),
    RpcUrls(["https://rpc.viction.xyz"], ["wss://ws.viction.xyz"]),
    BlockExplorer("Explorer", "https://vicscan.xyz"),
    true)  // the mainnet descriptor is flagged as a testnet, as written

  const VictionTestnet: Chain := Chain(
    89,
    "Viction Testnet",
    NativeCurrency(18, "Viction", "VIC"),
    RpcUrls(["https://rpc-testnet.viction.xyz"], ["wss://ws-testnet.viction.xyz"]),
    BlockExplorer("Explorer", "https://testnet.vicscan.xyz"),
    true)

  /** The `supportNetworks` record: one descriptor per enumeration value. */
  function SupportNetworks(n: Network): (c: Chain)
    ensures n == MAINNET ==> c.id == 88
    ensures n == TESTNET ==> c.id == 89
    ensures c.nativeCurrency.decimals == 18 && c.nativeCurrency.symbol == "VIC"
    ensures c.testnet
  {
    match n
    case MAINNET => VictionMainnet
    case TESTNET => VictionTestnet
  }

  /** The set of chain ids the kit can be configured for. */
  predicate IsSupportedChainId(id: int) {
    exists n: Network :: SupportNetworks(n).id == id
  }

  /** A chain id names at most one supported network. */
  lemma ChainIdIdentifiesNetwork(n1: Network, n2: Network)
    ensures SupportNetworks(n1).id == SupportNetworks(n2).id <==> n1 == n2
  {
  }

  /** Exactly the ids 88 and 89 are supported. */
  lemma SupportedChainIds(id: int)
    ensures IsSupportedChainId(id) <==> id == 88 || id == 89
  {
    if id == 88 {
      assert SupportNetworks(MAINNET).id == id;
    } else if id == 89 {
      assert SupportNetworks(TESTNET).id == id;
    }
  }
}
