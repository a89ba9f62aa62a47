/** WalletConnector (src/connectors/WalletConnector.ts): the EIP-6963 provider
    registry together with the connection state (bound provider, wallet
    client, public client) that connect and disconnect change and every
    other operation is guarded on.

    Each RPC answer the source awaits is a parameter of the method that
    awaits it, and each method also returns `issued`, the requests it sent, in
    order. */
module Connector {

  import opened Rpc
  import opened Chains
  import Registry

  /** viem's wallet client, created over the bound provider for a chain. */
  datatype WalletClient = WalletClient(chain: Chain, transport: Provider)

  /** viem's public client, created over HTTP for a chain. */
  datatype PublicClient = PublicClient(chain: Chain)

  class WalletConnector {
    var providerDetails: seq<Registry.ProviderDetail>
    var sponsorProviders: seq<Registry.ProviderDetail>

    const network: Chain
    var provider: Option<Provider>
    var walletClient: Option<WalletClient>
    var publicClient: Option<PublicClient>

    /** The two registry lists as one value. */
    function Lists(): Registry.Lists
      reads this
    {
      Registry.Lists(sponsorProviders, providerDetails)
    }

    constructor (chain: Network)
      ensures network == SupportNetworks(chain)
      ensures sponsorProviders == [] && providerDetails == []
      ensures provider == None && walletClient == None && publicClient == None
    {
      network := SupportNetworks(chain);
      providerDetails, sponsorProviders := [], [];
      provider, walletClient, publicClient := None, None, None;
    }

    // -------------------------------------------------------------------
    // Registry
    // -------------------------------------------------------------------

    function ExistsProviderDetail(d: Registry.ProviderDetail): (b: bool)
      reads this
      ensures b <==> ((exists i :: 0 <= i < |sponsorProviders| && sponsorProviders[i].info.uuid == d.info.uuid)
                     && (exists j :: 0 <= j < |providerDetails| && providerDetails[j].info.uuid == d.info.uuid))
    {
      Registry.ExistsProviderDetail(Lists(), d)
    }

    function ExistsSponsorDetail(d: Registry.ProviderDetail): (b: bool)
      reads this
      ensures b <==> exists j :: 0 <= j < |providerDetails| && providerDetails[j].info.uuid == d.info.uuid
    {
      Registry.ExistsSponsorDetail(Lists(), d)
    }

    method HandleNewProviderDetail(d: Registry.ProviderDetail)
      modifies this`sponsorProviders, this`providerDetails
      ensures Lists() == Registry.HandleNew(old(Lists()), d)
      ensures old(ExistsProviderDetail(d)) ==>
                sponsorProviders == old(sponsorProviders) && providerDetails == old(providerDetails)
      ensures !old(ExistsProviderDetail(d)) && Registry.IsSponsor(d) ==>
                sponsorProviders == old(sponsorProviders) + [d] && providerDetails == old(providerDetails)
      ensures !old(ExistsProviderDetail(d)) && !Registry.IsSponsor(d) ==>
                providerDetails == old(providerDetails) + [d] && sponsorProviders == old(sponsorProviders)
    {
      if !ExistsProviderDetail(d) {
        if Registry.IsSponsor(d) {
          sponsorProviders := sponsorProviders + [d];
        } else {
          providerDetails := providerDetails + [d];
        }
      }
    }

    /** The `eip6963:announceProvider` listener installed by detectEIP6963,
        called directly. */
    method Announce(d: Registry.ProviderDetail)
      modifies this`sponsorProviders, this`providerDetails
      ensures Lists() == Registry.Announce(old(Lists()), d)
      ensures d.info.uuid == "" ==>
                sponsorProviders == old(sponsorProviders) && providerDetails == old(providerDetails)
    {
      if d.info.uuid != "" {
        HandleNewProviderDetail(d);
      }
    }

    function GetProviderDetails(): seq<Registry.ProviderDetail>
      reads this
    {
      providerDetails
    }

    function GetSponsorProviders(): seq<Registry.ProviderDetail>
      reads this
    {
      sponsorProviders
    }

    function GetChainInfo(): Chain {
      network
    }

    // -------------------------------------------------------------------
    // Connection state
    // -------------------------------------------------------------------

    predicate IsConnected()
      reads this
    {
      provider.Some? && walletClient.Some?
    }

    /** `connect(wallet)`; `addresses` is the wallet's answer to the address
        request. The provider field is overwritten before either check, so it
        changes even when connect throws. */
    method Connect(wallet: Registry.ProviderDetail, addresses: Result<seq<Address>, RpcError>)
      returns (r: Outcome<Error>, issued: seq<Request>)
      modifies this`provider, this`walletClient, this`publicClient
      ensures provider == wallet.provider
      ensures wallet.provider.None? ==>
                r == Fail(ProviderNotFound) && Message(r.error) == Some("Provider not found") && issued == []
                && walletClient == old(walletClient) && publicClient == old(publicClient)
      ensures wallet.provider.Some? && wallet.provider.value.isAbstractionWallet && network.id != 88 ==>
                r == Fail(AbstractionMainnetOnly) && issued == []
                && ThrownValue(r.error) == BareString("Abstraction wallet only support mainnet")
                && Message(r.error) == None
                && walletClient == old(walletClient) && publicClient == old(publicClient)
      ensures wallet.provider.Some? && (!wallet.provider.value.isAbstractionWallet || network.id == 88) ==>
                && walletClient == Some(WalletClient(network, wallet.provider.value))
                && publicClient == Some(PublicClient(network))
                && IsConnected()
                && issued == [EthRequestAccounts]
                && (r.Pass? <==> addresses.Ok?)
                && (addresses.Err? ==> r == Fail(Rejected(addresses.error)))
    {
      provider := wallet.provider;
      if provider.None? {
        return Fail(ProviderNotFound), [];
      }
      if provider.value.isAbstractionWallet && network.id != 88 {
        return Fail(AbstractionMainnetOnly), [];
      }
      walletClient := Some(WalletClient(network, provider.value));
      publicClient := Some(PublicClient(network));
      issued := [EthRequestAccounts];
      match addresses
      case Ok(_) => r := Pass;
      case Err(e) => r := Fail(Rejected(e));
    }

    /** `disconnect()`: unbinds the provider and the wallet client; the public
        client stays. A second disconnect changes nothing. */
    method Disconnect()
      modifies this`provider, this`walletClient
      ensures provider == None && walletClient == None && !IsConnected()
      ensures publicClient == old(publicClient)
      ensures old(provider == None && walletClient == None) ==> unchanged(this)
    {
      provider := None;
      walletClient := None;
    }

    /** `switchChain(chainID)`: adds the configured network to the wallet,
        then switches to `chainID`; either failure becomes one error. */
    method SwitchChain(chainID: int, addChain: Outcome<RpcError>, switchChain: Outcome<RpcError>)
      returns (r: Outcome<Error>, issued: seq<Request>)
      ensures walletClient.None? ==>
                r == Fail(WalletNotConnected) && Message(r.error) == Some("Wallet not connected") && issued == []
      ensures walletClient.Some? ==>
                && issued == [WalletAddEthereumChain(network)] + (if addChain.Pass? then [WalletSwitchEthereumChain(chainID)] else [])
                && (r.Pass? <==> addChain.Pass? && switchChain.Pass?)
                && (r.Fail? ==> r.error == CantSwitchChain && Message(r.error) == Some("Cant switch chain ID"))
    {
      if walletClient.None? {
        return Fail(WalletNotConnected), [];
      }
      issued := [WalletAddEthereumChain(network)];
      if addChain.Fail? {
        return Fail(CantSwitchChain), issued;
      }
      issued := issued + [WalletSwitchEthereumChain(chainID)];
      r := if switchChain.Pass? then Pass else Fail(CantSwitchChain);
    }

    /** `detectChain()`: the bound provider's `eth_chainId` answer is read
        with `parseInt(_, 16)` and compared with the configured network's
        id; a missing provider, a mismatch and a failed request all give
        None (undefined). */
    method DetectChain(chainId: Result<string, RpcError>) returns (r: Option<Chain>, issued: seq<Request>)
      ensures provider.None? ==> r == None && issued == []
      ensures provider.Some? ==> issued == [EthChainId]
      ensures r.Some? <==> provider.Some? && chainId.Ok? && ParseInt16(chainId.value) == Some(network.id)
      ensures r.Some? ==> r.value == network
    {
      if provider.None? {
        return None, [];
      }
      issued := [EthChainId];
      match chainId
      case Err(_) => r := None;
      case Ok(answer) =>
        var chainIdNumber := ParseInt16(answer);
        if chainIdNumber == Some(network.id) {
          r := Some(network);
        } else {
          r := None;
        }
    }

    /** `getAccount()`: the first address the wallet reports, None when it
        reports none (undefined). */
    method GetAccount(addresses: Result<seq<Address>, RpcError>)
      returns (r: Result<Option<Address>, Error>, issued: seq<Request>)
      ensures walletClient.None? ==>
                r == Err(WalletNotConnected) && Message(r.error) == Some("Wallet not connected") && issued == []
      ensures walletClient.Some? ==> issued == [EthRequestAccounts]
      ensures walletClient.Some? && addresses.Err? ==> r == Err(Rejected(addresses.error))
      ensures walletClient.Some? && addresses.Ok? ==>
                r.Ok? && (r.value.Some? <==> |addresses.value| > 0)
                && (r.value.Some? ==> r.value.value == addresses.value[0])
    {
      if walletClient.None? {
        return Err(WalletNotConnected), [];
      }
      issued := [EthRequestAccounts];
      match addresses
      case Err(e) => r := Err(Rejected(e));
      case Ok(accounts) =>
        r := Ok(if |accounts| > 0 then Some(accounts[0]) else None);
    }

    /** `getBalance(account)`: guarded on the public client only. */
    method GetBalance(account: Address, balance: Result<nat, RpcError>)
      returns (r: Result<Formatted, Error>, issued: seq<Request>)
      ensures publicClient.None? ==>
                r == Err(WalletNotConnected) && Message(r.error) == Some("Wallet not connected") && issued == []
      ensures publicClient.Some? ==> issued == [EthGetBalance(account)]
      ensures publicClient.Some? && balance.Ok? ==> r == Ok(FormatEther(balance.value))
      ensures publicClient.Some? && balance.Err? ==> r == Err(Rejected(balance.error))
    {
      if publicClient.None? {
        return Err(WalletNotConnected), [];
      }
      issued := [EthGetBalance(account)];
      match balance
      case Ok(wei) => r := Ok(FormatEther(wei));
      case Err(e) => r := Err(Rejected(e));
    }

    /** `sendTransaction(tx)`: the wallet's answer is passed back as it is. */
    method SendTransaction(tx: Tx, response: Result<string, RpcError>)
      returns (r: Result<string, Error>, issued: seq<Request>)
      ensures walletClient.None? ==>
                r == Err(WalletNotConnected) && Message(r.error) == Some("Wallet not connected") && issued == []
      ensures walletClient.Some? ==> issued == [EthSendTransaction(tx)]
      ensures walletClient.Some? && response.Ok? ==> r == Ok(response.value)
      ensures walletClient.Some? && response.Err? ==> r == Err(Rejected(response.error))
    {
      if walletClient.None? {
        return Err(WalletNotConnected), [];
      }
      issued := [EthSendTransaction(tx)];
      match response
      case Ok(v) => r := Ok(v);
      case Err(e) => r := Err(Rejected(e));
    }
  }

  /** The mainnet connector recognises the test suite's `eth_chainId`
      answer "0x58". */
  lemma MainnetAnswerMatches()
    ensures ParseInt16("0x58") == Some(SupportNetworks(MAINNET).id)
  {
    assert Quantity(88) == "0x58";
    QuantityRoundTrip(88);
  }

  /** A wallet on chain `k` that answers `eth_chainId` with the EIP-695
      quantity of `k` is recognised exactly when `k` is the configured
      network's id. */
  method DetectReportedChain(c: WalletConnector, k: nat) returns (r: Option<Chain>)
    requires c.provider.Some?
    ensures r.Some? <==> k == c.network.id
    ensures r.Some? ==> r.value == c.network
  {
    QuantityMatches(k, c.network.id);
    var issued;
    r, issued := c.DetectChain(Ok(Quantity(k)));
  }

  /** Connecting and then disconnecting leaves the connector unusable for
      account and chain operations, and issues no further request. */
  method ConnectThenDisconnect(c: WalletConnector, wallet: Registry.ProviderDetail,
                               addresses: Result<seq<Address>, RpcError>)
    returns (account: Result<Option<Address>, Error>, switched: Outcome<Error>)
    modifies c
    ensures !c.IsConnected()
    ensures account == Err(WalletNotConnected)
    ensures switched == Fail(WalletNotConnected)
  {
    var connected, issued := c.Connect(wallet, addresses);
    c.Disconnect();
    account, issued := c.GetAccount(addresses);
    assert issued == [];
    switched, issued := c.SwitchChain(c.network.id, Pass, Pass);
    assert issued == [];
  }
}
