/** MetaMaskConnector (src/connectors/MetaMaskConnector.ts): a connector over
    the single injected `window.ethereum` provider. Its public client is
    created once, by the constructor; `disconnect` drops it and nothing
    creates it again, so every guarded operation fails from then on. */
module MetaMask {

  import opened Rpc

  /** The chain the file configures its clients with (`networks.MAINNET`),
      kept opaque. */
  datatype ChainRef = NetworksMainnet

  datatype PublicClient = PublicClient(chain: ChainRef)

  datatype WalletClient = WalletClient(chain: ChainRef, transport: Provider)

  class MetaMaskConnector {
    var client: Option<PublicClient>
    var walletClient: WalletClient

    /** `ethereum` is the page's injected `window.ethereum`. */
    constructor (ethereum: Provider)
      ensures client == Some(PublicClient(NetworksMainnet))
      ensures walletClient == WalletClient(NetworksMainnet, ethereum)
    {
      client := Some(PublicClient(NetworksMainnet));
      walletClient := WalletClient(NetworksMainnet, ethereum);
    }

    /** `connect()`: asks the wallet for its addresses while the public
        client exists; any rejection is replaced by one message. */
    method Connect(addresses: Result<seq<Address>, RpcError>) returns (r: Outcome<Error>, issued: seq<Request>)
      ensures client.None? ==>
                r == Fail(MetaMaskNotInstalled) && Message(r.error) == Some("MetaMask is not installed") && issued == []
      ensures client.Some? ==> issued == [EthRequestAccounts] && (r.Pass? <==> addresses.Ok?)
      ensures client.Some? && r.Fail? ==>
                r.error == UserRejected && Message(r.error) == Some("User rejected the request.")
    {
      if client.None? {
        return Fail(MetaMaskNotInstalled), [];
      }
      issued := [EthRequestAccounts];
      r := if addresses.Ok? then Pass else Fail(UserRejected);
    }

    /** `disconnect()`: drops the public client and only that. */
    method Disconnect()
      modifies this`client
      ensures client == None
      ensures walletClient == old(walletClient)
    {
      client := None;
    }

    /** `getAccount()`: the first entry of the `eth_accounts` answer, None
        when it is empty (undefined). */
    method GetAccount(accounts: Result<seq<Address>, RpcError>)
      returns (r: Result<Option<Address>, Error>, issued: seq<Request>)
      ensures client.None? ==>
                r == Err(WalletNotConnected) && Message(r.error) == Some("Wallet not connected") && issued == []
      ensures client.Some? ==> issued == [EthAccounts]
      ensures client.Some? && accounts.Err? ==> r == Err(Rejected(accounts.error))
      ensures client.Some? && accounts.Ok? ==>
                r.Ok? && (r.value.Some? <==> |accounts.value| > 0)
                && (r.value.Some? ==> r.value.value == accounts.value[0])
    {
      if client.None? {
        return Err(WalletNotConnected), [];
      }
      issued := [EthAccounts];
      match accounts
      case Err(e) => r := Err(Rejected(e));
      case Ok(list) => r := Ok(if |list| > 0 then Some(list[0]) else None);
    }

    /** `getBalance(account)`. */
    method GetBalance(account: Address, balance: Result<nat, RpcError>)
      returns (r: Result<Formatted, Error>, issued: seq<Request>)
      ensures client.None? ==>
                r == Err(WalletNotConnected) && Message(r.error) == Some("Wallet not connected") && issued == []
      ensures client.Some? ==> issued == [EthGetBalance(account)]
      ensures client.Some? && balance.Ok? ==> r == Ok(FormatEther(balance.value))
      ensures client.Some? && balance.Err? ==> r == Err(Rejected(balance.error))
    {
      if client.None? {
        return Err(WalletNotConnected), [];
      }
      issued := [EthGetBalance(account)];
      match balance
      case Ok(wei) => r := Ok(FormatEther(wei));
      case Err(e) => r := Err(Rejected(e));
    }

    /** `sendTransaction(tx)`, sent through the public client. */
    method SendTransaction(tx: Tx, response: Result<string, RpcError>)
      returns (r: Result<string, Error>, issued: seq<Request>)
      ensures client.None? ==>
                r == Err(WalletNotConnected) && Message(r.error) == Some("Wallet not connected") && issued == []
      ensures client.Some? ==> issued == [EthSendTransaction(tx)]
      ensures client.Some? && response.Ok? ==> r == Ok(response.value)
      ensures client.Some? && response.Err? ==> r == Err(Rejected(response.error))
    {
      if client.None? {
        return Err(WalletNotConnected), [];
      }
      issued := [EthSendTransaction(tx)];
      match response
      case Ok(v) => r := Ok(v);
      case Err(e) => r := Err(Rejected(e));
    }
  }

  /** Once disconnected, a MetaMask connector stays unusable: whatever
      operations follow and whatever the wallet answers, connect reports
      MetaMask as not installed and sends nothing. The sequence below runs
      every method once; the general case rests on the frames, since
      Disconnect is the only method whose `modifies` clause names `client`
      and it only ever sets it to None. */
  method ConnectAfterDisconnect(m: MetaMaskConnector, before: Result<seq<Address>, RpcError>,
                                after: Result<seq<Address>, RpcError>)
    returns (first: Outcome<Error>, second: Outcome<Error>)
    modifies m
    ensures first == Fail(MetaMaskNotInstalled) && second == Fail(MetaMaskNotInstalled)
  {
    m.Disconnect();
    var issued;
    first, issued := m.Connect(before);
    assert issued == [];
    var account;
    account, issued := m.GetAccount(before);
    assert account == Err(WalletNotConnected);
    var balance;
    balance, issued := m.GetBalance("", Ok(0));
    assert balance == Err(WalletNotConnected);
    var sent;
    sent, issued := m.SendTransaction("", Ok(""));
    assert sent == Err(WalletNotConnected);
    m.Disconnect();
    second, issued := m.Connect(after);
  }
}
