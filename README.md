# Viction wallet kit: connectors, provider registry and network table

This project models the core of the Viction wallet kit. The kit is a React
component library that lets a web page find a browser-extension wallet,
connect it, and work against one of two Viction networks.

The model covers three source files:

- `src/connectors/WalletConnector.ts`. The `WalletConnector` class has two
  parts:
  - an EIP-6963 (Multi Injected Provider Discovery) registry. Each announced
    provider detail goes into one of two ordered lists, `sponsorProviders` or
    `providerDetails`, chosen by its `rdns`.
  - a connection state of three option-valued fields: the bound `provider`,
    the `walletClient` and the `publicClient`. `connect` sets them,
    `disconnect` clears the first two, and every operation is guarded on them.
- `src/connectors/MetaMaskConnector.ts`. `MetaMaskConnector` is guarded on its
  `client` field. `disconnect` sets that field to null for good.
- `src/chains/index.ts`. The two chain descriptors (Viction Mainnet, id 88;
  Viction Testnet, id 89) and the `supportNetworks` record keyed by the
  `NETWORK` enumeration.

Modules:

- `Chains` (`chains.dfy`) holds the network table.
- `Rpc` (`rpc.dfy`) holds what the connectors exchange with a wallet:
  - the injected provider;
  - the error an awaited client call rejects with;
  - the requests sent;
  - the error kinds and what each one throws. Most throw an `Error` with a
    fixed message. The Abstraction-wallet check in `connect` throws a bare
    string instead, so a caller reading `error.message` gets `undefined`;
  - how `detectChain` reads a chain id. ECMAScript's `parseInt(s, 16)` is
    written out (leading white space, sign, `0x`/`0X` prefix, longest run of
    hex digits, NaN as `None`). It is proved to read back the EIP-695
    quantity encoding of any chain id.
- `Registry` (`registry.dfy`) holds the two lists as a value, the source's
  `find`-based membership checks, `handleNewProviderDetail`, and the announce
  listener as pure functions.
- `Connector` (`connector.dfy`) holds the `WalletConnector` class. Its fields
  are the two lists and the three connection fields. The methods that change
  them carry `modifies` clauses and state the whole new state.
- `MetaMask` (`metamask.dfy`) holds the `MetaMaskConnector` class.

Every RPC answer the source awaits is a parameter of the method that awaits
it. Examples are the `eth_chainId` string, an address list, the balance, and
the outcome of `addChain`/`switchChain`. Each RPC-issuing method also returns
`issued`: the requests it sent, in order. This is how the contracts say
"fails before issuing any request" and "`addChain` before `switchChain`".

The registry's duplicate check is modelled as written. It skips a detail only
when the detail's uuid is already in both lists. A wallet always announces
with the same `rdns`, so its uuid can only ever be in one list. The check
therefore never fires for it, and re-announcing a wallet appends it again
(`Registry.RepeatedAnnouncementsAllAppend`,
`Registry.DoubleAnnouncementRegistersTwice`).

Three further facts about the code:

- `connect` rethrows the rejection of the awaited `requestAddresses` call
  unchanged. It does not wrap it in an error of its own.
- `disconnect` clears both the provider and the wallet client. It leaves only
  the public client set.
- The duplicate check looks the uuid up in both lists and skips the detail
  only when both contain it.

## Model

| member | source | states |
|---|---|---|
| `Chains.SupportNetworks` | src/chains/index.ts:3-51 | MAINNET maps to chain id 88 and TESTNET to 89. Both native currencies have 18 decimals and symbol "VIC". Both descriptors carry `testnet: true`, the mainnet one included. |
| `Chains.ChainIdIdentifiesNetwork` | src/chains/index.ts:3-51 | Two networks have the same chain id if and only if they are the same network. |
| `Chains.SupportedChainIds` | src/chains/index.ts:43-51 | The chain ids the table supports are exactly 88 and 89. |
| `Rpc.ThrownValue` | src/connectors/WalletConnector.ts:85-175 | The value each `throw` of `WalletConnector` (lines 85, 91, 120, 125, 142, 151, 157, 165, 173) and of `MetaMaskConnector` (src/connectors/MetaMaskConnector.ts lines 35, 38, 48, 56, 67) produces. Only the Abstraction-wallet check (line 125) throws a bare string; every other failure throws an `Error`, and a rethrown client rejection is the rejected value itself. |
| `Rpc.Message` | src/connectors/WalletConnector.ts:85-175 | `error.message` as a caller reads it, for the throws of both connectors (src/connectors/MetaMaskConnector.ts lines 35-67 as well). It is undefined (`None`) exactly for the Abstraction-wallet failure, which throws a bare string, so every `MetaMaskConnector` failure has a defined `message`. A rethrown rejection keeps the message of the error the awaited client call rejected with, unchanged. |
| `Rpc.ParseInt16Cases` | src/connectors/WalletConnector.ts:102 | `parseInt(chainID, 16)`. A non-empty string made only of hex digits is read whole as its hexadecimal value. A string with no hex digit at all gives NaN (`None`). |
| `Rpc.QuantityRoundTrip` | src/connectors/WalletConnector.ts:101-102 | `parseInt(_, 16)` applied to the `0x`-prefixed hex quantity of any chain id gives back that id. |
| `Rpc.QuantityMatches` | src/connectors/WalletConnector.ts:101-104 | A reported quantity for chain `k` parses to `id` if and only if `k == id`. |
| `Registry.HasUuid` | src/connectors/WalletConnector.ts:37-49 | The `find` by uuid is true if and only if some entry of the list has that uuid. |
| `Registry.ExistsProviderDetail` | src/connectors/WalletConnector.ts:36-52 | True if and only if the uuid occurs in the sponsor list AND in the general list. |
| `Registry.ExistsSponsorDetail` | src/connectors/WalletConnector.ts:54-61 | True if and only if the uuid occurs in the general list `providerDetails`, not in the sponsor list. |
| `Registry.HandleNew` | src/connectors/WalletConnector.ts:63-71 | `handleNewProviderDetail` on the two lists. If the uuid is already in both lists, the lists come back unchanged. Otherwise the combined length grows by exactly one. Each old list is a prefix of its new list. |
| `Registry.Announce` | src/connectors/WalletConnector.ts:74-78 | The listener body. An empty uuid leaves the lists unchanged. Any announcement adds at most one entry and keeps each old list as a prefix of its new list. |
| `Registry.HandleNewRoutes` | src/connectors/WalletConnector.ts:63-71 | A detail that is not skipped and whose `rdns` is exactly "world.abstraction.wallet" is appended to the sponsor list, and the general list is unchanged. Any other or absent `rdns` appends it to the general list, and the sponsor list is unchanged. |
| `Registry.HandleNewNoOpIff` | src/connectors/WalletConnector.ts:36-71 | The handler leaves both lists unchanged if and only if the uuid is already in both lists. |
| `Registry.HandleNewAppendsOne` | src/connectors/WalletConnector.ts:63-71 | When the detail is not skipped, the combined length grows by exactly one. Both old lists remain prefixes of the new ones, so no entry is removed or reordered. |
| `Registry.ReannouncedInOneListAppends` | src/connectors/WalletConnector.ts:36-71 | A uuid present in only one list is appended again. |
| `Registry.AnnounceIgnoresEmptyUuid` | src/connectors/WalletConnector.ts:74-78 | An announcement whose `info.uuid` is empty leaves both lists unchanged. |
| `Registry.NeverBothWhenAgreeing` | src/connectors/WalletConnector.ts:36-52 | Suppose the sponsor/general split of the lists agrees with a classification of uuids. Then no uuid is in both lists, and the duplicate check is false. |
| `Registry.RepeatedAnnouncementsAllAppend` | src/connectors/WalletConnector.ts:36-78 | Suppose every announcement of a uuid agrees on whether it is the sponsor wallet. Then every announcement with a non-empty uuid adds one entry, repeats included, and the split keeps agreeing. |
| `Registry.DistinctAnnouncementsAllRegistered` | src/connectors/WalletConnector.ts:36-78 | Start from empty lists and announce details with distinct non-empty uuids. The two lists then hold as many entries together as there were announcements. |
| `Registry.DoubleAnnouncementRegistersTwice` | src/connectors/WalletConnector.ts:36-78 | Announcing the same wallet twice from empty lists leaves two entries. |
| `Connector.WalletConnector.constructor` | src/connectors/WalletConnector.ts:17-34 | The network is `supportNetworks[chain]`. Both lists start empty. No provider or client is bound. |
| `Connector.WalletConnector.ExistsProviderDetail` | src/connectors/WalletConnector.ts:36-52 | On the object's fields: true if and only if the uuid is in `sponsorProviders` and in `providerDetails`. |
| `Connector.WalletConnector.ExistsSponsorDetail` | src/connectors/WalletConnector.ts:54-61 | On the object's fields: true if and only if the uuid is in `providerDetails`. |
| `Connector.WalletConnector.HandleNewProviderDetail` | src/connectors/WalletConnector.ts:63-71 | The new lists are `Registry.HandleNew` of the old ones: unchanged when the uuid is in both lists, otherwise the detail is pushed onto the list its `rdns` selects and the other list is untouched. |
| `Connector.WalletConnector.Announce` | src/connectors/WalletConnector.ts:74-78 | The listener body. An empty uuid changes nothing; otherwise it acts as `handleNewProviderDetail`. |
| `Connector.WalletConnector.Connect` | src/connectors/WalletConnector.ts:116-144 | `provider` is overwritten with the detail's provider in every case. A missing provider fails with "Provider not found". An Abstraction-wallet provider fails unless `network.id` is 88; that failure is a thrown bare string with no `message`. Both failures send nothing and leave both clients as they were. Otherwise both clients are bound to the network (the wallet client over this provider), the connector is connected, exactly one address request is sent, and its rejection is rethrown unchanged. |
| `Connector.WalletConnector.Disconnect` | src/connectors/WalletConnector.ts:146-153 | `provider` and `walletClient` are unset and `isConnected()` is false. `publicClient` is untouched. Disconnecting an already disconnected connector changes nothing. |
| `Connector.WalletConnector.SwitchChain` | src/connectors/WalletConnector.ts:83-93 | With no wallet client it fails with "Wallet not connected" and sends nothing. Otherwise it sends `addChain` for the network first and `switchChain` only after that succeeds. It succeeds if and only if both succeed; any failure is "Cant switch chain ID". |
| `Connector.WalletConnector.DetectChain` | src/connectors/WalletConnector.ts:95-114 | It returns the network if and only if a provider is bound, `eth_chainId` answers, and the answer parsed as hex equals `network.id`. Otherwise it returns undefined. With no provider it sends nothing. |
| `Connector.WalletConnector.GetAccount` | src/connectors/WalletConnector.ts:155-161 | With no wallet client it fails with "Wallet not connected" and sends nothing. Otherwise it returns the first address, or undefined for an empty list. A rejection is rethrown. |
| `Connector.WalletConnector.GetBalance` | src/connectors/WalletConnector.ts:163-169 | It fails with "Wallet not connected" only when the public client is unset. Otherwise it queries the account's balance and returns its `formatEther` rendering. |
| `Connector.WalletConnector.SendTransaction` | src/connectors/WalletConnector.ts:171-179 | With no wallet client it fails with "Wallet not connected" and sends nothing. Otherwise it sends `eth_sendTransaction` with the transaction and passes the answer back. |
| `Connector.MainnetAnswerMatches` | src/connectors/WalletConnector.ts:101-105 | The answer "0x58" parses to the mainnet chain id 88. |
| `Connector.DetectReportedChain` | src/connectors/WalletConnector.ts:95-114 | A wallet that reports chain `k` in the EIP-695 encoding is recognised if and only if `k` is the configured network's id. |
| `Connector.ConnectThenDisconnect` | src/connectors/WalletConnector.ts:116-174 | After `connect` then `disconnect`, the connector is not connected, and both `getAccount` and `switchChain` fail with "Wallet not connected". |
| `MetaMask.MetaMaskConnector.constructor` | src/connectors/MetaMaskConnector.ts:18-27 | The public client is created. The wallet client is bound to the injected provider. |
| `MetaMask.MetaMaskConnector.Connect` | src/connectors/MetaMaskConnector.ts:29-40 | With `client` null it fails with "MetaMask is not installed" and sends nothing. Otherwise it sends one address request; any failure of it becomes "User rejected the request.". |
| `MetaMask.MetaMaskConnector.Disconnect` | src/connectors/MetaMaskConnector.ts:42-44 | `client` becomes null and `walletClient` is untouched. |
| `MetaMask.MetaMaskConnector.GetAccount` | src/connectors/MetaMaskConnector.ts:46-52 | With `client` null it fails with "Wallet not connected" and sends nothing. Otherwise it returns the first entry of the public client's `eth_accounts` answer, or undefined for an empty list. |
| `MetaMask.MetaMaskConnector.GetBalance` | src/connectors/MetaMaskConnector.ts:54-63 | With `client` null it fails with "Wallet not connected" and sends nothing. Otherwise it returns the `formatEther` rendering of the balance. |
| `MetaMask.MetaMaskConnector.SendTransaction` | src/connectors/MetaMaskConnector.ts:65-73 | With `client` null it fails with "Wallet not connected" and sends nothing. Otherwise it sends `eth_sendTransaction` through the public client and passes that client's answer back. |
| `MetaMask.ConnectAfterDisconnect` | src/connectors/MetaMaskConnector.ts:18-44 | After `disconnect`, connecting fails with "MetaMask is not installed", and it still fails after other operations, whatever the wallet answers. |

`isConnected` (`Connector.WalletConnector.IsConnected`) and the getters
`getProviderDetails`, `getSponsorProviders` and `getChainInfo` are plain
reads of the fields. They appear in the contracts above rather than in rows
of their own.

## Left out

- viem's `createClient`, `createWalletClient`, `createPublicClient`, `http`
  and `custom` are foreign library code. The clients are modelled as values
  that record only their chain and transport. The `client` that the
  `WalletConnector` constructor creates is read nowhere, so it is not
  modelled.
- `formatEther` is foreign code. Its result is the symbolic
  `FormatEther(wei)`; the 18-decimal rendering is not modelled.
- `initAbstractionWallet()` is a module-level call into an SDK that is not
  part of this model.
- The browser `window` event bus is I/O. The announce listener is the direct
  method `Announce`. The `eip6963:requestProvider` dispatch is not modelled.
- Interleaving of asynchronous calls is not modelled. Each method is one
  atomic step, so races between overlapping `connect`/`disconnect` calls and
  announcements arriving mid-operation are not covered.
- `console.error`/`console.log` output is logging only.
- The getters return the live arrays in the source, so a caller can mutate the
  registry through them. The model returns sequence values, so this aliasing
  is not captured.
- The `providerDetail.info && newProviderDetail.info` guards in the uuid
  lookups are always true under the declared `EIP6963ProviderDetail` type
  (`info` is required). The model gives every detail an `info`.
- `Rpc.ParseInt16` returns exact integers. JavaScript rounds values above
  2^53 to the nearest double. That rounding cannot turn any value into 88 or
  89, so the outcome of `detectChain` is the same. A non-string `eth_chainId`
  answer, which `parseInt` would first convert to a string, is not modelled.
- The `networks` import in src/connectors/MetaMaskConnector.ts names an export
  that src/chains/index.ts does not have. The chain of the MetaMask clients is
  the opaque `NetworksMainnet`, and `window.ethereum` is a constructor
  parameter.
- The React UI and glue are not part of this model:
  - `ConnectButton`, `WalletModal`, `App`, `useWallet` and `index`;
  - `WalletProviders`, a React context that runs `detectEIP6963` and copies
    the two lists out through the getters.
- A `Request` does not record where it is sent. The wallet client goes to
  the injected provider, while the public client goes to the network's RPC
  node over `http()`; `getBalance` in both connectors and `getAccount` and
  `sendTransaction` in `MetaMaskConnector` use the public client. The
  `issued` traces give the order of requests, not their destination.
- How viem turns a failed request into the error its call rejects with
  (wrapping a provider's EIP-1193 error or an HTTP failure) is not modelled.
  `RpcError` is that rejected value, and the connectors rethrow it unchanged.
- The connectors subscribe to no provider events (account, chain or
  disconnect notifications), so there is nothing of that kind to model.
