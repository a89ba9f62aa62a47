/** What the connectors see of the wallet side: the injected EIP-1193
    provider, the requests sent to it, the errors they raise, and how a
    reported chain id (an EIP-695 `eth_chainId` hex quantity) is read back
    by JavaScript's `parseInt(s, 16)`. */
module Rpc {

  import Chains

  datatype Option<T> = None | Some(value: T)

  datatype Result<T, E> = Ok(value: T) | Err(error: E)

  datatype Outcome<E> = Pass | Fail(error: E)

  /** An injected EIP-1193 provider object. `handle` stands for the object's
      identity; `isAbstractionWallet` is the flag the Abstraction wallet sets
      on its provider. */
  datatype Provider = Provider(handle: nat, isAbstractionWallet: bool)

  /** The error an awaited client call rejects with: a code and a message.
      Whether it comes from the wallet (an EIP-1193 `ProviderRpcError`) or
      from the public RPC node, and how the client library wraps it, is not
      modelled; the connectors only rethrow it. */
  datatype RpcError = RpcError(code: int, message: string)

  type Address = string

  /** The transaction object passed through to `eth_sendTransaction`, kept
      opaque. */
  type Tx = string

  /** One request sent to the wallet or to the chain, in the order sent. */
  datatype Request =
    | EthRequestAccounts               // viem's requestAddresses
    | EthAccounts
    | EthChainId
    | WalletAddEthereumChain(chain: Chains.Chain)   // viem's addChain
    | WalletSwitchEthereumChain(id: int)            // viem's switchChain
    | EthGetBalance(address: Address)
    | EthSendTransaction(tx: Tx)

  /** The errors the connectors throw. */
  datatype Error =
    | ProviderNotFound
    | AbstractionMainnetOnly
    | WalletNotConnected
    | CantSwitchChain
    | UserRejected
    | MetaMaskNotInstalled
    | Rejected(cause: RpcError)        // a client call's rejection, rethrown unchanged

  /** What a failing operation throws: an `Error` object, whose `message`
      a caller can read, or a bare string, which has no `message`. */
  datatype Thrown = ErrorObject(message: string) | BareString(text: string)

  /** The value thrown for each error. Only the Abstraction-wallet check
      throws a bare string; every other failure is an `Error`. */
  function ThrownValue(e: Error): (t: Thrown)
    ensures t.BareString? <==> e.AbstractionMainnetOnly?
  {
    match e
    case ProviderNotFound => ErrorObject("Provider not found")
    case AbstractionMainnetOnly => BareString("Abstraction wallet only support mainnet")
    case WalletNotConnected => ErrorObject("Wallet not connected")
    case CantSwitchChain => ErrorObject("Cant switch chain ID")
    case UserRejected => ErrorObject("User rejected the request.")
    case MetaMaskNotInstalled => ErrorObject("MetaMask is not installed")
    case Rejected(cause) => ErrorObject(cause.message)
  }

  /** `error.message` as a caller catching the error reads it; None stands
      for `undefined`, the result on a thrown string. */
  function Message(e: Error): (m: Option<string>)
    ensures m.None? <==> e.AbstractionMainnetOnly?
    ensures e.Rejected? ==> m == Some(e.cause.message)
  {
    match ThrownValue(e)
    case ErrorObject(message) => Some(message)
    case BareString(_) => None
  }

  /** The result of viem's `formatEther` on a balance in wei; the decimal
      rendering itself is viem's and is not modelled. */
  datatype Formatted = FormatEther(wei: nat)

  // ---------------------------------------------------------------------
  // parseInt(s, 16) as ECMAScript defines it (section 19.2.5 of ECMA-262):
  // leading white space is skipped, one sign is read, a "0x"/"0X" prefix is
  // dropped, then the longest run of hex digits is read; no digit at all
  // gives NaN, modelled as None.
  // ---------------------------------------------------------------------

  /** StrWhiteSpaceChar: the WhiteSpace and LineTerminator code points. */
  predicate IsJsWhiteSpace(c: char) {
    c == '\t' || c == '\n' || c == '\U{000B}' || c == '\U{000C}' || c == '\r' || c == ' '
    || c == '\U{00A0}' || c == '\U{1680}' || ('\U{2000}' <= c <= '\U{200A}')
    || c == '\U{2028}' || c == '\U{2029}' || c == '\U{202F}' || c == '\U{205F}'
    || c == '\U{3000}' || c == '\U{FEFF}'
  }

  predicate IsHexDigit(c: char) {
    ('0' <= c <= '9') || ('a' <= c <= 'f') || ('A' <= c <= 'F')
  }

  function DigitValue(c: char): (v: nat)
    requires IsHexDigit(c)
    ensures v < 16
  {
    if '0' <= c <= '9' then c as nat - '0' as nat
    else if 'a' <= c <= 'f' then c as nat - 'a' as nat + 10
    else c as nat - 'A' as nat + 10
  }

  /** `s` without its leading white space. */
  function TrimStart(s: string): (t: string)
    ensures |t| <= |s| && t == s[|s| - |t|..]
    ensures t == [] || !IsJsWhiteSpace(t[0])
    ensures forall i :: 0 <= i < |s| - |t| ==> IsJsWhiteSpace(s[i])
  {
    if s != [] && IsJsWhiteSpace(s[0]) then
      var t := TrimStart(s[1..]);
      assert forall i :: 1 <= i < |s| - |t| ==> s[i] == s[1..][i - 1];
      t
    else s
  }

  /** The longest prefix of `s` made of hex digits. */
  function HexRun(s: string): (d: string)
    ensures |d| <= |s| && d == s[..|d|]
    ensures forall i :: 0 <= i < |d| ==> IsHexDigit(d[i])
    ensures |d| < |s| ==> !IsHexDigit(s[|d|])
    ensures (forall i :: 0 <= i < |s| ==> IsHexDigit(s[i])) ==> d == s
  {
    if s != [] && IsHexDigit(s[0]) then [s[0]] + HexRun(s[1..]) else []
  }

  /** The value of a string of hex digits, most significant first. */
  function HexValue(d: string): nat
    requires forall i :: 0 <= i < |d| ==> IsHexDigit(d[i])
  {
    if d == [] then 0 else HexValue(d[..|d| - 1]) * 16 + DigitValue(d[|d| - 1])
  }

  function DropHexPrefix(s: string): (t: string)
    ensures |t| <= |s| && t == s[|s| - |t|..]
  {
    if |s| >= 2 && s[0] == '0' && (s[1] == 'x' || s[1] == 'X') then s[2..] else s
  }

  /** `s` without one leading sign. */
  function StripSign(t: string): (u: string)
    ensures |u| <= |t| && u == t[|t| - |u|..]
  {
    if t != [] && (t[0] == '+' || t[0] == '-') then t[1..] else t
  }

  predicate AllHexDigits(s: string) {
    forall i :: 0 <= i < |s| ==> IsHexDigit(s[i])
  }

  predicate NoHexDigit(s: string) {
    forall i :: 0 <= i < |s| ==> !IsHexDigit(s[i])
  }

  /** The digits `parseInt(s, 16)` reads. */
  function DigitsRead(s: string): (d: string)
    ensures AllHexDigits(d)
  {
    HexRun(DropHexPrefix(StripSign(TrimStart(s))))
  }

  lemma DigitsReadOfHexString(s: string)
    requires s != [] && AllHexDigits(s)
    ensures TrimStart(s) == s && DigitsRead(s) == s
  {
    assert IsHexDigit(s[0]);
    assert !IsJsWhiteSpace(s[0]);
    assert StripSign(s) == s;
    assert |s| >= 2 ==> IsHexDigit(s[1]);
    assert DropHexPrefix(s) == s;
  }

  /** `HexRun` reads nothing from a string that starts with a non-digit. */
  lemma HexRunOfNonDigit(x: string)
    requires x == [] || !IsHexDigit(x[0])
    ensures HexRun(x) == []
  {
  }

  lemma DigitsReadWithoutHexDigit(s: string)
    requires NoHexDigit(s)
    ensures DigitsRead(s) == []
  {
    var t := TrimStart(s);
    var u := StripSign(t);
    var x := DropHexPrefix(u);
    if x != [] {
      // x is a suffix of u, u of t and t of s, so x[0] is a character of s.
      assert x[0] == u[|u| - |x|];
      assert u[|u| - |x|] == t[|t| - |x|];
      assert t[|t| - |x|] == s[|s| - |x|];
      assert !IsHexDigit(s[|s| - |x|]);
    }
    HexRunOfNonDigit(x);
  }

  /** `parseInt(s, 16)`; None stands for NaN. */
  function ParseInt16(s: string): (r: Option<int>)
  {
    var t := TrimStart(s);
    var negative := t != [] && t[0] == '-';
    var digits := DigitsRead(s);
    if digits == [] then None
    else if negative then Some(-(HexValue(digits) as int))
    else Some(HexValue(digits))
  }

  /** A plain string of hex digits is read whole, and a string without any
      hex digit is NaN. */
  lemma ParseInt16Cases(s: string)
    ensures s != [] && AllHexDigits(s) ==> ParseInt16(s) == Some(HexValue(s))
    ensures NoHexDigit(s) ==> ParseInt16(s) == None
  {
    if s != [] && AllHexDigits(s) {
      DigitsReadOfHexString(s);
      assert IsHexDigit(s[0]);
    }
    if NoHexDigit(s) {
      DigitsReadWithoutHexDigit(s);
    }
  }

  // ---------------------------------------------------------------------
  // Ethereum JSON-RPC quantities: "0x" followed by the lower-case hex digits
  // of the number without leading zeros ("0x0" for zero).
  // ---------------------------------------------------------------------

  function HexChar(v: nat): (c: char)
    requires v < 16
    ensures IsHexDigit(c) && DigitValue(c) == v
  {
    if v < 10 then ('0' as nat + v) as char else ('a' as nat + v - 10) as char
  }

  function HexDigits(n: nat): (d: string)
    ensures |d| >= 1 && forall i :: 0 <= i < |d| ==> IsHexDigit(d[i])
  {
    if n < 16 then [HexChar(n)] else HexDigits(n / 16) + [HexChar(n % 16)]
  }

  /** The EIP-695 encoding of a chain id. */
  function Quantity(n: nat): string {
    "0x" + HexDigits(n)
  }

  lemma {:induction false} HexDigitsValue(n: nat)
    ensures HexValue(HexDigits(n)) == n
  {
    var d := HexDigits(n);
    if n >= 16 {
      assert d[..|d| - 1] == HexDigits(n / 16);
      HexDigitsValue(n / 16);
    }
  }

  /** Reading back an encoded chain id gives the chain id: the quantity a
      wallet reports for chain `n` parses to `n`. */
  lemma QuantityRoundTrip(n: nat)
    ensures ParseInt16(Quantity(n)) == Some(n)
  {
    var s := Quantity(n);
    var d := HexDigits(n);
    assert s[0] == '0' && s[1] == 'x' && s[2..] == d;
    assert !IsJsWhiteSpace(s[0]);
    assert TrimStart(s) == s && StripSign(s) == s;
    assert DropHexPrefix(s) == d;
    assert HexRun(d) == d;
    assert DigitsRead(s) == d;
    HexDigitsValue(n);
  }

  /** A wallet reporting the quantity of chain `k` matches chain id `id`
      exactly when `k == id`. */
  lemma QuantityMatches(k: nat, id: nat)
    ensures ParseInt16(Quantity(k)) == Some(id) <==> k == id
  {
    QuantityRoundTrip(k);
  }
}
