/**
 * The boundary to the wallet provider and the donation contract. Every foreign,
 * asynchronous call of the front end appears here only as the value it settles
 * with: a result, or the error it throws.
 */
module Gateway {

  datatype Option<T> = None | Some(value: T)

  /** A hex account address as the wallet returns it ("0x" and 40 hex digits). */
  type Address = string

  /** One `DonationMade` log with the arguments the front end reads from it. */
  datatype DonationEvent = DonationEvent(
    donor: Address,
    receiver: Address,
    amount: nat,        // wei, exact (a uint256 BigNumber)
    donorName: string,
    txHash: string)

  /** The contract object, bound to the signer that sends its transactions. */
  datatype ContractHandle = ContractHandle(signer: Address)

  /** A thrown error: its `reason` ("" when the error has none) and its `message`. */
  datatype CallError = CallError(reason: string, message: string)

  /** `err.reason || err.message`: the reason when it is non-empty, else the message. */
  function Describe(e: CallError): (r: string)
    ensures r == e.reason || r == e.message
    ensures e.reason != "" ==> r == e.reason
    ensures e.reason == "" ==> r == e.message
  {
    if e.reason != "" then e.reason else e.message
  }

  /** How a write call and its `tx.wait()` settle. */
  datatype TxOutcome = Confirmed | Reverted(error: CallError)

  /** How `queryFilter(DonationMade)` settles: all logs in chain order, or an error. */
  datatype QueryOutcome = Logs(events: seq<DonationEvent>) | QueryFailed(error: CallError)

  /** How the wallet connection settles: no injected provider, a thrown error, or the signer's address. */
  datatype WalletOutcome = NoWallet | WalletFailed(error: CallError) | WalletConnected(address: Address)

  /** How `getUser(address)` settles: the `(name, registered)` tuple, or an error. */
  datatype UserLookup = LookupFailed(error: CallError) | UserData(name: string, registered: bool)

  /** How `parseEther(amount)` settles: the amount in wei, or the error it throws. */
  datatype ParseOutcome = Parsed(wei: nat) | ParseFailed(error: CallError)
}
