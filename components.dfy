/**
 * The component state the pages update step by step: the root's session and
 * profile fields (src/App.jsx:7-36), the profile page (src/App.jsx:103-163),
 * the donate page (src/App.jsx:219-247) and the donations page
 * (src/App.jsx:275-292). Each handler takes, in place of the wallet or contract
 * call it awaits, the outcome that call settles with.
 */
module Components {
  import opened Gateway
  import opened Ledger
  import opened Explorer
  import opened Views

  /** The root component's state: the session (account and contract handle) and the
      registration data every page shares. */
  class App {
    var account: Option<Address>
    var contract: Option<ContractHandle>
    var userName: string
    var isRegistered: bool

    /** The session invariant: the contract handle is present exactly when the account is, and
        is bound to that account as signer. */
    predicate Valid()
      reads this
    {
      (account.Some? <==> contract.Some?)
      && (contract.Some? ==> contract.value.signer == account.value)
    }

    /** The initial state: no session, no name, not registered. */
    constructor ()
      ensures Valid()
      ensures account == None && contract == None && userName == "" && !isRegistered
    {
      account, contract := None, None;
      userName, isRegistered := "", false;
    }

    /** `connectWallet`. Without a wallet, or when connecting throws, nothing changes and an alert
        is shown. Once connected, the account and the contract are set whatever `getUser` does;
        a registered answer sets the name and the flag, an unregistered one clears only the flag,
        and a failed lookup changes neither. */
    method ConnectWallet(wallet: WalletOutcome, lookup: UserLookup) returns (alert: Option<string>)
      requires Valid()
      modifies this
      ensures Valid()
      ensures wallet.NoWallet? ==>
        alert == Some("Please install MetaMask!")
        && account == old(account) && contract == old(contract)
        && userName == old(userName) && isRegistered == old(isRegistered)
      ensures wallet.WalletFailed? ==>
        alert == Some("Connection failed: " + wallet.error.message)
        && account == old(account) && contract == old(contract)
        && userName == old(userName) && isRegistered == old(isRegistered)
      ensures wallet.WalletConnected? ==>
        alert == None
        && account == Some(wallet.address)
        && contract == Some(ContractHandle(wallet.address))
        && (lookup.UserData? && lookup.registered ==> userName == lookup.name && isRegistered)
        && (lookup.UserData? && !lookup.registered ==> userName == old(userName) && !isRegistered)
        && (lookup.LookupFailed? ==> userName == old(userName) && isRegistered == old(isRegistered))
      ensures wallet.WalletConnected? && wallet.address != "" && lookup.UserData? && !lookup.registered
        ==> ProfileView(account, isRegistered) == RegistrationForm
    {
      match wallet {
        case NoWallet =>
          alert := Some("Please install MetaMask!");
        case WalletFailed(error) =>
          alert := Some("Connection failed: " + error.message);
        case WalletConnected(address) =>
          var tempContract := ContractHandle(address);
          account := Some(address);
          contract := Some(tempContract);
          alert := None;
          match lookup {
            case LookupFailed(_) =>
            case UserData(name, registered) =>
              if registered {
                userName := name;
                isRegistered := true;
              } else {
                isRegistered := false;
              }
          }
      }
    }
  }

  /** The profile page's own state (its wallet balance is not modelled). */
  class ProfilePage {
    var tempName: string
    var donated: nat
    var received: nat
    var myTx: seq<Activity>
    var loading: bool

    /** The initial state: empty name field, both totals 0, no rows, not busy. */
    constructor ()
      ensures tempName == "" && donated == 0 && received == 0 && myTx == [] && !loading
    {
      tempName, donated, received, myTx, loading := "", 0, 0, [], false;
    }

    /** The name field's `onChange`. */
    method EditName(value: string)
      modifies this`tempName
      ensures tempName == value
    {
      tempName := value;
    }

    /** `loadUserData`: on a successful query the two totals and the activity list become those
        of the account over all logs; a failed query is only logged and changes nothing. */
    method LoadUserData(account: Address, query: QueryOutcome)
      modifies this`donated, this`received, this`myTx
      ensures query.Logs? ==>
        donated == Total(query.events, account, Sent)
        && received == Total(query.events, account, Received)
        && myTx == RecentActivity(query.events, account)
      ensures query.QueryFailed? ==>
        donated == old(donated) && received == old(received) && myTx == old(myTx)
    {
      match query {
        case QueryFailed(_) =>
        case Logs(logs) =>
          var totalDonated, totalReceived, myTransactions := Aggregate(logs, account);
          donated, received, myTx := totalDonated, totalReceived, myTransactions;
      }
    }

    /** The page's effect on a change of session or registration: the ledger is reloaded only
        when there is a contract, an account and a registration. */
    method Refresh(app: App, query: QueryOutcome) returns (reloaded: bool)
      modifies this`donated, this`received, this`myTx
      ensures reloaded <==> app.contract.Some? && Truthy(app.account) && app.isRegistered
      ensures reloaded && query.Logs? ==>
        donated == Total(query.events, app.account.value, Sent)
        && received == Total(query.events, app.account.value, Received)
        && myTx == RecentActivity(query.events, app.account.value)
      ensures !reloaded || query.QueryFailed? ==>
        donated == old(donated) && received == old(received) && myTx == old(myTx)
    {
      reloaded := app.contract.Some? && Truthy(app.account) && app.isRegistered;
      if reloaded {
        LoadUserData(app.account.value, query);
      }
    }

    /** `registerUser`. An empty name is refused before any call, with the busy flag untouched.
        Otherwise the name is submitted with the flag set, the flag is cleared again on both
        paths, and the shared name and registration change only when the transaction is
        confirmed. `busyDuringCall` is the flag as it stands while the call is pending. */
    method RegisterUser(app: App, outcome: TxOutcome)
      returns (submitted: Option<string>, busyDuringCall: bool, alert: Option<string>)
      requires app.Valid()
      modifies this`loading, app`userName, app`isRegistered
      ensures app.Valid()
      ensures old(tempName) == "" ==>
        submitted == None && alert == Some("Enter a name!")
        && loading == old(loading)
        && app.userName == old(app.userName) && app.isRegistered == old(app.isRegistered)
      ensures old(tempName) != "" ==>
        submitted == Some(tempName) && busyDuringCall && !loading
      ensures old(tempName) != "" && outcome.Confirmed? ==>
        alert == None && app.userName == tempName && app.isRegistered
      ensures old(tempName) != "" && outcome.Reverted? ==>
        alert == Some("Registration Failed: " + Describe(outcome.error))
        && app.userName == old(app.userName) && app.isRegistered == old(app.isRegistered)
    {
      if tempName == "" {
        submitted, busyDuringCall, alert := None, false, Some("Enter a name!");
        return;
      }
      loading := true;
      submitted, busyDuringCall := Some(tempName), loading;
      match outcome {
        case Confirmed =>
          app.userName := tempName;
          app.isRegistered := true;
          alert := None;
        case Reverted(error) =>
          alert := Some("Registration Failed: " + Describe(error));
      }
      loading := false;
    }
  }

  /** What `donate` is called with: the receiver field and the parsed amount in wei. */
  datatype DonateRequest = DonateRequest(receiver: Address, value: nat)

  /** The donate page's form state (its wallet balance is not modelled). */
  class DonatePage {
    var amount: string
    var receiver: string
    var loading: bool

    /** The initial state: both fields empty, not busy. */
    constructor ()
      ensures amount == "" && receiver == "" && !loading
    {
      amount, receiver, loading := "", "", false;
    }

    /** The amount field's `onChange`. */
    method EditAmount(value: string)
      modifies this`amount
      ensures amount == value
    {
      amount := value;
    }

    /** The receiver field's `onChange`. */
    method EditReceiver(value: string)
      modifies this`receiver
      ensures receiver == value
    {
      receiver := value;
    }

    /** `handleDonate`. Without a contract nothing is set and nothing is called. Otherwise the
        busy flag is set, the amount is parsed (`parsed` is what `parseEther(amount)` settles
        with) and, if it parses, `donate` is called with the receiver and that value; the flag
        ends cleared on every path, and the two fields are cleared only when the donation is
        confirmed. */
    method HandleDonate(contract: Option<ContractHandle>, parsed: ParseOutcome, outcome: TxOutcome)
      returns (request: Option<DonateRequest>, busyDuringCall: bool, alert: Option<string>)
      modifies this
      ensures contract.None? ==>
        request == None && alert == Some("Connect Wallet first!")
        && loading == old(loading) && amount == old(amount) && receiver == old(receiver)
      ensures contract.Some? ==> !loading
      ensures contract.Some? && parsed.ParseFailed? ==>
        request == None && alert == Some("Error: " + Describe(parsed.error))
        && amount == old(amount) && receiver == old(receiver)
      ensures contract.Some? && parsed.Parsed? ==>
        request == Some(DonateRequest(old(receiver), parsed.wei)) && busyDuringCall
      ensures contract.Some? && parsed.Parsed? && outcome.Confirmed? ==>
        alert == Some("Donation Successful!") && amount == "" && receiver == ""
      ensures contract.Some? && parsed.Parsed? && outcome.Reverted? ==>
        alert == Some("Error: " + Describe(outcome.error))
        && amount == old(amount) && receiver == old(receiver)
    {
      if contract.None? {
        request, busyDuringCall, alert := None, false, Some("Connect Wallet first!");
        return;
      }
      loading := true;
      match parsed {
        case ParseFailed(error) =>
          request, busyDuringCall := None, false;
          alert := Some("Error: " + Describe(error));
        case Parsed(wei) =>
          request, busyDuringCall := Some(DonateRequest(receiver, wei)), loading;
          match outcome {
            case Confirmed =>
              alert := Some("Donation Successful!");
              amount := "";
              receiver := "";
            case Reverted(error) =>
              alert := Some("Error: " + Describe(error));
          }
      }
      loading := false;
    }
  }

  /** The donations page's state: the feed it shows. */
  class DonationsPage {
    var events: seq<FeedEntry>

    /** The initial state: an empty feed. */
    constructor ()
      ensures events == []
    {
      events := [];
    }

    /** `fetchEvents`: without a contract nothing is fetched; a successful query replaces the feed
        with all logs newest first; a failed query leaves the feed as it was. */
    method FetchEvents(contract: Option<ContractHandle>, query: QueryOutcome)
      modifies this
      ensures contract.Some? && query.Logs? ==> events == Feed(query.events)
      ensures contract.None? || query.QueryFailed? ==> events == old(events)
    {
      if contract.None? {
        return;
      }
      match query {
        case QueryFailed(_) =>
        case Logs(logs) =>
          events := Feed(logs);
      }
    }
  }
}
