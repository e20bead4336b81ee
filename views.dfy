/**
 * The decisions the pages make from session state alone: the navigation bar's
 * button (src/App.jsx:65-86), the landing page's call to action
 * (src/App.jsx:88-101), the profile page's choice of screen
 * (src/App.jsx:165-180) and the submit buttons with a busy flag
 * (src/App.jsx:173-175, 267-269).
 */
module Views {
  import opened Text
  import opened Gateway

  /** JavaScript truthiness of an account: set, and not the empty string. */
  predicate Truthy(account: Option<Address>)
  {
    account.Some? && account.value != ""
  }

  /** What a click does: go to a path, ask the wallet to connect, or show an alert. */
  datatype Action = Navigate(path: string) | Connect | Alert(message: string)

  /** The navigation bar's wallet button: "Connect Wallet" without a session, otherwise the
      user's label above the shortened address. */
  datatype WalletButton =
    | ConnectButton(text: string, onClick: Action)
    | UserBadge(name: string, shortKey: string, onClick: Action)

  const RegisterPrompt: string := "Register Now"

  /** `userName || "Register Now"`: never blank, and the name whenever there is one. */
  function NavLabel(userName: string): (r: string)
    ensures r != ""
    ensures userName != "" ==> r == userName
    ensures r != userName ==> r == RegisterPrompt
  {
    if userName != "" then userName else RegisterPrompt
  }

  /** `account.substring(0,6) + "..." + account.substring(38)`. */
  function ShortKey(account: Address): (r: string)
    ensures var head := if |account| < 6 then |account| else 6;
      && |r| == head + 3 + (if |account| > 38 then |account| - 38 else 0)
      && r[..head] == account[..head]
      && r[head..head + 3] == "..."
      && r[head + 3..] == if |account| >= 38 then account[38..] else []
    ensures |account| == 42 ==> |r| == 13 && r[9..] == account[38..]
  {
    Substring(account, 0, 6) + "..." + SubstringFrom(account, 38)
  }

  /** A 42-character address is shown as its first 6 and its last 4 characters around "...". */
  lemma ShortKeyOfAddress(account: Address)
    requires |account| == 42
    ensures ShortKey(account) == account[..6] + "..." + account[|account| - 4..]
  {
  }

  /** The navigation bar's button: connect without a session, otherwise the label and the short
      key, and a click that opens the profile. */
  function NavBar(account: Option<Address>, userName: string): (r: WalletButton)
    ensures r.ConnectButton? <==> !Truthy(account)
    ensures r.ConnectButton? ==> r.text == "Connect Wallet"
    ensures r.onClick == if Truthy(account) then Navigate("/profile") else Connect
    ensures r.UserBadge? ==> r.name == NavLabel(userName) && r.shortKey == ShortKey(account.value)
  {
    if Truthy(account) then UserBadge(NavLabel(userName), ShortKey(account.value), Navigate("/profile"))
    else ConnectButton("Connect Wallet", Connect)
  }

  /** The landing page's "Donate Now": go to the donate page with a session, otherwise ask to
      connect first; it never navigates without a session. */
  function LandingClick(account: Option<Address>): (r: Action)
    ensures r.Navigate? <==> Truthy(account)
    ensures r.Navigate? ==> r.path == "/donate"
    ensures !r.Navigate? ==> r == Alert("Please Connect Wallet first!")
  {
    if Truthy(account) then Navigate("/donate") else Alert("Please Connect Wallet first!")
  }

  /** The three screens of the profile page. */
  datatype ProfileScreen = ConnectMessage | RegistrationForm | Dashboard

  /** The profile page shows the connect message without a session, the registration form to an
      unregistered account and the dashboard only to a registered one. */
  function ProfileView(account: Option<Address>, isRegistered: bool): (r: ProfileScreen)
    ensures r == ConnectMessage <==> !Truthy(account)
    ensures r == RegistrationForm <==> Truthy(account) && !isRegistered
    ensures r == Dashboard <==> Truthy(account) && isRegistered
  {
    if !Truthy(account) then ConnectMessage
    else if !isRegistered then RegistrationForm
    else Dashboard
  }

  /** The two forms with a busy flag: the profile's registration and the donate page's donation. */
  datatype Form = Registration | Donation

  /** A submit button: its text and whether it can be clicked. */
  datatype Button = Button(text: string, enabled: bool)

  /** The form's submit button is disabled exactly while its operation is in flight, so a second
      submission cannot start, and its text then says the operation is under way. */
  function SubmitButton(form: Form, loading: bool): (r: Button)
    ensures r.enabled <==> !loading
    ensures form == Registration ==> r.text == if loading then "Registering..." else "Create Profile"
    ensures form == Donation ==> r.text == if loading then "Processing..." else "Confirm Donation"
  {
    var labels := if form == Registration then ("Create Profile", "Registering...")
                  else ("Confirm Donation", "Processing...");
    Button(if loading then labels.1 else labels.0, !loading)
  }
}
