/**
 * The profile page's ledger (`loadUserData`, src/App.jsx:127-151): one pass over
 * every `DonationMade` log that adds up what the connected account donated and
 * received, comparing addresses without regard to case, and collects a SENT or
 * RECEIVED activity row per match, shown newest first.
 */
module Ledger {
  import opened Text
  import opened Gateway

  /** The two tags of an activity row. */
  datatype Direction = Sent | Received

  /** One row of "Recent Activity": its tag, the counterparty, the amount in wei and its label. */
  datatype Activity = Activity(kind: Direction, other: Address, amount: nat, name: string)

  /** The event involves the account on the given side: as donor for Sent, as receiver for Received. */
  predicate Matches(e: DonationEvent, account: Address, d: Direction)
  {
    if d == Sent then SameAddress(e.donor, account) else SameAddress(e.receiver, account)
  }

  /** The row pushed for a match: "To: " and the receiver's first 6 characters for a SENT row,
      "From: " and the donor's registered name for a RECEIVED row. */
  function EntryOf(e: DonationEvent, d: Direction): Activity
  {
    if d == Sent then Activity(Sent, e.receiver, e.amount, "To: " + Substring(e.receiver, 0, 6))
    else Activity(Received, e.donor, e.amount, "From: " + e.donorName)
  }

  /** The rows one event pushes, in push order: its SENT row, then its RECEIVED row. */
  function EntriesFor(e: DonationEvent, account: Address): seq<Activity>
  {
    (if Matches(e, account, Sent) then [EntryOf(e, Sent)] else [])
    + (if Matches(e, account, Received) then [EntryOf(e, Received)] else [])
  }

  /** The "Donated" (d = Sent) or "Received" (d = Received) total: the sum of the amounts of
      the matching events. */
  function Total(logs: seq<DonationEvent>, account: Address, d: Direction): nat
  {
    if logs == [] then 0
    else
      var e := logs[|logs| - 1];
      Total(logs[..|logs| - 1], account, d) + (if Matches(e, account, d) then e.amount else 0)
  }

  /** The rows in the order the loop pushes them (chain order). */
  function Pushed(logs: seq<DonationEvent>, account: Address): seq<Activity>
  {
    if logs == [] then []
    else Pushed(logs[..|logs| - 1], account) + EntriesFor(logs[|logs| - 1], account)
  }

  /** The list the profile page shows: the pushed rows reversed, newest first. */
  function RecentActivity(logs: seq<DonationEvent>, account: Address): seq<Activity>
  {
    Reverse(Pushed(logs, account))
  }

  /** The positions of the events that match the account on side d. */
  function MatchIndices(logs: seq<DonationEvent>, account: Address, d: Direction): set<nat>
  {
    set i: nat | i < |logs| && Matches(logs[i], account, d)
  }

  /** The loop of `loadUserData`: the two running totals and the list of rows, reversed at the end. */
  method Aggregate(logs: seq<DonationEvent>, account: Address)
    returns (totalDonated: nat, totalReceived: nat, myTransactions: seq<Activity>)
    ensures totalDonated == Total(logs, account, Sent)
    ensures totalReceived == Total(logs, account, Received)
    ensures myTransactions == RecentActivity(logs, account)
  {
    totalDonated, totalReceived := 0, 0;
    var pushed: seq<Activity> := [];
    for i := 0 to |logs|
      invariant totalDonated == Total(logs[..i], account, Sent)
      invariant totalReceived == Total(logs[..i], account, Received)
      invariant pushed == Pushed(logs[..i], account)
    {
      var log := logs[i];
      assert logs[..i + 1][..i] == logs[..i];
      if Lower(log.donor) == Lower(account) {
        totalDonated := totalDonated + log.amount;
        pushed := pushed + [Activity(Sent, log.receiver, log.amount, "To: " + Substring(log.receiver, 0, 6))];
      }
      if Lower(log.receiver) == Lower(account) {
        totalReceived := totalReceived + log.amount;
        pushed := pushed + [Activity(Received, log.donor, log.amount, "From: " + log.donorName)];
      }
    }
    assert logs[..|logs|] == logs;
    myTransactions := Reverse(pushed);
  }

  // ---------------------------------------------------------------------------
  // Reading the activity list back: its rows of one kind, their count and sum.

  /** The number of rows tagged d. */
  function CountOf(acts: seq<Activity>, d: Direction): nat
  {
    if acts == [] then 0 else (if acts[0].kind == d then 1 else 0) + CountOf(acts[1..], d)
  }

  /** The sum of the amounts of the rows tagged d. */
  function AmountOf(acts: seq<Activity>, d: Direction): nat
  {
    if acts == [] then 0 else (if acts[0].kind == d then acts[0].amount else 0) + AmountOf(acts[1..], d)
  }

  lemma {:induction false} TallyAppend(a: seq<Activity>, b: seq<Activity>, d: Direction)
    ensures CountOf(a + b, d) == CountOf(a, d) + CountOf(b, d)
    ensures AmountOf(a + b, d) == AmountOf(a, d) + AmountOf(b, d)
  {
    if a != [] {
      assert (a + b)[1..] == a[1..] + b;
      TallyAppend(a[1..], b, d);
    } else {
      assert a + b == b;
    }
  }

  lemma {:induction false} TallyReverse(s: seq<Activity>, d: Direction)
    ensures CountOf(Reverse(s), d) == CountOf(s, d)
    ensures AmountOf(Reverse(s), d) == AmountOf(s, d)
  {
    if s != [] {
      assert Reverse(s) == Reverse(s[1..]) + [s[0]];
      TallyAppend(Reverse(s[1..]), [s[0]], d);
      TallyReverse(s[1..], d);
      assert [s[0]][1..] == [];
    }
  }

  /** The rows one event pushes: one of kind d exactly when it matches on side d, with its amount. */
  lemma TallyEntries(e: DonationEvent, account: Address, d: Direction)
    ensures CountOf(EntriesFor(e, account), d) == if Matches(e, account, d) then 1 else 0
    ensures AmountOf(EntriesFor(e, account), d) == if Matches(e, account, d) then e.amount else 0
  {
    var s := if Matches(e, account, Sent) then [EntryOf(e, Sent)] else [];
    var r := if Matches(e, account, Received) then [EntryOf(e, Received)] else [];
    TallyAppend(s, r, d);
    if s != [] { assert s[1..] == []; }
    if r != [] { assert r[1..] == []; }
  }

  /** Extending the history by one event adds its position to the matches exactly when it matches. */
  lemma MatchIndicesLast(logs: seq<DonationEvent>, account: Address, d: Direction)
    requires logs != []
    ensures var n := |logs| - 1;
      MatchIndices(logs, account, d)
        == MatchIndices(logs[..n], account, d) + (if Matches(logs[n], account, d) then {n} else {})
  {
    var n := |logs| - 1;
    var s, t := MatchIndices(logs, account, d), MatchIndices(logs[..n], account, d);
    forall i: nat
      ensures i in s <==> i in t + (if Matches(logs[n], account, d) then {n} else {})
    {
      if i < n { assert logs[..n][i] == logs[i]; }
    }
  }

  lemma {:induction false} PushedTally(logs: seq<DonationEvent>, account: Address, d: Direction)
    ensures AmountOf(Pushed(logs, account), d) == Total(logs, account, d)
    ensures CountOf(Pushed(logs, account), d) == |MatchIndices(logs, account, d)|
  {
    if logs != [] {
      var n := |logs| - 1;
      var init, e := logs[..n], logs[n];
      PushedTally(init, account, d);
      TallyAppend(Pushed(init, account), EntriesFor(e, account), d);
      TallyEntries(e, account, d);
      MatchIndicesLast(logs, account, d);
      var before := MatchIndices(init, account, d);
      assert n !in before;
    } else {
      assert MatchIndices(logs, account, d) == {};
    }
  }

  /** The "Donated" and "Received" totals are the sums of the amounts of the SENT and RECEIVED
      rows of the activity list, and there is one row of each kind per matching event. */
  lemma TotalsAgreeWithActivity(logs: seq<DonationEvent>, account: Address, d: Direction)
    ensures Total(logs, account, d) == AmountOf(RecentActivity(logs, account), d)
    ensures CountOf(RecentActivity(logs, account), d) == |MatchIndices(logs, account, d)|
  {
    PushedTally(logs, account, d);
    TallyReverse(Pushed(logs, account), d);
  }

  lemma {:induction false} CountSplit(acts: seq<Activity>)
    ensures |acts| == CountOf(acts, Sent) + CountOf(acts, Received)
  {
    if acts != [] {
      CountSplit(acts[1..]);
    }
  }

  /** The activity list has one row per (event, side) match, so it is empty exactly when no event
      names the account as donor or receiver; then both totals are 0. */
  lemma NoMatchesNoActivity(logs: seq<DonationEvent>, account: Address)
    ensures |RecentActivity(logs, account)|
      == |MatchIndices(logs, account, Sent)| + |MatchIndices(logs, account, Received)|
    ensures RecentActivity(logs, account) == []
      <==> forall i, d :: 0 <= i < |logs| ==> !Matches(logs[i], account, d)
    ensures (forall i, d :: 0 <= i < |logs| ==> !Matches(logs[i], account, d))
      ==> Total(logs, account, Sent) == 0 && Total(logs, account, Received) == 0
  {
    var acts := RecentActivity(logs, account);
    TotalsAgreeWithActivity(logs, account, Sent);
    TotalsAgreeWithActivity(logs, account, Received);
    CountSplit(acts);
    if forall i, d :: 0 <= i < |logs| ==> !Matches(logs[i], account, d) {
      assert MatchIndices(logs, account, Sent) == {};
      assert MatchIndices(logs, account, Received) == {};
    } else {
      var i, d :| 0 <= i < |logs| && Matches(logs[i], account, d);
      assert i in MatchIndices(logs, account, d);
    }
  }

  // ---------------------------------------------------------------------------
  // Order: newest first.

  /** A new event puts its rows on top of the list, in the reverse of push order, and leaves
      the rows of the older events below them unchanged. */
  lemma NewestFirst(logs: seq<DonationEvent>, e: DonationEvent, account: Address)
    ensures RecentActivity(logs + [e], account)
      == Reverse(EntriesFor(e, account)) + RecentActivity(logs, account)
    ensures Total(logs + [e], account, Sent)
      == Total(logs, account, Sent) + (if Matches(e, account, Sent) then e.amount else 0)
    ensures Total(logs + [e], account, Received)
      == Total(logs, account, Received) + (if Matches(e, account, Received) then e.amount else 0)
  {
    assert (logs + [e])[..|logs|] == logs;
    ReverseAppend(Pushed(logs, account), EntriesFor(e, account));
  }

  /** A self-donation yields both rows, the RECEIVED row above the SENT row, and adds its amount
      to both totals. */
  lemma SelfDonation(logs: seq<DonationEvent>, e: DonationEvent, account: Address)
    requires SameAddress(e.donor, account) && SameAddress(e.receiver, account)
    ensures RecentActivity(logs + [e], account)[..2] == [EntryOf(e, Received), EntryOf(e, Sent)]
    ensures Total(logs + [e], account, Sent) == Total(logs, account, Sent) + e.amount
    ensures Total(logs + [e], account, Received) == Total(logs, account, Received) + e.amount
  {
    NewestFirst(logs, e, account);
    assert EntriesFor(e, account) == [EntryOf(e, Sent), EntryOf(e, Received)];
  }

  /** Row x is explained by some event of the history that matches on x's side. */
  ghost predicate Explained(logs: seq<DonationEvent>, account: Address, x: Activity)
  {
    exists i, d :: 0 <= i < |logs| && Matches(logs[i], account, d) && x == EntryOf(logs[i], d)
  }

  /** The rows one event pushes are exactly its rows for the sides it matches on. */
  lemma EntriesMembership(e: DonationEvent, account: Address, x: Activity)
    ensures x in EntriesFor(e, account) <==> exists d :: Matches(e, account, d) && x == EntryOf(e, d)
  {
    if exists d :: Matches(e, account, d) && x == EntryOf(e, d) {
      var d :| Matches(e, account, d) && x == EntryOf(e, d);
      if d == Sent { assert x in EntriesFor(e, account)[..1]; } else { assert x == EntriesFor(e, account)[|EntriesFor(e, account)| - 1]; }
    }
  }

  /** A row is explained by a history ending in e when it is explained by the earlier events
      or is e's row for a side e matches on. */
  lemma ExplainedLast(init: seq<DonationEvent>, e: DonationEvent, account: Address, x: Activity)
    ensures Explained(init + [e], account, x) <==>
      || Explained(init, account, x)
      || exists d :: Matches(e, account, d) && x == EntryOf(e, d)
  {
    var logs := init + [e];
    if Explained(init, account, x) {
      var i, d :| 0 <= i < |init| && Matches(init[i], account, d) && x == EntryOf(init[i], d);
      assert logs[i] == init[i];
    }
    if exists d :: Matches(e, account, d) && x == EntryOf(e, d) {
      var d :| Matches(e, account, d) && x == EntryOf(e, d);
      assert logs[|init|] == e;
    }
    if Explained(logs, account, x) {
      var i, d :| 0 <= i < |logs| && Matches(logs[i], account, d) && x == EntryOf(logs[i], d);
      if i < |init| { assert init[i] == logs[i]; }
    }
  }

  lemma {:induction false} PushedMembership(logs: seq<DonationEvent>, account: Address, x: Activity)
    ensures x in Pushed(logs, account) <==> Explained(logs, account, x)
  {
    if logs != [] {
      var n := |logs| - 1;
      PushedMembership(logs[..n], account, x);
      EntriesMembership(logs[n], account, x);
      assert logs == logs[..n] + [logs[n]];
      ExplainedLast(logs[..n], logs[n], account, x);
      assert Pushed(logs, account) == Pushed(logs[..n], account) + EntriesFor(logs[n], account);
    }
  }

  /** Every row comes from an event that matches on the row's side, and every such
      (event, side) pair has its row. */
  lemma ActivityMembership(logs: seq<DonationEvent>, account: Address, x: Activity)
    ensures x in RecentActivity(logs, account)
      <==> exists i, d :: 0 <= i < |logs| && Matches(logs[i], account, d) && x == EntryOf(logs[i], d)
  {
    ReverseInvolution(Pushed(logs, account));
    PushedMembership(logs, account, x);
  }

  // ---------------------------------------------------------------------------
  // Totals over the whole history.

  /** Totals split over any cut of the history. */
  lemma {:induction false} TotalAppend(xs: seq<DonationEvent>, ys: seq<DonationEvent>, account: Address, d: Direction)
    ensures Total(xs + ys, account, d) == Total(xs, account, d) + Total(ys, account, d)
  {
    if ys != [] {
      var n := |ys| - 1;
      assert (xs + ys)[..|xs + ys| - 1] == xs + ys[..n];
      TotalAppend(xs, ys[..n], account, d);
    } else {
      assert xs + ys == xs;
    }
  }

  /** The ledger depends on the account only up to case: two spellings of one address see the
      same totals and the same rows. */
  lemma {:induction false} CaseInsensitive(logs: seq<DonationEvent>, a: Address, b: Address)
    requires SameAddress(a, b)
    ensures Total(logs, a, Sent) == Total(logs, b, Sent)
    ensures Total(logs, a, Received) == Total(logs, b, Received)
    ensures Pushed(logs, a) == Pushed(logs, b) && RecentActivity(logs, a) == RecentActivity(logs, b)
  {
    if logs != [] {
      var n := |logs| - 1;
      CaseInsensitive(logs[..n], a, b);
      assert EntriesFor(logs[n], a) == EntriesFor(logs[n], b);
    }
  }

  /** An event that names the account on one side only puts that side's row alone on top. */
  lemma OneSided(logs: seq<DonationEvent>, e: DonationEvent, account: Address, d: Direction)
    requires Matches(e, account, d)
    requires !Matches(e, account, if d == Sent then Received else Sent)
    ensures RecentActivity(logs + [e], account) == [EntryOf(e, d)] + RecentActivity(logs, account)
    ensures Total(logs + [e], account, d) == Total(logs, account, d) + e.amount
  {
    NewestFirst(logs, e, account);
    assert EntriesFor(e, account) == [EntryOf(e, d)];
    assert Reverse([EntryOf(e, d)]) == [EntryOf(e, d)];
  }

  /** One donation from A to a different address B, signed "Alice": A's list gains a SENT row
      "To: " + B's first 6 characters on top and A's "Donated" grows by the amount; B's list
      gains a RECEIVED row "From: Alice" on top and B's "Received" grows by the amount. */
  lemma DonationScenario(logs: seq<DonationEvent>, a: Address, b: Address, amount: nat, hash: string)
    requires !SameAddress(a, b) && |b| >= 6
    ensures var e := DonationEvent(a, b, amount, "Alice", hash);
      && RecentActivity(logs + [e], a)[0] == Activity(Sent, b, amount, "To: " + b[..6])
      && Total(logs + [e], a, Sent) == Total(logs, a, Sent) + amount
      && RecentActivity(logs + [e], b)[0] == Activity(Received, a, amount, "From: Alice")
      && Total(logs + [e], b, Received) == Total(logs, b, Received) + amount
  {
    var e := DonationEvent(a, b, amount, "Alice", hash);
    assert Matches(e, a, Sent) && !Matches(e, a, Received);
    assert Matches(e, b, Received) && !Matches(e, b, Sent);
    OneSided(logs, e, a, Sent);
    OneSided(logs, e, b, Received);
  }
}
