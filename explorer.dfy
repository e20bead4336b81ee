/**
 * The global donation feed (`DonationsPage`, src/App.jsx:275-313): every
 * `DonationMade` log projected to a display record, newest first, each row
 * labelled with its shortened receiver and linked to the block explorer.
 */
module Explorer {
  import opened Text
  import opened Gateway

  /** One record of the feed. */
  datatype FeedEntry = FeedEntry(donor: Address, receiver: Address, amount: nat, name: string, hash: string)

  /** What one row of the feed shows: the donor's name, "To: " and the shortened receiver,
      the amount, and the link to the transaction. */
  datatype FeedRow = FeedRow(title: string, subtitle: string, amount: nat, link: string)

  /** The block-explorer URL every transaction hash is appended to. */
  const TxUrlPrefix: string := "https://sepolia.etherscan.io/tx/"

  /** The record built from one log. */
  function Project(e: DonationEvent): FeedEntry
  {
    FeedEntry(e.donor, e.receiver, e.amount, e.donorName, e.txHash)
  }

  /** `logs.map(project).reverse()`: entry i is the record of the i-th newest log. */
  function Feed(logs: seq<DonationEvent>): (r: seq<FeedEntry>)
    ensures |r| == |logs|
    ensures forall i :: 0 <= i < |logs| ==> r[i] == Project(logs[|logs| - 1 - i])
  {
    Reverse(seq(|logs|, i requires 0 <= i < |logs| => Project(logs[i])))
  }

  /** A new log appears as the top entry, above the unchanged older ones. */
  lemma FeedNewestOnTop(logs: seq<DonationEvent>, e: DonationEvent)
    ensures Feed(logs + [e]) == [Project(e)] + Feed(logs)
  {
    var r, q := Feed(logs + [e]), [Project(e)] + Feed(logs);
    forall i | 0 <= i < |r| ensures r[i] == q[i] {
      if i > 0 {
        assert (logs + [e])[|logs| - i] == logs[|logs| - 1 - (i - 1)];
      }
    }
  }

  /** The feed loses nothing a log carries: two histories with the same feed are the same. */
  lemma FeedIsLossless(xs: seq<DonationEvent>, ys: seq<DonationEvent>)
    requires Feed(xs) == Feed(ys)
    ensures xs == ys
  {
    assert |xs| == |ys|;
    forall i | 0 <= i < |xs| ensures xs[i] == ys[i] {
      var k := |xs| - 1 - i;
      assert Feed(xs)[k] == Project(xs[i]) && Feed(ys)[k] == Project(ys[i]);
    }
  }

  /** `https://sepolia.etherscan.io/tx/${hash}`: the fixed prefix followed by the hash, which the
      link therefore determines. */
  function TxLink(hash: string): (r: string)
    ensures |r| == |TxUrlPrefix| + |hash|
    ensures r[..|TxUrlPrefix|] == TxUrlPrefix && r[|TxUrlPrefix|..] == hash
  {
    TxUrlPrefix + hash
  }

  /** "To: " + `receiver.substring(0,8)` + "...": the first 8 characters of the receiver, or all
      of it when it is shorter. */
  function ReceiverTag(receiver: Address): (r: string)
    ensures |receiver| >= 8 ==> r == "To: " + receiver[..8] + "..." && |r| == 15
    ensures |receiver| < 8 ==> r == "To: " + receiver + "..."
  {
    "To: " + Substring(receiver, 0, 8) + "..."
  }

  /** The rows the page renders for a history: row i shows the i-th newest log's donor name,
      shortened receiver and amount, and links to that log's transaction. */
  function FeedRows(logs: seq<DonationEvent>): (r: seq<FeedRow>)
    ensures |r| == |logs|
    ensures forall i :: 0 <= i < |logs| ==>
      var e := logs[|logs| - 1 - i];
      r[i] == FeedRow(e.donorName, ReceiverTag(e.receiver), e.amount, TxLink(e.txHash))
  {
    var entries := Feed(logs);
    seq(|entries|, i requires 0 <= i < |entries| =>
      FeedRow(entries[i].name, ReceiverTag(entries[i].receiver), entries[i].amount, TxLink(entries[i].hash)))
  }

  /** Distinct transactions get distinct links. */
  lemma TxLinkInjective(h1: string, h2: string)
    requires TxLink(h1) == TxLink(h2)
    ensures h1 == h2
  {
    assert h1 == TxLink(h1)[|TxUrlPrefix|..];
  }
}
