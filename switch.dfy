/**
 * The payment switch: a list of transfer records, dashboard statistics over
 * it, and typed commands whose intent (transfer, invoice, status) is read
 * from keywords once a processing delay has passed.
 */
module Switch {
  import opened Common
  import opened Text
  import Seqs

  datatype Provider = MTN | Telecel | GCB | Absa | FintechApi
  datatype NodeStatus = Success | Processing | Failed | Settled | Aborted

  datatype Party = Party(name: string, wallet: string, provider: Provider)

  datatype TransactionNode = TransactionNode(
    id: string, ref: string, from: Party, to: Party, amount: int, currency: string,
    status: NodeStatus, timestamp: string, isoStandard: string, qrCode: Option<string>)

  const IsoStandard := "ISO 20022"

  const InitialNodes: seq<TransactionNode> := [
    TransactionNode("1", "SW-MJ-9021", Party("Payroll Admin", "024...88", MTN),
      Party("Logistics Vendor", "900...11", GCB), 1500, "GHS", Settled, "2024-05-27 10:15", IsoStandard, None),
    TransactionNode("2", "SW-MJ-9022", Party("Elena R.", "elena@pay", Absa),
      Party("Abena D.", "050...44", Telecel), 450, "USD", Success, "2024-05-27 11:22", IsoStandard, None),
    TransactionNode("3", "SW-MJ-9023", Party("Fintech Bridge", "API-7721", FintechApi),
      Party("Bulk Recipient", "024...33", MTN), 12400, "GHS", Processing, "2024-05-27 12:45", IsoStandard, None)
  ]

  // ----------------------------------------------------------- statistics

  function Amount(n: TransactionNode): int {
    n.amount
  }

  /** The "total volume" figure: the sum of all node amounts. */
  function TotalVolume(nodes: seq<TransactionNode>): int {
    Seqs.Sum(nodes, Amount)
  }

  predicate IsSuccessful(n: TransactionNode) {
    n.status == Success || n.status == Settled
  }

  function SuccessCount(nodes: seq<TransactionNode>): nat {
    |Seqs.Filter(nodes, IsSuccessful)|
  }

  /**
   * The success rate in percent. Dividing by the empty list's length gives
   * NaN in the source; that case is `None` here.
   */
  function SuccessRate(nodes: seq<TransactionNode>): (r: Option<real>)
    ensures r.None? <==> nodes == []
  {
    if nodes == [] then None
    else Some((SuccessCount(nodes) as real / |nodes| as real) * 100.0)
  }

  /** The count never exceeds the list, so the rate lies between 0 and 100. */
  lemma SuccessRateBounds(nodes: seq<TransactionNode>)
    requires nodes != []
    ensures 0.0 <= SuccessRate(nodes).value <= 100.0
  {
    var c := SuccessCount(nodes) as real;
    var n := |nodes| as real;
    assert c <= n;
    assert c / n <= 1.0;
  }

  /** When every node succeeded or settled the rate is 100, and when none did it is 0. */
  lemma {:induction false} SuccessRateExtremes(nodes: seq<TransactionNode>)
    requires nodes != []
    ensures (forall i :: 0 <= i < |nodes| ==> IsSuccessful(nodes[i])) ==> SuccessRate(nodes) == Some(100.0)
    ensures (forall i :: 0 <= i < |nodes| ==> !IsSuccessful(nodes[i])) ==> SuccessRate(nodes) == Some(0.0)
  {
    if forall i :: 0 <= i < |nodes| ==> IsSuccessful(nodes[i]) {
      Seqs.FilterKeepsAll(nodes, IsSuccessful);
      assert SuccessCount(nodes) == |nodes|;
      assert |nodes| as real / |nodes| as real == 1.0;
    }
    if forall i :: 0 <= i < |nodes| ==> !IsSuccessful(nodes[i]) {
      NoneSucceeded(nodes);
    }
  }

  lemma {:induction false} NoneSucceeded(nodes: seq<TransactionNode>)
    requires forall i :: 0 <= i < |nodes| ==> !IsSuccessful(nodes[i])
    ensures SuccessCount(nodes) == 0
    decreases |nodes|
  {
    if nodes != [] {
      NoneSucceeded(nodes[1..]);
    }
  }

  /** A new transfer raises the volume by its amount. */
  lemma PrependVolume(node: TransactionNode, nodes: seq<TransactionNode>)
    ensures TotalVolume([node] + nodes) == node.amount + TotalVolume(nodes)
  {
    assert ([node] + nodes)[1..] == nodes;
  }

  // -------------------------------------------------------------- intents

  datatype Intent = Transfer | Invoice | Status

  predicate Mentions(text: string, word: string) {
    Contains(Lower(text), word)
  }

  /** The keyword rules, in the order they are tried. */
  function IntentOf(text: string): Intent {
    if Mentions(text, "send") || Mentions(text, "disburse") then Transfer
    else if Mentions(text, "invoice") || Mentions(text, "bill") then Invoice
    else Status
  }

  /** Transfer keywords win over invoice keywords; anything else is a status query. */
  lemma IntentOfSpec(text: string)
    ensures IntentOf(text) == Transfer <==> Mentions(text, "send") || Mentions(text, "disburse")
    ensures IntentOf(text) == Invoice <==>
      !(Mentions(text, "send") || Mentions(text, "disburse")) && (Mentions(text, "invoice") || Mentions(text, "bill"))
    ensures IntentOf(text) == Status <==>
      !Mentions(text, "send") && !Mentions(text, "disburse") && !Mentions(text, "invoice") && !Mentions(text, "bill")
  {
  }

  /** Keywords are matched case-insensitively: a keyword typed in capitals still counts. */
  lemma MentionsIgnoresCase(x: string, word: string, y: string)
    requires forall i :: 0 <= i < |word| ==> 'a' <= word[i] <= 'z'
    ensures Mentions(x + Upper(word) + y, word)
  {
    var s := x + Upper(word) + y;
    assert Lower(s) == Lower(x) + word + Lower(y) by {
      forall i | 0 <= i < |s|
        ensures Lower(s)[i] == (Lower(x) + word + Lower(y))[i]
      {
        if |x| <= i < |x| + |word| {
          assert s[i] == Upper(word)[i - |x|];
        }
      }
    }
    ContainsInfix(Lower(x), word, Lower(y));
  }

  /** ASCII upper-casing, used to state case-insensitivity. */
  function Upper(s: string): string {
    seq(|s|, i requires 0 <= i < |s| => if 'a' <= s[i] <= 'z' then (s[i] as int - 32) as char else s[i])
  }

  const ParsingFeedback := "Parsing financial intent via Gemini 3..."

  /** The feedback line shown once an intent has been handled. */
  function FeedbackText(intent: Intent): string {
    match intent
    case Transfer => "Interoperable transfer " + "of 500 GHS successful. " + "ISO 20022 record generated."
    case Invoice => "Merchant invoice " + "for 100 GHS generated " + "and sent to recipient via SMS link."
    case Status => "Financial switch status: " + "All rails operational. Liquidity is healthy."
  }

  /** The three feedback lines are distinct, so the user can tell which rule fired. */
  lemma FeedbackDistinct()
    ensures FeedbackText(Transfer) != FeedbackText(Invoice)
    ensures FeedbackText(Transfer) != FeedbackText(Status)
    ensures FeedbackText(Invoice) != FeedbackText(Status)
  {
    assert FeedbackText(Transfer)[0] == 'I';
    assert FeedbackText(Invoice)[0] == 'M';
    assert FeedbackText(Status)[0] == 'F';
  }

  // ------------------------------------------------------------ transfers

  /** `Math.floor(1000 + u * 9000)` for the random draw `u`, which lies in [0, 1). */
  function RefNumber(u: real): (n: nat)
    requires 0.0 <= u < 1.0
    ensures 1000 <= n <= 9999
  {
    (1000.0 + u * 9000.0).Floor
  }

  function RefOf(n: nat): (r: string) {
    "SW-MJ-" + NatToString(n)
  }

  /** A reference is "SW-MJ-" and four digits, and its number can be read back from it. */
  lemma RefOfSpec(u: real)
    requires 0.0 <= u < 1.0
    ensures var r := RefOf(RefNumber(u));
      && |r| == 10 && StartsWith(r, "SW-MJ-")
      && (forall i :: 6 <= i < 10 ==> IsDigit(r[i]))
      && ParseNat(r[6..]) == RefNumber(u)
  {
    var n := RefNumber(u);
    var r := RefOf(n);
    NatToStringFourDigits(n);
    assert r[6..] == NatToString(n);
    assert r[..6] == "SW-MJ-";
    ParseNatToString(n);
  }

  /** The record a transfer command creates (`id` and `timestamp` are given). */
  function NewNode(id: string, refNumber: nat, timestamp: string): (n: TransactionNode)
    ensures n.amount == 500 && n.currency == "GHS" && n.status == Success && n.isoStandard == IsoStandard
    ensures n.from.provider == MTN && n.to.provider == GCB && n.ref == RefOf(refNumber)
    ensures IsSuccessful(n)
  {
    TransactionNode(id, RefOf(refNumber), Party("Voice Auth User", "024...XX", MTN),
      Party("Target Endpoint", "901...XX", GCB), 500, "GHS", Success, timestamp, IsoStandard, None)
  }

  /**
   * The list update written in the timer callback: the new node goes in front
   * of `captured`, the list as it was when the command was typed, whatever
   * the list has become since.
   */
  function SettleAsWritten(captured: seq<TransactionNode>, node: TransactionNode): (r: seq<TransactionNode>) {
    [node] + captured
  }

  /** The intended update: the new node goes in front of the current list. */
  function Settle(current: seq<TransactionNode>, node: TransactionNode): (r: seq<TransactionNode>)
    ensures |r| == |current| + 1 && r[0] == node && r[1..] == current
  {
    [node] + current
  }

  /**
   * Two transfer commands typed within the processing delay (the Enter key
   * is not disabled while a command is processing) both capture the same
   * list, so the second settlement, which replaces the list holding the
   * first transfer, drops that transfer: the result differs from settling
   * against the current list.
   */
  lemma AsWrittenLosesTransfer(nodes: seq<TransactionNode>, a: TransactionNode, b: TransactionNode)
    requires a != b && a !in nodes
    ensures var afterA := SettleAsWritten(nodes, a);
      a in afterA && a !in SettleAsWritten(nodes, b) && SettleAsWritten(nodes, b) != Settle(afterA, b)
  {
    var afterA := SettleAsWritten(nodes, a);
    assert Settle(afterA, b)[1] == a;
  }

  /** Settling against the current list keeps every transfer, newest first. */
  lemma SettleKeepsBoth(nodes: seq<TransactionNode>, a: TransactionNode, b: TransactionNode)
    ensures Settle(Settle(nodes, a), b) == [b, a] + nodes
    ensures a in Settle(Settle(nodes, a), b) && b in Settle(Settle(nodes, a), b)
    ensures TotalVolume(Settle(Settle(nodes, a), b)) == a.amount + b.amount + TotalVolume(nodes)
  {
    PrependVolume(a, nodes);
    PrependVolume(b, [a] + nodes);
    assert [b] + ([a] + nodes) == [b, a] + nodes;
  }

  // ---------------------------------------------------------------- state

  class SikaPay {
    var nodes: seq<TransactionNode>
    var commandInput: string
    var isProcessingCommand: bool
    var commandFeedback: string
    var activeReceipt: Option<TransactionNode>
    /** The commands whose processing delay has not yet elapsed, oldest first. */
    var pendingCommands: seq<string>

    /** The list is never empty: it starts and restarts with the three mock nodes and only grows. */
    ghost predicate Valid()
      reads this
    {
      |nodes| > 0
    }

    constructor ()
      ensures Valid()
      ensures nodes == InitialNodes && commandInput == "" && !isProcessingCommand
      ensures commandFeedback == "" && activeReceipt == None && pendingCommands == []
    {
      nodes := InitialNodes;
      commandInput := "";
      isProcessingCommand := false;
      commandFeedback := "";
      activeReceipt := None;
      pendingCommands := [];
    }

    /** The main button is disabled while the input is empty or a command is processing. */
    predicate ButtonEnabled()
      reads this
    {
      commandInput != "" && !isProcessingCommand
    }

    /** The "Initiate Expert Switch" button: a click only acts while the button is enabled. */
    method ClickInitiate()
      modifies this`isProcessingCommand, this`commandFeedback, this`pendingCommands
      ensures !old(ButtonEnabled()) ==> unchanged(this)
      ensures old(ButtonEnabled()) && !IsBlank(commandInput) ==>
        && isProcessingCommand && commandFeedback == ParsingFeedback
        && pendingCommands == old(pendingCommands) + [commandInput]
      ensures old(ButtonEnabled()) && IsBlank(commandInput) ==> unchanged(this)
    {
      if ButtonEnabled() {
        HandleVoiceIntent(commandInput);
      }
    }

    /** Enter in the command field: not guarded by `isProcessingCommand`, so a second command can be queued. */
    method PressEnter()
      modifies this`isProcessingCommand, this`commandFeedback, this`pendingCommands
      ensures IsBlank(commandInput) ==> unchanged(this)
      ensures !IsBlank(commandInput) ==>
        && isProcessingCommand && commandFeedback == ParsingFeedback
        && pendingCommands == old(pendingCommands) + [commandInput]
    {
      HandleVoiceIntent(commandInput);
    }

    method EditCommand(text: string)
      modifies this`commandInput
      ensures commandInput == text
    {
      commandInput := text;
    }

    /**
     * `handleVoiceIntent`, from the Enter key or the enabled button: blank
     * commands are ignored; otherwise processing starts and the command waits
     * for its delay.
     */
    method HandleVoiceIntent(text: string)
      modifies this`isProcessingCommand, this`commandFeedback, this`pendingCommands
      ensures IsBlank(text) ==> unchanged(this)
      ensures !IsBlank(text) ==>
        && isProcessingCommand && commandFeedback == ParsingFeedback
        && pendingCommands == old(pendingCommands) + [text]
    {
      if !IsBlank(text) {
        isProcessingCommand := true;
        commandFeedback := ParsingFeedback;
        pendingCommands := pendingCommands + [text];
      }
    }

    /**
     * The oldest command's delay elapses. A transfer adds a new node in front
     * of the current list (the corrected update `Settle`; the callback as
     * written uses the list captured when the command was typed, see
     * `SettleAsWritten`) and opens its receipt; every intent sets its
     * feedback line.
     * `id`, `u` and `timestamp` stand for the random id, the random draw and the clock.
     */
    method SettleCommand(id: string, u: real, timestamp: string)
      requires Valid() && 0.0 <= u < 1.0
      modifies this`nodes, this`activeReceipt, this`commandFeedback, this`isProcessingCommand, this`pendingCommands
      ensures Valid()
      ensures old(pendingCommands) == [] ==> unchanged(this)
      ensures old(pendingCommands) != [] ==>
        var intent := IntentOf(old(pendingCommands)[0]);
        && (intent == Transfer ==>
              var node := NewNode(id, RefNumber(u), timestamp);
              nodes == Settle(old(nodes), node) && activeReceipt == Some(node))
        && (intent != Transfer ==> nodes == old(nodes) && activeReceipt == old(activeReceipt))
        && commandFeedback == FeedbackText(intent) && !isProcessingCommand
        && pendingCommands == old(pendingCommands)[1..]
    {
      if pendingCommands != [] {
        var intent := IntentOf(pendingCommands[0]);
        if intent == Transfer {
          var node := NewNode(id, RefNumber(u), timestamp);
          nodes := Settle(nodes, node);
          activeReceipt := Some(node);
        }
        commandFeedback := FeedbackText(intent);
        isProcessingCommand := false;
        pendingCommands := pendingCommands[1..];
      }
    }

    /** "Restart Hub". */
    method Restart()
      modifies this`nodes
      ensures Valid() && nodes == InitialNodes
    {
      nodes := InitialNodes;
    }

    /** Clicking a node opens its receipt. */
    method OpenReceipt(node: TransactionNode)
      modifies this`activeReceipt
      ensures activeReceipt == Some(node)
    {
      activeReceipt := Some(node);
    }

    method CloseReceipt()
      modifies this`activeReceipt
      ensures activeReceipt == None
    {
      activeReceipt := None;
    }
  }
}
