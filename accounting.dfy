/**
 * The financial hub: scanned receipts become ledger entries after review, and
 * the chart of accounts is a flat list the user creates, edits and deletes.
 */
module Accounting {
  import opened Common
  import opened Types
  import opened Text
  import Seqs

  const InitialAccounts: seq<ChartOfAccount> := [
    ChartOfAccount("a1", "1000", "Cash on Hand", Asset, 5000),
    ChartOfAccount("a2", "1100", "GCB Bank Account", Asset, 42500),
    ChartOfAccount("a3", "2000", "Accounts Payable", Liability, 1200),
    ChartOfAccount("a4", "3000", "Owner Equity", Equity, 35000),
    ChartOfAccount("a5", "4000", "Sales Revenue", Revenue, 65000),
    ChartOfAccount("a6", "5000", "Cost of Goods Sold", Expense, 21000),
    ChartOfAccount("a7", "5100", "Rent Expense", Expense, 5000)
  ]

  // ------------------------------------------------------- scanned receipts

  /** A scanned receipt awaiting review (`pendingTx`): the OCR fields plus the tagging. */
  datatype PendingTx = PendingTx(scan: OcrResult, id: string, source: TxSource, status: TxStatus, txType: TxType)

  /** The record `onFileChange` stores once the OCR call returns; `id` is the random id. */
  function ScanToPending(scan: OcrResult, id: string): (p: PendingTx)
    ensures p.scan == scan && p.id == id
    ensures p.source == Scanned && p.status == Pending && p.txType == Credit
  {
    PendingTx(scan, id, Scanned, Pending, Credit)
  }

  /** A missing vendor interpolated into a template string. */
  const UndefinedText := "undefined"
  const AutoExtracted := "Auto-extracted"

  function VendorText(vendor: Option<string>): string {
    if vendor.Some? then vendor.value else UndefinedText
  }

  /** The ledger entry `confirmPendingTx` prepends: cleared, scanned, booked as a credit to account a1. */
  function ConfirmedTransaction(p: PendingTx): Transaction {
    Transaction(p.id, p.scan.date,
      VendorText(p.scan.vendor) + ": " + TextOr(p.scan.description, AutoExtracted),
      p.scan.amount, p.scan.category, Cleared, Scanned, "a1", None, Credit)
  }

  /**
   * The confirmed entry keeps the scan's id, date, amount and category; its
   * description is the vendor, a colon, and the scanned description, or
   * "Auto-extracted" when that is empty or missing.
   */
  lemma ConfirmedTransactionSpec(p: PendingTx)
    ensures var t := ConfirmedTransaction(p);
      && t.id == p.id && t.date == p.scan.date && t.amount == p.scan.amount && t.category == p.scan.category
      && t.status == Cleared && t.source == Scanned && t.accountId == "a1" && t.txType == Credit
      && t.attachmentUrl.None?
    ensures var d := ConfirmedTransaction(p).description;
      && (p.scan.vendor.Some? ==> StartsWith(d, p.scan.vendor.value + ": "))
      && (p.scan.vendor.None? ==> StartsWith(d, "undefined: "))
      && (p.scan.description.Some? && p.scan.description.value != "" ==>
            d == VendorText(p.scan.vendor) + ": " + p.scan.description.value)
      && (p.scan.description.None? || p.scan.description.value == "" ==>
            d == VendorText(p.scan.vendor) + ": Auto-extracted")
  {
    var d := ConfirmedTransaction(p).description;
    var v := VendorText(p.scan.vendor) + ": ";
    assert d == v + TextOr(p.scan.description, AutoExtracted);
    assert d[..|v|] == v;
  }

  // ------------------------------------------------------ chart of accounts

  datatype AccountForm = AccountForm(name: string, code: string, accountType: AccountType)

  const EmptyAccountForm := AccountForm("", "", Asset)

  /** The form `openEditAccount` fills from an account. */
  function FormOf(account: ChartOfAccount): (f: AccountForm)
    ensures f.name == account.name && f.code == account.code && f.accountType == account.accountType
  {
    AccountForm(account.name, account.code, account.accountType)
  }

  /** `{ ...editingAccount, ...accountForm }`: the edited copy, with the form's name, code and type. */
  function Overlaid(account: ChartOfAccount, form: AccountForm): ChartOfAccount {
    account.(name := form.name, code := form.code, accountType := form.accountType)
  }

  /** The edit branch of `handleSaveAccount`: every account with the edited id is replaced. */
  function Edited(accounts: seq<ChartOfAccount>, editing: ChartOfAccount, form: AccountForm): seq<ChartOfAccount> {
    seq(|accounts|, i requires 0 <= i < |accounts| =>
      if accounts[i].id == editing.id then Overlaid(editing, form) else accounts[i])
  }

  /** The create branch: a new account with balance 0 is appended. */
  function WithNewAccount(accounts: seq<ChartOfAccount>, form: AccountForm, id: string): seq<ChartOfAccount> {
    accounts + [ChartOfAccount(id, form.code, form.name, form.accountType, 0)]
  }

  /** `deleteAccount` once confirmed. */
  function AfterDelete(accounts: seq<ChartOfAccount>, id: string): seq<ChartOfAccount> {
    Seqs.Filter(accounts, (a: ChartOfAccount) => a.id != id)
  }

  predicate UniqueAccountIds(accounts: seq<ChartOfAccount>) {
    forall i, j :: 0 <= i < j < |accounts| ==> accounts[i].id != accounts[j].id
  }

  /**
   * Saving an edit changes only the accounts with the edited id, which take
   * the form's name, code and type on top of the copy taken when editing
   * began (its id and balance); the list keeps its length and order.
   */
  lemma EditedSpec(accounts: seq<ChartOfAccount>, editing: ChartOfAccount, form: AccountForm)
    ensures |Edited(accounts, editing, form)| == |accounts|
    ensures forall i :: 0 <= i < |accounts| ==>
      var a := Edited(accounts, editing, form)[i];
      if accounts[i].id == editing.id
      then a.id == editing.id && a.balance == editing.balance
           && a.name == form.name && a.code == form.code && a.accountType == form.accountType
      else a == accounts[i]
    ensures (forall i :: 0 <= i < |accounts| ==> accounts[i].id != editing.id) ==>
      Edited(accounts, editing, form) == accounts
  {
  }

  /** Saving without changing the form gives back the account as it was opened. */
  lemma EditWithOpenedFormIsIdentity(accounts: seq<ChartOfAccount>, k: nat)
    requires UniqueAccountIds(accounts) && k < |accounts|
    ensures Edited(accounts, accounts[k], FormOf(accounts[k])) == accounts
  {
    var e := Edited(accounts, accounts[k], FormOf(accounts[k]));
    forall i | 0 <= i < |accounts|
      ensures e[i] == accounts[i]
    {
      if accounts[i].id == accounts[k].id {
        assert i == k;
      }
    }
  }

  /** Creating appends one account with balance 0 and keeps the others. */
  lemma WithNewAccountSpec(accounts: seq<ChartOfAccount>, form: AccountForm, id: string)
    ensures var r := WithNewAccount(accounts, form, id);
      && |r| == |accounts| + 1 && r[..|accounts|] == accounts
      && r[|accounts|].id == id && r[|accounts|].balance == 0 && FormOf(r[|accounts|]) == form
    ensures UniqueAccountIds(accounts) && (forall i :: 0 <= i < |accounts| ==> accounts[i].id != id) ==>
      UniqueAccountIds(WithNewAccount(accounts, form, id))
  {
  }

  /** Deleting removes exactly the accounts with that id. */
  lemma AfterDeleteSpec(accounts: seq<ChartOfAccount>, id: string, a: ChartOfAccount)
    ensures a in AfterDelete(accounts, id) <==> a in accounts && a.id != id
    ensures multiset(AfterDelete(accounts, id))[a] == if a.id != id then multiset(accounts)[a] else 0
    ensures Seqs.IsSublist(AfterDelete(accounts, id), accounts)
    ensures forall i :: 0 <= i < |AfterDelete(accounts, id)| ==> AfterDelete(accounts, id)[i].id != id
  {
    Seqs.FilterMembership(accounts, (a: ChartOfAccount) => a.id != id, a);
    Seqs.FilterCount(accounts, (a: ChartOfAccount) => a.id != id, a);
    Seqs.FilterIsSublist(accounts, (a: ChartOfAccount) => a.id != id);
  }

  /** Deleting an id no account has changes nothing. */
  lemma DeleteAbsent(accounts: seq<ChartOfAccount>, id: string)
    requires forall i :: 0 <= i < |accounts| ==> accounts[i].id != id
    ensures AfterDelete(accounts, id) == accounts
  {
    Seqs.FilterKeepsAll(accounts, (a: ChartOfAccount) => a.id != id);
  }

  // -------------------------------------------------------------- grouping

  /** The order in which the account groups are shown. */
  const AccountTypeOrder: seq<AccountType> := [Asset, Liability, Equity, Revenue, Expense]

  /** `accounts.filter(a => a.type === type)`. */
  function Group(accounts: seq<ChartOfAccount>, t: AccountType): (r: seq<ChartOfAccount>) {
    if accounts == [] then []
    else if accounts[0].accountType == t then [accounts[0]] + Group(accounts[1..], t)
    else Group(accounts[1..], t)
  }

  /** The groups shown for `types`, in that order, skipping the empty ones. */
  function GroupsOver(accounts: seq<ChartOfAccount>, types: seq<AccountType>): seq<(AccountType, seq<ChartOfAccount>)> {
    if types == [] then []
    else
      var g := Group(accounts, types[0]);
      (if |g| == 0 then [] else [(types[0], g)]) + GroupsOver(accounts, types[1..])
  }

  /** The groups on the accounts tab. */
  function Grouped(accounts: seq<ChartOfAccount>): seq<(AccountType, seq<ChartOfAccount>)> {
    GroupsOver(accounts, AccountTypeOrder)
  }

  function TotalSize(groups: seq<(AccountType, seq<ChartOfAccount>)>): (n: nat) {
    if groups == [] then 0 else |groups[0].1| + TotalSize(groups[1..])
  }

  function SizesOver(accounts: seq<ChartOfAccount>, types: seq<AccountType>): nat {
    if types == [] then 0 else |Group(accounts, types[0])| + SizesOver(accounts, types[1..])
  }

  /** A group holds exactly the accounts of its type, in list order. */
  lemma {:induction false} GroupSpec(accounts: seq<ChartOfAccount>, t: AccountType, a: ChartOfAccount)
    ensures a in Group(accounts, t) <==> a in accounts && a.accountType == t
    ensures Seqs.IsSublist(Group(accounts, t), accounts)
    ensures forall i :: 0 <= i < |Group(accounts, t)| ==> Group(accounts, t)[i].accountType == t
    decreases |accounts|
  {
    if accounts != [] {
      GroupSpec(accounts[1..], t, a);
      assert accounts == [accounts[0]] + accounts[1..];
    }
  }

  lemma {:induction false} GroupsOverSize(accounts: seq<ChartOfAccount>, types: seq<AccountType>)
    ensures TotalSize(GroupsOver(accounts, types)) == SizesOver(accounts, types)
    decreases |types|
  {
    if types != [] {
      var g := Group(accounts, types[0]);
      var head: seq<(AccountType, seq<ChartOfAccount>)> := if |g| == 0 then [] else [(types[0], g)];
      GroupsOverSize(accounts, types[1..]);
      TotalSizeAppend(head, GroupsOver(accounts, types[1..]));
    }
  }

  lemma {:induction false} TotalSizeAppend(a: seq<(AccountType, seq<ChartOfAccount>)>, b: seq<(AccountType, seq<ChartOfAccount>)>)
    ensures TotalSize(a + b) == TotalSize(a) + TotalSize(b)
    decreases |a|
  {
    if a == [] {
      assert a + b == b;
    } else {
      assert (a + b)[1..] == a[1..] + b;
      TotalSizeAppend(a[1..], b);
    }
  }

  /** Every account falls into exactly one of the five type groups. */
  lemma {:induction false} FiveGroupsPartition(accounts: seq<ChartOfAccount>)
    ensures |Group(accounts, Asset)| + |Group(accounts, Liability)| + |Group(accounts, Equity)|
          + |Group(accounts, Revenue)| + |Group(accounts, Expense)| == |accounts|
    decreases |accounts|
  {
    if accounts != [] {
      FiveGroupsPartition(accounts[1..]);
    }
  }

  /** An account type's position in the display order. */
  function Rank(t: AccountType): nat {
    match t
    case Asset => 0
    case Liability => 1
    case Equity => 2
    case Revenue => 3
    case Expense => 4
  }

  /** Some group of `groups` is headed by type `t`. */
  predicate Shows(groups: seq<(AccountType, seq<ChartOfAccount>)>, t: AccountType) {
    exists i :: 0 <= i < |groups| && groups[i].0 == t
  }

  /**
   * The accounts tab shows all accounts: the group sizes add up to the number
   * of accounts. A group is shown exactly for the types that have accounts,
   * each shown group is the filter by its type, and the groups follow the
   * fixed type order, so no type is shown twice.
   */
  lemma GroupedSpec(accounts: seq<ChartOfAccount>)
    ensures TotalSize(Grouped(accounts)) == |accounts|
    ensures forall i :: 0 <= i < |Grouped(accounts)| ==>
      |Grouped(accounts)[i].1| > 0 && Grouped(accounts)[i].1 == Group(accounts, Grouped(accounts)[i].0)
    ensures |Grouped(accounts)| <= 5
    ensures forall t :: Shows(Grouped(accounts), t) <==> Group(accounts, t) != []
    ensures RankSorted(TypesShown(Grouped(accounts)))
  {
    GroupsOverSize(accounts, AccountTypeOrder);
    FiveGroupsPartition(accounts);
    var order := AccountTypeOrder;
    assert order[1..][1..][1..][1..][1..] == [];
    assert SizesOver(accounts, order[1..][1..][1..][1..]) == |Group(accounts, Expense)|;
    assert SizesOver(accounts, order[1..][1..]) ==
      |Group(accounts, Equity)| + |Group(accounts, Revenue)| + |Group(accounts, Expense)|;
    assert RankSorted(order);
    forall t: AccountType
      ensures t in order
    {
      match t
      case Asset => assert order[0] == t;
      case Liability => assert order[1] == t;
      case Equity => assert order[2] == t;
      case Revenue => assert order[3] == t;
      case Expense => assert order[4] == t;
    }
    GroupsOverShape(accounts, order);
    GroupsOverShows(accounts, order);
    GroupsOverRanked(accounts, order);
  }

  /** Every account is shown, and in one group only. */
  lemma AccountShownOnce(accounts: seq<ChartOfAccount>)
    ensures forall a :: a in accounts ==> exists i :: 0 <= i < |Grouped(accounts)| && a in Grouped(accounts)[i].1
    ensures forall a, i, j ::
      (0 <= i < |Grouped(accounts)| && 0 <= j < |Grouped(accounts)| &&
       a in Grouped(accounts)[i].1 && a in Grouped(accounts)[j].1) ==> i == j
  {
    GroupedSpec(accounts);
    var g := Grouped(accounts);
    forall a | a in accounts
      ensures exists i :: 0 <= i < |g| && a in g[i].1
    {
      GroupSpec(accounts, a.accountType, a);
      assert Shows(g, a.accountType);
      var i :| 0 <= i < |g| && g[i].0 == a.accountType;
      assert a in g[i].1;
    }
    forall a, i, j | 0 <= i < |g| && 0 <= j < |g| && a in g[i].1 && a in g[j].1
      ensures i == j
    {
      GroupSpec(accounts, g[i].0, a);
      GroupSpec(accounts, g[j].0, a);
      assert TypesShown(g)[i] == g[i].0 && TypesShown(g)[j] == g[j].0;
    }
  }

  /** The groups shown for `types`: at most one per type listed, each non-empty and the filter by its type. */
  lemma {:induction false} GroupsOverShape(accounts: seq<ChartOfAccount>, types: seq<AccountType>)
    ensures |GroupsOver(accounts, types)| <= |types|
    ensures forall i :: 0 <= i < |GroupsOver(accounts, types)| ==>
      |GroupsOver(accounts, types)[i].1| > 0 && GroupsOver(accounts, types)[i].1 == Group(accounts, GroupsOver(accounts, types)[i].0)
    decreases |types|
  {
    if types != [] {
      GroupsOverShape(accounts, types[1..]);
    }
  }

  /** A type gets a group exactly when it is listed and has accounts. */
  lemma {:induction false} GroupsOverShows(accounts: seq<ChartOfAccount>, types: seq<AccountType>)
    ensures forall t :: Shows(GroupsOver(accounts, types), t) <==> t in types && Group(accounts, t) != []
    decreases |types|
  {
    if types != [] {
      GroupsOverShows(accounts, types[1..]);
      var g := Group(accounts, types[0]);
      var head: seq<(AccountType, seq<ChartOfAccount>)> := if |g| == 0 then [] else [(types[0], g)];
      var rest := GroupsOver(accounts, types[1..]);
      var all := GroupsOver(accounts, types);
      assert all == head + rest;
      forall t
        ensures Shows(all, t) <==> t in types && Group(accounts, t) != []
      {
        if Shows(all, t) {
          var i :| 0 <= i < |all| && all[i].0 == t;
          if i >= |head| {
            assert rest[i - |head|] == all[i];
            assert Shows(rest, t);
            assert t in types[1..];
          } else {
            assert t == types[0];
          }
          assert t in types && Group(accounts, t) != [];
        }
        if t in types && Group(accounts, t) != [] {
          if t == types[0] {
            assert all[0].0 == t;
          } else {
            assert t in types[1..];
            var i :| 0 <= i < |rest| && rest[i].0 == t;
            assert all[|head| + i] == rest[i];
          }
        }
      }
    }
  }

  predicate RankSorted(types: seq<AccountType>) {
    forall i, j :: 0 <= i < j < |types| ==> Rank(types[i]) < Rank(types[j])
  }

  /** Every type listed after the first of a rank-sorted list has a higher rank. */
  lemma RankAboveHead(types: seq<AccountType>, t: AccountType)
    requires RankSorted(types) && types != [] && t in types[1..]
    ensures Rank(types[0]) < Rank(t)
  {
    var m :| 0 <= m < |types[1..]| && types[1..][m] == t;
    assert types[m + 1] == t;
  }

  /** The tail of a rank-sorted list is rank-sorted. */
  lemma RankSortedTail(types: seq<AccountType>)
    requires RankSorted(types) && types != []
    ensures RankSorted(types[1..])
  {
    forall i, j | 0 <= i < j < |types[1..]| ensures Rank(types[1..][i]) < Rank(types[1..][j]) {
      assert types[1..][i] == types[i + 1] && types[1..][j] == types[j + 1];
    }
  }

  /** A type ranked below every element of a rank-sorted list can go in front of it. */
  lemma RankSortedPrepend(t: AccountType, rest: seq<AccountType>)
    requires RankSorted(rest)
    requires forall k :: 0 <= k < |rest| ==> Rank(t) < Rank(rest[k])
    ensures RankSorted([t] + rest)
  {
    var all := [t] + rest;
    forall i, j | 0 <= i < j < |all| ensures Rank(all[i]) < Rank(all[j]) {
      assert all[j] == rest[j - 1];
      if i > 0 {
        assert all[i] == rest[i - 1];
      }
    }
  }

  /** Types listed in increasing rank are shown in increasing rank, so none is shown twice. */
  lemma {:induction false} GroupsOverRanked(accounts: seq<ChartOfAccount>, types: seq<AccountType>)
    requires RankSorted(types)
    ensures RankSorted(TypesShown(GroupsOver(accounts, types)))
    decreases |types|
  {
    if types != [] {
      RankSortedTail(types);
      GroupsOverRanked(accounts, types[1..]);
      var g := Group(accounts, types[0]);
      var rest := GroupsOver(accounts, types[1..]);
      if |g| != 0 {
        GroupsOverShows(accounts, types[1..]);
        var restTypes := TypesShown(rest);
        forall k | 0 <= k < |restTypes| ensures Rank(types[0]) < Rank(restTypes[k]) {
          assert Shows(rest, rest[k].0);
          RankAboveHead(types, rest[k].0);
        }
        RankSortedPrepend(types[0], restTypes);
        assert GroupsOver(accounts, types) == [(types[0], g)] + rest;
        assert TypesShown([(types[0], g)] + rest) == [types[0]] + restTypes;
      } else {
        assert GroupsOver(accounts, types) == rest;
      }
    }
  }

  /** The types of the groups, in the order shown. */
  function TypesShown(groups: seq<(AccountType, seq<ChartOfAccount>)>): (r: seq<AccountType>)
    ensures |r| == |groups| && forall i :: 0 <= i < |groups| ==> r[i] == groups[i].0
  {
    seq(|groups|, i requires 0 <= i < |groups| => groups[i].0)
  }

  // ------------------------------------------------------------- inventory

  /** An item is low on stock at or below its reorder level. */
  predicate IsLowStock(item: InventoryItem) {
    item.quantity <= item.reorderLevel
  }

  /** The inventory table's badge: "Low Stock" exactly for items at or below their reorder level. */
  function LowStockBadge(item: InventoryItem): (r: Option<string>)
    ensures r.Some? <==> item.quantity <= item.reorderLevel
    ensures r.Some? ==> r.value == "Low Stock"
  {
    if IsLowStock(item) then Some("Low Stock") else None
  }

  // ----------------------------------------------------------------- state

  class FinancialHub {
    var accounts: seq<ChartOfAccount>
    var transactions: seq<Transaction>
    const inventory: seq<InventoryItem>
    var pendingTx: Option<PendingTx>
    var editingAccount: Option<ChartOfAccount>
    var accountForm: AccountForm
    var isAccountModalOpen: bool

    /** The mock transactions and inventory carry fractional amounts, so they are given. */
    constructor (initialTransactions: seq<Transaction>, initialInventory: seq<InventoryItem>)
      ensures accounts == InitialAccounts && transactions == initialTransactions
      ensures inventory == initialInventory && pendingTx == None && editingAccount == None
      ensures accountForm == EmptyAccountForm && !isAccountModalOpen
    {
      accounts := InitialAccounts;
      transactions := initialTransactions;
      inventory := initialInventory;
      pendingTx := None;
      editingAccount := None;
      accountForm := EmptyAccountForm;
      isAccountModalOpen := false;
    }

    /** The OCR call returned for an uploaded file; a failed call (`None`) changes nothing. */
    method OnScanResult(scan: Option<OcrResult>, id: string)
      modifies this`pendingTx
      ensures scan.Some? ==> pendingTx == Some(ScanToPending(scan.value, id))
      ensures scan.None? ==> pendingTx == old(pendingTx)
    {
      if scan.Some? {
        pendingTx := Some(ScanToPending(scan.value, id));
      }
    }

    /** "Approve Entry": the reviewed scan is prepended to the ledger; no account balance moves. */
    method ConfirmPendingTx()
      modifies this`transactions, this`pendingTx
      ensures old(pendingTx).Some? ==>
        transactions == [ConfirmedTransaction(old(pendingTx).value)] + old(transactions) && pendingTx == None
      ensures old(pendingTx).None? ==> transactions == old(transactions) && pendingTx == None
      ensures accounts == old(accounts)
    {
      if pendingTx.Some? {
        transactions := [ConfirmedTransaction(pendingTx.value)] + transactions;
        pendingTx := None;
      }
    }

    /** "Discard" and the close button of the review dialog. */
    method DiscardPendingTx()
      modifies this`pendingTx
      ensures pendingTx == None
    {
      pendingTx := None;
    }

    /** "New Account". */
    method OpenNewAccount()
      modifies this`editingAccount, this`accountForm, this`isAccountModalOpen
      ensures editingAccount == None && accountForm == EmptyAccountForm && isAccountModalOpen
    {
      editingAccount := None;
      accountForm := EmptyAccountForm;
      isAccountModalOpen := true;
    }

    /** `openEditAccount`. */
    method OpenEditAccount(account: ChartOfAccount)
      modifies this`editingAccount, this`accountForm, this`isAccountModalOpen
      ensures editingAccount == Some(account) && accountForm == FormOf(account) && isAccountModalOpen
    {
      editingAccount := Some(account);
      accountForm := FormOf(account);
      isAccountModalOpen := true;
    }

    /** The account dialog's inputs. */
    method EditAccountForm(form: AccountForm)
      modifies this`accountForm
      ensures accountForm == form
    {
      accountForm := form;
    }

    /** The dialog's close button: the dialog closes, the edit target and the form stay as they were. */
    method CloseAccountDialog()
      modifies this`isAccountModalOpen
      ensures !isAccountModalOpen
    {
      isAccountModalOpen := false;
    }

    /** `handleSaveAccount`; `newId` stands for the random id of a created account. */
    method SaveAccount(newId: string)
      modifies this`accounts, this`editingAccount, this`accountForm, this`isAccountModalOpen
      ensures old(editingAccount).Some? ==> accounts == Edited(old(accounts), old(editingAccount).value, old(accountForm))
      ensures old(editingAccount).None? ==> accounts == WithNewAccount(old(accounts), old(accountForm), newId)
      ensures editingAccount == None && accountForm == EmptyAccountForm && !isAccountModalOpen
    {
      if editingAccount.Some? {
        accounts := Edited(accounts, editingAccount.value, accountForm);
      } else {
        accounts := WithNewAccount(accounts, accountForm, newId);
      }
      isAccountModalOpen := false;
      editingAccount := None;
      accountForm := EmptyAccountForm;
    }

    /** `deleteAccount`; `confirmed` is the user's answer to the confirmation prompt. */
    method DeleteAccount(id: string, confirmed: bool)
      modifies this`accounts
      ensures accounts == if confirmed then AfterDelete(old(accounts), id) else old(accounts)
    {
      if confirmed {
        accounts := AfterDelete(accounts, id);
      }
    }
  }
}
