/** The shared records of the dashboards (their TypeScript interfaces). */
module Types {
  import opened Common

  datatype AccountType = Asset | Liability | Equity | Revenue | Expense

  /** One entry of the chart of accounts; a flat list, with no parent link. */
  datatype ChartOfAccount = ChartOfAccount(
    id: string, code: string, name: string, accountType: AccountType, balance: int)

  datatype ContactStatus = Lead | Customer | VIP
  datatype ContactType = CustomerContact | Vendor | Partner

  datatype Contact = Contact(
    id: string, name: string, email: string, phone: string, tags: seq<string>,
    lastInteraction: string, value: int, status: ContactStatus, contactType: ContactType)

  datatype InventoryItem = InventoryItem(
    id: string, sku: string, name: string, quantity: int, unitPrice: int, reorderLevel: int)

  datatype TxStatus = Pending | Cleared | Reconciled
  datatype TxSource = Manual | Scanned | Bank
  datatype TxType = Debit | Credit

  datatype Transaction = Transaction(
    id: string, date: string, description: string, amount: int, category: string,
    status: TxStatus, source: TxSource, accountId: string,
    attachmentUrl: Option<string>, txType: TxType)

  /**
   * The fields the document-OCR call extracts from a receipt or manifest
   * (services/geminiService.ts). `vendor` and `description` may be absent.
   */
  datatype OcrResult = OcrResult(
    vendor: Option<string>, amount: int, currency: string, date: string, category: string,
    taxAmount: int, description: Option<string>, confidence: int)

  datatype Language = Language(code: string, name: string, isAfrican: bool)

  datatype Priority = High | Medium | Low

  datatype DailyObjective = DailyObjective(
    id: string, title: string, priority: Priority, completed: bool, deadline: string)
}
