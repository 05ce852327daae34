# Sika Wura AI dashboards — a verified model of their state logic

Sika Wura AI is a single-page business dashboard made of React components:
- a shop with a cart and OCR restocking (EcommerceSuite);
- payment links with a customer checkout (CediPay);
- a financial hub with a chart of accounts and scanned receipts (FinancialHub);
- a payment switch driven by typed commands (SikaPay);
- savings circles with WhatsApp links (RoscaAI);
- a planner, a contact directory, a ledger view, an advisory chat and a translator.

This project models what those components compute and how their state changes.

Each component's state becomes a Dafny `class` whose fields are the component's `useState` values. Each handler becomes a method with a `modifies` clause, and its `ensures` states the whole new state through a pure function. For every such function, lemmas prove what the dashboard promises, for example:
- the cart keeps one line per product;
- one payment raises the total collected by exactly the link's amount;
- every account is shown in exactly one type group;
- a percent-encoded WhatsApp message decodes back to the message's bytes.

Pure parts of the code are modelled as functions with lemmas. These are the search filters, the carrier lookup, the message templates, the language list and the statistics.

Modules follow the components:

| module | file | models |
|---|---|---|
| `Common` | common.dfy | optional values, the shape of a generative-AI reply, `x \|\| fallback` |
| `Seqs` | seqs.dfy | `filter`, `find`, `reduce` on lists |
| `Text` | text.dfy | ASCII `toLowerCase`, `includes`, `startsWith`, one-character `replace`, `trim()` emptiness, decimal rendering |
| `UriComponent` | uri.dfy | `encodeURIComponent` (UTF-8 and `%XX`) and percent-decoding |
| `Types` | types.dfy | the shared records of types.ts |
| `Languages` | languages.dfy | constants.tsx: the language list and lookups by code |
| `Shop` | shop.dfy | components/EcommerceSuite.tsx |
| `PaymentLinks` | payment_links.dfy | components/CediPay.tsx |
| `Accounting` | accounting.dfy | components/FinancialHub.tsx |
| `Switch` | switch.dfy | components/SikaPay.tsx |
| `Susu` | susu.dfy | components/RoscaAI.tsx |
| `Planner` | planner.dfy | components/Planner.tsx |
| `Contacts` | contacts.dfy | components/CRM.tsx |
| `Ledger` | ledger.dfy | components/Ledger.tsx |
| `Advisor` | advisor.dfy | components/Advisor.tsx |
| `Translator` | translator.dfy | components/Translator.tsx |

Asynchronous handlers are split at the point where they wait:
- A service call becomes a method that takes the reply: a `ServiceReply` for translation and advice, an `OcrResult` option for a scan. Where the handler reads or changes state before it waits, a first method returns the request or queues what the handler captured: the translation and advice requests, and the catalogue the inventory upload matches against.
- A `setTimeout` becomes a method that queues the captured data, and a method that runs the callback.

Random ids, random draws and clock readings are parameters. The answer to `window.confirm` is the `confirmed` parameter.

The repository's own description of the system also speaks of an account hierarchy, of posting entries to account balances and of bank reconciliation. The code has none of these. The chart of accounts is a flat list, and confirming a scanned receipt moves no balance. The model follows the code: `Accounting.FinancialHub.ConfirmPendingTx` states that the accounts are unchanged.

## Model

| member | source | states |
|---|---|---|
| `Common.TextOr` | components/Advisor.tsx:34 | `x \|\| fallback` on an optional string. A non-empty value is returned as it is. An absent value and an empty string both give the fallback. |
| `Seqs.Filter` | components/CRM.tsx:95 | `Array.filter`: the result is no longer than the list, and every kept element satisfies the test. |
| `Seqs.FindIndex` | components/EcommerceSuite.tsx:142-145 | `Array.find`'s position: the first element that satisfies the test. `None` exactly when no element does. |
| `Seqs.Find` | components/EcommerceSuite.tsx:142-145 | `Array.find`: `None` exactly when nothing matches. Otherwise the value is the FIRST element that matches: it sits at a position before which no element passes the test. |
| `Seqs.FilterIsSublist` | components/CRM.tsx:94-95 | A filter keeps elements in their original order (it is a sublist). |
| `Seqs.FilterMembership` | components/CRM.tsx:94-95 | An element is in the filtered list iff it is in the list and passes the test. |
| `Seqs.FilterKeepsAll` | components/Ledger.tsx:98 | A filter whose test holds everywhere returns the whole list. |
| `Seqs.FilterIdempotent` | components/CRM.tsx:95 | Filtering twice with the same test equals filtering once. |
| `Seqs.FilterSamePredicate` | components/CRM.tsx:95 | Filters by two tests that agree on every element give the same list. |
| `Seqs.SumAppend` | components/EcommerceSuite.tsx:168 | `reduce` with `+` distributes over concatenation. |
| `Seqs.SumFilterSplit` | components/SikaPay.tsx:58-59 | A sum is the sum over the elements that pass a test plus the sum over those that fail it. |
| `Seqs.FilterCount` | components/CRM.tsx:95 | A filter keeps every occurrence of a passing element and none of a failing one: its multiset count is the list's count or 0. |
| `Seqs.FilterAppend` | constants.tsx:22 | A filter distributes over concatenation. |
| `Seqs.FilterDropsAll` | constants.tsx:15-20 | A filter that fails on every element returns the empty list. |
| `Text.ContainsInfix` | components/RoscaAI.tsx:101-105 | `includes` finds a string wherever it was placed inside another. |
| `Text.SlugifySpec` | components/EcommerceSuite.tsx:111 | `toLowerCase().replace(/ /g, '-')`. It keeps the length; spaces become `-` and other characters are lower-cased one by one; no space or ASCII capital remains; applying it twice equals applying it once; it is empty only for the empty title. |
| `Text.NatToString` | components/RoscaAI.tsx:102 | Rendering a number in a template literal gives at least one character, all decimal digits. |
| `Text.ParseNatToString` | components/SikaPay.tsx:74 | Reading the rendered digits back gives the number (round trip). |
| `Text.NatToStringFourDigits` | components/SikaPay.tsx:74 | Numbers from 1000 to 9999 render as exactly four digits. |
| `UriComponent.Utf8` | components/RoscaAI.tsx:106 | The UTF-8 encoding of one character takes 1 to 4 bytes, and 1 byte exactly for ASCII. |
| `UriComponent.HexValue` | components/RoscaAI.tsx:106 | A hexadecimal digit's value lies in 0..15. |
| `UriComponent.HexRoundTrip` | components/RoscaAI.tsx:106 | An upper-case hex digit reads back as its value. |
| `UriComponent.DecodeAppend` | components/RoscaAI.tsx:106 | Percent-decoding a concatenation concatenates the decodings. |
| `UriComponent.DecodeEscapes` | components/RoscaAI.tsx:106 | Decoding `%XX` escapes gives back the escaped bytes. |
| `UriComponent.DecodeEncodeChar` | components/RoscaAI.tsx:106 | Decoding one encoded character gives its UTF-8 bytes. |
| `UriComponent.DecodeEncode` | components/RoscaAI.tsx:106 | `encodeURIComponent` is undone by percent-decoding: the result is the message's UTF-8 bytes. |
| `UriComponent.EncodeIsUriSafe` | components/RoscaAI.tsx:106 | An encoded message contains only unreserved characters, `%` and hex digits, so it cannot break out of the `text` query parameter. |
| `UriComponent.EscapesAreUriSafe` | components/RoscaAI.tsx:106 | Percent escapes consist of `%` and hex digits only. |
| `UriComponent.EncodeUnreservedIdentity` | components/RoscaAI.tsx:514 | A message made only of unreserved characters passes through unchanged. |
| `Languages.FindByCode` | constants.tsx:22 | Lookup by code: a found entry is in the list and has that code; `None` exactly when no entry has it. |
| `Languages.AllLanguagesShape` | constants.tsx:4-22 | The list has 12 entries, is the African list followed by the foreign list, and every African entry is flagged African while every foreign one is not. |
| `Languages.AfricanOnlyOfAll` | components/RoscaAI.tsx:271 | Filtering the full list by `isAfrican` yields the African list, in order. |
| `Languages.AfricanOnlyOfSplit` | constants.tsx:22 | For any list made of flagged entries followed by unflagged ones, the filter returns exactly the first part. |
| `Languages.CodesAreDistinct` | constants.tsx:4-20 | Language codes are pairwise distinct, and `ak` and `en` are found, as the first African and the first foreign entry. |
| `Languages.FindByCodeUnique` | constants.tsx:22 | Since codes are distinct, the entry of the list that carries a code is the one that lookup returns. |
| `Languages.NameOrDefaults` | components/Translator.tsx:18-19 | The default codes resolve to "Akan (Twi)" and "English"; the empty code, which no language has, gives the fallback. |
| `Languages.NameOrSpec` | components/Translator.tsx:18-19 | `find(...)?.name \|\| fallback`: for a code that a language has, its name, or the fallback if that name is empty; for a code no language has, the fallback. |
| `Shop.AddedToCart` | components/EcommerceSuite.tsx:83-100 | Adding fails exactly when the product is new to the cart and has no variant. |
| `Shop.AddNewProduct` | components/EcommerceSuite.tsx:90-97 | A product new to the cart is appended as one line: quantity 1, with its first variant's id and price. |
| `Shop.AddExistingProduct` | components/EcommerceSuite.tsx:86-89 | A product already in the cart: its line gains one unit; the length and every other line are unchanged. |
| `Shop.AddKeepsUnique` | components/EcommerceSuite.tsx:85-98 | Adding never puts one product on two lines. |
| `Shop.AddCartTotal` | components/EcommerceSuite.tsx:88 | Adding a product already in the cart raises the cart total (line 168) by that line's price. |
| `Shop.AddNewCartTotal` | components/EcommerceSuite.tsx:90-97 | Adding a new product raises the cart total (line 168) by its first variant's price. |
| `Shop.IncrementedTotal` | components/EcommerceSuite.tsx:88 | Incrementing one line of a cart with unique products raises the cart total (line 168) by that line's price. |
| `Shop.NoOtherLine` | components/EcommerceSuite.tsx:88 | Incrementing a product that is not in the cart changes nothing. |
| `Shop.RemoveFromCartSpec` | components/EcommerceSuite.tsx:102-104 | Removing drops exactly the product's lines and keeps the rest in order, with every other line kept as often as it occurred. |
| `Shop.RemoveAbsent` | components/EcommerceSuite.tsx:103 | Removing a product that is not in the cart is a no-op. |
| `Shop.RemoveKeepsUnique` | components/EcommerceSuite.tsx:103 | Removing keeps the cart free of duplicate products. |
| `Shop.SublistKeepsUnique` | components/EcommerceSuite.tsx:103 | Any sublist of a cart with unique products has unique products. |
| `Shop.SublistMembers` | components/EcommerceSuite.tsx:103 | Every element of a sublist is an element of the list. |
| `Shop.CartTotalAppend` | components/EcommerceSuite.tsx:168 | The empty cart totals 0, and each line adds price × quantity. |
| `Shop.FilteredProductsSpec` | components/EcommerceSuite.tsx:180-183 | The catalogue search is an order-preserving sublist. A product is kept iff its title or a variant SKU contains the query, ignoring case, and a kept product appears as often as in the catalogue; an empty query keeps all. |
| `Shop.NewProduct` | components/EcommerceSuite.tsx:106-123 | A created product has id `prod_` plus the first clock reading, status "published", and the form's title, subtitle, thumbnail and stock. Its handle is the title lower-cased with spaces turned to `-`. It has one variant, "Default", with id `var_` plus the second reading, the form's price and SKU, and the product's stock. |
| `Shop.RestockedSpec` | components/EcommerceSuite.tsx:147-152 | A restock adds 10 units iff the amount is positive. Every variant price becomes the amount unless it is 0. Nothing else changes. |
| `Shop.AppliedScanSpec` | components/EcommerceSuite.tsx:142-152 | The match is looked up in the catalogue captured when the file was chosen, the restock applies to the current one. With no match the current catalogue is unchanged. Otherwise the match is the first captured product satisfying the test (no earlier one satisfies it); current products with its id are restocked, the rest are unchanged, and the length is kept. |
| `Shop.NoVendorMatchesFirst` | components/EcommerceSuite.tsx:143 | With no vendor the empty string is in every title, so the first product always matches. |
| `Shop.NewerProductUntouched` | components/EcommerceSuite.tsx:142-148 | A product whose id the captured catalogue lacks, such as one created while the scan was pending, is not restocked. |
| `Shop.EcommerceSuite.constructor` | components/EcommerceSuite.tsx:47-53 | The suite starts with the mock products, an empty cart, the cart closed and no upload pending. |
| `Shop.EcommerceSuite.AddToCart` | components/EcommerceSuite.tsx:83-100 | The cart becomes the added cart and opens. On failure nothing changes. Products are untouched, and the cart stays free of duplicates. |
| `Shop.EcommerceSuite.RemoveFromCart` | components/EcommerceSuite.tsx:102-104 | The cart becomes the filtered cart and stays free of duplicates. |
| `Shop.EcommerceSuite.CreateProduct` | components/EcommerceSuite.tsx:106-124 | The new product is put first; the other products follow unchanged. |
| `Shop.EcommerceSuite.StartUpload` | components/EcommerceSuite.tsx:129-139 | Choosing a file queues the catalogue as it is at that moment, which the handler's closure captures. |
| `Shop.EcommerceSuite.ReceiveScan` | components/EcommerceSuite.tsx:139-160 | When the oldest upload's OCR call settles, a successful scan applies the restock, matching against the captured catalogue and updating the current one; a failed scan leaves the catalogue unchanged. With no upload pending, nothing changes. |
| `PaymentLinks.NewLink` | components/CediPay.tsx:52-61 | A new link is active, with 0 payments and 0 revenue, and the given id. It takes its title, description, amount, currency and type from the draft. Its slug is the slugified title, or `link-` and the suffix when that is empty (see `LinkSlugSpec`). |
| `PaymentLinks.LinkSlugSpec` | components/CediPay.tsx:59 | The slug is the slugified title. It falls back to `link-` and the suffix exactly when the title is empty, and it is never empty. |
| `PaymentLinks.CarrierSpec` | components/CediPay.tsx:80-84 | 'MTN' iff the number starts with 024/054/055, 'Telecel' iff it starts with 020/050, 'MoMo' otherwise. The two prefix sets never overlap. |
| `PaymentLinks.CarrierBadge` | components/CediPay.tsx:330-334 | The carrier badge is shown exactly when the phone number has more than 3 characters, and then names the number's carrier. |
| `PaymentLinks.PaidLinksSpec` | components/CediPay.tsx:76 | A payment adds 1 payment and the link's own amount to the paid link only; other links and the length are unchanged; no active link changes nothing. |
| `PaymentLinks.TotalAfterPayment` | components/CediPay.tsx:76 | With unique ids, one payment raises the total collected (line 111) by exactly the paid link's amount. |
| `PaymentLinks.PaymentForUnknownLink` | components/CediPay.tsx:76 | A payment for an id that no link has changes nothing. |
| `PaymentLinks.ContinueNeedsDetails` | components/CediPay.tsx:302-303 | From `info`, "Continue" reaches `method` iff name and e-mail are both filled; otherwise the step stays `info`. |
| `PaymentLinks.BackUndoesContinue` | components/CediPay.tsx:315 | The back arrow returns to `info` after "Continue". |
| `PaymentLinks.StepEntry` | components/CediPay.tsx:302-315 | No step can be skipped (steps are set at lines 68, 72-74, 302-303 and 315). `method` is entered only from `info` with name and e-mail. `processing` is entered only by paying from `method`. `success` is entered only by the timer. `info` is entered only by opening the view or going back. |
| `PaymentLinks.PaymentMethodLabel` | components/CediPay.tsx:381 | The receipt says "Mobile Money" iff a phone number was entered, otherwise "Card". |
| `PaymentLinks.CediPay.constructor` | components/CediPay.tsx:33-49 | The builder starts in the merchant view with the two initial links, whose ids differ, an empty draft and the `info` step. |
| `PaymentLinks.CediPay.CreateLink` | components/CediPay.tsx:52-63 | The new link is put first and the view returns to merchant. A fresh id keeps link ids unique. |
| `PaymentLinks.CediPay.OpenCustomerView` | components/CediPay.tsx:65-69 | Opening a link makes it active, shows the customer view and resets the step to `info`. |
| `PaymentLinks.CediPay.ContinueToPayment` | components/CediPay.tsx:302-303 | The step follows "Continue". |
| `PaymentLinks.CediPay.BackToInfo` | components/CediPay.tsx:315 | The step follows the back arrow. |
| `PaymentLinks.CediPay.TriggerPayment` | components/CediPay.tsx:71-74 | Paying from `method` (the buttons at lines 339 and 343) moves to `processing` and starts a timer that captures the active link's id. |
| `PaymentLinks.CediPay.SettlePayment` | components/CediPay.tsx:73-77 | When the oldest timer fires, the step becomes `success` and the captured link is paid; since ids stay unique, the total collected (line 111) rises by exactly that link's amount. With no timer running, nothing changes. |
| `PaymentLinks.CediPay.EditDraft` | components/CediPay.tsx:188-222 | The builder inputs replace the draft. |
| `PaymentLinks.CediPay.EditCustomerForm` | components/CediPay.tsx:291-328 | The customer inputs replace the form. |
| `PaymentLinks.CediPay.OpenBuilder` | components/CediPay.tsx:97 | "Create New Link" shows the builder. |
| `PaymentLinks.CediPay.BackToMerchant` | components/CediPay.tsx:269 | The close and finish buttons show the merchant view. |
| `Accounting.ScanToPending` | components/FinancialHub.tsx:65-71 | A scan result becomes a pending record: source 'scanned', status 'Pending', type 'Credit', with the random id. |
| `Accounting.ConfirmedTransactionSpec` | components/FinancialHub.tsx:84-94 | The confirmed entry keeps the scan's id, date, amount and category and is 'Cleared', 'scanned', 'Credit' on a1. Its description is "vendor: description", "vendor: Auto-extracted" when the description is empty or missing, and starts with "undefined: " when the vendor is missing. |
| `Accounting.FormOf` | components/FinancialHub.tsx:122-126 | Opening an account for editing fills the form with its name, code and type. |
| `Accounting.EditedSpec` | components/FinancialHub.tsx:102 | Saving an edit replaces only the accounts with the edited id. These keep the id and balance of the copy taken when editing began, and take the form's name, code and type. Length and order are kept. |
| `Accounting.EditWithOpenedFormIsIdentity` | components/FinancialHub.tsx:102 | Saving a form left as opening the account filled it (lines 122-126) gives back the accounts as they were. |
| `Accounting.WithNewAccountSpec` | components/FinancialHub.tsx:104-109 | Creating appends one account with balance 0 and the form's fields, keeps the others, and keeps ids unique when the new id is fresh. |
| `Accounting.AfterDeleteSpec` | components/FinancialHub.tsx:118 | Deleting removes exactly the accounts with that id and keeps the rest in order, each as often as it occurred. |
| `Accounting.DeleteAbsent` | components/FinancialHub.tsx:118 | Deleting an id that no account has changes nothing. |
| `Accounting.GroupSpec` | components/FinancialHub.tsx:322 | A type group holds exactly the accounts of that type, in list order. |
| `Accounting.GroupsOverSize` | components/FinancialHub.tsx:321-323 | Skipping empty groups does not change the number of accounts shown. |
| `Accounting.TotalSizeAppend` | components/FinancialHub.tsx:321-323 | Account counts add up over consecutive runs of groups. |
| `Accounting.FiveGroupsPartition` | components/FinancialHub.tsx:321-322 | Every account falls into exactly one of the five type groups. |
| `Accounting.GroupedSpec` | components/FinancialHub.tsx:321-323 | The accounts tab shows all accounts: the group sizes add up to the number of accounts. A group is shown exactly for the types that have accounts; each is the filter by its type; the groups follow the order Asset, Liability, Equity, Revenue, Expense with ranks strictly rising, so no type is shown twice. |
| `Accounting.GroupsOverShape` | components/FinancialHub.tsx:321-323 | Over a list of types, at most one group per type listed is shown, each non-empty and the filter by its type. |
| `Accounting.GroupsOverShows` | components/FinancialHub.tsx:321-323 | A type gets a group exactly when it is listed and has accounts. |
| `Accounting.GroupsOverRanked` | components/FinancialHub.tsx:321-323 | Types listed in rising display order give groups in rising display order. |
| `Accounting.RankAboveHead` | components/FinancialHub.tsx:321 | In a list of types in rising display order, every later type ranks above the first. |
| `Accounting.TypesShown` | components/FinancialHub.tsx:321-323 | The headings of the shown groups, one per group in the same order. |
| `Accounting.AccountShownOnce` | components/FinancialHub.tsx:321-323 | Every account is shown in a group, and in exactly one. |
| `Accounting.LowStockBadge` | components/FinancialHub.tsx:477-482 | The inventory table shows "Low Stock" exactly for items whose quantity is at or below their reorder level. |
| `Accounting.FinancialHub.constructor` | components/FinancialHub.tsx:40-49 | The hub starts with the seven initial accounts, no pending scan, no account being edited and an empty form. |
| `Accounting.FinancialHub.OnScanResult` | components/FinancialHub.tsx:55-80 | A successful scan stores the pending record; a failed one leaves it as it was. |
| `Accounting.FinancialHub.ConfirmPendingTx` | components/FinancialHub.tsx:82-97 | Approving prepends the confirmed entry and clears the pending record. Without a pending record, nothing changes. Accounts never change. |
| `Accounting.FinancialHub.DiscardPendingTx` | components/FinancialHub.tsx:138 | The close button, and "Discard" at line 174, clear the pending record. |
| `Accounting.FinancialHub.OpenNewAccount` | components/FinancialHub.tsx:313 | "New Account" clears the edit target and the form and opens the dialog. |
| `Accounting.FinancialHub.OpenEditAccount` | components/FinancialHub.tsx:122-126 | Editing an account sets it as the target, fills the form from it and opens the dialog. |
| `Accounting.FinancialHub.EditAccountForm` | components/FinancialHub.tsx:49 | The dialog inputs replace the form. |
| `Accounting.FinancialHub.CloseAccountDialog` | components/FinancialHub.tsx:190 | The dialog's close button closes it and leaves the edit target and the form as they were. |
| `Accounting.FinancialHub.SaveAccount` | components/FinancialHub.tsx:99-114 | Saving edits the target, or creates a new account when there is none. It then resets the target and the form and closes the dialog. |
| `Accounting.FinancialHub.DeleteAccount` | components/FinancialHub.tsx:116-120 | A confirmed delete removes the accounts with that id; a declined one changes nothing. |
| `Switch.SuccessRate` | components/SikaPay.tsx:59 | The success rate is undefined exactly for an empty node list. |
| `Switch.SuccessRateBounds` | components/SikaPay.tsx:59 | The success count never exceeds the node count, so the rate lies between 0 and 100. |
| `Switch.SuccessRateExtremes` | components/SikaPay.tsx:59 | The rate is 100 when every node succeeded or settled, and 0 when none did. |
| `Switch.NoneSucceeded` | components/SikaPay.tsx:59 | With no successful node the count is 0. |
| `Switch.PrependVolume` | components/SikaPay.tsx:58 | A node put in front (line 83) raises the total volume by its amount. |
| `Switch.IntentOfSpec` | components/SikaPay.tsx:71-90 | A command is a transfer iff it mentions 'send' or 'disburse'. It is an invoice iff it mentions neither of those but mentions 'invoice' or 'bill'. Otherwise it is a status query. |
| `Switch.MentionsIgnoresCase` | components/SikaPay.tsx:71 | Keywords typed in capitals are still recognised. |
| `Switch.FeedbackDistinct` | components/SikaPay.tsx:82-89 | The three feedback lines differ: they begin with different letters. |
| `Switch.RefNumber` | components/SikaPay.tsx:74 | `Math.floor(1000 + u * 9000)` for a draw u in [0, 1) lies in 1000..9999. |
| `Switch.RefOfSpec` | components/SikaPay.tsx:74 | A reference is 'SW-MJ-' followed by four digits, and its number reads back. |
| `Switch.NewNode` | components/SikaPay.tsx:72-82 | A transfer node carries 500 GHS, status Success and ISO 20022, from an MTN wallet to a GCB one, with the generated reference. |
| `Switch.Settle` | components/SikaPay.tsx:83 | The corrected update (see Findings): the new node goes in front of the current list, which follows unchanged. |
| `Switch.AsWrittenLosesTransfer` | components/SikaPay.tsx:83 | As written, the callback prepends to the list captured when the command was typed. So a second transfer command sent before the first has settled (Enter at line 314 is not blocked) gives a list without the first transfer, unlike settling against the current list. |
| `Switch.SettleKeepsBoth` | components/SikaPay.tsx:83 | Settling against the current list keeps both transfers, newest first, and the volume grows by both amounts. |
| `Switch.SikaPay.constructor` | components/SikaPay.tsx:48-53 | The switch starts with the three initial nodes and an empty command. |
| `Switch.SikaPay.EditCommand` | components/SikaPay.tsx:313 | Typing sets the command. |
| `Switch.SikaPay.HandleVoiceIntent` | components/SikaPay.tsx:63-68 | A blank command changes nothing. Otherwise processing starts, the parsing message is shown and the command is queued. |
| `Switch.SikaPay.ClickInitiate` | components/SikaPay.tsx:372-374 | The button does nothing while it is disabled (an empty command, or a command processing); otherwise it handles the command. |
| `Switch.SikaPay.PressEnter` | components/SikaPay.tsx:314 | Enter handles the command even while another is processing; a blank command changes nothing. |
| `Switch.SikaPay.SettleCommand` | components/SikaPay.tsx:70-95 | When the oldest command's delay elapses: a transfer prepends the new node to the current list (the corrected update) and opens its receipt, while other intents leave nodes and receipt alone. Every intent shows its feedback and stops processing. The node list never becomes empty. |
| `Switch.SikaPay.Restart` | components/SikaPay.tsx:168 | Restart resets the nodes to the three initial ones. |
| `Switch.SikaPay.OpenReceipt` | components/SikaPay.tsx:267 | Clicking a node opens its receipt. |
| `Switch.SikaPay.CloseReceipt` | components/SikaPay.tsx:539 | Closing the receipt clears it. |
| `Susu.NewGroup` | components/RoscaAI.tsx:53-61 | A new group has members exactly ['You'], cycle 0, pooled 0, status Open, no penalties and no payout member, and the form's fields. |
| `Susu.PayoutLabel` | components/RoscaAI.tsx:360 | The payout label is the next payout member, or "Lucky Draw" when there is none or it is the empty string. |
| `Susu.TranslationRequest` | components/RoscaAI.tsx:66-71 | An empty description sends nothing. Otherwise the description is sent from English to the selected language's name, by the same lookup as the translator, which gives "Akan" when the code is unknown. |
| `Susu.TranslatedDraft` | components/RoscaAI.tsx:71-75 | A reply replaces the description; a failure keeps the draft; nothing but the description changes. |
| `Susu.DefaultTargetLanguage` | components/RoscaAI.tsx:70 | The default target `ak` (line 30) resolves to "Akan (Twi)". |
| `Susu.MessageMentionsGroup` | components/RoscaAI.tsx:101-105 | Both the invitation and the reminder mention the group's name and contribution amount. |
| `Susu.MessagesDistinct` | components/RoscaAI.tsx:101-105 | The invitation and reminder templates never coincide. |
| `Susu.WhatsAppUrlSpec` | components/RoscaAI.tsx:106 | The link, built alike at line 514, is 'https://wa.me/', the recipient without any '+' (every other character kept, as often and in order; unchanged if it had none), '?text=', and an encoded message that decodes to the message's UTF-8 bytes. |
| `Susu.RoscaAI.constructor` | components/RoscaAI.tsx:24-43 | The circles start with the three initial groups, no selection, the empty draft and target language `ak`. |
| `Susu.RoscaAI.CreateGroup` | components/RoscaAI.tsx:51-64 | The new group is put first; the other groups follow unchanged. |
| `Susu.RoscaAI.RequestTranslation` | components/RoscaAI.tsx:66-71 | The button is disabled while a translation runs (line 273): then nothing is sent. Otherwise it returns the request (none for an empty description) and marks translation in progress when one is sent. |
| `Susu.RoscaAI.ReceiveTranslation` | components/RoscaAI.tsx:72-77 | The draft takes the translated description (a failure keeps it), and translation stops. |
| `Susu.RoscaAI.SendWhatsAppMsg` | components/RoscaAI.tsx:98-108 | No link without a selected group. Otherwise the link of the recipient and the chosen template for that group. |
| `Susu.RoscaAI.Broadcast` | components/RoscaAI.tsx:512-517 | The broadcast link is built from the recipient and the custom message. |
| `Susu.RoscaAI.EditDraft` | components/RoscaAI.tsx:258-303 | The builder inputs replace the draft. |
| `Susu.RoscaAI.SelectTargetLanguage` | components/RoscaAI.tsx:268 | Picking a language sets the target code. |
| `Susu.RoscaAI.EditWhatsApp` | components/RoscaAI.tsx:499-508 | The WhatsApp inputs set the recipient and the message. |
| `Susu.RoscaAI.OpenGroup` | components/RoscaAI.tsx:80-84 | Opening a group selects it. |
| `Planner.ToggledSpec` | components/Planner.tsx:17-19 | Toggling flips `completed` on the goals with that id and changes nothing else; length and order are kept. |
| `Planner.ToggleTwice` | components/Planner.tsx:18 | Toggling the same id twice restores the list. |
| `Planner.ToggleAbsent` | components/Planner.tsx:18 | Toggling an id that no goal has is a no-op. |
| `Planner.ToggleCommutes` | components/Planner.tsx:18 | Toggles of two ids commute. |
| `Planner.Planner.constructor` | components/Planner.tsx:5-14 | The planner starts with the four initial goals. |
| `Planner.Planner.ToggleGoal` | components/Planner.tsx:17-19 | The goals become the toggled list. |
| `Contacts.FilterContactsSpec` | components/CRM.tsx:94-95 | The search is an order-preserving sublist. A contact is kept iff its name or a tag contains the term, ignoring case, and a kept contact appears as often as in the list. An empty term keeps all. Searching again changes nothing. |
| `Contacts.TermCaseIgnored` | components/CRM.tsx:95 | Upper-case letters in the term make no difference. |
| `Contacts.LowerIdempotent` | components/CRM.tsx:95 | Lower-casing twice equals lower-casing once. |
| `Ledger.FilterLedgerSpec` | components/Ledger.tsx:97-98 | The search keeps, in order and as often as they occur, exactly the entries whose description contains the term, ignoring case; an empty term keeps all. |
| `Ledger.AmountDisplaySpec` | components/Ledger.tsx:113 | The sign is '-' iff the amount is negative, '+' otherwise, followed by '$' and the absolute value. The display reads back as the amount. |
| `Ledger.AmountDisplayInjective` | components/Ledger.tsx:113 | Different amounts are never displayed alike. |
| `Advisor.ReplyMessage` | components/Advisor.tsx:32-37 | A reply is an 'ai' message. It carries the advice; the stand-by text when the advice is empty or missing; the connection-lost text when the call failed. |
| `Advisor.ReplyNeverEmpty` | components/Advisor.tsx:34-36 | A reply is never empty. |
| `Advisor.Advisor.constructor` | components/Advisor.tsx:12-16 | The log starts with exactly the greeting. |
| `Advisor.Advisor.EditInput` | components/Advisor.tsx:15 | Typing sets the input. |
| `Advisor.Advisor.Send` | components/Advisor.tsx:25-30 | Blank input does nothing. Otherwise the text is appended as a 'user' message, the input clears and the text goes to the service. The greeting stays first. |
| `Advisor.Advisor.ReceiveReply` | components/Advisor.tsx:32-39 | Exactly one reply is appended after everything logged so far, and typing stops. |
| `Translator.TranslationRequest` | components/Translator.tsx:14-20 | Blank input sends nothing. Otherwise the text is sent with the names of the two languages, falling back to 'English' and 'Akan'. |
| `Translator.TranslatedText` | components/Translator.tsx:21-24 | A reply replaces the translation, an empty or missing one by ''; a failure keeps the old one. |
| `Translator.DefaultPair` | components/Translator.tsx:10-19 | The default pair translates from "English" into "Akan (Twi)". |
| `Translator.Swapped` | components/Translator.tsx:29-32 | Swapping exchanges source and target. |
| `Translator.SwapTwice` | components/Translator.tsx:29-32 | Swapping twice restores both languages. |
| `Translator.Translator.constructor` | components/Translator.tsx:8-12 | The translator starts from 'en' to 'ak' with empty texts. |
| `Translator.Translator.EditInput` | components/Translator.tsx:8 | Typing sets the input. |
| `Translator.Translator.SelectLanguages` | components/Translator.tsx:51-61 | The pickers set the two codes. |
| `Translator.Translator.RequestTranslation` | components/Translator.tsx:14-20 | The button is disabled while loading (line 86): then nothing is sent. Otherwise it returns the request (none for blank input) and marks loading when one is sent. |
| `Translator.Translator.ReceiveTranslation` | components/Translator.tsx:21-26 | The translation follows the reply and loading stops. |
| `Translator.Translator.SwapLanguages` | components/Translator.tsx:29-32 | Source and target are exchanged. |

## Left out

- components/VoiceOverlay.tsx is not part of this model: live audio, the microphone and PCM sample arithmetic.
- services/geminiService.ts is not part of this model. Every call into the generative-AI service is a parameter: an `OcrResult` option or a `ServiceReply`.
- The view, tab and routing components (components/Dashboard.tsx, components/Navigation.tsx, App.tsx) are not part of this model; they are static markup only.
- Timers are modelled as queued callbacks; their durations and real time are not modelled. These are the CediPay payment timer and the SikaPay command delay.
- `alert`, `window.open`, `window.print`, `FileReader`, the file inputs and the speech output are not modelled. `window.open`'s URL is the result of `SendWhatsAppMsg` and `Broadcast`.
- Amounts are whole numbers (`int`). The mock FinancialHub transactions (45.50) and inventory (a 0.5 unit price) therefore cannot be written as constants; the FinancialHub constructor takes them as parameters.
- `parseFloat`/`parseInt` on the form fields, `toFixed`, `toLocaleString` and the exchange-rate price conversion are not modelled. The forms are given numbers already.
- `toLowerCase` folds only ASCII letters; Unicode case mapping is not modelled.
- A string is a sequence of Unicode code points, so `|s|` counts code points where JavaScript's `length` counts UTF-16 units. The two differ for characters outside the Basic Multilingual Plane, for example in the carrier badge's `phone.length > 3` (`PaymentLinks.CarrierBadge`).
- CediPay's unused `selectedCarrier` state and the views' decorative state (`isScanning`, `isUploading`, `isSyncing`, the modal flags other than the account dialog) are not modelled.
- RoscaAI's AI advice, AI matching and payment simulation are not part of this model; they are calls into the service with display-only state.
- `Susu.TranslatedDraft`: a reply with no text stores `undefined` as the description in the source; the model stores the empty string, which the source's own emptiness test treats alike.
- `Shop.AddedToCart`: for a product with no variant that is not yet in the cart, the source throws inside the state updater. The model treats this as a failure that leaves the cart and the cart drawer unchanged.
- `Switch.SikaPay.SettleCommand` and `Switch.Settle` model the intended update, not the code as written: the node is prepended to the current list, while line 83 prepends to the list captured when the command was typed (`Switch.SettleAsWritten`, see Findings). The two differ when a second command, or a Restart (line 168), comes before a pending callback; the source then keeps only the captured list plus the new node.
- `PaymentLinks.CediPay.CreateLink`: the id, `Math.random()` in the source, is a parameter assumed different from every existing link id.
- `Shop.EcommerceSuite.ReceiveScan`: OCR replies are taken in the order the uploads began; replies that overtake one another are not modelled.
- `Switch.RefNumber`: the floating-point product `u * 9000` is taken as exact real arithmetic.
- The confirmation prompt of `deleteAccount` is the `confirmed` parameter of `Accounting.FinancialHub.DeleteAccount` rather than a precondition, so the declined path is modelled too.

## Findings

| source | as written | input that shows it | evidently intended | confidence | as-written member | corrected member |
|---|---|---|---|---|---|---|
| components/SikaPay.tsx:83 | The delayed callback prepends the new node to `nodes` as captured when the command was typed. The Enter key (line 314) is not disabled while a command is processing. | Type "send 1", press Enter, type "send 2" and press Enter within 2.5 s: the second callback's list lacks the first transfer. | Each transfer is prepended to the current list (`setNodes(prev => [newNode, ...prev])`), so both survive. | medium, not executed | `Switch.AsWrittenLosesTransfer` | `Switch.SettleKeepsBoth` |
