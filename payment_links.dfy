/**
 * The payment-link builder: merchants create links, customers pay through a
 * short checkout, and every completed payment is counted on its link.
 */
module PaymentLinks {
  import opened Common
  import opened Text
  import Seqs

  datatype Currency = GHS | USD
  datatype LinkStatus = Active | Archived
  datatype LinkType = Simple | ProductLink

  datatype PaymentLink = PaymentLink(
    id: string, title: string, description: string, amount: int, currency: Currency,
    status: LinkStatus, linkType: LinkType, slug: string, totalPayments: int, revenue: int)

  /** The builder form (`newLink`). */
  datatype LinkDraft = LinkDraft(
    title: string, description: string, amount: int, currency: Currency, linkType: LinkType, slug: string)

  datatype CustomerForm = CustomerForm(name: string, email: string, phone: string)

  datatype View = Merchant | Builder | Customer
  datatype PaymentStep = Info | Method | Processing | Success

  const InitialLinks: seq<PaymentLink> := [
    PaymentLink("1", "Consultation Fee", "Business strategy session (1hr)", 500, GHS, Active, Simple,
                "consult-kwame", 12, 6000),
    PaymentLink("2", "Export License Kit", "Full documentation for EU export", 2500, GHS, Active, ProductLink,
                "eu-kit", 3, 7500)
  ]

  const EmptyDraft := LinkDraft("", "", 0, GHS, Simple, "")

  // ------------------------------------------------------------ creation

  /** The slugified title, or `link-` and the random suffix when that is empty. */
  function LinkSlug(title: string, suffix: string): string {
    var s := Slugify(title);
    if s != "" then s else "link-" + suffix
  }

  /** The link `handleCreateLink` builds; `id` and `suffix` stand for the random strings. */
  function NewLink(draft: LinkDraft, id: string, suffix: string): (l: PaymentLink)
    ensures l.status == Active && l.totalPayments == 0 && l.revenue == 0
    ensures l.title == draft.title && l.amount == draft.amount && l.id == id
    ensures l.slug == LinkSlug(draft.title, suffix)
    ensures l.description == draft.description && l.currency == draft.currency && l.linkType == draft.linkType
  {
    PaymentLink(id, draft.title, draft.description, draft.amount, draft.currency, Active,
                draft.linkType, LinkSlug(draft.title, suffix), 0, 0)
  }

  /** The fallback slug is used exactly when the title is empty. */
  lemma LinkSlugSpec(title: string, suffix: string)
    ensures title == "" ==> LinkSlug(title, suffix) == "link-" + suffix
    ensures title != "" ==> LinkSlug(title, suffix) == Slugify(title)
    ensures LinkSlug(title, suffix) != ""
  {
    SlugifySpec(title);
  }

  // ------------------------------------------------------------- carriers

  datatype Carrier = MTN | Telecel | MoMo

  predicate IsMtnPrefix(phone: string) {
    StartsWith(phone, "024") || StartsWith(phone, "054") || StartsWith(phone, "055")
  }

  predicate IsTelecelPrefix(phone: string) {
    StartsWith(phone, "020") || StartsWith(phone, "050")
  }

  /** `getCarrierIcon`: the network a Ghanaian mobile number belongs to, by its prefix. */
  function CarrierOf(phone: string): Carrier {
    if IsMtnPrefix(phone) then MTN
    else if IsTelecelPrefix(phone) then Telecel
    else MoMo
  }

  /** The carrier badge beside the phone input: shown once more than three digits are typed. */
  function CarrierBadge(phone: string): (r: Option<Carrier>)
    ensures r.None? <==> |phone| <= 3
    ensures r.Some? ==> r.value == CarrierOf(phone)
  {
    if |phone| > 3 then Some(CarrierOf(phone)) else None
  }

  /** Each classification holds exactly for its prefixes, and the two prefix sets never overlap. */
  lemma CarrierSpec(phone: string)
    ensures CarrierOf(phone) == MTN <==> IsMtnPrefix(phone)
    ensures CarrierOf(phone) == Telecel <==> IsTelecelPrefix(phone)
    ensures CarrierOf(phone) == MoMo <==> !IsMtnPrefix(phone) && !IsTelecelPrefix(phone)
  {
    if IsTelecelPrefix(phone) {
      assert phone[..3] == "020" || phone[..3] == "050";
      assert phone[2] == phone[..3][2] == '0';
    }
  }

  // ------------------------------------------------------------- payments

  /** The links updater run when a payment completes for the link with id `paidId`. */
  function PaidLinks(links: seq<PaymentLink>, paidId: Option<string>): seq<PaymentLink> {
    seq(|links|, i requires 0 <= i < |links| =>
      if paidId == Some(links[i].id)
      then links[i].(totalPayments := links[i].totalPayments + 1, revenue := links[i].revenue + links[i].amount)
      else links[i])
  }

  function Revenue(l: PaymentLink): int {
    l.revenue
  }

  /** The merchant's "Total Collected": the sum of all link revenues. */
  function TotalCollected(links: seq<PaymentLink>): int {
    Seqs.Sum(links, Revenue)
  }

  predicate UniqueIds(links: seq<PaymentLink>) {
    forall i, j :: 0 <= i < j < |links| ==> links[i].id != links[j].id
  }

  /**
   * A payment adds one payment and the link's own amount to the paid link
   * only; every other link is unchanged, and so is the number of links.
   */
  lemma PaidLinksSpec(links: seq<PaymentLink>, paidId: Option<string>)
    ensures |PaidLinks(links, paidId)| == |links|
    ensures forall i :: 0 <= i < |links| ==>
      var l := PaidLinks(links, paidId)[i];
      if paidId == Some(links[i].id)
      then l.totalPayments == links[i].totalPayments + 1 && l.revenue == links[i].revenue + links[i].amount
           && l.(totalPayments := links[i].totalPayments, revenue := links[i].revenue) == links[i]
      else l == links[i]
    ensures paidId.None? ==> PaidLinks(links, paidId) == links
  {
  }

  /** One payment raises the total collected by exactly the paid link's amount. */
  lemma {:induction false} TotalAfterPayment(links: seq<PaymentLink>, k: nat)
    requires UniqueIds(links) && k < |links|
    ensures TotalCollected(PaidLinks(links, Some(links[k].id))) == TotalCollected(links) + links[k].amount
    decreases |links|
  {
    var id := links[k].id;
    assert PaidLinks(links, Some(id))[1..] == PaidLinks(links[1..], Some(id));
    if k == 0 {
      assert PaidLinks(links[1..], Some(id)) == links[1..];
    } else {
      TotalAfterPayment(links[1..], k - 1);
    }
  }

  /** A payment for an id no link has changes nothing. */
  lemma PaymentForUnknownLink(links: seq<PaymentLink>, id: string)
    requires forall i :: 0 <= i < |links| ==> links[i].id != id
    ensures PaidLinks(links, Some(id)) == links
  {
  }

  // ------------------------------------------------------------- checkout

  datatype CheckoutEvent = OpenView | Continue | Back | Pay | Settle

  /**
   * The checkout steps. Opening the customer view starts at `Info`;
   * "Continue" needs a name and an e-mail; the back arrow returns from
   * `Method` to `Info`; paying moves from `Method` to `Processing`, and the
   * payment timer ends in `Success`.
   */
  function NextStep(step: PaymentStep, event: CheckoutEvent, form: CustomerForm): PaymentStep {
    match event
    case OpenView => Info
    case Continue => if step == Info && form.name != "" && form.email != "" then Method else step
    case Back => if step == Method then Info else step
    case Pay => if step == Method then Processing else step
    case Settle => Success
  }

  /** "Continue" leaves `Info` exactly when both name and e-mail are filled in. */
  lemma ContinueNeedsDetails(form: CustomerForm)
    ensures NextStep(Info, Continue, form) == Method <==> form.name != "" && form.email != ""
    ensures NextStep(Info, Continue, form) != Method ==> NextStep(Info, Continue, form) == Info
  {
  }

  /** The back arrow undoes "Continue". */
  lemma BackUndoesContinue(form: CustomerForm)
    ensures NextStep(NextStep(Info, Continue, form), Back, form) == Info
  {
  }

  /** How each step can be entered: there is no shortcut through the checkout. */
  lemma StepEntry(step: PaymentStep, event: CheckoutEvent, form: CustomerForm)
    ensures NextStep(step, event, form) == Method && step != Method ==>
      step == Info && event == Continue && form.name != "" && form.email != ""
    ensures NextStep(step, event, form) == Processing && step != Processing ==>
      step == Method && event == Pay
    ensures NextStep(step, event, form) == Success && step != Success ==> event == Settle
    ensures NextStep(step, event, form) == Info && step != Info ==> event == OpenView || event == Back
  {
  }

  /** The method shown on the receipt: mobile money when a phone number was given, else card. */
  function PaymentMethodLabel(form: CustomerForm): (r: string)
    ensures r == "Mobile Money" <==> form.phone != ""
    ensures r == "Mobile Money" || r == "Card"
  {
    if form.phone != "" then "Mobile Money" else "Card"
  }

  // ---------------------------------------------------------------- state

  /**
   * The component's state. `pendingPayments` holds, oldest first, the id of
   * the link that was active when each not yet elapsed payment timer was
   * started (the timer's callback captured it).
   */
  class CediPay {
    var view: View
    var links: seq<PaymentLink>
    var activeLink: Option<PaymentLink>
    var newLink: LinkDraft
    var customerForm: CustomerForm
    var paymentStep: PaymentStep
    var pendingPayments: seq<Option<string>>

    /** No two links share an id, so a payment pays one link only. */
    ghost predicate Valid()
      reads this`links
    {
      UniqueIds(links)
    }

    constructor ()
      ensures Valid()
      ensures view == Merchant && links == InitialLinks && activeLink == None
      ensures newLink == EmptyDraft && customerForm == CustomerForm("", "", "")
      ensures paymentStep == Info && pendingPayments == []
    {
      view := Merchant;
      links := InitialLinks;
      activeLink := None;
      newLink := EmptyDraft;
      customerForm := CustomerForm("", "", "");
      paymentStep := Info;
      pendingPayments := [];
    }

    /** The builder inputs. */
    method EditDraft(draft: LinkDraft)
      modifies this`newLink
      ensures newLink == draft
    {
      newLink := draft;
    }

    /** The customer's name, e-mail and phone inputs. */
    method EditCustomerForm(form: CustomerForm)
      modifies this`customerForm
      ensures customerForm == form
    {
      customerForm := form;
    }

    method OpenBuilder()
      modifies this`view
      ensures view == Builder
    {
      view := Builder;
    }

    /** The buttons that return to the merchant view. */
    method BackToMerchant()
      modifies this`view
      ensures view == Merchant
    {
      view := Merchant;
    }

    /** `handleCreateLink`: the new link goes first. The random `id` is taken to be fresh. */
    method CreateLink(id: string, suffix: string)
      requires Valid() && forall i :: 0 <= i < |links| ==> links[i].id != id
      modifies this`links, this`view
      ensures Valid()
      ensures links == [NewLink(newLink, id, suffix)] + old(links)
      ensures view == Merchant
    {
      links := [NewLink(newLink, id, suffix)] + links;
      view := Merchant;
    }

    /** `openCustomerView`. */
    method OpenCustomerView(link: PaymentLink)
      modifies this`activeLink, this`view, this`paymentStep
      ensures activeLink == Some(link) && view == Customer
      ensures paymentStep == NextStep(old(paymentStep), OpenView, customerForm) == Info
    {
      activeLink := Some(link);
      view := Customer;
      paymentStep := NextStep(paymentStep, OpenView, customerForm);
    }

    /** "Continue to Payment", disabled while the name or e-mail is empty. */
    method ContinueToPayment()
      modifies this`paymentStep
      ensures paymentStep == NextStep(old(paymentStep), Continue, customerForm)
    {
      paymentStep := NextStep(paymentStep, Continue, customerForm);
    }

    /** The back arrow of the payment-method step. */
    method BackToInfo()
      modifies this`paymentStep
      ensures paymentStep == NextStep(old(paymentStep), Back, customerForm)
    {
      paymentStep := NextStep(paymentStep, Back, customerForm);
    }

    /** `triggerPayment`, from either payment-method button: starts the payment timer. */
    method TriggerPayment()
      modifies this`paymentStep, this`pendingPayments
      ensures paymentStep == NextStep(old(paymentStep), Pay, customerForm)
      ensures pendingPayments == if old(paymentStep) == Method
        then old(pendingPayments) + [if activeLink.Some? then Some(activeLink.value.id) else None]
        else old(pendingPayments)
    {
      if paymentStep == Method {
        var captured := if activeLink.Some? then Some(activeLink.value.id) else None;
        pendingPayments := pendingPayments + [captured];
      }
      paymentStep := NextStep(paymentStep, Pay, customerForm);
    }

    /** The oldest payment timer elapses: the step becomes `Success` and the captured link is paid. */
    method SettlePayment()
      requires Valid()
      modifies this`paymentStep, this`pendingPayments, this`links
      ensures Valid()
      ensures old(pendingPayments) == [] ==> unchanged(this)
      ensures old(pendingPayments) != [] ==>
        && paymentStep == NextStep(old(paymentStep), Settle, customerForm)
        && links == PaidLinks(old(links), old(pendingPayments)[0])
        && pendingPayments == old(pendingPayments)[1..]
      ensures old(pendingPayments) != [] ==> forall k :: 0 <= k < |old(links)| && old(pendingPayments)[0] == Some(old(links)[k].id) ==>
        TotalCollected(links) == TotalCollected(old(links)) + old(links)[k].amount
    {
      if pendingPayments != [] {
        var before := links;
        var paid := pendingPayments[0];
        paymentStep := NextStep(paymentStep, Settle, customerForm);
        links := PaidLinks(links, paid);
        pendingPayments := pendingPayments[1..];
        PaidLinksSpec(before, paid);
        assert forall i :: 0 <= i < |links| ==> links[i].id == before[i].id;
        forall k | 0 <= k < |before| && paid == Some(before[k].id)
          ensures TotalCollected(links) == TotalCollected(before) + before[k].amount
        {
          TotalAfterPayment(before, k);
        }
      }
    }
  }
}
