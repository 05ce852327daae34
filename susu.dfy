/**
 * The savings circles (rotating savings and credit associations): group
 * creation, translation of the group charter, and WhatsApp invitation and
 * reminder links.
 */
module Susu {
  import opened Common
  import opened Text
  import Seqs
  import Languages
  import UriComponent

  datatype Frequency = Daily | Weekly | Monthly
  datatype GroupStatus = Open | Active | Completed

  datatype RoscaGroup = RoscaGroup(
    id: string, name: string, contributionAmount: int, frequency: Frequency,
    members: seq<string>, maxMembers: int, currentCycle: int, totalPooled: int,
    status: GroupStatus, nextPayoutMember: Option<string>, description: string,
    penalties: seq<string>)

  /** The builder form (`newGroup`). */
  datatype GroupDraft = GroupDraft(
    name: string, contributionAmount: int, frequency: Frequency, maxMembers: int, description: string)

  const EmptyDraft := GroupDraft("", 0, Weekly, 10, "")

  const InitialGroups: seq<RoscaGroup> := [
    RoscaGroup("g1", "Makola Merchants Susu", 200, Daily, ["Kwame", "Zainab", "Elena", "You"], 10, 4, 800,
      Active, Some("Elena"), "Daily contributions for small business traders in Makola Market.", []),
    RoscaGroup("g2", "Tech Infrastructure Pool", 5000, Monthly, ["Kwame", "Chen", "You"], 5, 1, 15000,
      Active, Some("Kwame"), "High-stake monthly pooling for tech infrastructure upgrades and server acquisition.", []),
    RoscaGroup("g3", "Artisans Savings Circle", 50, Weekly, ["Yaw", "Abena", "Kofi"], 20, 0, 0,
      Open, None, "Weekly pooling for local Kumasi tool maintenance and communal support.", [])
  ]

  // --------------------------------------------------------------- groups

  /** The group `handleCreateGroup` builds from the form; `id` is the random id. */
  function NewGroup(draft: GroupDraft, id: string): (g: RoscaGroup)
    ensures g.members == ["You"] && g.currentCycle == 0 && g.totalPooled == 0
    ensures g.status == Open && g.penalties == [] && g.nextPayoutMember.None?
    ensures g.id == id && g.name == draft.name && g.contributionAmount == draft.contributionAmount
    ensures g.frequency == draft.frequency && g.maxMembers == draft.maxMembers && g.description == draft.description
  {
    RoscaGroup(id, draft.name, draft.contributionAmount, draft.frequency, ["You"], draft.maxMembers,
               0, 0, Open, None, draft.description, [])
  }

  /** The scheduled-payout label: the next payout member, or "Lucky Draw" when there is none. */
  function PayoutLabel(g: RoscaGroup): (r: string)
    ensures g.nextPayoutMember.None? || g.nextPayoutMember == Some("") ==> r == "Lucky Draw"
    ensures g.nextPayoutMember.Some? && g.nextPayoutMember.value != "" ==> r == g.nextPayoutMember.value
  {
    TextOr(g.nextPayoutMember, "Lucky Draw")
  }

  // ---------------------------------------------------------- translation

  /**
   * `handleTranslateDescription` up to the service call: nothing when the
   * description is empty; otherwise the description, from "English", to the
   * selected language's name or "Akan" when the code is unknown.
   */
  function TranslationRequest(draft: GroupDraft, targetLang: string): (r: Option<TranslateRequest>)
    ensures r.None? <==> draft.description == ""
    ensures r.Some? ==> r.value.text == draft.description && r.value.from == "English"
    ensures r.Some? ==> r.value.to == Languages.NameOr(targetLang, "Akan")
    ensures r.Some? && Languages.FindByCode(targetLang).None? ==> r.value.to == "Akan"
  {
    if draft.description == "" then None
    else Some(TranslateRequest(draft.description, "English", Languages.NameOr(targetLang, "Akan")))
  }

  /** The draft after the service answered: a reply replaces the description, a failure keeps it. */
  function TranslatedDraft(draft: GroupDraft, reply: ServiceReply): (d: GroupDraft)
    ensures reply.Failed? ==> d == draft
    ensures reply.Replied? && reply.text.Some? ==> d == draft.(description := reply.text.value)
    ensures d.(description := draft.description) == draft
  {
    match reply
    case Failed => draft
    case Replied(text) => draft.(description := if text.Some? then text.value else "")
  }

  /** The default target language is Akan, whose name is found in the language list. */
  lemma DefaultTargetLanguage(draft: GroupDraft)
    requires draft.description != ""
    ensures TranslationRequest(draft, "ak").value.to == "Akan (Twi)"
  {
    Languages.NameOrDefaults("Akan");
  }

  // ------------------------------------------------------------- WhatsApp

  datatype MessageKind = Invite | Reminder

  const InvitePrefix := "Hello! " + "I'm inviting you to join our Sika Wura ROSCA circle: \""
  const InviteMiddle := "\". Daily contribution is GHS "
  const InviteSuffix := ". Join us for smart communal savings!"
  const ReminderPrefix := "Reminder: " + "Your contribution of GHS "
  const ReminderMiddle := " for the \""
  const ReminderSuffix := "\" circle is due. Please use Sika Pay for secure deposit."

  /** The invitation and reminder texts for a group. */
  function Message(kind: MessageKind, g: RoscaGroup): (r: string) {
    match kind
    case Invite => InvitePrefix + g.name + InviteMiddle + IntToString(g.contributionAmount) + InviteSuffix
    case Reminder => ReminderPrefix + IntToString(g.contributionAmount) + ReminderMiddle + g.name + ReminderSuffix
  }

  /** Both templates mention the group's name and its contribution amount. */
  lemma MessageMentionsGroup(kind: MessageKind, g: RoscaGroup)
    ensures Contains(Message(kind, g), g.name)
    ensures Contains(Message(kind, g), IntToString(g.contributionAmount))
  {
    match kind
    case Invite => InviteMentions(g);
    case Reminder => ReminderMentions(g);
  }

  lemma InviteMentions(g: RoscaGroup)
    ensures Contains(Message(Invite, g), g.name)
    ensures Contains(Message(Invite, g), IntToString(g.contributionAmount))
  {
    var amount := IntToString(g.contributionAmount);
    assert Message(Invite, g) == InvitePrefix + g.name + (InviteMiddle + amount + InviteSuffix);
    ContainsInfix(InvitePrefix, g.name, InviteMiddle + amount + InviteSuffix);
    assert Message(Invite, g) == (InvitePrefix + g.name + InviteMiddle) + amount + InviteSuffix;
    ContainsInfix(InvitePrefix + g.name + InviteMiddle, amount, InviteSuffix);
  }

  lemma ReminderMentions(g: RoscaGroup)
    ensures Contains(Message(Reminder, g), g.name)
    ensures Contains(Message(Reminder, g), IntToString(g.contributionAmount))
  {
    var amount := IntToString(g.contributionAmount);
    assert Message(Reminder, g) == ReminderPrefix + amount + (ReminderMiddle + g.name + ReminderSuffix);
    ContainsInfix(ReminderPrefix, amount, ReminderMiddle + g.name + ReminderSuffix);
    assert Message(Reminder, g) == (ReminderPrefix + amount + ReminderMiddle) + g.name + ReminderSuffix;
    ContainsInfix(ReminderPrefix + amount + ReminderMiddle, g.name, ReminderSuffix);
  }

  /** The two templates never produce the same text: they begin differently. */
  lemma MessagesDistinct(g: RoscaGroup, h: RoscaGroup)
    ensures Message(Invite, g) != Message(Reminder, h)
  {
    assert InvitePrefix[0] == 'H';
    assert ReminderPrefix[0] == 'R';
    assert Message(Invite, g)[0] == InvitePrefix[0];
    assert Message(Reminder, h)[0] == ReminderPrefix[0];
  }

  const WhatsAppBase := "https://wa.me/"
  const TextQuery := "?text="

  /** The recipient with every `+` removed. */
  function PhoneDigits(recipient: string): (r: string) {
    RemoveChar(recipient, '+')
  }

  /** The click-to-chat link: base, recipient without `+`, and the percent-encoded message. */
  function WhatsAppUrl(recipient: string, msg: string): (r: string) {
    WhatsAppBase + PhoneDigits(recipient) + TextQuery + UriComponent.Encode(msg)
  }

  /**
   * The link splits into the base, a recipient with no `+` left that keeps
   * the other characters in order, and a query that decodes back to the
   * message's UTF-8 bytes; a recipient with no `+` is used unchanged.
   */
  lemma WhatsAppUrlSpec(recipient: string, msg: string)
    ensures var r := PhoneDigits(recipient);
      var e := UriComponent.Encode(msg);
      && WhatsAppUrl(recipient, msg) == WhatsAppBase + r + TextQuery + e
      && '+' !in r
      && Seqs.IsSublist(r, recipient)
      && (forall c :: c in recipient && c != '+' ==> c in r)
      && (forall c :: multiset(r)[c] == if c == '+' then 0 else multiset(recipient)[c])
      && UriComponent.DecodeToBytes(e) == Some(UriComponent.Utf8String(msg))
    ensures '+' !in recipient ==> PhoneDigits(recipient) == recipient
  {
    var p := (x: char) => x != '+';
    Seqs.FilterIsSublist(recipient, p);
    forall c | c in recipient && c != '+'
      ensures c in PhoneDigits(recipient)
    {
      Seqs.FilterMembership(recipient, p, c);
    }
    forall c
      ensures multiset(PhoneDigits(recipient))[c] == if c == '+' then 0 else multiset(recipient)[c]
    {
      Seqs.FilterCount(recipient, p, c);
    }
    if '+' !in recipient {
      Seqs.FilterKeepsAll(recipient, p);
    }
    UriComponent.DecodeEncode(msg);
  }

  // ---------------------------------------------------------------- state

  class RoscaAI {
    var groups: seq<RoscaGroup>
    var selectedGroup: Option<RoscaGroup>
    var newGroup: GroupDraft
    var targetLang: string
    var isTranslating: bool
    var waRecipient: string
    var waMessage: string

    constructor ()
      ensures groups == InitialGroups && selectedGroup == None && newGroup == EmptyDraft
      ensures targetLang == "ak" && !isTranslating && waRecipient == "" && waMessage == ""
    {
      groups := InitialGroups;
      selectedGroup := None;
      newGroup := EmptyDraft;
      targetLang := "ak";
      isTranslating := false;
      waRecipient := "";
      waMessage := "";
    }

    /** The builder's inputs. */
    method EditDraft(draft: GroupDraft)
      modifies this`newGroup
      ensures newGroup == draft
    {
      newGroup := draft;
    }

    /** The language picker, which offers the African languages only. */
    method SelectTargetLanguage(code: string)
      modifies this`targetLang
      ensures targetLang == code
    {
      targetLang := code;
    }

    method EditWhatsApp(recipient: string, message: string)
      modifies this`waRecipient, this`waMessage
      ensures waRecipient == recipient && waMessage == message
    {
      waRecipient := recipient;
      waMessage := message;
    }

    /** `openGroupDetail`. */
    method OpenGroup(g: RoscaGroup)
      modifies this`selectedGroup
      ensures selectedGroup == Some(g)
    {
      selectedGroup := Some(g);
    }

    /** `handleCreateGroup`: the new group goes first. */
    method CreateGroup(id: string)
      modifies this`groups
      ensures groups == [NewGroup(newGroup, id)] + old(groups)
    {
      groups := [NewGroup(newGroup, id)] + groups;
    }

    /**
     * The translate button, `handleTranslateDescription` up to the service call,
     * which gets `request`. The button is disabled while a translation runs.
     */
    method RequestTranslation() returns (request: Option<TranslateRequest>)
      modifies this`isTranslating
      ensures old(isTranslating) ==> request.None? && isTranslating
      ensures !old(isTranslating) ==> request == TranslationRequest(newGroup, targetLang)
      ensures isTranslating == (request.Some? || old(isTranslating))
    {
      if isTranslating {
        return None;
      }
      request := TranslationRequest(newGroup, targetLang);
      if request.Some? {
        isTranslating := true;
      }
    }

    /** The service answered or failed; the description of the current draft is updated. */
    method ReceiveTranslation(reply: ServiceReply)
      modifies this`newGroup, this`isTranslating
      ensures newGroup == TranslatedDraft(old(newGroup), reply) && !isTranslating
    {
      newGroup := TranslatedDraft(newGroup, reply);
      isTranslating := false;
    }

    /** `sendWhatsAppMsg`: the link to open, or nothing when no group is selected. */
    method SendWhatsAppMsg(kind: MessageKind) returns (url: Option<string>)
      ensures url.None? <==> selectedGroup.None?
      ensures selectedGroup.Some? ==> url == Some(WhatsAppUrl(waRecipient, Message(kind, selectedGroup.value)))
    {
      if selectedGroup.None? {
        return None;
      }
      url := Some(WhatsAppUrl(waRecipient, Message(kind, selectedGroup.value)));
    }

    /** "Broadcast via WhatsApp": the link for the custom message. */
    method Broadcast() returns (url: string)
      ensures url == WhatsAppUrl(waRecipient, waMessage)
    {
      url := WhatsAppUrl(waRecipient, waMessage);
    }
  }
}
