/** The customer directory: a fixed contact list and its search by name or tag. */
module Contacts {
  import opened Types
  import opened Text
  import Seqs

  /** The directory never changes: there is no operation that sets it. */
  const InitialContacts: seq<Contact> := [
    Contact("1", "Kwame Mensah", "kwame@ghana-export.com", "+233 24 123 4567", ["High Value", "Exporter"],
      "2 hours ago", 15000, VIP, CustomerContact),
    Contact("2", "Elena Rodriguez", "elena@madrid-trade.es", "+34 912 345 678", ["International", "Lead"],
      "1 day ago", 4500, Lead, Partner),
    Contact("3", "Zainab Yusuf", "z.yusuf@lagos-fintech.ng", "+234 803 111 2222", ["Tech", "Customer"],
      "3 days ago", 8900, Customer, CustomerContact),
    Contact("4", "Chen Wei", "wei@guangzhou-supply.cn", "+86 20 8888 9999", ["Wholesale", "Partner"],
      "5 mins ago", 25000, VIP, Vendor)
  ]

  /** The search test: the lower-cased name or some lower-cased tag contains the lower-cased term. */
  predicate ContactMatches(c: Contact, term: string) {
    Contains(Lower(c.name), Lower(term))
    || exists i :: 0 <= i < |c.tags| && Contains(Lower(c.tags[i]), Lower(term))
  }

  function FilterContacts(contacts: seq<Contact>, term: string): seq<Contact> {
    Seqs.Filter(contacts, (c: Contact) => ContactMatches(c, term))
  }

  /**
   * The search keeps, in order, exactly the contacts that match; an empty
   * term keeps them all; searching the result again changes nothing.
   */
  lemma FilterContactsSpec(contacts: seq<Contact>, term: string, c: Contact)
    ensures Seqs.IsSublist(FilterContacts(contacts, term), contacts)
    ensures c in FilterContacts(contacts, term) <==> c in contacts && ContactMatches(c, term)
    ensures multiset(FilterContacts(contacts, term))[c] == if ContactMatches(c, term) then multiset(contacts)[c] else 0
    ensures term == "" ==> FilterContacts(contacts, term) == contacts
    ensures FilterContacts(FilterContacts(contacts, term), term) == FilterContacts(contacts, term)
  {
    var p := (c: Contact) => ContactMatches(c, term);
    Seqs.FilterIsSublist(contacts, p);
    Seqs.FilterMembership(contacts, p, c);
    Seqs.FilterCount(contacts, p, c);
    if term == "" {
      forall i | 0 <= i < |contacts|
        ensures p(contacts[i])
      {
        assert Lower(term) == "";
        assert StartsWith(Lower(contacts[i].name), "");
      }
      Seqs.FilterKeepsAll(contacts, p);
    }
    Seqs.FilterIdempotent(contacts, p);
  }

  /** The search ignores ASCII case: upper-case letters in the term match lower-case ones. */
  lemma TermCaseIgnored(contacts: seq<Contact>, term: string)
    ensures FilterContacts(contacts, Lower(term)) == FilterContacts(contacts, term)
  {
    LowerIdempotent(term);
    Seqs.FilterSamePredicate(contacts, (c: Contact) => ContactMatches(c, Lower(term)), (c: Contact) => ContactMatches(c, term));
  }

  lemma LowerIdempotent(s: string)
    ensures Lower(Lower(s)) == Lower(s)
  {
  }
}
