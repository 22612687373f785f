/** The customer screen: the search box's filter and the number handed to
    WhatsApp. */
module Customers {
  import opened Seqs
  import opened Text
  import opened Domain

  /** The search predicate: the lowered name contains the lowered term, or
      the stored number, exactly as typed, contains the term exactly as
      typed. */
  predicate CustomerMatches(c: Customer, term: string) {
    Includes(Lower(c.name), Lower(term)) || Includes(c.whatsapp, term)
  }

  /** `filteredCustomers`. */
  function FilterCustomers(cs: seq<Customer>, term: string): (r: seq<Customer>)
    ensures forall i :: 0 <= i < |r| ==> r[i] in cs && CustomerMatches(r[i], term)
    ensures forall i :: 0 <= i < |cs| && CustomerMatches(cs[i], term) ==> cs[i] in r
  {
    Filter(cs, (c: Customer) => CustomerMatches(c, term))
  }

  /** A customer is listed exactly when it matches the term, and the list
      keeps the stored order. */
  lemma FilterCustomersExact(cs: seq<Customer>, term: string)
    ensures forall i :: 0 <= i < |cs| ==> (cs[i] in FilterCustomers(cs, term) <==> CustomerMatches(cs[i], term))
    ensures forall i :: 0 <= i < |FilterCustomers(cs, term)| ==> CustomerMatches(FilterCustomers(cs, term)[i], term)
    ensures IsSubsequence(FilterCustomers(cs, term), cs)
  {
    FilterIsSubsequence(cs, (c: Customer) => CustomerMatches(c, term));
  }

  /** An empty search box lists everybody. */
  lemma EmptyTermKeepsAll(cs: seq<Customer>)
    ensures FilterCustomers(cs, "") == cs
  {
    forall i | 0 <= i < |cs| ensures CustomerMatches(cs[i], "") {
      IncludesEmpty(Lower(cs[i].name));
    }
    FilterAll(cs, (c: Customer) => CustomerMatches(c, ""));
  }

  /** The number is searched as stored, punctuation included: a number kept
      as "(11) 98888" is not found by its digits "1198888" (when the name
      does not match either). */
  lemma StoredNumberIsNotCleaned(name: string, now: Timestamp)
    requires !Includes(Lower(name), "1198888")
    ensures FilterCustomers([Customer("1", name, "(11) 98888", "", now)], "1198888") == []
  {
    assert Lower("1198888") == "1198888";
    assert !IncludesFrom("(11) 98888", "1198888", 0);
  }

  /** `phone.replace(/\D/g, '')` before building the link. */
  function WhatsAppNumber(c: Customer): (r: string)
    ensures AllDigits(r) && |r| <= |c.whatsapp|
    ensures IsSubsequence(r, c.whatsapp)
    ensures CleanPhone(r) == r
  {
    CleanPhoneKeepsDigits(c.whatsapp, '0');
    CleanPhoneIdempotent(c.whatsapp);
    CleanPhone(c.whatsapp)
  }
}
