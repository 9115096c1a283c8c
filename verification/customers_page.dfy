/** The customers page: the search box and the two count cards. */
module CustomersPage {
  import opened Wrappers
  import Text
  import Seqs
  import opened CustomerService

  /** `customer.notes && customer.notes.toLowerCase().includes(query)`: a
      missing or empty note never matches. */
  predicate NotesMatch(q: string, c: Customer) {
    c.notes.Some? && c.notes.value != "" && Text.Matches(c.notes.value, q)
  }

  /** The customer's name, location, contact name or contact email contains
      the query, or its note does. */
  predicate MatchesQuery(q: string, c: Customer) {
    Text.Matches(c.name, q) || Text.Matches(c.location, q)
    || Text.Matches(c.contact.name, q) || Text.Matches(c.contact.email, q)
    || NotesMatch(q, c)
  }

  function Matcher(q: string): Customer -> bool {
    (c: Customer) => MatchesQuery(q, c)
  }

  /** `filteredCustomers`. */
  function Search(cs: seq<Customer>, q: string): (r: seq<Customer>)
    ensures |r| <= |cs|
    ensures forall i :: 0 <= i < |r| ==> MatchesQuery(q, r[i])
  {
    Seqs.Filter(cs, Matcher(q))
  }

  /** A customer is listed exactly when it is in the list and matches; a
      customer without a note is listed exactly when one of its other four
      fields matches; the empty query lists everyone, in order. */
  lemma SearchLaws(cs: seq<Customer>, q: string, c: Customer)
    ensures c in Search(cs, q) <==> c in cs && MatchesQuery(q, c)
    ensures c.notes.None? ==> (MatchesQuery(q, c) <==>
      Text.Matches(c.name, q) || Text.Matches(c.location, q)
      || Text.Matches(c.contact.name, q) || Text.Matches(c.contact.email, q))
    ensures Search(cs, "") == cs
  {
    Seqs.FilterMembership(cs, Matcher(q), c);
    forall i | 0 <= i < |cs|
      ensures Matcher("")(cs[i])
    {
      Text.MatchesEmptyQuery(cs[i].name);
    }
    Seqs.FilterAll(cs, Matcher(""));
  }

  /** `Math.round(n * 0.8)`. A whole number times 0.8 has a fractional part
      of .0, .2, .4, .6 or .8, never a half, so rounding is exact
      arithmetic. */
  function ActiveCustomers(n: nat): (a: nat)
    ensures 10 * a <= 8 * n + 5 < 10 * a + 10
  {
    (8 * n + 5) / 10
  }

  /** The active count is the whole number nearest to 80% of the total, and
      never more than the total. */
  lemma ActiveIsNearest(n: nat)
    ensures -2 <= 5 * ActiveCustomers(n) - 4 * n <= 2
    ensures ActiveCustomers(n) <= n
  {
  }

  /** The two count cards; both read the whole list, whatever the search. */
  datatype Cards = Cards(total: nat, active: nat)

  function CountCards(cs: seq<Customer>, q: string): (r: Cards)
    ensures r.total == |cs| && r.total >= |Search(cs, q)|
    ensures r.active == ActiveCustomers(|cs|)
  {
    Cards(|cs|, ActiveCustomers(|cs|))
  }

  /** The seed list shows 3 customers, 2 of them active. */
  lemma SeedCards(q: string)
    ensures CountCards(Seeds, q) == Cards(3, 2)
  {
  }
}
