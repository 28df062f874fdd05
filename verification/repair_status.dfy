/**
 * The status page's search box: a request is listed when its id or its
 * e-mail, lower-cased, contains the lower-cased query. Lower-casing covers
 * ASCII letters only.
 */
module RepairStatus {
  import opened Text
  import opened Seqs
  import opened Entities

  predicate Matches(query: string, r: RepairRequest) {
    Contains(Lower(r.id), Lower(query)) || Contains(Lower(r.email), Lower(query))
  }

  /** The requests listed for `query`; an empty fetched list short-circuits to `[]`. */
  function Search(requests: seq<RepairRequest>, query: string): (found: seq<RepairRequest>)
    ensures |requests| == 0 ==> found == []
    ensures forall x :: x in found <==> x in requests && Matches(query, x)
    ensures forall x {:trigger multiset(found)[x]} :: Matches(query, x) ==> multiset(found)[x] == multiset(requests)[x]
    ensures IsSubseq(found, requests)
  {
    if |requests| > 0 then Keep(requests, (r: RepairRequest) => Matches(query, r)) else []
  }

  /** The empty query lists every fetched request. */
  lemma EmptyQueryKeepsAll(requests: seq<RepairRequest>)
    ensures Search(requests, "") == requests
  {
    forall r | r in requests
      ensures Matches("", r)
    {
      ContainsEmpty(Lower(r.id));
    }
    KeepAll(requests, (r: RepairRequest) => Matches("", r));
  }

  /** Typing the query in upper case lists the same requests. */
  lemma SearchIgnoresCase(requests: seq<RepairRequest>, query: string)
    ensures Search(requests, Upper(query)) == Search(requests, query)
  {
    LowerOfUpper(query);
    KeepCongruent(requests, (r: RepairRequest) => Matches(Upper(query), r), (r: RepairRequest) => Matches(query, r));
  }

  /** Extending the query (the old one is a substring of the new one) never adds requests. */
  lemma LongerQueryNarrows(requests: seq<RepairRequest>, query: string, longer: string)
    requires Contains(longer, query)
    ensures IsSubseq(Search(requests, longer), Search(requests, query))
    ensures forall x :: x in Search(requests, longer) ==> x in Search(requests, query)
  {
    ContainsLower(longer, query);
    forall r | r in requests && Matches(longer, r)
      ensures Matches(query, r)
    {
      if Contains(Lower(r.id), Lower(longer)) {
        ContainsTransitive(Lower(query), Lower(longer), Lower(r.id));
      } else {
        ContainsTransitive(Lower(query), Lower(longer), Lower(r.email));
      }
    }
    if |requests| > 0 {
      KeepMonotone(requests, (r: RepairRequest) => Matches(longer, r), (r: RepairRequest) => Matches(query, r));
    }
  }
}
