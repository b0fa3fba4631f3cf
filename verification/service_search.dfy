/** The service catalogue page's search box: a case-insensitive substring
    filter on a service's name or, when it has one, its category. */
module ServiceSearch {
  import opened Options
  import opened Lists
  import opened Text

  /** A `services` row; `None` category is a null column. Prices are cents. */
  datatype Service = Service(
    id: string,
    name: string,
    category: Option<string>,
    description: Option<string>,
    price: int,
    durationMinutes: int)

  /** The filter callback: `name.toLowerCase().includes(term.toLowerCase())`,
      or the same test on the category when it is not null. */
  predicate Matches(service: Service, term: string)
  {
    || Includes(ToLower(service.name), ToLower(term))
    || (service.category.Some? && Includes(ToLower(service.category.value), ToLower(term)))
  }

  /** What a match means: the lower-cased term occurs in the lower-cased name or
      in the lower-cased category that is present. */
  ghost predicate Found(service: Service, term: string)
  {
    || IsSubstring(ToLower(term), ToLower(service.name))
    || (service.category.Some? && IsSubstring(ToLower(term), ToLower(service.category.value)))
  }

  /** The filter callback decides exactly `Found`. */
  lemma MatchesIsFound(service: Service, term: string)
    ensures Matches(service, term) <==> Found(service, term)
  {
    IncludesIsSubstring(ToLower(service.name), ToLower(term));
    if service.category.Some? {
      IncludesIsSubstring(ToLower(service.category.value), ToLower(term));
    }
  }

  /** The effect computing `filteredServices`: everything for an empty term,
      otherwise the matching services in catalogue order. */
  function Search(services: seq<Service>, term: string): (r: seq<Service>)
    ensures |term| == 0 ==> r == services
    ensures IsSublist(r, services)
    ensures forall s :: s in r ==> multiset(r)[s] == multiset(services)[s]
    ensures |term| > 0 ==> forall s :: s in r <==> s in services && Found(s, term)
  {
    if |term| == 0 then SublistReflexive(services); services
    else
      var r := Filter(services, s => Matches(s, term));
      assert forall s :: s in r <==> s in services && Found(s, term) by {
        forall s ensures s in r <==> s in services && Found(s, term) {
          MatchesIsFound(s, term);
        }
      }
      r
  }

  /** The empty-term shortcut agrees with the filter: every service contains
      the empty string. */
  lemma EmptyTermFilterAgrees(services: seq<Service>)
    ensures Filter(services, s => Matches(s, "")) == services
  {
    forall i | 0 <= i < |services|
      ensures Matches(services[i], "")
    {
      EmptyIsEverywhere(ToLower(services[i].name));
    }
    FilterAll(services, s => Matches(s, ""));
  }

  /** Terms that differ only in letter case give the same result. */
  lemma {:induction false} CaseInsensitive(services: seq<Service>, t1: string, t2: string)
    requires ToLower(t1) == ToLower(t2)
    ensures Search(services, t1) == Search(services, t2)
  {
    if |t1| > 0 {
      FilterCongruent(services, s => Matches(s, t1), s => Matches(s, t2));
    }
  }

  /** A service with a null category is found through its name alone. */
  lemma NullCategoryByName(services: seq<Service>, term: string, s: Service)
    requires |term| > 0 && s in services && s.category.None?
    ensures s in Search(services, term) <==> IsSubstring(ToLower(term), ToLower(s.name))
  {
  }

  /** Searching the result again with the same term returns it unchanged. */
  lemma {:induction false} SearchIdempotent(services: seq<Service>, term: string)
    ensures Search(Search(services, term), term) == Search(services, term)
  {
    if |term| > 0 {
      FilterIdempotent(services, s => Matches(s, term));
    }
  }
}
