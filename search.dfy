/** The place search (src/screens/tourist/SearchScreen.tsx): the de-duplicated places whose
    title or location contains the query, ignoring case. */
module Search {
  import opened Base
  import opened Text
  import opened Lists
  import opened Places

  /** The filter's test: the lower-cased title or location includes the lower-cased query.
      The empty query matches every place, and a matching query is no longer than the title
      or the location. */
  function Matches(place: Place, query: string): (b: bool)
    ensures |query| == 0 ==> b
    ensures b ==> |query| <= |place.title| || |query| <= |place.location|
  {
    IncludesEmpty(ToLower(place.title));
    Includes(ToLower(place.title), ToLower(query)) ||
    Includes(ToLower(place.location), ToLower(query))
  }

  /** `filteredPlaces`: the places of `places` that match, in their order. */
  function FilteredPlaces(places: seq<Place>, query: string): (r: seq<Place>)
    ensures forall i :: 0 <= i < |r| ==> r[i] in places && Matches(r[i], query)
    ensures forall i :: 0 <= i < |places| && Matches(places[i], query) ==> places[i] in r
    ensures IsSubsequence(r, places)
  {
    FilterIsSubsequence(places, p => Matches(p, query));
    Filter(places, p => Matches(p, query))
  }

  /** What the screen lists for `query`: matching places of the two lists, each the first
      place with its id, and no id twice. */
  function Results(suggestions: seq<Place>, popular: seq<Place>, query: string): (r: seq<Place>)
    ensures forall i :: 0 <= i < |r| ==> Matches(r[i], query)
    ensures forall i :: 0 <= i < |r| ==> Find(suggestions + popular, PlaceId, r[i].id) == Some(r[i])
    ensures UniqueKeys(r, PlaceId)
  {
    var all := AllPlaces(suggestions, popular);
    FilterKeepsUniqueKeys(all, PlaceId, p => Matches(p, query));
    var r := FilteredPlaces(all, query);
    assert forall i :: 0 <= i < |r| ==> r[i] in all;
    r
  }

  /** The empty query lists every de-duplicated place. */
  lemma EmptyQueryListsAll(suggestions: seq<Place>, popular: seq<Place>)
    ensures Results(suggestions, popular, "") == AllPlaces(suggestions, popular)
  {
    var all := AllPlaces(suggestions, popular);
    forall i | 0 <= i < |all| ensures Matches(all[i], "") {
      IncludesEmpty(ToLower(all[i].title));
    }
    FilterKeepsAll(all, p => Matches(p, ""));
  }

  /** A place that matches a longer query matches every query it contains. */
  lemma MatchesNarrower(place: Place, q1: string, q2: string)
    requires Includes(q2, q1) && Matches(place, q2)
    ensures Matches(place, q1)
  {
    IncludesToLower(q2, q1);
    if Includes(ToLower(place.title), ToLower(q2)) {
      IncludesTransitive(ToLower(place.title), ToLower(q2), ToLower(q1));
    } else {
      IncludesTransitive(ToLower(place.location), ToLower(q2), ToLower(q1));
    }
  }

  /** Typing more narrows the list: when `q1` is contained in `q2`, every result for `q2` is
      a result for `q1`. */
  lemma LongerQueryNarrows(suggestions: seq<Place>, popular: seq<Place>, q1: string, q2: string)
    requires Includes(q2, q1)
    ensures forall i :: 0 <= i < |Results(suggestions, popular, q2)| ==>
              Results(suggestions, popular, q2)[i] in Results(suggestions, popular, q1)
  {
    var all := AllPlaces(suggestions, popular);
    var r1 := FilteredPlaces(all, q1);
    var r2 := FilteredPlaces(all, q2);
    assert Results(suggestions, popular, q1) == r1 && Results(suggestions, popular, q2) == r2;
    forall i | 0 <= i < |r2| ensures r2[i] in r1 {
      InResultsForNarrower(all, r2[i], q1, q2);
    }
  }

  /** One place of a `q2` result is in the `q1` result over the same list. */
  lemma InResultsForNarrower(all: seq<Place>, p: Place, q1: string, q2: string)
    requires Includes(q2, q1) && p in FilteredPlaces(all, q2)
    ensures p in FilteredPlaces(all, q1)
  {
    var r2 := FilteredPlaces(all, q2);
    var i :| 0 <= i < |r2| && r2[i] == p;
    MatchesNarrower(p, q1, q2);
    var j :| 0 <= j < |all| && all[j] == p;
  }
}
