/** The multi-area search of the geospatial service: candidates near the primary
    area, counted against every area's radius and ranked by that count, then by
    distance. Distances are given in metres from the primary area's point. */
module Geospatial {
  import opened Wrappers
  import opened Records
  import Ordering

  /** A search area: a point and a radius in kilometres. */
  datatype Area = Area(center: Coordinates, radiusKm: real)

  /** A candidate after `$addFields`: its distance and the number of areas matched. */
  datatype Ranked = Ranked(id: Id, pro: Professional, distance: int, matchedAreas: nat)

  /** `distance <= area.radius * 1000`. */
  predicate Within(distance: int, a: Area) {
    distance as real <= a.radiusKm * 1000.0
  }

  /** The `$filter`/`$size` stage: how many areas' radii cover the distance (the
      distance is always the one from the primary area's point). */
  function CountAreas(areas: seq<Area>, distance: int): (n: nat)
    ensures n <= |areas|
    ensures n == 0 <==> forall k :: 0 <= k < |areas| ==> !Within(distance, areas[k])
  {
    if areas == [] then 0
    else
      var rest := CountAreas(areas[1..], distance);
      assert forall k :: 1 <= k < |areas| ==> areas[k] == areas[1..][k - 1];
      (if Within(distance, areas[0]) then 1 else 0) + rest
  }

  /** The `$match` and `$geoNear` stages: active, in one of the wanted categories when
      any are given, and within the primary area's radius. */
  predicate Eligible(c: Candidate, areas: seq<Area>, categories: seq<string>)
    requires areas != []
  {
    && c.pro.status == Active
    && (categories != [] ==> exists k :: 0 <= k < |c.pro.serviceCategories| && c.pro.serviceCategories[k] in categories)
    && Within(c.distance, areas[0])
  }

  function Rank(c: Candidate, areas: seq<Area>): Ranked {
    Ranked(c.id, c.pro, c.distance, CountAreas(areas, c.distance))
  }

  /** `$sort: { matchedAreas: -1, distance: 1 }`. */
  predicate RankedBefore(a: Ranked, b: Ranked) {
    a.matchedAreas > b.matchedAreas || (a.matchedAreas == b.matchedAreas && a.distance <= b.distance)
  }

  lemma RankedBeforeIsOrder()
    ensures Ordering.Total(RankedBefore) && Ordering.Transitive(RankedBefore)
  {
  }

  /** Anyone within the primary area matches at least that area, so the
      `matchedAreas > 0` stage never drops an eligible candidate. */
  lemma PrimaryAreaCounts(areas: seq<Area>, distance: int)
    requires areas != [] && Within(distance, areas[0])
    ensures CountAreas(areas, distance) >= 1
  {
  }

  function Ranks(cs: seq<Candidate>, areas: seq<Area>): (r: seq<Ranked>)
    ensures |r| == |cs| && forall k :: 0 <= k < |cs| ==> r[k] == Rank(cs[k], areas)
  {
    seq(|cs|, k requires 0 <= k < |cs| => Rank(cs[k], areas))
  }

  function EligibleOf(areas: seq<Area>, categories: seq<string>, candidates: seq<Candidate>): (e: seq<Candidate>)
    requires areas != []
    ensures forall k :: 0 <= k < |e| ==> e[k] in candidates && Eligible(e[k], areas, categories)
    ensures forall c :: c in candidates && Eligible(c, areas, categories) ==> c in e
  {
    Ordering.Filter(candidates, (c: Candidate) => Eligible(c, areas, categories))
  }

  /** The stages after `$geoNear`: count, keep positive counts, sort. */
  function Ranking(areas: seq<Area>, categories: seq<string>, candidates: seq<Candidate>): (r: seq<Ranked>)
    requires areas != []
    ensures forall i, j :: 0 <= i < j < |r| ==> RankedBefore(r[i], r[j])
  {
    RankedBeforeIsOrder();
    var ranked := Ranks(EligibleOf(areas, categories, candidates), areas);
    Ordering.Sort(Ordering.Filter(ranked, (x: Ranked) => x.matchedAreas > 0), RankedBefore)
  }

  /** The ranking reorders the counted eligible candidates and drops none of them. */
  lemma RankingPermutes(areas: seq<Area>, categories: seq<string>, candidates: seq<Candidate>)
    requires areas != []
    ensures multiset(Ranking(areas, categories, candidates)) == multiset(Ranks(EligibleOf(areas, categories, candidates), areas))
  {
    RankedBeforeIsOrder();
    var eligible := EligibleOf(areas, categories, candidates);
    var ranked := Ranks(eligible, areas);
    forall k | 0 <= k < |ranked| ensures ranked[k].matchedAreas > 0 {
      PrimaryAreaCounts(areas, eligible[k].distance);
    }
    FilterAll(ranked, (x: Ranked) => x.matchedAreas > 0);
  }

  /** The ranking lists as many entries as there are eligible candidates (as
      `EligibleOf` lists them), each the count of one of them, positive. */
  lemma RankingSound(areas: seq<Area>, categories: seq<string>, candidates: seq<Candidate>)
    requires areas != []
    ensures var e, r := EligibleOf(areas, categories, candidates), Ranking(areas, categories, candidates);
      && |r| == |e|
      && forall k :: 0 <= k < |r| ==>
           r[k] in Ranks(e, areas) && r[k].matchedAreas > 0 && r[k].matchedAreas == CountAreas(areas, r[k].distance)
  {
    var e := EligibleOf(areas, categories, candidates);
    RankingPermutes(areas, categories, candidates);
    Ordering.PermutationMembers(Ranking(areas, categories, candidates), Ranks(e, areas));
    RanksCounted(e, areas);
  }

  /** Counting candidates within the primary area gives each a positive count. */
  lemma RanksCounted(e: seq<Candidate>, areas: seq<Area>)
    requires areas != [] && forall k :: 0 <= k < |e| ==> Within(e[k].distance, areas[0])
    ensures forall x :: x in Ranks(e, areas) ==> x.matchedAreas > 0 && x.matchedAreas == CountAreas(areas, x.distance)
  {
    var ranked := Ranks(e, areas);
    forall x | x in ranked
      ensures x.matchedAreas > 0 && x.matchedAreas == CountAreas(areas, x.distance)
    {
      var i :| 0 <= i < |ranked| && ranked[i] == x;
      PrimaryAreaCounts(areas, e[i].distance);
    }
  }

  /** Every eligible candidate is ranked. */
  lemma RankingComplete(areas: seq<Area>, categories: seq<string>, candidates: seq<Candidate>, c: Candidate)
    requires areas != []
    requires c in candidates && Eligible(c, areas, categories)
    ensures Rank(c, areas) in Ranking(areas, categories, candidates)
  {
    var e := EligibleOf(areas, categories, candidates);
    var ranked := Ranks(e, areas);
    RankingPermutes(areas, categories, candidates);
    var k :| 0 <= k < |e| && e[k] == c;
    assert ranked[k] == Rank(c, areas);
    assert Rank(c, areas) in multiset(Ranking(areas, categories, candidates));
  }

  /** `findProfessionalsInAreas` as it would run with the `Professional` model
      imported: an empty area list fails (`areas[0]` is read); otherwise the ranking,
      best first. */
  function FindProfessionalsInAreas(areas: seq<Area>, categories: seq<string>, candidates: seq<Candidate>)
    : (r: Result<seq<Ranked>>)
    ensures areas == [] <==> r.Err?
    ensures r.Ok? ==> r.value == Ranking(areas, categories, candidates)
    ensures r.Ok? ==> forall i, j :: 0 <= i < j < |r.value| ==>
                        r.value[i].matchedAreas > r.value[j].matchedAreas
                        || (r.value[i].matchedAreas == r.value[j].matchedAreas && r.value[i].distance <= r.value[j].distance)
  {
    if areas == [] then Err(Thrown("Cannot read properties of undefined (reading 'coordinates')"))
    else Ok(Ranking(areas, categories, candidates))
  }

  /** `findProfessionalsInAreas` as written: the file imports only `axios`, so
      `Professional.aggregate` throws a `ReferenceError` before the pipeline is even
      built, whatever the areas and whatever is stored. */
  function FindProfessionalsInAreasAsWritten(areas: seq<Area>, categories: seq<string>, candidates: seq<Candidate>)
    : (r: Result<seq<Ranked>>)
    ensures r == Err(Thrown("Professional is not defined"))
  {
    Err(Thrown("Professional is not defined"))
  }

  /** The missing import hides every eligible candidate: the pipeline would rank it,
      the code as written answers no one. */
  lemma FindProfessionalsAsWrittenRanksNoOne(areas: seq<Area>, categories: seq<string>, candidates: seq<Candidate>,
                                             c: Candidate)
    requires areas != [] && c in candidates && Eligible(c, areas, categories)
    ensures FindProfessionalsInAreas(areas, categories, candidates).Ok?
    ensures Rank(c, areas) in FindProfessionalsInAreas(areas, categories, candidates).value
    ensures FindProfessionalsInAreasAsWritten(areas, categories, candidates).Err?
  {
    RankingComplete(areas, categories, candidates, c);
  }

  /** A filter that every element passes keeps the whole sequence. */
  lemma {:induction false} FilterAll<T>(s: seq<T>, p: T -> bool)
    requires forall k :: 0 <= k < |s| ==> p(s[k])
    ensures Ordering.Filter(s, p) == s
  {
    if s != [] {
      FilterAll(s[1..], p);
    }
  }
}
