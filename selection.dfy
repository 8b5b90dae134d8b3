/** The landmark pipeline shared by the planner page and the quest page:
    shuffle the places the search returned, keep the first `count`, and stamp
    each with its 1-based visiting order, ready for the `/start-session`
    request. */
module Selection {
  import opened Optional
  import opened Permutations

  /** A map coordinate as the pages send it: `{lat, lng}`. */
  datatype LatLng = LatLng(lat: real, lng: real)

  /** One search result: its `name` and `geometry.location`. */
  datatype Place = Place(name: string, location: LatLng)

  /** One entry of the request's `landmarks` list. */
  datatype Landmark = Landmark(name: string, lat: real, lng: real, order: int)

  /** The body of the `/start-session` request. */
  datatype SessionPayload = SessionPayload(
    startLocation: LatLng,
    radiusMeters: int,
    category: string,
    landmarks: seq<Landmark>)

  /** The `results` field of the search reply is present and not empty; both
      pages stop when it is not. */
  predicate HasResults(results: Option<seq<Place>>) {
    results.Some? && |results.value| > 0
  }

  /** Where `slice(0, count)` stops on a list of `len` items: a negative
      `count` counts back from the end, and the end is clamped to the list. */
  function SliceEnd(count: int, len: nat): (end: nat)
    ensures end <= len
    ensures 0 <= count ==> end == if count <= len then count else len
    ensures count < 0 ==> end == if len + count < 0 then 0 else len + count
  {
    if count < 0 then (if len + count < 0 then 0 else len + count)
    else if count < len then count
    else len
  }

  /** The places a session visits: `results` shuffled into the order `perm`,
      then cut at `count`. */
  function Select(results: seq<Place>, perm: seq<nat>, count: int): (selected: seq<Place>)
    requires IsPermutation(perm, |results|)
    ensures |selected| == SliceEnd(count, |results|)
    ensures forall i :: 0 <= i < |selected| ==> selected[i] == results[perm[i]]
    ensures multiset(selected) <= multiset(results)
  {
    var shuffled := Apply(results, perm);
    var end := SliceEnd(count, |results|);
    ApplyPreservesMultiset(results, perm);
    assert shuffled == shuffled[..end] + shuffled[end..];
    assert multiset(shuffled) == multiset(shuffled[..end]) + multiset(shuffled[end..]);
    shuffled[..end]
  }

  /** One place as a landmark of the request, at visiting order `order`. */
  function ToLandmark(place: Place, order: int): Landmark {
    Landmark(place.name, place.location.lat, place.location.lng, order)
  }

  /** The request's landmarks: the places in their order, numbered from 1. */
  function ToLandmarks(places: seq<Place>): (ls: seq<Landmark>)
    ensures |ls| == |places|
  {
    seq(|places|, i requires 0 <= i < |places| => ToLandmark(places[i], i + 1))
  }

  /** The place a landmark was made from. */
  function PlaceOf(l: Landmark): Place {
    Place(l.name, LatLng(l.lat, l.lng))
  }

  function Places(ls: seq<Landmark>): (ps: seq<Place>)
    ensures |ps| == |ls|
  {
    seq(|ls|, i requires 0 <= i < |ls| => PlaceOf(ls[i]))
  }

  function Orders(ls: seq<Landmark>): (os: seq<int>)
    ensures |os| == |ls|
  {
    seq(|ls|, i requires 0 <= i < |ls| => ls[i].order)
  }

  /** The visiting orders of an `n`-stop quest: 1, 2, ..., n. */
  function OneTo(n: nat): seq<int> {
    if n == 0 then [] else OneTo(n - 1) + [n]
  }

  /** The shuffle keeps `min(count, |results|)` places for a non-negative
      `count`; a negative one drops that many from the end. */
  lemma SelectLength(results: seq<Place>, perm: seq<nat>, count: int)
    requires IsPermutation(perm, |results|)
    ensures |Select(results, perm, count)| == SliceEnd(count, |results|)
    ensures 0 <= count ==> |Select(results, perm, count)| <= count
    ensures 0 <= count <= |results| ==> |Select(results, perm, count)| == count
    ensures count >= |results| ==> |Select(results, perm, count)| == |results|
    ensures 0 < count && 0 < |results| ==> 0 < |Select(results, perm, count)|
  {
  }

  /** The selected places are drawn from `results` without replacement: each
      is the result at a different position, so none is taken more often than
      it occurs among the results. */
  lemma SelectDrawnFromResults(results: seq<Place>, perm: seq<nat>, count: int)
    requires IsPermutation(perm, |results|)
    ensures forall i :: 0 <= i < |Select(results, perm, count)| ==>
      perm[i] < |results| && Select(results, perm, count)[i] == results[perm[i]]
    ensures forall i, j :: 0 <= i < j < |Select(results, perm, count)| ==> perm[i] != perm[j]
    ensures multiset(Select(results, perm, count)) <= multiset(results)
  {
  }

  /** Numbering then reading back gives the places unchanged: every landmark
      carries the name and coordinates of the place at the same position. */
  lemma LandmarksRoundTrip(places: seq<Place>)
    ensures Places(ToLandmarks(places)) == places
  {
  }

  /** Landmark `i` has order `i + 1`, so the orders are exactly 1..n. */
  lemma {:induction false} OrdersAreOneToN(places: seq<Place>)
    ensures Orders(ToLandmarks(places)) == OneTo(|places|)
    ensures forall i :: 0 <= i < |places| ==> ToLandmarks(places)[i].order == i + 1
  {
    if |places| > 0 {
      var init := places[..|places| - 1];
      OrdersAreOneToN(init);
      assert Orders(ToLandmarks(places)) == Orders(ToLandmarks(init)) + [|places|];
    }
  }

  /** What every `/start-session` request built from a non-empty search reply
      carries: `min(count, |results|)` landmarks (for `count >= 0`), numbered
      1..n, each the name and coordinates of a different search result. */
  lemma PayloadLandmarks(results: seq<Place>, perm: seq<nat>, count: int)
    requires IsPermutation(perm, |results|)
    ensures var ls := ToLandmarks(Select(results, perm, count));
      && |ls| == SliceEnd(count, |results|)
      && Orders(ls) == OneTo(|ls|)
      && Places(ls) == Select(results, perm, count)
      && multiset(Places(ls)) <= multiset(results)
  {
    var selected := Select(results, perm, count);
    SelectLength(results, perm, count);
    SelectDrawnFromResults(results, perm, count);
    OrdersAreOneToN(selected);
    LandmarksRoundTrip(selected);
  }
}
