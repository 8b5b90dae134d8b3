/** The quest page: it polls the player's position, remembers where the
    player started, and picks the landmarks of a new quest around that
    starting point. */
module QuestPage {
  import opened Optional
  import opened Permutations
  import opened Selection

  /** Defaults of `getRandomLandmarks` for arguments left out. */
  const DefaultRadius: int := 2000
  const DefaultCount: int := 4

  /** A position as the page stores it: `{lat, lon}`. */
  datatype Fix = Fix(lat: real, lon: real)

  /** The start location of the request, renaming `lon` to `lng`. */
  function StartLocation(origin: Fix): (c: LatLng)
    ensures c.lat == origin.lat && c.lng == origin.lon
  {
    LatLng(origin.lat, origin.lon)
  }

  /** The page's module state. */
  class Page {
    var originLocation: Option<Fix>
    var gameLandmarks: seq<Place>

    constructor ()
      ensures originLocation.None? && gameLandmarks == []
    {
      originLocation := None;
      gameLandmarks := [];
    }

    /** `sendPosition`: the first fix becomes the origin; later fixes leave
        it alone. */
    method SendPosition(lat: real, lon: real)
      modifies this
      ensures originLocation == if old(originLocation).None? then Some(Fix(lat, lon)) else old(originLocation)
      ensures gameLandmarks == old(gameLandmarks)
    {
      if originLocation.None? {
        originLocation := Some(Fix(lat, lon));
      }
    }

    /** `getRandomLandmarks(originLat, originLng, radius, count)` once the
        search has replied with `results` (`None` when the field is missing)
        and the random comparator has left them in the order `perm`;
        `category` is the category selector's value. Returns the
        `/start-session` request, or `None` when none is sent. */
    method GetRandomLandmarks(radius: Option<int>, count: Option<int>, category: string,
                              results: Option<seq<Place>>, perm: seq<nat>)
      returns (request: Option<SessionPayload>)
      requires HasResults(results) ==> IsPermutation(perm, |results.value|)
      modifies this
      ensures originLocation == old(originLocation)
      // No results: nothing is kept and nothing is sent.
      ensures !HasResults(results) ==> request.None? && gameLandmarks == old(gameLandmarks)
      // Results: the selection is kept, then sent if there is an origin to
      // send it from (without one, building the request fails).
      ensures HasResults(results) ==>
        && gameLandmarks == Select(results.value, perm, count.GetOr(DefaultCount))
        && request == if originLocation.None? then None else Some(SessionPayload(
             StartLocation(originLocation.value), radius.GetOr(DefaultRadius), category,
             ToLandmarks(gameLandmarks)))
    {
      if results.None? || |results.value| == 0 {
        return None;
      }
      var selected := Select(results.value, perm, count.GetOr(DefaultCount));
      gameLandmarks := selected;
      if originLocation.None? {
        return None;
      }
      request := Some(SessionPayload(
        StartLocation(originLocation.value),
        radius.GetOr(DefaultRadius), category, ToLandmarks(selected)));
    }

    /** `startSession(radiusM, amountOfSpot)`: forgets the previous quest's
        landmarks and, once an origin is known, picks new ones around it. */
    method StartSession(radiusM: Option<int>, amountOfSpot: Option<int>, category: string,
                        results: Option<seq<Place>>, perm: seq<nat>)
      returns (request: Option<SessionPayload>)
      requires HasResults(results) ==> IsPermutation(perm, |results.value|)
      modifies this
      ensures originLocation == old(originLocation)
      // No origin yet: nothing is fetched, the old landmarks are gone.
      ensures originLocation.None? ==> request.None? && gameLandmarks == []
      ensures originLocation.Some? && !HasResults(results) ==> request.None? && gameLandmarks == []
      ensures originLocation.Some? && HasResults(results) ==>
        && gameLandmarks == Select(results.value, perm, amountOfSpot.GetOr(DefaultCount))
        && request == Some(SessionPayload(
             StartLocation(originLocation.value), radiusM.GetOr(DefaultRadius), category,
             ToLandmarks(gameLandmarks)))
    {
      gameLandmarks := [];
      if originLocation.Some? {
        request := GetRandomLandmarks(radiusM, amountOfSpot, category, results, perm);
      } else {
        request := None;
      }
    }
  }

  /** Once the page has an origin, a quest started on a non-empty reply keeps
      at most `count` different results and sends them numbered 1..n from the
      origin. */
  method StartedQuest(page: Page, count: int, category: string, results: seq<Place>, perm: seq<nat>)
    returns (request: Option<SessionPayload>)
    requires page.originLocation.Some?
    requires |results| > 0 && IsPermutation(perm, |results|) && count >= 0
    modifies page
    ensures page.originLocation == old(page.originLocation)
    ensures request.Some?
    ensures request.value.startLocation.lat == page.originLocation.value.lat
    ensures request.value.startLocation.lng == page.originLocation.value.lon
    ensures |page.gameLandmarks| <= count && |page.gameLandmarks| <= |results|
    ensures multiset(page.gameLandmarks) <= multiset(results)
    ensures Places(request.value.landmarks) == page.gameLandmarks
    ensures Orders(request.value.landmarks) == OneTo(|page.gameLandmarks|)
  {
    request := page.StartSession(None, Some(count), category, Some(results), perm);
    PayloadLandmarks(results, perm, count);
    SelectLength(results, perm, count);
  }

  /** The origin is the first fix ever received: later fixes never move it. */
  method OriginLatches(page: Page, first: Fix, later: seq<Fix>)
    requires page.originLocation.None?
    modifies page
    ensures page.originLocation == Some(first)
  {
    page.SendPosition(first.lat, first.lon);
    for i := 0 to |later|
      invariant page.originLocation == Some(first)
    {
      page.SendPosition(later[i].lat, later[i].lon);
    }
  }
}
