/** The planner page: the player picks a category and starts a quest around
    their location. */
module Planner {
  import opened Optional
  import opened Permutations
  import opened Selection

  /** Where the planner centres the search until the browser reports a fix. */
  const DefaultLocation: LatLng := LatLng(49.2606, -123.246)
  const DefaultCategory: string := "Landmark"
  const ScanningLabel: string := "Scanning Area..."

  /** The page's module state and its start button. */
  class PlannerPage {
    var userLocation: LatLng
    var selectedCategory: string
    var buttonText: string
    var buttonDisabled: bool

    /** The page as loaded; `caption` is the start button's text in the markup. */
    constructor (caption: string)
      ensures userLocation == DefaultLocation && selectedCategory == DefaultCategory
      ensures buttonText == caption && !buttonDisabled
    {
      userLocation := DefaultLocation;
      selectedCategory := DefaultCategory;
      buttonText := caption;
      buttonDisabled := false;
    }

    /** The geolocation callback replaces the search centre with the fix. */
    method Locate(latitude: real, longitude: real)
      modifies this
      ensures userLocation == LatLng(latitude, longitude)
      ensures selectedCategory == old(selectedCategory)
      ensures buttonText == old(buttonText) && buttonDisabled == old(buttonDisabled)
    {
      userLocation := LatLng(latitude, longitude);
    }

    /** `setCategory`: the chosen category is used by the next start. */
    method SetCategory(category: string)
      modifies this
      ensures selectedCategory == category
      ensures userLocation == old(userLocation)
      ensures buttonText == old(buttonText) && buttonDisabled == old(buttonDisabled)
    {
      selectedCategory := category;
    }

    /** `startSession(radius, count)` once the search has replied with
        `results` (`None` when the field is missing) and the random comparator
        has left them in the order `perm`. Returns the `/start-session`
        request, or `None` when none is sent. */
    method StartSession(radius: int, count: int, results: Option<seq<Place>>, perm: seq<nat>)
      returns (request: Option<SessionPayload>)
      requires HasResults(results) ==> IsPermutation(perm, |results.value|)
      modifies this
      ensures userLocation == old(userLocation) && selectedCategory == old(selectedCategory)
      // No results: no request, and the button is back as it was.
      ensures !HasResults(results) ==>
        request.None? && buttonText == old(buttonText) && !buttonDisabled
      // Results: the request carries the selection, the button stays busy.
      ensures HasResults(results) ==>
        && buttonText == ScanningLabel && buttonDisabled
        && request == Some(SessionPayload(
             old(userLocation), radius, old(selectedCategory),
             ToLandmarks(Select(results.value, perm, count))))
    {
      var originalText := buttonText;
      buttonText := ScanningLabel;
      buttonDisabled := true;

      if results.None? || |results.value| == 0 {
        buttonText := originalText;
        buttonDisabled := false;
        return None;
      }

      var selected := ToLandmarks(Select(results.value, perm, count));
      request := Some(SessionPayload(userLocation, radius, selectedCategory, selected));
    }
  }

  /** A started quest visits `min(count, |results|)` different search results,
      numbered 1..n, around the planner's location and in its category. */
  method StartedQuest(page: PlannerPage, radius: int, count: int, results: seq<Place>, perm: seq<nat>)
    returns (request: Option<SessionPayload>)
    requires |results| > 0 && IsPermutation(perm, |results|) && count >= 0
    modifies page
    ensures request.Some?
    ensures request.value.startLocation == old(page.userLocation)
    ensures request.value.category == old(page.selectedCategory)
    ensures request.value.radiusMeters == radius
    ensures |request.value.landmarks| == if count < |results| then count else |results|
    ensures Orders(request.value.landmarks) == OneTo(|request.value.landmarks|)
    ensures multiset(Places(request.value.landmarks)) <= multiset(results)
  {
    request := page.StartSession(radius, count, Some(results), perm);
    PayloadLandmarks(results, perm, count);
  }
}
