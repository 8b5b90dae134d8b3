# SightQuest quest core in Dafny

SightQuest is a mobile-web scavenger hunt. The player picks a category, gets
a short list of nearby landmarks to visit in order, and unlocks each one by
walking up to it. This project models the parts of it that decide something:

- **The proximity gate** (`src/main.py`). `/check-proximity` turns the
  player's distance to the target into an unlock decision. The player may
  verify at or within 50 m, or from anywhere while the process-wide "god
  mode" override is on. The reply carries a message chosen by that decision
  and the distance rounded to 0.1 m. `/admin/toggle-god-mode` overwrites the
  override. Module `ProximityGate`, class `GateServer`.
- **Quest landmark selection** (`src/static/planner.js`, `src/static/app.js`).
  The places returned by the search are shuffled. The first `count` are kept
  and each is stamped with `order = index + 1`. The result becomes the body
  of the `/start-session` request. An empty or missing result list stops
  early and sends nothing. The two pages share this pipeline, so it is
  modelled once, in module `Selection`. Module `Permutations` stands for the
  random shuffle: whatever order the random comparator produces is an
  arbitrary permutation of the positions.
- **The pages' own state.** Class `Planner.PlannerPage` holds the selected
  category, the search centre and the start button. Class `QuestPage.Page`
  holds the origin, which latches on the first GPS fix, and the current
  quest's landmarks.

Inputs that come from outside the model are parameters:
- the distance to the target, which the geodesic routine in `src/geocalc.py`
  computes (`src/geocalc.py` is not part of this model);
- the search reply's `results`, with `None` for a missing field;
- the order the shuffle leaves them in;
- the value of the category selector.

## Model

| member | source | states |
|---|---|---|
| ProximityGate.GateServer.constructor | src/main.py:12 | the override is off when the process starts |
| ProximityGate.GateServer.CheckProximity | src/main.py:26-48 | `can_verify` holds exactly when the distance is at most 50 m or the override is on; the message is the "close" text exactly when `can_verify` holds; the reported distance is within 0.05 m of the real one; nothing changes |
| ProximityGate.GateServer.ToggleGodMode | src/main.py:51-55 | the override becomes the argument, whatever it was; the status text names the new value |
| ProximityGate.GodModeUnlocksEverywhere | src/main.py:41-42 | with the override on, every distance unlocks and shows the "close" message |
| ProximityGate.GateIsRadius | src/main.py:35-38 | with the override off, the gate opens exactly when the distance is at most 50 m, and 50 m itself opens it |
| ProximityGate.MessageMatchesDecision | src/main.py:47 | the message is "You are close! Look for the target." if and only if verification is allowed, and "Keep walking..." otherwise |
| ProximityGate.RoundTenth | src/main.py:45 | the reported distance is a whole number of tenths, the rounded count of tenths in the real distance, and never more than 0.05 m off |
| ProximityGate.RoundTenthUnits | src/main.py:45 | the rounding picks the nearest tenth and breaks ties toward the even neighbour |
| ProximityGate.Report | src/main.py:44-48 | the reply: with the override on it always unlocks; with it off it unlocks exactly within 50 m; the message is the "close" text exactly when it unlocks and "Keep walking..." otherwise; the distance is within 0.05 m |
| ProximityGate.GateIgnoresRounding | src/main.py:37-45 | the gate uses the unrounded distance: for every distance strictly between 50 m and 50.05 m (50.04 m, say) the reply reports 50.0 m yet stays locked |
| ProximityGate.PollTwice | src/main.py:26-48 | a poll does not change the override, so two polls at the same distance give the same reply |
| ProximityGate.OverrideThenPoll | src/main.py:41-54 | after the override is switched on, the next poll unlocks at any distance |
| ProximityGate.ToggleTwice | src/main.py:52-54 | setting the override twice to the same value leaves the same state as setting it once |
| Permutations.PigeonHole | src/static/planner.js:66 | more than `n` positions, all below `n`, must repeat one |
| Permutations.PermutationCovers | src/static/planner.js:66 | a shuffle order lists every original position |
| Permutations.ApplyPreservesMultiset | src/static/planner.js:66 | the shuffle keeps every place, each as often as before |
| Selection.Select | src/static/planner.js:66-67 | the shuffled-then-sliced places: as many as `slice(0, count)` keeps, place `i` is the result at original position `perm[i]`, and the selection is a sub-multiset of the results |
| Selection.ToLandmarks | src/static/planner.js:67-72 | one landmark per selected place; its numbering 1..n and the copied name and coordinates are stated by `OrdersAreOneToN` and `LandmarksRoundTrip` |
| Selection.SelectLength | src/static/planner.js:66-67 | the selection has `min(count, number of results)` places for `count >= 0`: at most `count`, and all of the results when there are fewer |
| Selection.SelectDrawnFromResults | src/static/planner.js:66-67 | each selected place is the result at a different original position, so the selection is a sub-multiset of the results |
| Selection.LandmarksRoundTrip | src/static/planner.js:67-72 | each landmark carries the name, latitude and longitude of the place at the same position; reading them back gives the places unchanged |
| Selection.OrdersAreOneToN | src/static/planner.js:67-72 | landmark `i` has order `i + 1`, so the orders are exactly 1, 2, ..., n |
| Selection.PayloadLandmarks | src/static/app.js:155-173 | the request's landmarks: as many as the slice keeps, numbered 1..n, carrying the selected places, each a different search result |
| Planner.PlannerPage.constructor | src/static/planner.js:3-4 | the search is centred on the default location and the category starts as "Landmark" |
| Planner.PlannerPage.Locate | src/static/planner.js:14-18 | a geolocation fix replaces the search centre and nothing else |
| Planner.PlannerPage.SetCategory | src/static/planner.js:37-38 | the selected category becomes the argument and nothing else changes |
| Planner.PlannerPage.StartSession | src/static/planner.js:47-79 | a missing or empty result list sends no request and restores the button's text and enabled state; otherwise the request carries the page's location, the radius, the selected category and the numbered selection |
| Planner.StartedQuest | src/static/planner.js:66-79 | a started quest sends `min(count, number of results)` landmarks numbered 1..n, each a different result, around the page's location and in its category |
| QuestPage.Page.constructor | src/static/app.js:15 | there is no origin and no quest landmarks when the page loads |
| QuestPage.Page.SendPosition | src/static/app.js:48-50 | the first fix becomes the origin; once set, the origin never changes |
| QuestPage.Page.GetRandomLandmarks | src/static/app.js:134-174 | a missing or empty result list leaves the landmarks unchanged and sends nothing; otherwise the landmarks become the selection, and the request carries the origin, the radius (default 2000), the category and the numbered selection |
| QuestPage.Page.StartSession | src/static/app.js:111-131 | the previous landmarks are cleared first; with no origin, nothing is fetched or sent |
| QuestPage.StartedQuest | src/static/app.js:155-173 | once an origin is set, a started quest keeps at most `count` different results, and sends them numbered 1..n from the origin |
| QuestPage.OriginLatches | src/static/app.js:48-50 | after the first fix, any number of later fixes leave the origin where the first fix put it |

## Left out

- Distance computation: `calculate_distance` in `src/geocalc.py` is not part of this model. The gate takes the distance as a number, so the fixed target point (`src/main.py:10`) does not appear.
- ProximityGate.RoundTenth: rounds the exact real value. Python rounds the binary float, and that value can fall on the other side of a tie.
- HTTP plumbing is not modelled: FastAPI, the static-file mount and the `/` page (`src/main.py:14-22`), `fetch` calls, JSON decoding, `alert`, logging and page navigation. The search reply and the shuffle order are parameters.
- Planner.PlannerPage.StartSession: the `catch` path is not modelled. A failed request there would set the button to "Try Again".
- Planner.PlannerPage.StartSession: navigation after a `session_created` reply is not modelled.
- Map rendering is not modelled: map and marker creation, `initMap`, and the polling timer (`src/static/app.js:208`).
- The check-proximity request sent from `sendPosition` (`src/static/app.js:67-85`) is left out. It is the same gate seen from the browser, and only the origin latch is modelled there.
- The distribution of `Math.random()` in the comparator is not modelled. Any permutation is allowed.
- The in-place reordering of the reply's `results` array by `sort` is not modelled. That array is not read again.
- QuestPage.Page.StartSession: `getRandomLandmarks` is not awaited in the source, so the reset and the later assignment may interleave with other events. The model runs the call to completion.
- QuestPage.Page.GetRandomLandmarks: the category selector is read twice in the source (lines 141 and 167). The model takes one value for both reads. The `originLat`/`originLng` arguments only shape the search URL, so they do not appear.
- Planner.PlannerPage.StartSession: the source reads `userLocation` and `selectedCategory` twice, once for the search URL (`src/static/planner.js:55`) and again for the request (lines 75-77) after two `await`s. Only the start button is disabled meanwhile, so a category click or a late geolocation fix in between would change what is sent. The model takes both values as they are when the call starts.
- Planner.PlannerPage.StartSession: `count` is an integer. A fractional or non-numeric `count`, which `slice` would coerce, is not modelled.
- QuestPage.Page.GetRandomLandmarks: `count` is an integer. A fractional `count` or a non-numeric one, which `slice` would coerce, is not modelled.
- Quest sessions on the server are not modelled: stamps, riddles, image verification and session completion. The client in `frontend/lib/api.ts` calls them, but their server code is not part of this model.
- The React screens and components under `frontend/` are presentation over mock data and are not modelled.
