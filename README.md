# Virtual try-on front end — a verified Dafny model

This project models the decision logic of a React front end for a virtual
clothing try-on service. It covers five parts of the app:

- **Pose-similarity gate** (`src/poseUtils.js`, module `PoseUtils`).
  - A try-on starts only when the customer's full-body pose matches the pose in the chosen clothing photo.
  - Each pose is normalized into a shoulder frame: the left shoulder becomes the origin and coordinates are divided by the shoulder width.
  - The comparison then averages weighted keypoint distances and joint-angle differences.
  - The pair matches when the distance is below 0.4 and the angle difference is below 12 degrees.
- **Clothing gallery** (`src/ClothingGallery.js`, module `ClothingGallery`): the search filter, which is case-insensitive, exact for an all-digit term and a substring match otherwise; the window of six thumbnails; and the gallery's state transitions.
- **Analytics chart** (`src/admin/ViewAnalytics.js`, module `ViewAnalytics`): a fixed window of per-day buckets, with a counter per event type and a total.
- **Session** (`src/AuthContext.js`, module `AuthContext`): restoring the signed-in user from `localStorage`, `login` with its redirect by role, and `logout`.
- **Try-on page and route guard** (`src/App.js`, module `App`):
  - the `PrivateRoute` decision and the role lists of `/` and `/admin`;
  - the credit rules;
  - the ordered checks before a try-on;
  - the progress bar;
  - the completion and failure paths;
  - `handleReload`.

How the model is built:

- Pure logic (lookups, normalization, the filter, the page slice, the route decision) is written as functions.
- Each loop of the source is a method with loop invariants, proved equal to a function that states its result:
  - `comparePoses` runs a weighted distance pass and an angle pass;
  - `processAnalyticsForChart` creates the buckets, counts the events and reads the buckets back.
- Component state is a class with a field per state variable: `Gallery`, `AuthProvider`, `TryOnApp`, and `LocalStorage` for the browser store. Each handler is a method that states the whole new state.

Positions are mathematical reals. `Math.sqrt` and `Math.atan2` are passed in as a `MathLib` value, and two predicates state their laws:

- `SqrtLaws`: the square root is non-negative and squares back to its argument.
- `Atan2Laws`: atan2 in degrees lies in [-180, 180].

Other abstractions:

- Calendar dates are integer day numbers, and "today" is a parameter.
- Network answers (the credit lookup, the credit deduction, the gallery fetch) are parameters of the methods that consume them.
- `JSON.parse` and `JSON.stringify` form a `JsonCodec` value. `parse` is partial, and `JsonLaws` states that parsing a stringified user returns that user.
- Navigation is the last path navigated to.

`real_facts.dfy` holds small facts about real multiplication and division that the geometry proofs use.

Facts about the pose code worth knowing:

- **Normalization.** It does not rotate the pose: the right shoulder ends at distance 1 from the origin, not on the x-axis.
- **Scaling.** Scaling a pose by k > 0 leaves the normalized pose unchanged; scaling by k < 0 mirrors it through the origin (`NormalizeScaled`).
- **Thresholds.** The thresholds are 0.4 for the weighted distance and 12 degrees for the angle difference.

## Model

| member | source | states |
|---|---|---|
| PoseUtils.FindIsFirstMatch | src/poseUtils.js:31 | `getKeypoint` finds nothing exactly when no keypoint names the part; otherwise it returns the keypoint at the first index that names it |
| PoseUtils.CalculateAngle | src/poseUtils.js:34-41 | the folded joint angle always lies in [0, 180] |
| PoseUtils.DistanceIsZeroIff | src/poseUtils.js:52-57 | the shoulder distance is 0 exactly when the two points coincide |
| PoseUtils.DistanceSymmetric | src/poseUtils.js:108-110 | the keypoint distance does not depend on argument order |
| PoseUtils.MapPositions | src/poseUtils.js:59-65 | the mapped list has the same length, and each keypoint keeps its part and score with only its position transformed |
| PoseUtils.NormalizePose | src/poseUtils.js:44-68 | a normalized pose keeps the pose score, the keypoint count, and every keypoint's part and score |
| PoseUtils.NormalizeFailsExactly | src/poseUtils.js:48-57 | normalization fails exactly when a shoulder is missing or the two shoulders coincide |
| PoseUtils.NormalizedLookup | src/poseUtils.js:59-67 | looking up a part in the normalized pose finds the original keypoint, moved to (p - leftShoulder) / shoulderDist |
| PoseUtils.NormalizeKeepsConfidence | src/poseUtils.js:59-67 | normalization never changes whether a part is present with score > 0.5 |
| PoseUtils.NormalizeShoulderFrame | src/poseUtils.js:52-67 | after normalization the left shoulder is at (0, 0) and the right shoulder is at distance 1 from it |
| PoseUtils.UnitShoulderFrame | src/poseUtils.js:52-64 | in the frame of l scaled by \|lr\|, l maps to the origin and r lands on the unit circle |
| PoseUtils.NormalizeTranslationInvariant | src/poseUtils.js:44-68 | moving every keypoint by the same offset does not change the normalized pose |
| PoseUtils.DistanceScaled | src/poseUtils.js:52-55 | scaling both points by k scales their distance by \|k\| |
| PoseUtils.NormalizeScaled | src/poseUtils.js:44-68 | scaling a pose by k != 0 leaves normalization failing or succeeding as before; the normalized pose is unchanged for k > 0 and mirrored through the origin for k < 0 |
| PoseUtils.ComparisonIgnoresPlacement | src/poseUtils.js:72-78 | moving a pose and scaling it by k > 0 does not change its comparison with any other pose |
| PoseUtils.TotalsSymmetric | src/poseUtils.js:100-116 | the distance-pass sums are the same with the two poses swapped |
| PoseUtils.AnglesSymmetric | src/poseUtils.js:137-151 | the angle-pass sum and count are the same with the two poses swapped |
| PoseUtils.DistanceOfSelfIsZero | src/poseUtils.js:100-116 | a pose compared with itself accumulates zero weighted distance |
| PoseUtils.AnglesOfSelfAreEqual | src/poseUtils.js:137-151 | a pose compared with itself accumulates zero angle difference |
| PoseUtils.TotalWeightPositiveIff | src/poseUtils.js:100-118 | with positive weights, totalWeight > 0 exactly when some table part is present with score > 0.5 in both poses |
| PoseUtils.AngleDifferenceSumBounds | src/poseUtils.js:137-151 | the summed angle difference lies between 0 and 180 times the number of joints compared |
| PoseUtils.AverageAngleDifferenceRange | src/poseUtils.js:137-153 | the average angle difference is 0 when no joint is compared, and always lies in [0, 180] |
| PoseUtils.PosesSimilarSymmetric | src/poseUtils.js:72-164 | `comparePoses(a, b) == comparePoses(b, a)` |
| PoseUtils.PosesSimilarReflexive | src/poseUtils.js:72-164 | a pose with distinct shoulders and some weighted part scored above 0.5 matches itself |
| PoseUtils.AbsentPoseRejects | src/poseUtils.js:73 | an absent pose never matches, in either position |
| PoseUtils.DegeneratePoseRejects | src/poseUtils.js:75-78 | a pose without two distinct shoulders never matches, in either position |
| PoseUtils.NoSharedConfidentPartRejects | src/poseUtils.js:103-118 | when no weighted part is confident in both poses, the answer is false |
| PoseUtils.TotalsOfSameView | src/poseUtils.js:103-116 | the distance pass depends only on which parts are confident and where they are |
| PoseUtils.AnglesOfSameView | src/poseUtils.js:140-151 | the angle pass depends only on which parts are confident and where they are |
| PoseUtils.NormalizeSameView | src/poseUtils.js:44-68 | poses with the same shoulders and the same confident parts normalize to poses with the same confident parts |
| PoseUtils.SameViewSimilar | src/poseUtils.js:72-164 | two such poses compare alike against any pose |
| PoseUtils.LowScorePartIsIgnored | src/poseUtils.js:103-151 | lowering a non-shoulder part's score to at most 0.5 gives the same answer as deleting that part |
| PoseUtils.DistancePass | src/poseUtils.js:100-116 | the loop's totalWeightedDistance and totalWeight equal the sums over the confident parts of the weight table |
| PoseUtils.AnglePass | src/poseUtils.js:137-151 | the loop's totalAngleDifference and anglesCompared equal the sum and count over the fully confident joints |
| PoseUtils.ComparePoses | src/poseUtils.js:72-165 | the answer is false for an absent or unnormalizable pose or a zero total weight; otherwise it is true exactly when the weighted mean distance is < 0.4 and the mean angle difference is < 12 |
| ClothingGallery.ToLower | src/ClothingGallery.js:64 | lower-casing keeps the length and lowers each character |
| ClothingGallery.Includes | src/ClothingGallery.js:79 | `includes` is true exactly when the term occurs at some index |
| ClothingGallery.Matches | src/ClothingGallery.js:61-81 | an empty search passes every image; an all-digit term passes exactly the images whose lower-cased number equals it; any other term passes exactly when it occurs in number+version or in the name, lower-cased, with missing fields read as "" |
| ClothingGallery.FilterImages | src/ClothingGallery.js:61-81 | the filtered list holds exactly the matching images and is a subsequence of the list, in order |
| ClothingGallery.FilterAppend | src/ClothingGallery.js:61-81 | filtering a list with one more image adds that image at the end exactly when it matches |
| ClothingGallery.EmptySearchKeepsAll | src/ClothingGallery.js:62 | with no committed search the filtered list is the whole list |
| ClothingGallery.SearchIsCaseInsensitive | src/ClothingGallery.js:64 | searches that lower-case alike select the same images |
| ClothingGallery.TotalPages | src/ClothingGallery.js:87 | totalPages is the ceiling of count / 6 |
| ClothingGallery.PageWindow | src/ClothingGallery.js:84-86 | a page holds at most 6 items, and page p >= 1 is the slice [6(p-1), 6p) of the filtered list, clamped to its length |
| ClothingGallery.PageOfItem | src/ClothingGallery.js:84-87 | filtered item i appears on page i / 6 + 1, which is within totalPages, at position i % 6 |
| ClothingGallery.PageNonEmptyIff | src/ClothingGallery.js:84-87 | page p >= 1 is non-empty exactly when p <= totalPages |
| ClothingGallery.Gallery.constructor | src/ClothingGallery.js:7-13 | initial state: no images, loading, no error, nothing selected, page 1, empty search |
| ClothingGallery.Gallery.FetchClothingImages | src/ClothingGallery.js:16-37 | stores the fetched list; a non-empty list selects its first image and reports that image's URL; a failed fetch sets the error message; loading ends on every path |
| ClothingGallery.Gallery.HandleThumbnailClick | src/ClothingGallery.js:45-49 | selects the image, reports its URL and shows the selected view; nothing else changes |
| ClothingGallery.Gallery.HandleBackToGallery | src/ClothingGallery.js:51-53 | hides the selected view; nothing else changes |
| ClothingGallery.Gallery.SetSearchTerm | src/ClothingGallery.js:107 | typing changes only the uncommitted term |
| ClothingGallery.Gallery.HandleSearch | src/ClothingGallery.js:55-58 | commits the typed term and returns to page 1, so the page shows the first (at most 6) matching images |
| ClothingGallery.Gallery.Paginate | src/ClothingGallery.js:89 | sets the current page; nothing else changes |
| ViewAnalytics.AddEvent | src/admin/ViewAnalytics.js:153-154 | counting an event adds 1 to its type's counter (from 0 if new) and 1 to the total, and leaves every other counter as it was |
| ViewAnalytics.Buckets | src/admin/ViewAnalytics.js:129-158 | one bucket per day of the range, in day order, each holding that day's counts |
| ViewAnalytics.BucketCountsEvents | src/admin/ViewAnalytics.js:149-156 | a day's bucket total is the number of events that day; each counter is the number of events of its type that day; the counters are the default types plus the types seen that day |
| ViewAnalytics.ChartIsWindow | src/admin/ViewAnalytics.js:124-158 | the chart has 1, 30 or 7 buckets by period, ends at today, and is strictly ascending by date |
| ViewAnalytics.AppendEvent | src/admin/ViewAnalytics.js:149-156 | one more event changes only its own day's bucket, by counting it; an out-of-window event changes nothing |
| ViewAnalytics.SumOfTotalsCountsRange | src/admin/ViewAnalytics.js:149-156 | the bucket totals of a day range add up to the number of events in that range |
| ViewAnalytics.ChartTotalsCountWindowEvents | src/admin/ViewAnalytics.js:149-156 | the chart's totals add up to the number of events inside the window |
| ViewAnalytics.ProcessAnalyticsForChart | src/admin/ViewAnalytics.js:116-159 | the three loops produce exactly the specified chart, which is empty for missing or empty data |
| ViewAnalytics.AddEventAsWritten | src/admin/ViewAnalytics.js:153-154 | the source's update adds 1 to the total for an ordinary event type, and 2 for an event whose type is "total" |
| ViewAnalytics.AsWrittenAgreesOffTotal | src/admin/ViewAnalytics.js:153-154 | for every event type other than "total", the source's update and `AddEvent` agree |
| ViewAnalytics.TotalEventCountedTwice | src/admin/ViewAnalytics.js:153-154 | one "total" event gives a total of 2 in the source's bucket and 1 in `AddEvent`'s |
| AuthContext.LocalStorage.SetItem | src/AuthContext.js:31-32 | stores the value under the key, keeping the other keys |
| AuthContext.LocalStorage.RemoveItem | src/AuthContext.js:43-44 | removes the key, keeping the other keys |
| AuthContext.LocalStorage.Clear | src/AuthContext.js:22 | empties the store |
| AuthContext.LoginTarget | src/AuthContext.js:35-39 | login goes to "/admin" exactly for admin and super-admin, and to "/" otherwise |
| AuthContext.LoginThenReloadRestoresUser | src/AuthContext.js:13-33 | after a login with a non-empty token, a reload restores exactly the user who logged in; with an empty token it finds no session |
| AuthContext.LogoutThenReloadFindsNoSession | src/AuthContext.js:42-47 | after a logout, a reload finds no session, and every other stored key is kept |
| AuthContext.LogoutIsIdempotent | src/AuthContext.js:42-44 | logging out twice leaves the same storage as logging out once |
| AuthContext.AuthProvider.constructor | src/AuthContext.js:7-8 | starts with no user and loading |
| AuthContext.AuthProvider.InitialLoad | src/AuthContext.js:11-28 | restores the user only when both token and user are stored and the user parses; clears the whole store on a parse failure; loading is false on every path |
| AuthContext.AuthProvider.Login | src/AuthContext.js:30-40 | stores token and serialised user, sets the user, and navigates to the role's landing page |
| AuthContext.AuthProvider.Logout | src/AuthContext.js:42-47 | removes token and user, clears the user, and navigates to "/auth" |
| App.PrivateRoute | src/App.js:540-556 | loading view while loading; redirect to "/auth" with no user; the page exactly when no role list is given or the role is in it; access denied otherwise |
| App.AdminAccessImpliesRootAccess | src/App.js:568-575 | whoever may open "/admin" may open "/" |
| App.LoginTargetAdmits | src/App.js:568-575 | the page login navigates to admits the user exactly when the role is user, admin or super-admin |
| App.TryOnCheck | src/App.js:210-222 | the first failed check, in the order pose match, credits (role "user" only), clothing URL, decides the outcome; each outcome is stated as an if-and-only-if |
| App.CreditsOnlyGateUsers | src/App.js:215 | for anyone who is not a "user", the credit flag never changes the outcome of the checks |
| App.QueueProgress | src/App.js:246 | progress is 20 + 10 per log line up to 7 lines and 90 from 7 lines on, and always lies in [20, 90] |
| App.QueueProgressMonotone | src/App.js:246 | more log lines never move the progress bar back |
| App.TryOnApp.constructor | src/App.js:28-41 | initial page state: no credits, no match, upload view, progress 0 |
| App.TryOnApp.FetchUserCredits | src/App.js:97-163 | admins get 999; a store "user" gets the store's credits, or 0 on failure, where 401 drops the session and flags an auth error, 403 flags one, and a missing token flags one; everyone else gets 0; hasEnoughCredits == credits > 0 afterwards |
| App.TryOnApp.CheckPoses | src/App.js:82-94 | when both poses are known, the model is loaded and the selected image is shown, the match flag and status text record `comparePoses`; otherwise nothing changes |
| App.TryOnApp.SelectClothing | src/App.js:447-449 | the gallery's choice becomes the clothing URL |
| App.TryOnApp.HandleTryOn | src/App.js:210-238 | a failed check alerts and changes nothing; otherwise the processing view is shown at 10% with "Initializing..." |
| App.TryOnApp.OnQueueUpdate | src/App.js:243-254 | while "IN_PROGRESS", progress follows the log count and the text shows the latest log; other updates change nothing |
| App.TryOnApp.FinishTryOn | src/App.js:257-329 | result stored at 100%; a store "user"'s deduction sets new credits with hasEnoughCredits kept; 401 drops the session and goes to "/auth"; 400 stops; both keep the processing view; other failures only warn |
| App.TryOnApp.FailTryOn | src/App.js:331-336 | a failed try-on returns to the upload view and stops loading |
| App.TryOnApp.HandleReload | src/App.js:339-345 | upload view, no result, progress 0, empty text, not loading; nothing else changes |

## Left out

- `loadPoseNet` and `estimatePose` (src/poseUtils.js:5-28) and the pose-estimation effects in src/App.js: these are calls into TensorFlow/PoseNet. A pose is an input here.
- IEEE-754 arithmetic: NaN, infinities and rounding are not modelled. Positions are reals, and `Math.sqrt` and `Math.atan2` are abstract functions constrained by `SqrtLaws` and `Atan2Laws`.
- The `console.log` and `console.error` calls.
- All network traffic: axios calls, `fal.subscribe`, the analytics POST after a deduction, and the credentials in `fal.config`. Their outcomes are method parameters.
- React rendering, effect triggers and ordering, `setTimeout` and async scheduling: handlers are sequential state updates. The gallery's `if (user)` fetch guard and the 500 ms delay before the result view are not modelled.
- `window.location.href` and `navigate`: both are recorded as the last path navigated to.
- `handleFullBodyImageChange`, the camera capture and the image upload widgets: these handle files and URLs and make no decisions modelled here.
- The `catch` branch of `handleTryOn` shows `alert("Error: ...")` with the exception's text. `FailTryOn` models the state change, not the message.
- ViewAnalytics' fetching of analytics, stores and users, and its filters. Only `processAnalyticsForChart` is modelled.
- Calendar arithmetic: `Date`, `toISOString`, `toLocaleDateString` and time zones. Dates are integer day numbers, and `displayDate` is not modelled.
- ViewAnalytics.ProcessAnalyticsForChart: it does not model an invalid `created_at`, for which `toISOString` throws.
- ViewAnalytics.ProcessAnalyticsForChart: the final sort by date is modelled as reading the buckets in creation order. Creation order is already ascending, which `ChartIsWindow` states.
- ViewAnalytics.AddEvent: it does not model event types "date" and "displayDate". In the source these overwrite the bucket's date fields by string concatenation.
- ViewAnalytics.AddEvent: it counts an event of type "total" once, whereas the source counts it twice (see "## Findings"; the source's update is `AddEventAsWritten`). It also does not model event types that name inherited object members ("toString", "constructor", "__proto__"): in the source the counter update reads the inherited member and stores a string, or stores nothing for "__proto__", where the model stores 1.
- ClothingGallery.ToLower: it lower-cases ASCII letters only, whereas `toLowerCase` also folds non-ASCII letters.
- ClothingGallery.Matches: numbers, versions and names are strings. A numeric `clothing_number` of 0 is falsy in JavaScript and reads as "", which is not modelled.
- AuthContext.JsonCodec: it does not tell apart `JSON.parse` results that are not objects, such as a stored `"null"`.
- App.TryOnApp.constructor: `loading` starts as the number 0 in the source; it is the boolean false here.
- The admin pages (users, stores, clothing images), the authentication form and the admin dashboard's navigation are not part of this model.

## Findings

| source | as written | input that shows it | evidently intended | confidence | as-written member | corrected member |
|---|---|---|---|---|---|---|
| src/admin/ViewAnalytics.js:153-154 | the event type's counter and the day's `total` live in the same object, so an event whose `event_type` is "total" bumps `total` twice | one event of type "total" on a day inside the window: the bucket reports total 2 | every event adds exactly 1 to its day's total, so the totals add up to the number of events in the window | low, not executed | ViewAnalytics.TotalEventCountedTwice | ViewAnalytics.ChartTotalsCountWindowEvents |
