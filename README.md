# DakDash in Dafny

DakDash tracks India Post consignments (and five other Indian carriers)
through the TrackingMore service. Its back end is a FastAPI application. It
validates a tracking number, asks TrackingMore for the record, normalises
the record into a `TrackingResponse`, and adds a rule-based delay verdict and
a one-sentence summary. Its front end is a React application with a landing
page and a tracking page. It keeps the ten most recent searches in
`localStorage`, translates failed requests into messages, and draws the
result card, the delay badge, the event timeline and a light/dark theme.

This project models that core in Dafny and proves properties of the model.

- **Back end, pure logic as functions.** Field fallbacks, the status table,
  the location and address composition, the delay rules and the summary's
  decision tree are datatypes and functions, with lemmas about them.
- **Back end, steps as methods.** Where the source works step by step, the
  model is a method proved against those functions:
  - the loop over `trackinfo` (`Normalize.CollectEvents`, `Carriers.CollectEvents`);
  - the field-by-field overwrites of `detect_delay` (`DelayDetection.DetectDelay`);
  - the endpoint itself (`TrackingApi.TrackConsignment`).
- **Front end state as classes.**
  - `localStorage` is a class whose `map` field the methods update.
  - The router history is a class holding a sequence of routes.
  - Each page is a class whose fields are its React state.
  - Each handler is a method with the new state in its `ensures`.
  - Rendering decisions are functions.

Modules, one per source file or shared concern:

| module | file | models |
|---|---|---|
| `Wrappers` | wrappers.dfy | `Option` and `Result` |
| `Text` | text.dfy | ASCII `lower`/`title`, `in`/`includes`, JavaScript `trim` and UTF-16 `length`, integer formatting |
| `Models` | models.dfy | backend/models.py |
| `Upstream` | upstream.dfy | the TrackingMore record and the friendly-status table shared by main.py and carriers.py |
| `Normalize` | normalize.dfy | `normalize_tracking_data` in backend/main.py |
| `DelayDetection` | delay_detection.dfy | backend/delay_detection.py |
| `TrackingApi` | tracking_api.dfy | the endpoints and the exception handler in backend/main.py |
| `Carriers` | carriers.dfy | backend/carriers.py |
| `BrowserStorage`, `RecentSearches` | storage.dfy | `localStorage`; frontend/src/utils/storage.js |
| `Navigation` | navigation.dfy | the router's history (`navigate`) |
| `Validation` | validation.dfy | the input check both pages repeat |
| `ApiClient` | api_client.dfy | frontend/src/services/api.js |
| `TrackingPage` | tracking_page.dfy | frontend/src/pages/TrackingPage.jsx |
| `LandingPage` | landing_page.dfy | frontend/src/pages/LandingPage.jsx |
| `Ui`, `TrackingResult` | tracking_result.dfy | frontend/src/components/TrackingResult.jsx |
| `DelayBadge` | delay_badge.dfy | frontend/src/components/DelayBadge.jsx |
| `TrackingTimeline` | tracking_timeline.dfy | frontend/src/components/TrackingTimeline.jsx |
| `ThemeContext` | theme_context.dfy | frontend/src/ThemeContext.jsx |

Inputs that come from outside the program are parameters:

- the two TrackingMore exchanges, each given as its outcome (`TrackingApi.Exchange`);
- the hours since the last update, which depend on the clock;
- the timestamp parser `datetime.fromisoformat`;
- the result of each front-end request (`ApiClient.Fetch`);
- the current time in milliseconds;
- the locale formatting of dates and times.

What the front end does not do:

- The front end makes one request with a 30 s timeout. It has no retry, no
  back-off and no longer timeout.
- A completed request is applied whatever request it answers. Nothing keeps
  only the latest one.
- The length check counts the untrimmed input.
- The number is not URL-encoded before it is put into the request path.

## Model

| member | source | states |
|---|---|---|
| Text.Lower | backend/main.py:329 | `str.lower`/`toLowerCase` on ASCII: same length, every character lower-cased |
| Text.Title | backend/main.py:329 | each character of `status.title()` is the upper case of the character when the one before it is not a letter (or it is the first), and its lower case otherwise |
| Text.TitleCase | backend/main.py:329 | in `status.title()` a letter is upper case exactly when the character before it is not a letter, and every other character is kept |
| Text.LowerOfTitle | backend/main.py:329 | lower-casing a title-cased status gives the lower-cased status back |
| Text.ContainsAt | frontend/src/components/TrackingResult.jsx:64 | `includes(sub)` holds exactly when `sub` occurs at some position |
| Text.TrimEmpty | frontend/src/pages/TrackingPage.jsx:51 | `trim()` is empty exactly when every character is ECMAScript whitespace |
| Text.Utf16Length | frontend/src/pages/TrackingPage.jsx:56 | JavaScript `length` lies between the code-point count and twice it |
| Text.Utf16LengthAscii | frontend/src/pages/TrackingPage.jsx:56 | without characters beyond U+FFFF, JavaScript `length` is the character count |
| Upstream.Or | backend/main.py:275-277 | Python `a or b`: one of the two, empty only when both are |
| Upstream.FriendlyStatus | backend/main.py:314-329 | a status whose lower case is in the table gives its table name; an unmapped non-empty one gives its `title()` form, equal to it up to case; "" gives "Unknown"; never empty |
| Upstream.FriendlyStatusDelivered | backend/main.py:317-329 | the friendly status is "Delivered" exactly when the upstream status is "delivered" in any case |
| Upstream.OnlyDeliveredMapsToDelivered | backend/main.py:317-327 | only the key "delivered" maps to "Delivered" |
| Upstream.FriendlyStatusIgnoresCase | backend/main.py:329 | statuses equal up to case get the same table name |
| Models.ResponseDefaults | backend/models.py:27-46 | an omitted field takes its default: carrier "India Post", empty origin, destination and events, no delay and no summary |
| Models.ErrorResponseDefaults | backend/models.py:80-84 | an error body has `error` true and no tracking number by default |
| Normalize.ComposeLocation | backend/main.py:280-294 | both present gives the office, " - " and the detail (prefix, separator, suffix and length); only the office gives the office; only the detail gives the detail; neither gives "Unknown location"; never empty |
| Normalize.ToEvent | backend/main.py:275-301 | every built event has a non-empty location |
| Normalize.EveryEntryYieldsOneEvent | backend/main.py:272-301 | the keep-test never drops an entry: one event per `trackinfo` entry, in order |
| Normalize.InsertPermutes | backend/main.py:304-308 | inserting adds exactly the one event and loses none (multiset) |
| Normalize.InsertKeepsOrder | backend/main.py:304-308 | inserting into a newest-first list keeps it newest first |
| Normalize.SortNewestFirst | backend/main.py:304-308 | the sort is a permutation of its input |
| Normalize.SortNewestFirstSorts | backend/main.py:304-308 | the sort's result is newest first |
| Normalize.ArrangeEvents | backend/main.py:303-311 | a permutation; newest first when every timestamp parses; otherwise the original order |
| Normalize.NewestFirstEnds | backend/main.py:346-348 | in a newest-first list the first event is the newest and the last the oldest |
| Normalize.OriginFromInfo | backend/main.py:336-344 | the origin from `origin_info` is empty exactly when both postal code and country are missing or empty |
| Normalize.DestinationParts | backend/main.py:359-367 | the parts are exactly the non-empty ones of city, state and postal code: city first, a state different from the city right after it, postal code last; a state equal to the city dropped |
| Normalize.CollectEvents | backend/main.py:268-301 | the loop builds exactly the event list `EventsFrom` specifies |
| Normalize.ComposeOrigin | backend/main.py:331-348 | the step-by-step origin equals `OriginOf`: the `origin_info` text, else the last event's location |
| Normalize.ComposeDestination | backend/main.py:350-375 | the step-by-step destination equals `DestinationOf` |
| Normalize.NormalizeTrackingData | backend/main.py:256-388 | each response field: the number, "India Post", the arranged events, the friendly status, origin, destination and last update; no delay or summary yet |
| Normalize.EventsArePermutationOfEntries | backend/main.py:268-311 | the response events are exactly the converted `trackinfo` entries, one each, in some order |
| Normalize.OriginIsOldestEvent | backend/main.py:346-348 | without origin fields the origin is the oldest event's location; it is empty only without events |
| Normalize.DestinationOfDelivered | backend/main.py:373-375 | without destination fields a delivered shipment's destination is the newest event's location; any other status leaves it empty |
| Normalize.DeliveredCheck | backend/main.py:374 | the lower-cased friendly status is "delivered" exactly for an upstream "delivered" |
| DelayDetection.ThresholdVerdict | backend/delay_detection.py:53-72 | whichever time threshold applies, the verdict records the hours |
| DelayDetection.DetectDelay | backend/delay_detection.py:10-93 | handed dictionaries, the field-by-field overwrites give exactly the priority-ordered verdict `DelayVerdict`; handed event models, the raise at the first `events[0].get` and the `except` give exactly `DelayVerdictAsCalled` |
| DelayDetection.VerdictInRange | backend/delay_detection.py:23-93 | every verdict has one of four severities and one of five statuses |
| DelayDetection.DeliveredIsNormal | backend/delay_detection.py:33-36 | a delivered shipment is Normal/none with the delivered message, whatever else holds |
| DelayDetection.ExceptionOverridesAll | backend/delay_detection.py:84-88 | once a timestamp is read, exception/alert/undelivered give Exception/high over every other rule |
| DelayDetection.StuckOverridesThresholds | backend/delay_detection.py:74-82 | same location for the two newest events and more than 36 h gives Delayed/high unless an exception status applies |
| DelayDetection.PendingCapsAtLow | backend/delay_detection.py:56-60 | a pending shipment that is not stuck is at most Possible Delay/low, however many hours pass |
| DelayDetection.SeverityMonotoneInHours | backend/delay_detection.py:55-82 | more hours never lower the severity |
| DelayDetection.ThresholdSeverityMonotone | backend/delay_detection.py:53-72 | the time thresholds alone never lower the severity as the hours grow |
| DelayDetection.ThresholdRank | backend/delay_detection.py:53-72 | the threshold severity is low for pending past 24 hours, else high past 72, medium past 48, none otherwise |
| DelayDetection.DelayVerdictAsCalled | backend/main.py:190 | the verdict the endpoint answers with, as called with model objects: the same verdict as the rules for fewer than two events |
| DelayDetection.ExceptionHiddenByCallerMismatch | backend/delay_detection.py:75-91 | for every shipment in an exception status with a last update at most 48 hours old and two or more events, the call as written reads Normal/none while the rules say Exception/high |
| DelayDetection.SummaryChecksStatusFirst | backend/delay_detection.py:109-117 | delivered and the exception statuses decide the summary before any event is read |
| DelayDetection.PickupStatusSaysOutForDelivery | backend/delay_detection.py:132-136 | the status "pickup" yields the out-for-delivery sentence, never ready-for-pickup |
| DelayDetection.ReadyForPickupNeedsEventText | backend/delay_detection.py:132-136 | ready-for-pickup is chosen only from the newest event's text, never from the status |
| DelayDetection.TransitSummaryFollowsVerdict | backend/delay_detection.py:126-130 | a transit shipment is summarised as stalled exactly when the verdict is Delayed |
| DelayDetection.NoEventsSummary | backend/delay_detection.py:144-148 | without events only "pending" changes the default sentence |
| TrackingApi.TrackConsignment | backend/main.py:119-253 | short numbers give 400 before any request; otherwise success exactly when the upstream outcome is a record, with every response field given by the normaliser (the number, the carrier "India Post", the status, the events, origin, destination and last update), the delay verdict as `detect_delay` yields it for the event models (`DelayVerdictAsCalled`), and the summary built on that verdict |
| TrackingApi.SuccessExactly | backend/main.py:173-202 | a record is used exactly when both requests were answered and the GET answer is 200 with meta code 200 and a non-empty list, and it is the first entry |
| TrackingApi.NoDataYetUnreachable | backend/main.py:177-207 | the "No tracking data available yet" error can never be raised |
| TrackingApi.ErrorStatusMapping | backend/main.py:208-231 | upstream 401 gives 500, 404 gives 404, other non-200 statuses pass through, and a 200 without usable data gives 404 |
| TrackingApi.TransportErrors | backend/main.py:233-237 | a timeout on either request gives 504 with the timeout message |
| TrackingApi.ConnectErrors | backend/main.py:239-243 | a connection failure on either request gives 503 |
| TrackingApi.ErrorReply | backend/main.py:391-401 | the error body keeps the status, has `error` true, the detail as message and no tracking number |
| TrackingApi.CarrierCodes | backend/main.py:53-61 | the listed codes, one per carrier, in order |
| Carriers.AllRegistered | backend/carriers.py:591-598 | every carrier service is in the registry |
| Carriers.Find | backend/carriers.py:616 | the lookup finds a registered service with that code, or there is none |
| Carriers.GetService | backend/carriers.py:600-621 | the service whose code is the lower-cased argument, or the "not supported" error naming the argument as given, exactly when no code matches |
| Carriers.SupportedCarriers | backend/carriers.py:623-626 | the registry's codes in declaration order |
| Carriers.GetServiceOfCode | backend/carriers.py:591-598 | each service's own code finds that service |
| Carriers.CodeInjective | backend/carriers.py:591-598 | no two services share a code |
| Carriers.GetServiceIgnoresCase | backend/carriers.py:616 | the lookup ignores letter case |
| Carriers.SupportedExactly | backend/carriers.py:616-626 | a code resolves exactly when its lower-cased form is among the supported codes |
| Carriers.SupportedMatchesEndpointList | backend/carriers.py:591-598 | the factory's codes are the `/api/carriers` codes, in the same order |
| Carriers.CarrierEventsFrom | backend/carriers.py:82-93 | at most one event per entry, and every event kept has a location or a status |
| Carriers.CarrierEventsAreKeptEntries | backend/carriers.py:82-93 | an event is listed exactly when some entry yields it and it has a location or a status |
| Carriers.CarrierEventsFromAppend | backend/carriers.py:82-93 | the events of a split list are the events of each part, in `trackinfo` order |
| Carriers.CollectEvents | backend/carriers.py:82-93 | the loop over `trackinfo` yields exactly `CarrierEventsFrom` of the entries |
| Carriers.NormalizeData | backend/carriers.py:76-126 | the loop keeps exactly `CarrierEventsFrom`; the other fields are the service's name, the friendly status, the oldest location, `recipient_address` and `update_at`/`updated_at` |
| Carriers.DroppedExactly | backend/carriers.py:84-88 | an entry is dropped exactly when it has no detail, an empty `Details` key and no checkpoint |
| Carriers.NoBlankEntriesAllKept | backend/carriers.py:82-93 | without blank entries every entry yields its event, in order |
| Carriers.LastUpdatedSourcesDiffer | backend/carriers.py:117 | the services read `update_at` where the endpoint reads `update_date`, so a record with only `update_date` differs |
| BrowserStorage.TextOf | frontend/src/utils/storage.js:28 | a stored list reads back as `[`, each item in quotes joined by `,`, and `]` (the empty list as `[]`); other text as itself |
| BrowserStorage.QuotedAll | frontend/src/utils/storage.js:28 | each item in quotes, in order |
| BrowserStorage.LocalStorage.GetItem | frontend/src/utils/storage.js:10 | the stored value, `None` for a missing key, an error when storage is inaccessible |
| BrowserStorage.LocalStorage.SetItem | frontend/src/utils/storage.js:28 | stores the value exactly when storage is accessible and writable |
| BrowserStorage.LocalStorage.RemoveItem | frontend/src/utils/storage.js:38 | removes the key exactly when storage is accessible |
| RecentSearches.GetRecentSearches | frontend/src/utils/storage.js:8-16 | the stored list when there is one; [] when the key is missing, storage is unreadable, the text is empty or not JSON, or the JSON is not an array |
| RecentSearches.Without | frontend/src/utils/storage.js:23 | exactly the entries other than the number, and the list itself when the number is absent |
| RecentSearches.WithoutAppend | frontend/src/utils/storage.js:23 | the filter works entry by entry: the kept entries keep their relative order |
| RecentSearches.WithoutOne | frontend/src/utils/storage.js:23 | filtering out a number that occurs once leaves the entries before and after it, in order |
| RecentSearches.WithoutAt | frontend/src/utils/storage.js:23 | in a list without repeats, filtering out the number leaves exactly the entries before it and after it, in order |
| RecentSearches.WithRecent | frontend/src/utils/storage.js:20-26 | the number first and only there, then the filtered earlier entries in their order, cut so that the length is exactly the smaller of ten and one more than the filtered list |
| RecentSearches.WithoutKeepsDistinct | frontend/src/utils/storage.js:23 | filtering keeps a list without repeats |
| RecentSearches.WithRecentKeepsDistinct | frontend/src/utils/storage.js:20-26 | the list never gains a repeat |
| RecentSearches.WithRecentIdempotent | frontend/src/utils/storage.js:20-26 | repeating a search stores the same list |
| RecentSearches.WithRecentBelowLimit | frontend/src/utils/storage.js:26 | below ten entries nothing is lost |
| RecentSearches.WithRecentDropsOldest | frontend/src/utils/storage.js:26 | at ten entries a new number drops the oldest |
| RecentSearches.WithRecentMovesToFront | frontend/src/utils/storage.js:20-26 | a number already listed moves to the front and the other entries keep their order |
| RecentSearches.AddRecentSearch | frontend/src/utils/storage.js:18-34 | when storage works and the key does not hold a non-array JSON value, stores exactly the updated list under the key, returns it, and a later read returns it; otherwise (storage fails, or `filter` throws on a non-array) returns [] and changes nothing |
| RecentSearches.ClearRecentSearches | frontend/src/utils/storage.js:36-42 | afterwards the list reads as []; no other key changes |
| Navigation.History.Push | frontend/src/pages/TrackingPage.jsx:98 | `navigate(path)` appends the route |
| Navigation.History.Replace | frontend/src/pages/TrackingPage.jsx:72 | `navigate(path, {replace: true})` replaces the current route |
| Validation.CheckInput | frontend/src/pages/TrackingPage.jsx:50-59 | a refusal is one of the two messages |
| Validation.CheckInputMeaning | frontend/src/pages/LandingPage.jsx:59-68 | blank input asks for a number; other input under 8 UTF-16 units is "Invalid tracking number format"; input passes exactly when it is neither |
| Validation.PaddingPassesLengthCheck | frontend/src/pages/TrackingPage.jsx:51-56 | three spaces and five digits pass: the length check does not trim |
| Validation.AcceptedBmpInputPassesServerLength | frontend/src/pages/TrackingPage.jsx:56 | input the page accepts without characters beyond U+FFFF is at least 8 characters long, so it passes the back end's length check when it reaches the back end unchanged |
| Validation.SupplementaryCharactersPassOnlyThePage | frontend/src/pages/LandingPage.jsx:65 | four characters beyond U+FFFF pass the page but are too short for the back end |
| ApiClient.BodyMessage | frontend/src/services/api.js:36 | a non-empty `message` wins; otherwise the `detail` ("" when absent); no body gives "" |
| ApiClient.ErrorMessage | frontend/src/services/api.js:33-53 | never empty; 500 always gives "Server error…"; otherwise a body message is shown; fixed texts for no response and setup failure |
| ApiClient.TrackResult | frontend/src/services/api.js:25-55 | the data exactly when the request succeeded, else the translated message |
| ApiClient.FallbackMessages | frontend/src/services/api.js:38-46 | without a usable body, 404, 400 and other statuses get their fallback texts |
| ApiClient.MessageBeforeDetail | frontend/src/services/api.js:36 | `message` is preferred to `detail` |
| ApiClient.ClientView | backend/main.py:391-401 | the back end's error reaches the client with its status |
| ApiClient.BackendErrorShown | frontend/src/services/api.js:33-46 | a back-end error detail is shown word for word except under 500 |
| ApiClient.SupportedCarriers | frontend/src/services/api.js:76-91 | the fetched list, or the built-in list on any failure |
| ApiClient.CarriersAgreeWithBackend | frontend/src/services/api.js:83-90 | the built-in list equals the back end's list, so the page offers the same carriers either way |
| TrackingPage.Page.constructor | frontend/src/pages/TrackingPage.jsx:33-41 | the state starts from the URL's number and carrier, with defaults "" and "india-post" |
| TrackingPage.Page.HandleTrack | frontend/src/pages/TrackingPage.jsx:50-63 | refused input sets the message and starts nothing; accepted input starts loading, clears the old error and data, and issues the query |
| TrackingPage.Page.CompleteTrack | frontend/src/pages/TrackingPage.jsx:65-84 | success keeps the data and the time, keeps the old error, stores exactly `WithRecent` of the stored list under the recent-search key when storage can record it (and leaves storage unchanged otherwise), and replaces the last route with the tracking route of the query; failure shows the request's message and leaves data, time, storage and history unchanged; loading ends in both |
| TrackingPage.Page.Mount | frontend/src/pages/TrackingPage.jsx:43-48 | a URL number that passes the input check is tracked once with the URL carrier; one that fails it is not tracked and its refusal message is shown; no URL number does nothing |
| TrackingPage.Page.NewSearch | frontend/src/pages/TrackingPage.jsx:93-99 | clears input, result, error and time, and pushes the bare tracking route |
| TrackingPage.Page.Refresh | frontend/src/pages/TrackingPage.jsx:101-105 | re-tracks the text in the input with the page's carrier exactly when it passes the input check, and shows the refusal message otherwise; empty text does nothing |
| TrackingPage.Page.EditInput | frontend/src/pages/TrackingPage.jsx:156-159 | typing replaces the text and hides the error |
| TrackingPage.Page.DismissError | frontend/src/pages/TrackingPage.jsx:192 | closing the alert hides the error; data, input, loading and the refresh time are unchanged |
| TrackingPage.FailureMessageNeverFallback | frontend/src/pages/TrackingPage.jsx:75 | the fallback "Failed to fetch…" is never shown |
| LandingPage.Page.constructor | frontend/src/pages/LandingPage.jsx:43-47 | the initial state |
| LandingPage.Page.Mount | frontend/src/pages/LandingPage.jsx:49-57 | loads the stored recent searches and the carrier list |
| LandingPage.Page.HandleTrack | frontend/src/pages/LandingPage.jsx:59-72 | refused input shows the message and leaves storage and history unchanged; accepted input stores exactly `WithRecent` of the stored list under the recent-search key when storage can record it (no other key changes, and nothing changes otherwise), pushes the tracking route, and the list on screen stays stale |
| LandingPage.Page.HandleClearHistory | frontend/src/pages/LandingPage.jsx:80-83 | the stored list and the list on screen are both empty; when storage is accessible only the recent-search key is removed, and otherwise storage is unchanged |
| LandingPage.Page.ShownRecent | frontend/src/pages/LandingPage.jsx:254 | a prefix of the recent list of exactly the smaller of five and its length |
| LandingPage.Page.SelectRecent | frontend/src/pages/LandingPage.jsx:256 | clicking a shown entry that passes the input check records it as `WithRecent` when storage can record it and pushes its tracking route with the selected carrier; one that fails shows the refusal and leaves storage and history unchanged |
| LandingPage.Page.EditInput | frontend/src/pages/LandingPage.jsx:203-206 | typing replaces the text and clears the error |
| LandingPage.Page.SelectCarrier | frontend/src/pages/LandingPage.jsx:185 | the picker sets the carrier only |
| TrackingResult.IconFollowsColor | frontend/src/components/TrackingResult.jsx:62-81 | the unused `getStatusColor` names exactly the colour the chip's icon is drawn in |
| TrackingResult.StatusColorIgnoresCase | frontend/src/components/TrackingResult.jsx:63 | the chip's icon (and the unused colour) ignore letter case |
| TrackingResult.DeliveredWordWins | frontend/src/components/TrackingResult.jsx:62-65 | any status containing "delivered" gets the check-mark icon in the success colour |
| TrackingResult.UndeliveredShownAsDelivered | frontend/src/components/TrackingResult.jsx:62-65 | every record whose `delivery_status` is "undelivered" shows the green check-mark icon, while once it has a last update the rules' delay verdict is Exception, and so is the endpoint's verdict when fewer than two events came back |
| TrackingResult.IntendedStatusIcon | frontend/src/components/TrackingResult.jsx:62-73 | the error icon for a status saying "undelivered", so never the check mark there; otherwise the icon as written |
| TrackingResult.IntendedNotCheckMark | frontend/src/components/TrackingResult.jsx:62-73 | with the intended icon, a status without "delivered" or saying "undelivered" never gets the check mark |
| TrackingResult.IntendedIconOfExceptionStatuses | frontend/src/components/TrackingResult.jsx:62-73 | with the intended icon no exception status shows the check mark |
| TrackingResult.IntendedIconOfDelivered | frontend/src/components/TrackingResult.jsx:64-65 | with the intended icon "delivered" still shows the check mark |
| TrackingResult.RefreshBuckets | frontend/src/components/TrackingResult.jsx:53-61 | under 10 s "Just now"; whole seconds under a minute; whole minutes under an hour; then the locale time |
| TrackingResult.ShownLocation | frontend/src/components/TrackingResult.jsx:211 | an empty origin or destination shows "Information not available" |
| TrackingResult.EventCount | frontend/src/components/TrackingResult.jsx:253 | the count is the number of events, 0 without a list |
| TrackingResult.CardOfEnrichedResponse | frontend/src/components/TrackingResult.jsx:259 | for an endpoint response the card shows the badge, and the timeline exactly when there are events |
| DelayBadge.BadgeFor | frontend/src/components/DelayBadge.jsx:13-82 | no verdict or "Normal" gives "On Track"; otherwise the verdict's status is the caption; a coloured chip shows the verdict's message |
| DelayBadge.IconFollowsTone | frontend/src/components/DelayBadge.jsx:31-62 | the icon always belongs to the colour; four colours are used |
| DelayBadge.BadgeOfVerdict | frontend/src/components/DelayBadge.jsx:31-62 | for the rules' verdict: red exactly for Delayed and Exception, amber for medium, blue for low, green exactly for Normal and Unknown |
| DelayBadge.BadgeOfAsCalledVerdict | frontend/src/components/DelayBadge.jsx:31-62 | for the verdict the endpoint answers with: the same colours, caption and tooltip as for the rules' verdict |
| DelayBadge.BadgeOfMatchingVerdict | frontend/src/components/DelayBadge.jsx:31-62 | for any verdict whose severity matches its status, the colour is decided by the status and severity as above |
| DelayBadge.VerdictSeverityMatchesStatus | backend/delay_detection.py:23-93 | each verdict's severity is one of four and follows from its status |
| DelayBadge.ThresholdSeverityMatchesStatus | backend/delay_detection.py:53-72 | the time thresholds pair low or medium with Possible Delay, high with Delayed, none with Normal |
| DelayBadge.UnknownVerdictBadge | frontend/src/components/DelayBadge.jsx:54-60 | a shipment with no timestamp shows a green "Unknown" chip with the tooltip "On track" |
| TrackingTimeline.EventIconOf | frontend/src/components/TrackingTimeline.jsx:20-37 | the large icons exactly for the first row; a check mark exactly when the status contains "delivered" |
| TrackingTimeline.FormatDate | frontend/src/components/TrackingTimeline.jsx:44-58 | an empty timestamp shows as ""; any other shows as its locale date and time |
| TrackingTimeline.Rows | frontend/src/components/TrackingTimeline.jsx:83-165 | one row per event, in order, with its status and location, the icon `getEventIcon` gives for its index and status, and its formatted date |
| TrackingTimeline.EmptyNotice | frontend/src/components/TrackingTimeline.jsx:181-187 | the empty notice is shown exactly when there are no events |
| TrackingTimeline.TimelineShape | frontend/src/components/TrackingTimeline.jsx:83-104 | only the first row is raised; every row but the last has a connector and padding; only the first connector is primary |
| TrackingTimeline.SingleEventRow | frontend/src/components/TrackingTimeline.jsx:88-92 | a single event has no connector and no padding |
| TrackingTimeline.FirstIconAgreesWithChip | frontend/src/components/TrackingTimeline.jsx:24-28 | the newest event has a check mark exactly when the result card's chip shows its check mark |
| ThemeContext.SavedMode | frontend/src/ThemeContext.jsx:22-25 | the saved text unless missing or empty, else "light"; never empty |
| ThemeContext.NextMode | frontend/src/ThemeContext.jsx:32-34 | light becomes dark; anything else becomes light |
| ThemeContext.CurrentTheme | frontend/src/ThemeContext.jsx:36-39 | the dark theme exactly for "dark" |
| ThemeContext.ThemeProvider.constructor | frontend/src/ThemeContext.jsx:20-30 | the mode read from storage is saved back |
| ThemeContext.ThemeProvider.Toggle | frontend/src/ThemeContext.jsx:28-34 | toggles and saves the new mode |
| ThemeContext.UseThemeMode | frontend/src/ThemeContext.jsx:12-18 | the provider's value inside a provider, the error outside |
| ThemeContext.ToggleTwice | frontend/src/ThemeContext.jsx:32-34 | two toggles restore light or dark; any other value toggles to light |
| ThemeContext.ModeSurvivesReload | frontend/src/ThemeContext.jsx:22-30 | a saved mode is read back unchanged |
| ThemeContext.ToggleThenReload | frontend/src/ThemeContext.jsx:22-39 | after a toggle and a reload, the toggled theme renders |

## Left out

- JSON `null` and values that are not strings in the TrackingMore record. Every field is a string that is present or absent.
- Case mapping beyond ASCII. `lower`, `title` and `toLowerCase` are modelled on ASCII letters only.
- The clock and `datetime.fromisoformat`. They are the parameters `hours` and `parse`.
- Fractional hours and `round(hours, 1)`. Hours are whole numbers, which also makes `int(hours)` exact.
- Normalize.SortNewestFirst: the `TypeError` Python raises when it compares a date without a time zone (`datetime.min`, the key of an empty timestamp, or a parsed date without an offset) with one that has a time zone is not modelled. Keys are plain instants, so the model sorts such lists, while the source stops mid-sort and may leave the list partly reordered. A timestamp that does not parse raises while the keys are computed, before anything moves, and in that case the model keeps the original order, as the source does.
- Normalize.SortNewestFirst: it is stable like Python's sort, but stability is not stated as a property.
- DelayDetection.SmartSummary: that the sentence is never empty is not stated. Each sentence is a literal or a concatenation with a literal.
- Normalize.NormalizeTrackingData: the carrier is always "India Post", whatever carrier was tracked, as in the source.
- HTTP I/O. This covers the two TrackingMore requests, `asyncio.sleep(2)`, the TrackingMore headers and URLs, and CORS. The requests' outcomes are inputs.
- The health-check endpoints `/` and `healthCheck`: they are fixed values with no logic.
- The `/api/track/DEMO` endpoint: it returns fixed demo data.
- The carrier services' `create_tracking` and `get_tracking`: they are HTTP calls.
- The six services' identical `normalize_data` bodies are one method parameterised by the carrier.
- React scheduling and re-rendering. State updates inside a handler take effect in program order. A handler's effect on later renders is the new field values.
- `encodeURIComponent` and the query-string syntax of routes. A route holds the number and carrier as values.
- Validation.AcceptedBmpInputPassesServerLength: frontend/src/services/api.js:27 puts the number into the request path without encoding it. The model assumes the back end receives the number unchanged. A number with '?' or '#' is cut there ("ABCD?EFGH" reaches the back end as "ABCD" and gets 400), one with '/' matches no route (404), and `%XX` sequences are decoded. None of this is modelled.
- ThemeContext.ThemeProvider.constructor: it requires working storage. An exception from `localStorage` during the first render or the save effect is uncaught in the source and would end rendering, which is not modelled.
- ThemeContext.ThemeProvider.Toggle: it requires working storage, for the same reason.
- The text of JSON for values other than string lists, and JSON escaping inside recent searches.
- RecentSearches.GetRecentSearches: a stored JSON value that is not an array (`null`, `5`, `{}`, a JSON string) is read as [] here, while the source returns that value and the pages then use it as a list. What the pages do with it (throw on `.map`, or show nothing) is not modelled.
- JSON arrays whose entries are not strings, such as `[1,2]`. A stored value is a string list, non-array JSON, or other text.
- `toLocaleTimeString` and `toLocaleString`. They are the `localeTime` and `localeDate` parameters.
- The result card's `formatDate` ("N/A" for an empty date). It is presentation with the same locale formatting.
- `getEventColor` in TrackingTimeline.jsx: it is defined but never used when rendering.
- `getStatusColor` in TrackingResult.jsx is never called either: the chip is white and its colour comes from its icon. TrackingResult.StatusColor models it only to show, in TrackingResult.IconFollowsColor, that it names the icon's colour.
- Animations, styles, the copy-to-clipboard button, the snackbar and the loading skeleton.
- `console` logging, including the cold-start note.
- The keep-alive ping.
- TrackingPage.Page.HandleTrack and the other state-changing handlers of that page: they require that no request is in flight. The source disables its Track button and input while loading.

## Findings

| source | as written | input that shows it | evidently intended | confidence | as-written member | corrected member |
|---|---|---|---|---|---|---|
| backend/main.py:190 | `detect_delay` receives `TrackingEvent` models. The stuck-location rule calls `events[0].get(...)`, which raises `AttributeError` for two or more events. The `except` at backend/delay_detection.py:90 swallows it, so neither the stuck rule nor the exception rule runs. | `delivery_status` "exception", `update_at` set, 40 hours since the update, two events: the verdict reads Normal/none | Exception/high with the exception message, as the rules in delay_detection.py say | high (not executed) | DelayDetection.DelayVerdictAsCalled, shown by DelayDetection.ExceptionHiddenByCallerMismatch | DelayDetection.DelayVerdict, which DelayDetection.DetectDelay yields when handed dictionaries; DelayDetection.ExceptionOverridesAll proves the intended rule. TrackingApi.TrackConsignment keeps the as-written verdict, because that is what the endpoint answers |
| frontend/src/components/TrackingResult.jsx:62-73 | `getStatusIcon` tests `includes('delivered')` first, and "undelivered" contains "delivered" | upstream `delivery_status` "undelivered", friendly status "Undelivered", last update set, fewer than two events: the status chip shows the green check-mark icon, while the delay badge says Exception | a problem icon for an undelivered shipment | medium (not executed) | TrackingResult.StatusIconOf, shown by TrackingResult.UndeliveredShownAsDelivered | TrackingResult.IntendedStatusIcon, with TrackingResult.IntendedIconOfExceptionStatuses and TrackingResult.IntendedIconOfDelivered |
