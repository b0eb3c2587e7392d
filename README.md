# LIFXHTTPKit client core in Dafny

This project models the core of LIFXHTTPKit, a client for the LIFX HTTP API. The bundled copy used by the Wakey2 app is the one modelled. The core parts are:

- **Light target selectors** (`all`, `id:…`, `group_id:…`, `location_id:…`, `scene_id:…`, `label:…`): their raw values, parsing, printing and equality.
- **Value types**: lights, colours, groups, locations and the kit's error codes, with their equality and their conversion to selectors and query strings.
- **The HTTP session's pure logic**:
  - status validation against the accepted codes;
  - the parameters of a state change;
  - decoding of a response body into lights, scenes and results;
  - the completion each request hands its caller.
- **The client's cache** (`Client`, a class with fields `lights`, `scenes`, `observers` and a log of `notifications`):
  - the completions of `fetchLights` and `fetchScenes`;
  - `addObserver` and `removeObserver`;
  - `updateLights`, whose merge is proved against an independent reference definition;
  - the per-selector light filter, including the recursive scene case.

Modules follow the source files:

- `Selectors`, `Colors`, `Lights`, `Groups`, `Locations` and `Errors` follow the value-type files.
- `Session`, `LightDecoding`, `SceneDecoding` and `ResultDecoding` cover `HTTPSession.swift`.
- `ClientState`, `Reconcile` and `Filters` cover `Client.swift`.
- `Wrappers`, `Decimal`, `Json` and `Scenes` are supporting definitions.

Three functions of the session are written as loops in the source: `dataToLights`, `dataToScenes` and `dataToResults`. Each is modelled as a method with a `while` loop, proved equal to a specification function. The outcome lemmas are then proved about that function.

Design choices:
- JSON after parsing is the datatype `Json`.
- A body is `NoData`, `Unparseable(error)` or `Parsed(root)`.
- `as? Int` truncates toward zero.
- The current time (`NSDate()`) is a parameter `now`.

The scene case of the light filter recurses through the client's scenes with no depth bound and no cycle guard. It is modelled with a `fuel` parameter: `None` means the bound was reached before an answer.
It is proved that:
- more fuel never changes an answer once one exists;
- scenes whose states name no scene are always decided;
- a scene whose first state names itself never yields an answer, at any depth.

## Model

| member | source | states |
|---|---|---|
| ClientState.Client.constructor | ios/wakey2/Wakey2.3/Wakey2/Carthage/Checkouts/LIFXHTTPKit/Source/Client.swift:19-24 | the cache starts with the given lights and scenes, or empty ones, and with no observers |
| ClientState.Client.FetchLightsCompleted | ios/wakey2/Wakey2.3/Wakey2/Carthage/Checkouts/LIFXHTTPKit/Source/Client.swift:52-71 | an error is passed on and changes nothing; otherwise the fetched list replaces the cache wholesale (stale lights are dropped) and every observer is told once, in order, exactly when the list differs by `==` |
| ClientState.Client.FetchLights | ios/wakey2/Wakey2.3/Wakey2/Carthage/Checkouts/LIFXHTTPKit/Source/Client.swift:51-72 | the same, composed with the session's lights completion: transport error, then status, then body decoding, decide what reaches the cache |
| ClientState.Client.FetchScenesCompleted | ios/wakey2/Wakey2.3/Wakey2/Carthage/Checkouts/LIFXHTTPKit/Source/Client.swift:75-84 | on success the scenes are replaced wholesale, on error they are kept; lights and observers are untouched |
| ClientState.Client.FetchScenes | ios/wakey2/Wakey2.3/Wakey2/Carthage/Checkouts/LIFXHTTPKit/Source/Client.swift:74-85 | the same, composed with the session's scenes completion |
| ClientState.Client.AddObserver | ios/wakey2/Wakey2.3/Wakey2/Carthage/Checkouts/LIFXHTTPKit/Source/Client.swift:95-99 | a fresh observer is appended last; nothing else changes |
| ClientState.Client.RemoveObserver | ios/wakey2/Wakey2.3/Wakey2/Carthage/Checkouts/LIFXHTTPKit/Source/Client.swift:101-108 | the first entry identical to the token is removed and the rest keep their order; an unknown token changes nothing |
| ClientState.RemoveFirstAt | ios/wakey2/Wakey2.3/Wakey2/Carthage/Checkouts/LIFXHTTPKit/Source/Client.swift:101-108 | removing a token present at its first index i leaves exactly the entries before and after i |
| ClientState.RemoveFirstAbsent | ios/wakey2/Wakey2.3/Wakey2/Carthage/Checkouts/LIFXHTTPKit/Source/Client.swift:101-108 | removing a token not in the list leaves the list as it was |
| ClientState.RemoveFirstOneCopy | ios/wakey2/Wakey2.3/Wakey2/Carthage/Checkouts/LIFXHTTPKit/Source/Client.swift:101-108 | removing a present token shortens the list by one and removes exactly one copy of it |
| ClientState.Client.NotifyObservers | ios/wakey2/Wakey2.3/Wakey2/Carthage/Checkouts/LIFXHTTPKit/Source/Client.swift:126-128 | every observer, in registration order, receives one notification with the given lights |
| ClientState.Client.UpdateLights | ios/wakey2/Wakey2.3/Wakey2/Carthage/Checkouts/LIFXHTTPKit/Source/Client.swift:110-131 | the cache becomes the merge of fetched and cached lights with observers notified exactly when the merge differs from the old cache; the cache afterwards always has distinct ids; re-fetching an equal list into a duplicate-free cache changes nothing and notifies no one |
| ClientState.UpdateLightsExample | ios/wakey2/Wakey2.3/Wakey2/Carthage/Checkouts/LIFXHTTPKit/Source/Client.swift:110-131 | cache [A, B] updated with [B', C] becomes [B', C, A] and its observer receives that list once |
| Reconcile.AppendNewIsFirstOccurrences | ios/wakey2/Wakey2.3/Wakey2/Carthage/Checkouts/LIFXHTTPKit/Source/Client.swift:114-123 | one pass of the loop appends the first occurrence of every id not already present, in order |
| Reconcile.MergeParts | ios/wakey2/Wakey2.3/Wakey2/Carthage/Checkouts/LIFXHTTPKit/Source/Client.swift:110-123 | the merge is the fetched lights deduplicated by id followed by the cached lights whose ids were not fetched, deduplicated |
| Reconcile.MergeDistinct | ios/wakey2/Wakey2.3/Wakey2/Carthage/Checkouts/LIFXHTTPKit/Source/Client.swift:114-123 | no two merged lights share an id, whatever duplicates the inputs held |
| Reconcile.MergeIds | ios/wakey2/Wakey2.3/Wakey2/Carthage/Checkouts/LIFXHTTPKit/Source/Client.swift:114-123 | the merged ids are exactly the union of the fetched and cached ids |
| Reconcile.MergeCacheFacts | ios/wakey2/Wakey2.3/Wakey2/Carthage/Checkouts/LIFXHTTPKit/Source/Client.swift:110-131 | a merge has distinct ids; a cache equal to a merge had distinct ids; re-fetching a duplicate-free cache up to `==` merges to a list equal to the cache |
| Reconcile.LightsEqKeepsDistinct | ios/wakey2/Wakey2.3/Wakey2/Light.swift:37-46 | a list equal by `==` to one with distinct ids has distinct ids itself |
| Reconcile.MergeIdempotent | ios/wakey2/Wakey2.3/Wakey2/Carthage/Checkouts/LIFXHTTPKit/Source/Client.swift:110-131 | merging a fetched list equal by `==` to a duplicate-free cache yields the fetched list, equal to the cache |
| Reconcile.MergeExample | ios/wakey2/Wakey2.3/Wakey2/Carthage/Checkouts/LIFXHTTPKit/Source/Client.swift:110-123 | cache [A, B], fetch [B', C]: the merge is [B', C, A] and differs from the cache |
| Reconcile.Merge | ios/wakey2/Wakey2.3/Wakey2/Carthage/Checkouts/LIFXHTTPKit/Source/Client.swift:110-123 | the merged list is no longer than both inputs together, holds only fetched or cached lights and starts with the first fetched light |
| Reconcile.AppendNew | ios/wakey2/Wakey2.3/Wakey2/Carthage/Checkouts/LIFXHTTPKit/Source/Client.swift:114-118 | one pass keeps the list built so far as a prefix, adds at most one light per input and only input lights |
| Reconcile.FirstOccurrencesDistinct | ios/wakey2/Wakey2.3/Wakey2/Carthage/Checkouts/LIFXHTTPKit/Source/Client.swift:114-118 | deduplication leaves pairwise-distinct ids and loses no id |
| Reconcile.FirstOccurrencesOfDistinct | ios/wakey2/Wakey2.3/Wakey2/Carthage/Checkouts/LIFXHTTPKit/Source/Client.swift:114-118 | a list with distinct ids is kept as it is |
| Reconcile.FirstOccurrencesAreFirst | ios/wakey2/Wakey2.3/Wakey2/Carthage/Checkouts/LIFXHTTPKit/Source/Client.swift:114-118 | each light kept by deduplication is the first one in the input with its id |
| Filters.FirstSceneIndex | ios/wakey2/Wakey2.3/Wakey2/Carthage/Checkouts/LIFXHTTPKit/Source/Client.swift:145 | the index found is the first scene whose selector equals the given one; none is found only if no scene's does |
| Filters.Matches | ios/wakey2/Wakey2.3/Wakey2/Carthage/Checkouts/LIFXHTTPKit/Source/Client.swift:133-158 | every selector other than SceneID is decided at once; a SceneID answer needs depth left |
| Filters.AnyState | ios/wakey2/Wakey2.3/Wakey2/Carthage/Checkouts/LIFXHTTPKit/Source/Client.swift:147-150 | `contains` is true only if some state's filter is true, and false only if every state's filter is false |
| Filters.DirectSelectors | ios/wakey2/Wakey2.3/Wakey2/Carthage/Checkouts/LIFXHTTPKit/Source/Client.swift:134-156 | All matches every light; ID, Label, GroupID and LocationID compare the light's id, label, group id or location id with the value, a missing group or location never matching |
| Filters.SceneSelectorMeaning | ios/wakey2/Wakey2.3/Wakey2/Carthage/Checkouts/LIFXHTTPKit/Source/Client.swift:143-154 | when scene j is the first whose uuid is the selector's value, the selector holds exactly when some state of scene j matches with all earlier states false, and fails exactly when every state fails |
| Filters.SceneSelectorTrue | ios/wakey2/Wakey2.3/Wakey2/Carthage/Checkouts/LIFXHTTPKit/Source/Client.swift:143-150 | with scene j the first addressed, the selector holds exactly when some state of scene j matches with all earlier states false |
| Filters.SceneSelectorTrueOnlyIf | ios/wakey2/Wakey2.3/Wakey2/Carthage/Checkouts/LIFXHTTPKit/Source/Client.swift:143-150 | a selector that holds has such a first matching state in scene j |
| Filters.SceneSelectorTrueIf | ios/wakey2/Wakey2.3/Wakey2/Carthage/Checkouts/LIFXHTTPKit/Source/Client.swift:143-150 | a first matching state in scene j makes the selector hold |
| Filters.SceneSelectorFalse | ios/wakey2/Wakey2.3/Wakey2/Carthage/Checkouts/LIFXHTTPKit/Source/Client.swift:143-150 | with scene j the first addressed, the selector fails exactly when every state of scene j fails |
| Filters.SceneSelectorIsAnyState | ios/wakey2/Wakey2.3/Wakey2/Carthage/Checkouts/LIFXHTTPKit/Source/Client.swift:143-150 | the selector's answer is the `contains` search over the states of the first addressed scene, one level deeper |
| Filters.NoAddressedSceneRejects | ios/wakey2/Wakey2.3/Wakey2/Carthage/Checkouts/LIFXHTTPKit/Source/Client.swift:151-153 | a scene selector whose value is no scene's uuid rejects every light |
| Filters.FirstSceneAt | ios/wakey2/Wakey2.3/Wakey2/Carthage/Checkouts/LIFXHTTPKit/Source/Client.swift:145 | the scene found is the first one whose uuid is the selector's value |
| Filters.AnyStateTrue | ios/wakey2/Wakey2.3/Wakey2/Carthage/Checkouts/LIFXHTTPKit/Source/Client.swift:147-150 | `contains` is true exactly when some state matches and all earlier states answered false |
| Filters.AnyStateFalse | ios/wakey2/Wakey2.3/Wakey2/Carthage/Checkouts/LIFXHTTPKit/Source/Client.swift:147-150 | `contains` is false exactly when every state answered false |
| Filters.MatchesMoreFuel | ios/wakey2/Wakey2.3/Wakey2/Carthage/Checkouts/LIFXHTTPKit/Source/Client.swift:143-154 | an answer reached at some depth is the answer at every greater depth |
| Filters.AnyStateMoreFuel | ios/wakey2/Wakey2.3/Wakey2/Carthage/Checkouts/LIFXHTTPKit/Source/Client.swift:147-150 | the same for the search over a scene's states |
| Filters.FlatScenesDecide | ios/wakey2/Wakey2.3/Wakey2/Carthage/Checkouts/LIFXHTTPKit/Source/Client.swift:143-154 | when no state of any scene names a scene, every selector is decided at depth one |
| Filters.FlatStatesDecide | ios/wakey2/Wakey2.3/Wakey2/Carthage/Checkouts/LIFXHTTPKit/Source/Client.swift:147-150 | a list of states none of which names a scene is always decided |
| Filters.SelfReferentialSceneNeverAnswers | ios/wakey2/Wakey2.3/Wakey2/Carthage/Checkouts/LIFXHTTPKit/Source/Client.swift:144-150 | a scene whose first state names that scene gets no answer at any depth, the recursion the source would not end |
| Filters.SceneOfOneGroupState | ios/wakey2/Wakey2.3/Wakey2/Carthage/Checkouts/LIFXHTTPKit/Source/Client.swift:143-154 | a scene with one `group_id:g1` state matches exactly the lights of group g1 |
| Filters.AllLightSelector | ios/wakey2/Wakey2.3/Wakey2/Carthage/Checkouts/LIFXHTTPKit/Source/Client.swift:87-89 | `allLightTarget` uses the All selector |
| Filters.AllLightSelectorMatchesEveryLight | ios/wakey2/Wakey2.3/Wakey2/Carthage/Checkouts/LIFXHTTPKit/Source/Client.swift:87-89 | its filter accepts every light |
| Filters.LightSelectorMatches | ios/wakey2/Wakey2.3/Wakey2/Light.swift:22-24 | a light's selector matches exactly the lights with its id, itself included |
| Filters.GroupSelectorMatches | ios/wakey2/Wakey2.3/Wakey2/Group.swift:15-17 | a group's selector matches exactly the lights whose group has its id, never a light without a group |
| Filters.LocationSelectorMatches | ios/wakey2/Wakey2.3/Wakey2/Location.swift:15-17 | a location's selector matches exactly the lights whose location has its id, never a light without one |
| Scenes.SceneSelector | ios/wakey2/Wakey2.3/Wakey2/Carthage/Checkouts/LIFXHTTPKit/Source/Client.swift:145 | a scene's selector is SceneID with its uuid |
| Selectors.RawValue | ios/wakey2/Wakey2.3/Wakey2/LightTargetSelector.swift:11-18 | every raw value is non-empty and contains no colon |
| Selectors.TypeFromRawValue | ios/wakey2/Wakey2.3/Wakey2/LightTargetSelector.swift:11-18 | a recognised raw value names the type whose raw value it is |
| Selectors.TypeFromRawValueInverse | ios/wakey2/Wakey2.3/Wakey2/LightTargetSelector.swift:11-18 | raw values and types are in bijection: exactly the six raw strings are recognised |
| Selectors.Components | ios/wakey2/Wakey2.3/Wakey2/LightTargetSelector.swift:34 | splitting on ':' gives at least one component and no component holds a colon |
| Selectors.JoinComponentsOfComponents | ios/wakey2/Wakey2.3/Wakey2/LightTargetSelector.swift:34 | joining the components with ':' gives back the string |
| Selectors.ComponentsAtColon | ios/wakey2/Wakey2.3/Wakey2/LightTargetSelector.swift:34 | splitting a + ":" + b gives a's components followed by b's |
| Selectors.Parse | ios/wakey2/Wakey2.3/Wakey2/LightTargetSelector.swift:33-48 | every parsed selector is canonical: All with an empty value, or another type with a non-empty value without colons |
| Selectors.ParseUnknownType | ios/wakey2/Wakey2.3/Wakey2/LightTargetSelector.swift:35-47 | a string whose first component is no raw value is rejected |
| Selectors.ParseAllPrefix | ios/wakey2/Wakey2.3/Wakey2/LightTargetSelector.swift:36-38 | `all`, with anything after a colon, parses to All with an empty value |
| Selectors.ParseTypeAndValue | ios/wakey2/Wakey2.3/Wakey2/LightTargetSelector.swift:39-44 | `type:value` parses to that selector when the value is non-empty and is rejected when it is empty |
| Selectors.ParseTakesLastComponent | ios/wakey2/Wakey2.3/Wakey2/LightTargetSelector.swift:39 | with several colons the value is the last component |
| Selectors.ParseBareTypeName | ios/wakey2/Wakey2.3/Wakey2/LightTargetSelector.swift:39 | a bare non-All type name parses with the type name itself as value |
| Selectors.StringValue | ios/wakey2/Wakey2.3/Wakey2/LightTargetSelector.swift:50-56 | All prints as `all`; any other selector prints as its raw value, a colon, then its value |
| Selectors.ToQueryStringValue | ios/wakey2/Wakey2.3/Wakey2/LightTargetSelector.swift:58-60 | the query string form is the string value |
| Selectors.ParseStringValue | ios/wakey2/Wakey2.3/Wakey2/LightTargetSelector.swift:33-56 | parsing the printed form of a canonical selector gives it back exactly |
| Selectors.ParseStringValueEq | ios/wakey2/Wakey2.3/Wakey2/LightTargetSelector.swift:33-74 | an All selector with any value, or another selector with a non-empty value without colons, prints and parses back to a selector `==` to it |
| Selectors.SelectorEqIsEquivalence | ios/wakey2/Wakey2.3/Wakey2/LightTargetSelector.swift:68-74 | selector `==` is reflexive, symmetric and transitive |
| Selectors.SelectorEqCases | ios/wakey2/Wakey2.3/Wakey2/LightTargetSelector.swift:68-74 | two All selectors are equal whatever their values; otherwise equality is type and value |
| Selectors.CanonicalSelectorEq | ios/wakey2/Wakey2.3/Wakey2/LightTargetSelector.swift:68-74 | on canonical selectors `==` is structural equality |
| Colors.ColorOf | ios/wakey2/Wakey2.3/Wakey2/Color.swift:25-27 | a colour gets the default kelvin 3500 and is white exactly when its saturation is 0 |
| Colors.White | ios/wakey2/Wakey2.3/Wakey2/Color.swift:29-31 | a white has hue 0, the given kelvin, and is white and not a colour |
| Colors.ToQueryStringValue | ios/wakey2/Wakey2.3/Wakey2/Color.swift:41-47 | a white prints as `kelvin:` and its kelvin in decimal; a colour prints starting `hue:` |
| Colors.QueryStringKelvinRoundTrip | ios/wakey2/Wakey2.3/Wakey2/Color.swift:41-47 | the kelvin of a white is read back from its query string; a colour's query string carries no kelvin |
| Colors.ColorEqIsEquality | ios/wakey2/Wakey2.3/Wakey2/Color.swift:55-59 | colour `==` is equality of hue, saturation and kelvin |
| Lights.ToSelector | ios/wakey2/Wakey2.3/Wakey2/Light.swift:22-24 | a light's selector is ID with its id |
| Lights.WithProperties | ios/wakey2/Wakey2.3/Wakey2/Light.swift:26-28 | each given property replaces its field, absent ones keep theirs, id, label, group and location always kept, `touchedAt` the given time or now |
| Lights.WithPropertiesEq | ios/wakey2/Wakey2.3/Wakey2/Light.swift:26-46 | the updated light is `==` to the original exactly when every given property equals the current one |
| Lights.WithNoPropertiesEq | ios/wakey2/Wakey2.3/Wakey2/Light.swift:26-46 | with nothing given, the light is `==` to the original and differs only in `touchedAt` |
| Lights.LightEqIgnoresTouchedAt | ios/wakey2/Wakey2.3/Wakey2/Light.swift:37-46 | light `==` is equality of every field except `touchedAt` |
| Lights.LightsEqIsEquivalence | ios/wakey2/Wakey2.3/Wakey2/Light.swift:37-46 | list equality built on light `==` is an equivalence |
| Lights.LightsEqSameIds | ios/wakey2/Wakey2.3/Wakey2/Light.swift:37-46 | equal lists have the same id at every position |
| Groups.ToSelector | ios/wakey2/Wakey2.3/Wakey2/Group.swift:15-17 | a group's selector is GroupID with its id |
| Groups.RenamedGroupSameSelector | ios/wakey2/Wakey2.3/Wakey2/Group.swift:15-27 | a renamed group is not `==` to the original but selects the same lights |
| Groups.ToSelectorRoundTrip | ios/wakey2/Wakey2.3/Wakey2/Group.swift:15-17 | the selector prints as `group_id:` and the id, and parses back when the id is non-empty without colons |
| Locations.ToSelector | ios/wakey2/Wakey2.3/Wakey2/Location.swift:15-17 | a location's selector is LocationID with its id |
| Locations.RenamedLocationSameSelector | ios/wakey2/Wakey2.3/Wakey2/Location.swift:15-27 | a renamed location is not `==` to the original but selects the same lights |
| Locations.ToSelectorRoundTrip | ios/wakey2/Wakey2.3/Wakey2/Location.swift:15-17 | the selector prints as `location_id:` and the id, and parses back when the id is non-empty without colons |
| Errors.RawValue | ios/wakey2/Wakey2.3/Wakey2/Errors.swift:14-25 | the seven codes have raw values 0 to 6 |
| Errors.CodeFromRawValue | ios/wakey2/Wakey2.3/Wakey2/Errors.swift:14-25 | exactly the raw values 0 to 6 name a code |
| Errors.RawValueRoundTrip | ios/wakey2/Wakey2.3/Wakey2/Errors.swift:14-25 | raw value and code convert into each other both ways |
| Errors.ToNSError | ios/wakey2/Wakey2.3/Wakey2/Errors.swift:36-38 | the error carries the kit's domain, the code's raw value and the message as description |
| Errors.ToNSErrorRecoversError | ios/wakey2/Wakey2.3/Wakey2/Errors.swift:27-38 | the kit error is recovered intact from its NSError |
| Session.ValidateResponse | ios/wakey2/Wakey2.3/Wakey2/Carthage/Checkouts/LIFXHTTPKit/Source/HTTPSession.swift:116-137 | a missing or non-HTTP response and an accepted status pass; any other status becomes a kit error whose code is the as-written switch's and whose description is the status's message |
| Session.StatusErrorCode | ios/wakey2/Wakey2.3/Wakey2/Carthage/Checkouts/LIFXHTTPKit/Source/HTTPSession.swift:125-136 | the corrected switch: Unauthorized exactly for 401 and ServerError exactly for 500, 502, 503 and 523 |
| Session.StatusErrorCodeAsWritten | ios/wakey2/Wakey2.3/Wakey2/Carthage/Checkouts/LIFXHTTPKit/Source/HTTPSession.swift:125-136 | the switch as written: never ServerError, Unauthorized exactly for 401, 500, 502, 503 and 523, Forbidden exactly for 403, TooManyRequests exactly for 429 |
| Session.StatusErrorMessage | ios/wakey2/Wakey2.3/Wakey2/Carthage/Checkouts/LIFXHTTPKit/Source/HTTPSession.swift:125-135 | 401 reads "Bad access token", 403 "Permission denied", 429 "Rate limit exceeded" and the server statuses "Server error"; any other unexpected status reads "Expecting ", the accepted codes, ", got " and the status, which parses back from the message |
| Session.StatusErrorCodes | ios/wakey2/Wakey2.3/Wakey2/Carthage/Checkouts/LIFXHTTPKit/Source/HTTPSession.swift:125-136 | the corrected switch in full: 401, 403 and 429 map to Unauthorized, Forbidden and TooManyRequests, the four server statuses to ServerError, all others to UnexpectedHTTPStatusCode |
| Session.ServerErrorReportedAsUnauthorized | ios/wakey2/Wakey2.3/Wakey2/Carthage/Checkouts/LIFXHTTPKit/Source/HTTPSession.swift:132-133 | as written a 500 reports Unauthorized, no status ever reports ServerError, and all other statuses agree with the corrected mapping |
| Session.ValidatorUnauthorizedCases | ios/wakey2/Wakey2.3/Wakey2/Carthage/Checkouts/LIFXHTTPKit/Source/HTTPSession.swift:116-137 | an unaccepted status is reported as Unauthorized exactly for 401, 500, 502, 503 and 523, and among those only the description "Bad access token" marks a 401 |
| Session.ValidatorNeverReportsServerError | ios/wakey2/Wakey2.3/Wakey2/Carthage/Checkouts/LIFXHTTPKit/Source/HTTPSession.swift:116-137 | whatever the response and accepted codes, the validator never reports ServerError |
| Session.MultiStatusOnlyForPuts | ios/wakey2/Wakey2.3/Wakey2/Carthage/Checkouts/LIFXHTTPKit/Source/HTTPSession.swift:71 | 200 passes both the GET and PUT validations; 207 passes a PUT and is an unexpected status for a GET |
| Session.CompletionErrorsCarryNoData | ios/wakey2/Wakey2.3/Wakey2/Carthage/Checkouts/LIFXHTTPKit/Source/HTTPSession.swift:35-42 | for the lights, scenes and results completions alike: a transport error wins over the status, a status error (GET codes, or PUT codes for results) wins over the body, and an error always comes with an empty list |
| Session.LightsCompletion | ios/wakey2/Wakey2.3/Wakey2/Carthage/Checkouts/LIFXHTTPKit/Source/HTTPSession.swift:35-42 | transport error first, then a status error against [200], each with no lights; any error comes with no lights; success needs no transport error, an accepted status and a parsed body, and without a transport or status error the result is exactly what `dataToLights` decodes from the body |
| Session.ScenesCompletion | ios/wakey2/Wakey2.3/Wakey2/Carthage/Checkouts/LIFXHTTPKit/Source/HTTPSession.swift:83-90 | the same precedence for scenes, and the completion succeeds exactly when there is no transport error, the status is accepted and the body parsed; without a transport or status error the result is exactly what `dataToScenes` decodes |
| Session.ResultsCompletion | ios/wakey2/Wakey2.3/Wakey2/Carthage/Checkouts/LIFXHTTPKit/Source/HTTPSession.swift:70-77 | the same precedence against [200, 207]; any error comes with no results; success needs a parsed body; without a transport or status error the result is exactly what `dataToResults` decodes |
| Session.StateParameters | ios/wakey2/Wakey2.3/Wakey2/Carthage/Checkouts/LIFXHTTPKit/Source/HTTPSession.swift:57-66 | the parameters hold `duration` always, and `power` as "on"/"off", `color` and `brightness` exactly when given |
| Session.PowerParameters | ios/wakey2/Wakey2.3/Wakey2/Carthage/Checkouts/LIFXHTTPKit/Source/HTTPSession.swift:45-48 | the deprecated power call sends only duration and power |
| Session.ColorParameters | ios/wakey2/Wakey2.3/Wakey2/Carthage/Checkouts/LIFXHTTPKit/Source/HTTPSession.swift:50-53 | the deprecated colour call sends exactly duration, power and colour, with the given duration, colour and power as "on"/"off" |
| Session.ActivateBodyAsWrittenHasNoDuration | ios/wakey2/Wakey2.3/Wakey2/Carthage/Checkouts/LIFXHTTPKit/Source/HTTPSession.swift:95 | the activation body as written is an array, with no `duration` field |
| Session.ActivateBody | ios/wakey2/Wakey2.3/Wakey2/Carthage/Checkouts/LIFXHTTPKit/Source/HTTPSession.swift:95-97 | the corrected activation body is an object whose only key is `duration`, holding the given duration |
| LightDecoding.DecodedLightFields | ios/wakey2/Wakey2.3/Wakey2/Carthage/Checkouts/LIFXHTTPKit/Source/HTTPSession.swift:160-188 | a decoded light has the object's id, is on exactly when power is "on", carries `now`, and has a group (location) exactly when one with string id and name is present, with that id and name |
| LightDecoding.DecodeLight | ios/wakey2/Wakey2.3/Wakey2/Carthage/Checkouts/LIFXHTTPKit/Source/HTTPSession.swift:160-188 | an object decodes exactly when it has string id, power and label, a number brightness, a boolean connected and a colour with number hue and saturation and an integer kelvin; the light keeps its brightness, label, connected flag and the colour's hue, saturation and kelvin |
| LightDecoding.DecodeEncodeLight | ios/wakey2/Wakey2.3/Wakey2/Carthage/Checkouts/LIFXHTTPKit/Source/HTTPSession.swift:160-188 | a light written in the service's form decodes back to itself, stamped with `now` |
| LightDecoding.DecodeLightsPointwise | ios/wakey2/Wakey2.3/Wakey2/Carthage/Checkouts/LIFXHTTPKit/Source/HTTPSession.swift:158-194 | the list decodes to ls exactly when every object decodes to the light at its position in ls |
| LightDecoding.DecodeLightsAllOrNothing | ios/wakey2/Wakey2.3/Wakey2/Carthage/Checkouts/LIFXHTTPKit/Source/HTTPSession.swift:159-192 | the list fails to decode exactly when some object lacks a required property |
| LightDecoding.DataToLights | ios/wakey2/Wakey2.3/Wakey2/Carthage/Checkouts/LIFXHTTPKit/Source/HTTPSession.swift:139-195 | the loop computes the specified outcome of `dataToLights` |
| LightDecoding.LightsFromBodyOutcomes | ios/wakey2/Wakey2.3/Wakey2/Carthage/Checkouts/LIFXHTTPKit/Source/HTTPSession.swift:139-195 | no data is "No data", a parse error is passed on, a root that is no array of objects gives no lights and no error, one incomplete object voids the whole list with "missing required properties", otherwise every object becomes a light in order |
| SceneDecoding.DecodeStates | ios/wakey2/Wakey2.3/Wakey2/Carthage/Checkouts/LIFXHTTPKit/Source/HTTPSession.swift:221-244 | the inner loop keeps exactly the decodable states, in order |
| SceneDecoding.DataToScenes | ios/wakey2/Wakey2.3/Wakey2/Carthage/Checkouts/LIFXHTTPKit/Source/HTTPSession.swift:197-250 | the outer loop, with DecodeStates for each scene, computes the specified outcome of `dataToScenes` |
| SceneDecoding.ScenesFromBodyOutcomes | ios/wakey2/Wakey2.3/Wakey2/Carthage/Checkouts/LIFXHTTPKit/Source/HTTPSession.swift:197-250 | no data gives no scenes and "No data", a parse error is passed on with no scenes; once parsed there is never an error, and a scene is kept exactly when some object decodes to it |
| SceneDecoding.DecodeState | ios/wakey2/Wakey2.3/Wakey2/Carthage/Checkouts/LIFXHTTPKit/Source/HTTPSession.swift:223-243 | a state decodes exactly when its selector string parses, and keeps that selector, the brightness, a power that is on exactly for `"on"` and absent when no power string is, and a colour present exactly when a `color` object has number hue and saturation and an integer kelvin, with those values |
| SceneDecoding.DecodeScene | ios/wakey2/Wakey2.3/Wakey2/Carthage/Checkouts/LIFXHTTPKit/Source/HTTPSession.swift:218-247 | a scene decodes exactly when it has string uuid and name and an array of state objects, and keeps the uuid, the name and the decodable states in order |
| SceneDecoding.BadStateIsSkipped | ios/wakey2/Wakey2.3/Wakey2/Carthage/Checkouts/LIFXHTTPKit/Source/HTTPSession.swift:222-244 | a state with a missing or unparseable selector is dropped and its scene kept with the other states in order |
| ResultDecoding.StatusRawValueRoundTrip | ios/wakey2/Wakey2.3/Wakey2/Carthage/Checkouts/LIFXHTTPKit/Source/HTTPSession.swift:273 | each result status is recognised from its raw value |
| ResultDecoding.DecodeResult | ios/wakey2/Wakey2.3/Wakey2/Carthage/Checkouts/LIFXHTTPKit/Source/HTTPSession.swift:272-274 | a result decodes exactly when it has a string id and its status, `"unknown"` if absent, is a known raw value; it keeps the id and that status |
| ResultDecoding.DecodeResultCases | ios/wakey2/Wakey2.3/Wakey2/Carthage/Checkouts/LIFXHTTPKit/Source/HTTPSession.swift:273 | a result needs a string id; a missing status reads as unknown; an unrecognised status string makes the object incomplete |
| ResultDecoding.DecodeResultsPointwise | ios/wakey2/Wakey2.3/Wakey2/Carthage/Checkouts/LIFXHTTPKit/Source/HTTPSession.swift:271-279 | the list decodes to rs exactly when every object decodes to the result at its position |
| ResultDecoding.DecodeResultsAllOrNothing | ios/wakey2/Wakey2.3/Wakey2/Carthage/Checkouts/LIFXHTTPKit/Source/HTTPSession.swift:271-279 | the list fails exactly when some object is incomplete |
| ResultDecoding.DataToResults | ios/wakey2/Wakey2.3/Wakey2/Carthage/Checkouts/LIFXHTTPKit/Source/HTTPSession.swift:252-282 | the loop computes the specified outcome of `dataToResults` |
| ResultDecoding.ResultsFromBodyOutcomes | ios/wakey2/Wakey2.3/Wakey2/Carthage/Checkouts/LIFXHTTPKit/Source/HTTPSession.swift:252-282 | no data gives no results and "No data", a parse error is passed on with no results; a root without a `results` array of objects gives nothing and no error; one incomplete result voids the list; otherwise every object becomes a result in order |
| Decimal.IntToDecimalRoundTrip | ios/wakey2/Wakey2.3/Wakey2/Color.swift:43 | the decimal form of an integer parses back to it |
| Decimal.IntArrayDescription | ios/wakey2/Wakey2.3/Wakey2/Carthage/Checkouts/LIFXHTTPKit/Source/HTTPSession.swift:135 | the accepted codes print between brackets: `[]` for none, `[n]` for one code in decimal |
| Decimal.IntArrayDescriptionCons | ios/wakey2/Wakey2.3/Wakey2/Carthage/Checkouts/LIFXHTTPKit/Source/HTTPSession.swift:135 | each further code follows the first as `, ` and its decimal form |
| Decimal.PutCodesDescription | ios/wakey2/Wakey2.3/Wakey2/Carthage/Checkouts/LIFXHTTPKit/Source/HTTPSession.swift:135 | the PUT requests' accepted codes print as `[200, 207]` |
| Json.Truncate | ios/wakey2/Wakey2.3/Wakey2/Carthage/Checkouts/LIFXHTTPKit/Source/HTTPSession.swift:166 | a number read as an integer is truncated toward zero |
| Json.AsObjectArray | ios/wakey2/Wakey2.3/Wakey2/Carthage/Checkouts/LIFXHTTPKit/Source/HTTPSession.swift:152 | a value reads as an array of objects exactly when it is an array whose every item is an object, item by item |

## Left out

- Networking: `HTTPSession` requests, URLs, headers, the serial operation queue and `HTTPOperation`. Responses, bodies and transport errors are parameters of the completions.
- `Client.fetch`: it runs both fetches concurrently with a dispatch group and collects their errors. Concurrency is not modelled; each fetch is modelled on its own.
- JSON byte parsing (`NSJSONSerialization`): a body is given already parsed, or as a parse error.
- Foundation's number and boolean bridging: numbers and booleans are kept disjoint, and any number reads as a `Double`.
- Floating point: `Double` and `Float` are Dafny `real`. A colour's query string formats its hue and saturation through a formatter passed in as a parameter.
- Colors.ToQueryStringValue: for a colour, only the `hue:` prefix is stated. The formatted `saturation:` part is left to the formatter.
- Swift `String` equality: Swift compares strings by Unicode canonical equivalence, and the model compares them code point by code point. Two spellings that Swift treats as equal, such as "Café" with U+00E9 and "Cafe" followed by U+0301, differ in the model. The affected places are the id, label, group and location comparisons of `Filters.Matches`, `Lights.LightEq`, `Groups.GroupEq`, `Locations.LocationEq` and `Selectors.SelectorEq`, and the id checks of `Reconcile.Merge`. There, such ids or labels count as different, and `UpdateLights` and `FetchLightsCompleted` would report a change that Swift would not.
- `NSDate()` is the parameter `now`.
- `[weak self]`: the client is always alive when a completion runs. A deallocated client, which ignores the result, is not modelled.
- The observers' handlers: only their identity and the notifications they receive (a log of observer and lights) are modelled.
- In `updateLights` observers are notified before the cache is assigned, and in `fetchLights` after. No handler can read the cache in the model, so the order is shown only by statement order.
- `fetchLights` does not merge. A fetched list with duplicate ids enters the cache as is, so unique ids are guaranteed only after `updateLights`.
- `LightTarget`, `lightTargetWithSelector` and the filter closure: the filter is `Filters.Matches`, with the client's scenes passed explicitly. A closure reads them when it runs.
- Session.ValidateResponse and the completions keep the status switch as written, so 500, 502, 503 and 523 report Unauthorized. The corrected Session.StatusErrorCode is stated beside it, but no completion uses it. The completions stay faithful to what a caller receives.
- Filters.Matches: the scene case has no bound in the source. The `fuel` bound reports `None` where the source would recurse deeper, or forever on a cyclic scene.
- `description` and `print` calls (including the Label deprecation message): output only.
- `Result.swift` and `Scene.swift` are not part of this model. The result status raw values (`ok`, `timed_out`, `offline`, `unknown`) and a scene's selector (`scene_id:` and its uuid) follow the service's documented interface.
- Tests and `SecretsHelper`: test scaffolding.

## Findings

| source | as written | input that shows it | evidently intended | confidence | as-written member | corrected member |
|---|---|---|---|---|---|---|
| ios/wakey2/Wakey2.3/Wakey2/Carthage/Checkouts/LIFXHTTPKit/Source/HTTPSession.swift:95-97 | `["duration", duration]` is an array literal, so the body sent is a two-element JSON array | any duration, e.g. 1.0: the body is `["duration", 1.0]`, which has no `duration` field | a dictionary `["duration": duration]`, sent as an object with a `duration` key | high, not executed | Session.ActivateBodyAsWrittenHasNoDuration | Session.ActivateBody |
| ios/wakey2/Wakey2.3/Wakey2/Carthage/Checkouts/LIFXHTTPKit/Source/HTTPSession.swift:132-133 | the statuses 500, 502, 503 and 523 report `ErrorCode.Unauthorized` | a 500 response to a GET: the caller receives Unauthorized ("Bad access token" code) | `ErrorCode.ServerError`, the code documented as for 5XX (Errors.swift line 24) | medium, not executed | Session.ServerErrorReportedAsUnauthorized | Session.StatusErrorCode |
