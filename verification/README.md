# Thingiverse browser: browse view-model and API request builder

This project models two parts of the Thingiverse browser plugin for Cura:

- **The browse view-model** (`ThingiverseService`). This is the object the plugin's UI talks to. It holds:
  - the current list query, the page number and the things received so far;
  - whether the results are a collection's things;
  - whether a list request is outstanding, and whether a download is running;
  - the active thing, its printable files, the dynamic message, the configured user name, and the file types the host application can read.

  UI commands (search, the user listings, the curated listings, next page, collection and thing details, download, settings) and API completions (query, thing, files, download, message, failure) move it from state to state.
- **The API client's request builder** (`ThingiverseApiClient`). It builds the path of each listing and the paginated list URL. It also builds the detail, files, collections and download URLs, and the Authorization header value.

Each transition is a pure function. It maps a `State` to a `Step`: the next state plus the ordered effects it produces.
- Qt change signals become `Emit` effects.
- API calls become request effects that carry the query and page, or the id, that would be sent.
- The settings window, the error dialog and "open the downloaded file" are effects of their own.

`Apply` and `Run` turn the view-model into one state machine over an `Input` alphabet. The state-machine lemmas are stated over that alphabet.

Files:

- `wrappers.dfy` (`Wrappers`): `Option`.
- `strings.dfy` (`Strings`): the parts of Python's `str` the code relies on:
  - decimal formatting of integers, with parse round-trips;
  - `rfind` and `find`;
  - character counts;
  - ASCII `lower()`;
  - `strip` of one character.
- `sequences.dfy` (`Sequences`): an order-preserving filter and its laws.
- `records.dfy` (`Records`): the thing, thing-file and API-error records the view-model keeps.
- `file_types.dfy` (`FileTypes`): the supported-file filter. It is `pathlib.Path(name).suffix.lower().strip(".")` tested for membership in the host's readable types.
- `thingiverse_service.dfy` (`ThingiverseService`): the view-model.
- `thingiverse_api_client.dfy` (`ThingiverseApiClient`): paths, URLs and the authorization header.

The view-model and the API client are two revisions of the plugin, and they build different search paths:
- the view-model asks for `search/{term}`;
- the client's builder produces `search/{terms}/?sort=relevent`.

Each is modelled as its own code writes it, and the two are not merged.

## Model

| member | source | states |
|---|---|---|
| ThingiverseService.Init | thingiverse/ThingiverseService.py:47-73 | The constructed view-model is exactly the initial one: no message, no query, no results, page 1, the collection flag false, no active thing, no files, no download running, no supported file types, the given extension and the user name read from the preferences |
| ThingiverseService.GetterDefaults | thingiverse/ThingiverseService.py:80-100 | The `message` and `userName` getters read "" for an unset value, and the user-name getter reads "" exactly when no usable user name is configured |
| ThingiverseService.ActiveThingChangeSignalled | thingiverse/ThingiverseService.py:154-160 | Every input that changes the active thing, and so possibly `hasActiveThing`, emits the active thing's change signal, the notify signal of that property |
| ThingiverseService.ClearSearchResults | thingiverse/ThingiverseService.py:356-363 | Clearing drops the results, resets the page to 1 and hides the active thing, changes nothing else, sends no request, and signals both the results and the active thing |
| ThingiverseService.ExecuteQuery | thingiverse/ThingiverseService.py:290-306 | A non-empty new query replaces the query, clears results and the active thing, starts at page 1, and sends exactly one list request for page 1. Without a new query, the current query is asked for again at the current page. Either way querying starts and the collection flag takes the argument |
| ThingiverseService.ExecuteQuerySignalsFlagChange | thingiverse/ThingiverseService.py:300-302 | The collection flag's change signal is among a query's effects exactly when the query changes the flag |
| ThingiverseService.Search | thingiverse/ThingiverseService.py:170-176 | A search starts a new non-collection query `search/{term}` at page 1 with one list request |
| ThingiverseService.OpenSettings | thingiverse/ThingiverseService.py:87-92 | Opening settings changes no state and sends no request; its only possible effect is the settings window, which is shown exactly when there is an extension |
| ThingiverseService.UserListing | thingiverse/ThingiverseService.py:393-401 | Without a configured (set, non-empty) user name, a user listing only asks for the settings window: no state change, no request. With one, it starts the query `users/{name}/{listing}` |
| ThingiverseService.UserListingOpensSettings | thingiverse/ThingiverseService.py:393-401 | A user listing asks for the settings window exactly when the user name is unset or empty and there is an extension to show it |
| ThingiverseService.GetLiked | thingiverse/ThingiverseService.py:178-185 | Without a configured user name the liked listing is exactly opening the settings (no state change, no request); with one it starts `users/{name}/likes` |
| ThingiverseService.GetCollections | thingiverse/ThingiverseService.py:187-194 | Without a configured user name the collections listing is exactly opening the settings (no state change, no request); with one it starts `users/{name}/collections` |
| ThingiverseService.GetMyThings | thingiverse/ThingiverseService.py:196-203 | Without a configured user name the published-things listing is exactly opening the settings (no state change, no request); with one it starts `users/{name}/things` |
| ThingiverseService.GetMakes | thingiverse/ThingiverseService.py:205-212 | Without a configured user name the makes listing is exactly opening the settings (no state change, no request); with one it starts `users/{name}/copies` |
| ThingiverseService.GetPopular | thingiverse/ThingiverseService.py:214-220 | Starts the new query `popular` at page 1 |
| ThingiverseService.GetFeatured | thingiverse/ThingiverseService.py:222-228 | Starts the new query `featured` at page 1 |
| ThingiverseService.GetNewest | thingiverse/ThingiverseService.py:230-236 | Starts the new query `newest` at page 1 |
| ThingiverseService.AddPage | thingiverse/ThingiverseService.py:238-245 | The next page keeps the query and the results, advances the page by one, resets the collection flag to false, starts querying, and asks for the same query at the new page |
| ThingiverseService.ShowCollectionDetails | thingiverse/ThingiverseService.py:247-253 | Starts the new query `collections/{id}/things`, with the collection flag set |
| ThingiverseService.ShowThingDetails | thingiverse/ThingiverseService.py:255-262 | No state changes; exactly two requests, the thing and then its files, both for the given id |
| ThingiverseService.HideThingDetails | thingiverse/ThingiverseService.py:264-270 | Only the active thing is dropped; the active files stay as they were; no request |
| ThingiverseService.HideThingDetailsIdempotent | thingiverse/ThingiverseService.py:264-270 | Hiding twice equals hiding once, and hiding with no active thing changes no state |
| ThingiverseService.DownloadThingFile | thingiverse/ThingiverseService.py:272-282 | Only the downloading flag changes (to true); exactly one download request, for the given file id and name |
| ThingiverseService.LoadDynamicDisplayMessage | thingiverse/ThingiverseService.py:284-288 | No state change; exactly one message request |
| ThingiverseService.UpdateSupportedFileTypes | thingiverse/ThingiverseService.py:75-78 | Only the supported file types change, and no signal is emitted |
| ThingiverseService.OnPreferencesChanged | thingiverse/ThingiverseService.py:403-411 | A change of the user-name key replaces the user name with the stored value, so the getter reads it. Any other key changes nothing and emits nothing |
| ThingiverseService.OnQueryFinished | thingiverse/ThingiverseService.py:338-346 | Querying stops, and the results become the old results followed by the received things in order; nothing else changes; no request |
| ThingiverseService.OnThingDetailsFinished | thingiverse/ThingiverseService.py:308-314 | The received thing becomes the active thing; nothing else changes |
| ThingiverseService.OnThingFilesFinished | thingiverse/ThingiverseService.py:316-323 | The active files are the received files whose extension is supported, in received order and each as often as it was received; unsupported files never appear; nothing else changes |
| ThingiverseService.OnDownloadFinished | thingiverse/ThingiverseService.py:325-336 | The bytes and file name go to the host to open, then the downloading flag clears and its signal fires; nothing else changes |
| ThingiverseService.OnMessage | thingiverse/ThingiverseService.py:348-354 | The received text is stored, and the `message` getter returns it |
| ThingiverseService.MessageRoundTrip | thingiverse/ThingiverseService.py:348-354 | Whatever message was received is what the `message` getter reads afterwards |
| ThingiverseService.OnRequestFailed | thingiverse/ThingiverseService.py:365-379 | A failure changes no state (querying stays set) and produces one error dialog. Its title is "Oh no!". Its text is "Thingiverse returned an error: " followed by the error's `error` field, or the error itself, or "Unknown", and then ".". Its detail is the error's attributes, or "" |
| ThingiverseService.ApplyKeepsPagePositive | thingiverse/ThingiverseService.py:238-306 | No input makes a positive page number non-positive |
| ThingiverseService.OnlyQueryFinishedClearsQuerying | thingiverse/ThingiverseService.py:338-379 | Once querying, only a finished query clears the flag; a failed request leaves it set |
| ThingiverseService.OnlyDownloadFinishedClearsDownloading | thingiverse/ThingiverseService.py:272-336 | Once downloading, only a finished download clears the flag |
| ThingiverseService.QueryChangeResets | thingiverse/ThingiverseService.py:290-306 | Any input that changes the query also empties the results, resets the page to 1 and leaves no active thing |
| ThingiverseService.OtherInputKeepsQuery | thingiverse/ThingiverseService.py:296-297 | Only the list commands (search, the user and curated listings, next page, collection details) can change the query; every other input keeps it |
| ThingiverseService.OtherInputSendsNoListRequest | thingiverse/ThingiverseService.py:305-306 | Only the list commands send list requests; no other input sends one |
| ThingiverseService.ThingsExtendOrClear | thingiverse/ThingiverseService.py:338-363 | Every input either keeps the old results as a prefix of the new ones or empties them |
| ThingiverseService.ListRequestMatchesState | thingiverse/ThingiverseService.py:290-306 | Any input that sends a list request sends only that one. It asks for the new state's query and page, leaves the service querying, and sets the collection flag exactly for collection details |
| ThingiverseService.RunKeepsQuerying | thingiverse/ThingiverseService.py:303-346 | Over any input sequence without a query completion, a running query stays running |
| ThingiverseService.RunKeepsDownloading | thingiverse/ThingiverseService.py:280-336 | Over any input sequence without a download completion, a running download stays running |
| ThingiverseService.RunKeepsPagePositive | thingiverse/ThingiverseService.py:238-306 | Over any input sequence, a positive page stays positive |
| ThingiverseService.PagingAccumulates | thingiverse/ThingiverseService.py:238-346 | From any state, after `n` next-page requests and their answers the query is unchanged, the page has advanced by `n`, and the received pages are appended to the results in arrival order; once a page has arrived the service is not querying and the collection flag is false |
| ThingiverseService.PageStep | thingiverse/ThingiverseService.py:238-346 | One next-page request and its answer keep the query, advance the page by one, append the received things and leave the service not querying, outside a collection |
| FileTypes.FinalComponent | thingiverse/ThingiverseService.py:321 | The file name part of a path, as `pathlib` takes it: contains no '/', is never ".", and is no longer than the path |
| FileTypes.FinalComponentOfPlainName | thingiverse/ThingiverseService.py:321 | A plain name, alone or after any directory, is its own final component |
| FileTypes.SuffixDot | thingiverse/ThingiverseService.py:321 | The position where the suffix starts is found exactly when the name has a last dot that is neither its first nor its last character |
| FileTypes.Suffix | thingiverse/ThingiverseService.py:321 | The `pathlib` suffix is "" or a proper ending of the name that starts with '.', holds no other '.', and has at least one character after the dot |
| FileTypes.NameExtensionSpec | thingiverse/ThingiverseService.py:321 | The extension compared is the lower-cased text after the suffix dot, and it is "" exactly when the name has no suffix dot |
| FileTypes.NameExtensionAfterDot | thingiverse/ThingiverseService.py:321 | At the suffix dot, the compared extension is the lower-cased text after it |
| FileTypes.NameExtensionEmptyIff | thingiverse/ThingiverseService.py:321 | The compared extension is empty exactly when the name has no suffix dot |
| FileTypes.ExtensionSpec | thingiverse/ThingiverseService.py:321 | A path's extension is its final component's extension |
| FileTypes.ExtensionIsBare | thingiverse/ThingiverseService.py:321 | An extension never contains '.', '/' or an upper-case ASCII letter |
| FileTypes.ExtensionOfDottedName | thingiverse/ThingiverseService.py:321 | For `stem.ext` with a plain extension, the extension compared is `ext` lower-cased |
| FileTypes.DottedFileSupport | thingiverse/ThingiverseService.py:321-322 | A file `stem.ext` is kept exactly when `ext` lower-cased is one of the supported types |
| FileTypes.FilterSupported | thingiverse/ThingiverseService.py:321-322 | Every kept file is supported, and a file is kept exactly when it was received and is supported |
| FileTypes.FilterSupportedShape | thingiverse/ThingiverseService.py:321-322 | The kept files are a subsequence of the received ones, and each supported file is kept as often as it was received |
| FileTypes.FilterSupportedAppend | thingiverse/ThingiverseService.py:321-322 | Filtering distributes over concatenation of file lists |
| FileTypes.FilterSupportedIdempotent | thingiverse/ThingiverseService.py:321-322 | Filtering an already filtered list changes nothing |
| FileTypes.FilterExample | thingiverse/ThingiverseService.py:321-322 | With supported types `stl` and `obj`, files `x.STL`, `y.gcode`, `z.obj` are filtered to the first and the third |
| ThingiverseApiClient.AvailableViews | ThingiBrowser/drivers/thingiverse/ThingiverseApiClient.py:21-23 | Seven pairwise distinct views, from "My Likes" to "Newest" |
| ThingiverseApiClient.CollectionQuery | ThingiBrowser/drivers/thingiverse/ThingiverseApiClient.py:29-30 | A collection's path starts with `collections/` and ends with `/things` |
| ThingiverseApiClient.SearchQuery | ThingiBrowser/drivers/thingiverse/ThingiverseApiClient.py:32-33 | A search path starts with `search/` and ends with the sort parameter `/?sort=relevent` |
| ThingiverseApiClient.LikedQuery | ThingiBrowser/drivers/thingiverse/ThingiverseApiClient.py:35-36 | The liked path starts with `users/` and ends with `/likes` |
| ThingiverseApiClient.ByUserQuery | ThingiBrowser/drivers/thingiverse/ThingiverseApiClient.py:38-39 | The published path starts with `users/` and ends with `/things` |
| ThingiverseApiClient.MadeQuery | ThingiBrowser/drivers/thingiverse/ThingiverseApiClient.py:41-42 | The made path starts with `users/` and ends with `/copies` |
| ThingiverseApiClient.CuratedQueriesDistinct | ThingiBrowser/drivers/thingiverse/ThingiverseApiClient.py:29-51 | The popular, featured and newest paths are pairwise distinct, and none equals a user, search or collection path |
| ThingiverseApiClient.UserQueriesInjective | ThingiBrowser/drivers/thingiverse/ThingiverseApiClient.py:35-55 | Each user-scoped path, and the collections URL, identifies the user: equal paths exactly when equal user ids |
| ThingiverseApiClient.UserQueriesDistinct | ThingiBrowser/drivers/thingiverse/ThingiverseApiClient.py:35-42 | The liked, published and made paths never coincide, whatever the user ids |
| ThingiverseApiClient.ParameterQueriesInjective | ThingiBrowser/drivers/thingiverse/ThingiverseApiClient.py:29-33 | The search path identifies its terms and the collection path its id: equal paths exactly when equal parameters |
| ThingiverseApiClient.ThingsUrl | ThingiBrowser/drivers/thingiverse/ThingiverseApiClient.py:59-61 | A list URL lies under the API root |
| ThingiverseApiClient.ThingsUrlFormat | ThingiBrowser/drivers/thingiverse/ThingiverseApiClient.py:59-61 | The list URL is exactly the root, "/", the query, "?per_page=", the page size, "&page=" and the page |
| ThingiverseApiClient.ThingsUrlRoundTrip | ThingiBrowser/drivers/thingiverse/ThingiverseApiClient.py:59-61 | A list URL can be read back into its query, page size and page: the last '?' separates the query from `per_page=…&page=…` |
| ThingiverseApiClient.PageParamsRoundTrip | ThingiBrowser/drivers/thingiverse/ThingiverseApiClient.py:61 | The page parameters `per_page={n}&page={p}` read back into the same page size and page |
| ThingiverseApiClient.ThingsUrlInjective | ThingiBrowser/drivers/thingiverse/ThingiverseApiClient.py:59-61 | Different (query, page size, page) triples give different list URLs |
| ThingiverseApiClient.ThingsUrlQuestionMarks | ThingiBrowser/drivers/thingiverse/ThingiverseApiClient.py:59-61 | A list URL has exactly one more '?' than its query |
| ThingiverseApiClient.SearchQueryQuestionMarks | ThingiBrowser/drivers/thingiverse/ThingiverseApiClient.py:32-33 | A search path has exactly one more '?' than its terms |
| ThingiverseApiClient.SearchUrlQuestionMarks | ThingiBrowser/drivers/thingiverse/ThingiverseApiClient.py:32-61 | A search's list URL has exactly two more '?' than its terms: the sort parameter's and the page parameters' |
| ThingiverseApiClient.CollectionsUrl | ThingiBrowser/drivers/thingiverse/ThingiverseApiClient.py:53-55 | The collections URL lies under the API root |
| ThingiverseApiClient.ThingUrl | ThingiBrowser/drivers/thingiverse/ThingiverseApiClient.py:65-67 | A thing's URL lies under the API root |
| ThingiverseApiClient.ThingFilesUrl | ThingiBrowser/drivers/thingiverse/ThingiverseApiClient.py:71-73 | A thing's files URL is its detail URL followed by `/files` |
| ThingiverseApiClient.DownloadUrl | ThingiBrowser/drivers/thingiverse/ThingiverseApiClient.py:77-78 | A download URL lies under the API root |
| ThingiverseApiClient.IdUrlFormats | ThingiBrowser/drivers/thingiverse/ThingiverseApiClient.py:53-80 | The collections, detail, files and download URLs are exactly the root followed by `/users/{id}/collections`, `/things/{id}`, `/things/{id}/files` and `/files/{id}/download` |
| ThingiverseApiClient.IdUrlsInjective | ThingiBrowser/drivers/thingiverse/ThingiverseApiClient.py:65-80 | Detail, files and download URLs each determine their id: equal URLs of one kind mean equal ids |
| ThingiverseApiClient.IdUrlKindsDistinct | ThingiBrowser/drivers/thingiverse/ThingiverseApiClient.py:65-80 | No detail URL equals a files or download URL, and no files URL equals a download URL, whatever the ids |
| ThingiverseApiClient.AuthorizationValue | ThingiBrowser/drivers/thingiverse/ThingiverseApiClient.py:86-87 | The header value is "Bearer " followed by the token, and nothing more |
| ThingiverseApiClient.AuthorizationRoundTrip | ThingiBrowser/drivers/thingiverse/ThingiverseApiClient.py:86-87 | The token can be read back from the header value |
| ThingiverseApiClient.AuthorizationHeader | ThingiBrowser/drivers/thingiverse/ThingiverseApiClient.py:86-87 | The header set on a request is named "Authorization", and the token can be read back from its value |

## Left out

- The Qt machinery is not modelled: signals, slots, properties, the QML view, and the modal `QMessageBox`. Signals become `Emit` effects, and the dialog becomes an `ErrorDialog` effect with its title, text and detail.
- The host application is left out:
  - preference storage;
  - the mesh file handler that lists readable types, which becomes the `fileTypes` argument of `UpdateSupportedFileTypes`;
  - the temporary file and `readLocalFile`, which become the `OpenDownloadedFile` effect.
- Networking, reply parsing and JSON-object construction are left out. The view-model receives already parsed things, files, messages and errors. An error's `error` field is modelled as present or absent, and its string form and `__dict__` as text fields.
- `setSetting` is not modelled. It writes a host preference under a key built from constants that are not part of this model, and its only effect on the view-model is a signal.
- `_initSettings` is not modelled. It reads the user name from the host's preferences; its result is the `userName` argument of `Init`.
- The getters `things`, `isFromCollection`, `isQuerying`, `activeThing`, `activeThingFiles` and `isDownloading` are not modelled as functions: each only projects a `State` field.
- The plugin's settings constants are parameters, not fixed values:
  - the page size (`perPage` of `ThingsUrl`);
  - the API token (`AuthorizationValue`);
  - the user-name preference key (`Host.userNameKey`);
  - the user id the client reads from preferences.
- `ThingiverseApiClient.CollectionsUrl`, `LikedQuery`, `ByUserQuery`, `MadeQuery`: take the user id as a non-null string. The source formats whatever the preference holds, `None` included; an unset id is not modelled.
- The view-model's download call binds the callback to the client's `file_name` parameter; the two revisions' signatures differ. The model keeps the view-model's intent: the file name travels with the request, and the downloaded bytes come back with it.
- The view-model never sets `_is_querying` before the first query, so reading `isQuerying` at that point fails. `ThingiverseService.Init` starts the flag at false instead.
- Completion order is not modelled separately. Any interleaving of commands and completions is an input sequence to `Run`, which covers every order in which the asynchronous replies could arrive.
- `FileTypes.FinalComponent`: follows POSIX path rules only. Windows separators and drive letters are not modelled.
- `FileTypes.NameExtension`: lower-cases ASCII letters only, while Python's `str.lower()` covers all of Unicode.
- `FileTypes.FilterSupported`: treats every received file as having a name. The source's JSON objects may lack the attribute.
- `ThingiverseService.HasActiveThing`: a thing is active whenever one is present. The source tests `bool(self._thing_details)`, so a present but falsy thing object would count as no active thing there; received things are never modelled as falsy.
- `ThingiverseService.OnRequestFailed`: a falsy but present error object shows as "Unknown" in the source; the model treats every present error as truthy.
- Behaviour of the code worth noting:
  - a failed request does not clear the querying flag;
  - hiding the details keeps the file list;
  - the collection listing's path is `collections/{id}/things`, not user-scoped.
