/** The browse view-model (`ThingiverseService`): the state the UI observes
    and the transitions its commands and the API completion handlers make.

    Every transition is a pure function from the current `State` to a `Step`:
    the next state and the effects the transition produces, in order. Qt
    change signals become `Emit` effects, API calls become request effects
    (the query string and page that would be sent), and the host calls
    (settings window, error dialog, opening a downloaded file) become effects
    of their own. */
module ThingiverseService {
  import opened Wrappers
  import opened Strings
  import opened Records
  import opened Sequences
  import FileTypes

  /** The change signals of the view-model's observable properties. */
  datatype Signal =
    | MessageChanged
    | ThingsChanged
    | IsFromCollectionChanged
    | UserNameChanged
    | QueryingStateChanged
    | ActiveThingChanged
    | ActiveThingFilesChanged
    | DownloadingStateChanged

  /** What a transition asks of the outside world. */
  datatype Effect =
    | Emit(signal: Signal)
    | ListRequest(query: string, page: int)
    | ThingRequest(thingId: int)
    | ThingFilesRequest(thingId: int)
    | DownloadRequest(fileId: int, fileName: string)
    | MessageRequest
    | ShowSettingsWindow
    | ErrorDialog(title: string, text: string, detail: string)
    | OpenDownloadedFile(fileName: string, bytes: seq<bv8>)

  predicate IsRequest(e: Effect) {
    e.ListRequest? || e.ThingRequest? || e.ThingFilesRequest? || e.DownloadRequest? || e.MessageRequest?
  }

  /** The API requests among a transition's effects, in issue order. */
  function Requests(effects: seq<Effect>): seq<Effect> {
    Filter(effects, IsRequest)
  }

  /** The host facts the service is configured with: the preference key that
      holds the user name, and whether the service has an extension whose
      settings window it can open. */
  datatype Host = Host(userNameKey: string, hasExtension: bool)

  datatype State = State(
    host: Host,
    message: Option<string>,
    things: seq<Thing>,
    query: string,
    page: int,
    isFromCollection: bool,
    isQuerying: bool,
    thingDetails: Option<Thing>,
    thingFiles: seq<ThingFile>,
    isDownloading: bool,
    userName: Option<string>,
    supportedFileTypes: seq<string>)

  datatype Step = Step(state: State, effects: seq<Effect>)

  /** The state right after construction, with the user name read from the
      preferences. The querying flag starts false. */
  function Init(host: Host, userName: Option<string>): (s: State)
    ensures s.page == 1 && s.query == "" && s.things == [] && !s.isFromCollection
    ensures !s.isQuerying && !s.isDownloading && !HasActiveThing(s)
    ensures s.message.None? && MessageText(s) == ""
    ensures s.thingFiles == [] && s.supportedFileTypes == []
    ensures s.host == host && s.userName == userName
  {
    State(host, None, [], "", 1, false, false, None, [], false, userName, [])
  }

  // -----------------------------------------------------------------------
  // Getters

  /** The `message` property: the dynamic message, or "" when there is none. */
  function MessageText(s: State): string {
    s.message.GetOr("")
  }

  /** The `userName` property: the configured user name, or "" when unset. */
  function UserNameText(s: State): string {
    s.userName.GetOr("")
  }

  /** The `hasActiveThing` property. */
  predicate HasActiveThing(s: State) {
    s.thingDetails.Some?
  }

  /** Whether a user name is configured: set and not empty. */
  predicate IsUserNameConfigured(s: State) {
    s.userName.Some? && s.userName.value != ""
  }

  /** The getters fall back to "" exactly when the value is unset or empty. */
  lemma GetterDefaults(s: State)
    ensures s.message.None? ==> MessageText(s) == ""
    ensures s.userName.None? ==> UserNameText(s) == ""
    ensures UserNameText(s) == "" <==> !IsUserNameConfigured(s)
  {
  }

  // -----------------------------------------------------------------------
  // Query execution

  /** Signals followed by one request issue just that request. */
  lemma {:induction false} SignalsThenRequest(signals: seq<Effect>, request: Effect)
    requires forall i :: 0 <= i < |signals| ==> signals[i].Emit?
    requires IsRequest(request)
    ensures Requests(signals + [request]) == [request]
  {
    FilterKeepsNone(signals, IsRequest);
    FilterAppend(signals, [request], IsRequest);
    FilterKeepsAll([request], IsRequest);
  }

  /** A query with the new, non-empty query string `q` has started: the query
      is `q`, the results and the active thing are cleared, the page is 1,
      the collection flag is `fromCollection`, the service is querying, and
      the one request sent is page 1 of `q`. Nothing else changes, and the
      other effects are change signals, among them the active thing's. */
  predicate NewQueryStarted(s: State, r: Step, q: string, fromCollection: bool) {
    && r.state == s.(query := q, things := [], page := 1, thingDetails := None,
                     isFromCollection := fromCollection, isQuerying := true)
    && Requests(r.effects) == [ListRequest(q, 1)]
    && Emit(ActiveThingChanged) in r.effects
    && (forall i :: 0 <= i < |r.effects| ==> r.effects[i].Emit? || r.effects[i] == ListRequest(q, 1))
  }

  /** `_clearSearchResults`: drop the results, reset the page and hide the
      active thing. */
  function ClearSearchResults(s: State): (r: Step)
    ensures r.state == s.(things := [], page := 1, thingDetails := None)
    ensures Requests(r.effects) == []
    ensures Emit(ThingsChanged) in r.effects && Emit(ActiveThingChanged) in r.effects
    ensures forall i :: 0 <= i < |r.effects| ==>
              r.effects[i] == Emit(ThingsChanged) || r.effects[i] == Emit(ActiveThingChanged)
  {
    var hidden := HideThingDetails(s.(things := [], page := 1));
    var effects := hidden.effects + [Emit(ThingsChanged)];
    FilterKeepsNone(effects, IsRequest);
    Step(hidden.state, effects)
  }

  /** `_executeQuery`. An empty `newQuery` stands for the absent argument
      (both are falsy): the current query is asked for again at the current
      page. The collection flag is set to the argument either way. */
  function ExecuteQuery(s: State, newQuery: string, fromCollection: bool): (r: Step)
    ensures newQuery != "" ==> NewQueryStarted(s, r, newQuery, fromCollection)
    ensures newQuery == "" ==>
              && r.state == s.(isFromCollection := fromCollection, isQuerying := true)
              && Requests(r.effects) == [ListRequest(s.query, s.page)]
  {
    if newQuery != "" then StartNewQuery(s, newQuery, fromCollection) else RepeatQuery(s, fromCollection)
  }

  /** The collection flag's signal: present exactly when the flag changes. */
  function CollectionFlagSignal(s: State, fromCollection: bool): (effects: seq<Effect>)
    ensures Emit(IsFromCollectionChanged) in effects <==> s.isFromCollection != fromCollection
    ensures forall i :: 0 <= i < |effects| ==> effects[i] == Emit(IsFromCollectionChanged)
  {
    if s.isFromCollection != fromCollection then [Emit(IsFromCollectionChanged)] else []
  }

  /** `_executeQuery` with a new query: clear the results, go to page 1,
      then query. */
  function StartNewQuery(s: State, q: string, fromCollection: bool): (r: Step)
    requires q != ""
    ensures NewQueryStarted(s, r, q, fromCollection)
  {
    var cleared := ClearSearchResults(s.(query := q));
    var s1 := cleared.state.(page := 1);
    var signals := cleared.effects + CollectionFlagSignal(s1, fromCollection) + [Emit(QueryingStateChanged)];
    var s2 := s1.(isFromCollection := fromCollection, isQuerying := true);
    var request := ListRequest(s2.query, s2.page);
    SignalsThenRequest(signals, request);
    Step(s2, signals + [request])
  }

  /** `_executeQuery` without a new query: query the current page again. */
  function RepeatQuery(s: State, fromCollection: bool): (r: Step)
    ensures r.state == s.(isFromCollection := fromCollection, isQuerying := true)
    ensures Requests(r.effects) == [ListRequest(s.query, s.page)]
  {
    var signals := CollectionFlagSignal(s, fromCollection) + [Emit(QueryingStateChanged)];
    var s2 := s.(isFromCollection := fromCollection, isQuerying := true);
    var request := ListRequest(s2.query, s2.page);
    SignalsThenRequest(signals, request);
    Step(s2, signals + [request])
  }

  /** The collection flag's signal fires exactly when a query changes the flag. */
  lemma ExecuteQuerySignalsFlagChange(s: State, newQuery: string, fromCollection: bool)
    ensures Emit(IsFromCollectionChanged) in ExecuteQuery(s, newQuery, fromCollection).effects
            <==> s.isFromCollection != fromCollection
  {
    var r := ExecuteQuery(s, newQuery, fromCollection);
    var request := ListRequest(r.state.query, r.state.page);
    if newQuery != "" {
      var cleared := ClearSearchResults(s.(query := newQuery));
      var flag := CollectionFlagSignal(cleared.state.(page := 1), fromCollection);
      assert r.effects == cleared.effects + flag + [Emit(QueryingStateChanged)] + [request];
    } else {
      var flag := CollectionFlagSignal(s, fromCollection);
      assert r.effects == flag + [Emit(QueryingStateChanged)] + [request];
    }
  }

  // -----------------------------------------------------------------------
  // Commands

  /** `search`: a new query for the search term. */
  function Search(s: State, term: string): (r: Step)
    ensures NewQueryStarted(s, r, "search/" + term, false)
  {
    ExecuteQuery(s, "search/" + term, false)
  }

  /** `openSettings`: show the settings window, if there is an extension to
      show it. */
  function OpenSettings(s: State): (r: Step)
    ensures r.state == s && Requests(r.effects) == []
    ensures forall e :: e in r.effects ==> e == ShowSettingsWindow
    ensures ShowSettingsWindow in r.effects <==> s.host.hasExtension
  {
    var effects := if s.host.hasExtension then [ShowSettingsWindow] else [];
    FilterKeepsNone(effects, IsRequest);
    Step(s, effects)
  }

  /** The common shape of the user-scoped listings `users/{user}/{listing}`:
      without a configured user name they change no state, send no request
      and only ask for the settings window. */
  function UserListing(s: State, listing: string): (r: Step)
    requires listing != ""
    ensures !IsUserNameConfigured(s) ==> r == OpenSettings(s) && r.state == s && Requests(r.effects) == []
    ensures IsUserNameConfigured(s) ==>
              NewQueryStarted(s, r, "users/" + s.userName.value + "/" + listing, false)
  {
    if !IsUserNameConfigured(s) then OpenSettings(s)
    else ExecuteQuery(s, "users/" + s.userName.value + "/" + listing, false)
  }

  /** `getLiked`: the user's liked things. */
  function GetLiked(s: State): (r: Step)
    ensures !IsUserNameConfigured(s) ==> r == OpenSettings(s) && r.state == s && Requests(r.effects) == []
    ensures IsUserNameConfigured(s) ==> NewQueryStarted(s, r, "users/" + s.userName.value + "/likes", false)
  {
    UserListing(s, "likes")
  }

  /** `getCollections`: the user's collections. */
  function GetCollections(s: State): (r: Step)
    ensures !IsUserNameConfigured(s) ==> r == OpenSettings(s) && r.state == s && Requests(r.effects) == []
    ensures IsUserNameConfigured(s) ==> NewQueryStarted(s, r, "users/" + s.userName.value + "/collections", false)
  {
    UserListing(s, "collections")
  }

  /** `getMyThings`: the user's published things. */
  function GetMyThings(s: State): (r: Step)
    ensures !IsUserNameConfigured(s) ==> r == OpenSettings(s) && r.state == s && Requests(r.effects) == []
    ensures IsUserNameConfigured(s) ==> NewQueryStarted(s, r, "users/" + s.userName.value + "/things", false)
  {
    UserListing(s, "things")
  }

  /** `getMakes`: the things the user made. */
  function GetMakes(s: State): (r: Step)
    ensures !IsUserNameConfigured(s) ==> r == OpenSettings(s) && r.state == s && Requests(r.effects) == []
    ensures IsUserNameConfigured(s) ==> NewQueryStarted(s, r, "users/" + s.userName.value + "/copies", false)
  {
    UserListing(s, "copies")
  }

  /** `getPopular`. */
  function GetPopular(s: State): (r: Step)
    ensures NewQueryStarted(s, r, "popular", false)
  {
    ExecuteQuery(s, "popular", false)
  }

  /** `getFeatured`. */
  function GetFeatured(s: State): (r: Step)
    ensures NewQueryStarted(s, r, "featured", false)
  {
    ExecuteQuery(s, "featured", false)
  }

  /** `getNewest`. */
  function GetNewest(s: State): (r: Step)
    ensures NewQueryStarted(s, r, "newest", false)
  {
    ExecuteQuery(s, "newest", false)
  }

  /** `addPage`: the next page of the current query. The results so far and
      the query stay; the collection flag is reset to false; the request
      asks for the old query at the new page. */
  function AddPage(s: State): (r: Step)
    ensures r.state == s.(page := s.page + 1, isFromCollection := false, isQuerying := true)
    ensures Requests(r.effects) == [ListRequest(s.query, s.page + 1)]
  {
    ExecuteQuery(s.(page := s.page + 1), "", false)
  }

  /** `showCollectionDetails`: the things of one collection, flagged as such. */
  function ShowCollectionDetails(s: State, collectionId: int): (r: Step)
    ensures NewQueryStarted(s, r, "collections/" + IntToString(collectionId) + "/things", true)
  {
    ExecuteQuery(s, "collections/" + IntToString(collectionId) + "/things", true)
  }

  /** `showThingDetails`: ask for a thing and for its files; no state changes
      until the answers arrive. */
  function ShowThingDetails(s: State, thingId: int): (r: Step)
    ensures r.state == s
    ensures Requests(r.effects) == [ThingRequest(thingId), ThingFilesRequest(thingId)]
  {
    var effects := [ThingRequest(thingId), ThingFilesRequest(thingId)];
    FilterKeepsAll(effects, IsRequest);
    Step(s, effects)
  }

  /** `hideThingDetails`: drop the active thing. Its file list is left as it is. */
  function HideThingDetails(s: State): (r: Step)
    ensures !HasActiveThing(r.state)
    ensures r.state.thingFiles == s.thingFiles
    ensures r.state == s.(thingDetails := None)
    ensures Requests(r.effects) == [] && Emit(ActiveThingChanged) in r.effects
  {
    var effects := [Emit(ActiveThingChanged)];
    FilterKeepsNone(effects, IsRequest);
    Step(s.(thingDetails := None), effects)
  }

  /** `downloadThingFile`: mark the download as running and ask for the file. */
  function DownloadThingFile(s: State, fileId: int, fileName: string): (r: Step)
    ensures r.state == s.(isDownloading := true)
    ensures Requests(r.effects) == [DownloadRequest(fileId, fileName)]
  {
    var effects := [Emit(DownloadingStateChanged), DownloadRequest(fileId, fileName)];
    assert effects == [Emit(DownloadingStateChanged)] + [DownloadRequest(fileId, fileName)];
    FilterAppend([Emit(DownloadingStateChanged)], [DownloadRequest(fileId, fileName)], IsRequest);
    Step(s.(isDownloading := true), effects)
  }

  /** `loadDynamicDisplayMessage`: ask for the dynamic message. */
  function LoadDynamicDisplayMessage(s: State): (r: Step)
    ensures r.state == s && Requests(r.effects) == [MessageRequest]
  {
    FilterKeepsAll([MessageRequest], IsRequest);
    Step(s, [MessageRequest])
  }

  /** `updateSupportedFileTypes`: the host's readable file types. */
  function UpdateSupportedFileTypes(s: State, fileTypes: seq<string>): (r: Step)
    ensures r.state == s.(supportedFileTypes := fileTypes) && r.effects == []
  {
    Step(s.(supportedFileTypes := fileTypes), [])
  }

  /** `_onPreferencesChanged`: only a change of the user-name preference
      matters; it replaces the user name with the stored value. */
  function OnPreferencesChanged(s: State, name: string, value: Option<string>): (r: Step)
    ensures name == s.host.userNameKey ==> r.state == s.(userName := value) && UserNameText(r.state) == value.GetOr("")
    ensures name != s.host.userNameKey ==> r.state == s && r.effects == []
  {
    if name == s.host.userNameKey then Step(s.(userName := value), [Emit(UserNameChanged)])
    else Step(s, [])
  }

  // -----------------------------------------------------------------------
  // Completion handlers

  /** `_onQueryFinished`: querying stops and the received things are
      appended, in order, to the results so far. */
  function OnQueryFinished(s: State, received: seq<Thing>): (r: Step)
    ensures r.state == s.(isQuerying := false, things := s.things + received)
    ensures |r.state.things| == |s.things| + |received|
    ensures forall i :: 0 <= i < |received| ==> r.state.things[|s.things| + i] == received[i]
    ensures Requests(r.effects) == []
  {
    var effects := [Emit(QueryingStateChanged), Emit(ThingsChanged)];
    FilterKeepsNone(effects, IsRequest);
    Step(s.(isQuerying := false, things := s.things + received), effects)
  }

  /** `_onThingDetailsFinished`: the received thing becomes the active one. */
  function OnThingDetailsFinished(s: State, thing: Thing): (r: Step)
    ensures HasActiveThing(r.state) && r.state.thingDetails.value == thing
    ensures r.state == s.(thingDetails := Some(thing))
  {
    Step(s.(thingDetails := Some(thing)), [Emit(ActiveThingChanged)])
  }

  /** `_onThingFilesFinished`: the active files are the received files whose
      extension the host can read, in the received order. */
  function OnThingFilesFinished(s: State, files: seq<ThingFile>): (r: Step)
    ensures r.state == s.(thingFiles := r.state.thingFiles)
    ensures forall f :: f in r.state.thingFiles <==> f in files && FileTypes.IsSupported(f, s.supportedFileTypes)
    ensures IsSubsequence(r.state.thingFiles, files)
    ensures forall f :: multiset(r.state.thingFiles)[f]
                          == if FileTypes.IsSupported(f, s.supportedFileTypes) then multiset(files)[f] else 0
  {
    FileTypes.FilterSupportedShape(files, s.supportedFileTypes);
    Step(s.(thingFiles := FileTypes.FilterSupported(files, s.supportedFileTypes)), [Emit(ActiveThingFilesChanged)])
  }

  /** `_onDownloadFinished`: hand the bytes and the file name to the host to
      open, then mark the download as finished. */
  function OnDownloadFinished(s: State, bytes: seq<bv8>, fileName: string): (r: Step)
    ensures r.state == s.(isDownloading := false)
    ensures |r.effects| == 2 && r.effects[0] == OpenDownloadedFile(fileName, bytes)
    ensures r.effects[1] == Emit(DownloadingStateChanged)
  {
    Step(s.(isDownloading := false), [OpenDownloadedFile(fileName, bytes), Emit(DownloadingStateChanged)])
  }

  /** `_onMessage`: store the received message text. */
  function OnMessage(s: State, text: string): (r: Step)
    ensures r.state == s.(message := Some(text))
    ensures MessageText(r.state) == text
  {
    Step(s.(message := Some(text)), [Emit(MessageChanged)])
  }

  const ErrorTitle: string := "Oh no!"
  const ErrorPrefix: string := "Thingiverse returned an error: "

  /** The message an error dialog shows: the error's `error` attribute when
      it has one, else the error itself, and "Unknown" without an error. */
  function ErrorMessage(error: Option<ErrorInfo>): string {
    match error
    case None => "Unknown"
    case Some(e) => e.errorField.GetOr(e.text)
  }

  /** `_onRequestFailed`: show one error dialog; no state changes, so a
      failure leaves the querying flag as it was. */
  function OnRequestFailed(s: State, error: Option<ErrorInfo>): (r: Step)
    ensures r.state == s && Requests(r.effects) == []
    ensures |r.effects| == 1 && r.effects[0].ErrorDialog?
    ensures r.effects[0].title == ErrorTitle
    ensures r.effects[0].text == ErrorPrefix + ErrorMessage(error) + "."
    ensures error.None? ==> r.effects[0].text == "Thingiverse returned an error: Unknown." && r.effects[0].detail == ""
    ensures error.Some? ==> r.effects[0].detail == error.value.attributes
  {
    var detail := if error.Some? then error.value.attributes else "";
    var effects := [ErrorDialog(ErrorTitle, ErrorPrefix + ErrorMessage(error) + ".", detail)];
    FilterKeepsNone(effects, IsRequest);
    Step(s, effects)
  }

  // -----------------------------------------------------------------------
  // The view-model as one state machine

  /** Everything that can happen to the service: a UI command or an API
      completion. */
  datatype Input =
    | SearchFor(term: string)
    | Liked
    | Collections
    | MyThings
    | Makes
    | Popular
    | Featured
    | Newest
    | NextPage
    | CollectionDetails(collectionId: int)
    | ThingDetails(thingId: int)
    | HideDetails
    | Download(fileId: int, fileName: string)
    | LoadMessage
    | SettingsRequested
    | FileTypesRefreshed(fileTypes: seq<string>)
    | PreferenceChanged(name: string, value: Option<string>)
    | QueryFinished(things: seq<Thing>)
    | ThingDetailsFinished(thing: Thing)
    | ThingFilesFinished(files: seq<ThingFile>)
    | DownloadFinished(bytes: seq<bv8>, downloadName: string)
    | MessageReceived(text: string)
    | RequestFailed(error: Option<ErrorInfo>)

  function Apply(s: State, input: Input): Step {
    match input
    case SearchFor(term) => Search(s, term)
    case Liked => GetLiked(s)
    case Collections => GetCollections(s)
    case MyThings => GetMyThings(s)
    case Makes => GetMakes(s)
    case Popular => GetPopular(s)
    case Featured => GetFeatured(s)
    case Newest => GetNewest(s)
    case NextPage => AddPage(s)
    case CollectionDetails(id) => ShowCollectionDetails(s, id)
    case ThingDetails(id) => ShowThingDetails(s, id)
    case HideDetails => HideThingDetails(s)
    case Download(id, name) => DownloadThingFile(s, id, name)
    case LoadMessage => LoadDynamicDisplayMessage(s)
    case SettingsRequested => OpenSettings(s)
    case FileTypesRefreshed(types) => UpdateSupportedFileTypes(s, types)
    case PreferenceChanged(name, value) => OnPreferencesChanged(s, name, value)
    case QueryFinished(things) => OnQueryFinished(s, things)
    case ThingDetailsFinished(thing) => OnThingDetailsFinished(s, thing)
    case ThingFilesFinished(files) => OnThingFilesFinished(s, files)
    case DownloadFinished(bytes, name) => OnDownloadFinished(s, bytes, name)
    case MessageReceived(text) => OnMessage(s, text)
    case RequestFailed(error) => OnRequestFailed(s, error)
  }

  /** The state after a sequence of inputs, with all effects in order. */
  function Run(s: State, inputs: seq<Input>): Step
    decreases |inputs|
  {
    if inputs == [] then Step(s, [])
    else
      var first := Apply(s, inputs[0]);
      var rest := Run(first.state, inputs[1..]);
      Step(rest.state, first.effects + rest.effects)
  }

  // -----------------------------------------------------------------------
  // Properties of the state machine

  /** The commands that may ask for a page of things: the listings, the
      search, the next page and a collection's things. */
  predicate IsListCommand(input: Input) {
    || input.SearchFor? || input.Liked? || input.Collections? || input.MyThings? || input.Makes?
    || input.Popular? || input.Featured? || input.Newest? || input.NextPage? || input.CollectionDetails?
  }

  /** Hiding the details twice is hiding them once, and hiding them when no
      thing is active changes no state. */
  lemma HideThingDetailsIdempotent(s: State)
    ensures HideThingDetails(HideThingDetails(s).state).state == HideThingDetails(s).state
    ensures !HasActiveThing(s) ==> HideThingDetails(s).state == s
  {
  }

  /** A user listing asks for the settings window exactly when no user name
      is configured and there is an extension to show it. */
  lemma UserListingOpensSettings(s: State, listing: string)
    requires listing != ""
    ensures ShowSettingsWindow in UserListing(s, listing).effects
            <==> !IsUserNameConfigured(s) && s.host.hasExtension
  {
  }

  /** Whenever an input changes the active thing, and so possibly
      `hasActiveThing`, the active thing's change signal is among its effects. */
  lemma ActiveThingChangeSignalled(s: State, input: Input)
    ensures var r := Apply(s, input);
            (r.state.thingDetails != s.thingDetails || HasActiveThing(r.state) != HasActiveThing(s))
            ==> Emit(ActiveThingChanged) in r.effects
  {
    if IsListCommand(input) {
      ActiveThingChangeSignalledForListCommand(s, input);
    }
  }

  lemma ActiveThingChangeSignalledForListCommand(s: State, input: Input)
    requires IsListCommand(input)
    ensures var r := Apply(s, input);
            r.state.thingDetails != s.thingDetails ==> Emit(ActiveThingChanged) in r.effects
  {
  }

  /** The stored message is what the `message` getter returns. */
  lemma MessageRoundTrip(s: State, text: string)
    ensures MessageText(OnMessage(s, text).state) == text
  {
  }

  /** Whatever happens, the page number stays positive. */
  lemma ApplyKeepsPagePositive(s: State, input: Input)
    requires s.page >= 1
    ensures Apply(s, input).state.page >= 1
  {
    if IsListCommand(input) {
      ApplyKeepsPagePositiveForListCommand(s, input);
    } else {
      ApplyKeepsPagePositiveForOtherInput(s, input);
    }
  }

  /** The list commands keep the page positive. */
  lemma ApplyKeepsPagePositiveForListCommand(s: State, input: Input)
    requires IsListCommand(input)
    requires s.page >= 1
    ensures Apply(s, input).state.page >= 1
  {
  }

  /** The other inputs keep the page positive. */
  lemma ApplyKeepsPagePositiveForOtherInput(s: State, input: Input)
    requires !IsListCommand(input)
    requires s.page >= 1
    ensures Apply(s, input).state.page >= 1
  {
  }

  /** Only a finished query clears the querying flag: a failed request in
      particular leaves it set. */
  lemma OnlyQueryFinishedClearsQuerying(s: State, input: Input)
    requires s.isQuerying && !input.QueryFinished?
    ensures Apply(s, input).state.isQuerying
  {
  }

  /** Only a finished download clears the downloading flag. */
  lemma OnlyDownloadFinishedClearsDownloading(s: State, input: Input)
    requires s.isDownloading && !input.DownloadFinished?
    ensures Apply(s, input).state.isDownloading
  {
  }

  /** A changed query always comes with cleared results, page 1 and no
      active thing. */
  lemma QueryChangeResets(s: State, input: Input)
    requires Apply(s, input).state.query != s.query
    ensures Apply(s, input).state.things == []
    ensures Apply(s, input).state.page == 1
    ensures !HasActiveThing(Apply(s, input).state)
  {
    if IsListCommand(input) {
      QueryChangeResetsForListCommand(s, input);
    } else {
      OtherInputKeepsQuery(s, input);
      assert false;
    }
  }

  /** A list command that changes the query resets the listing. */
  lemma QueryChangeResetsForListCommand(s: State, input: Input)
    requires IsListCommand(input)
    requires Apply(s, input).state.query != s.query
    ensures Apply(s, input).state.things == []
    ensures Apply(s, input).state.page == 1
    ensures !HasActiveThing(Apply(s, input).state)
  {
  }

  /** No input other than a list command changes the query. */
  lemma OtherInputKeepsQuery(s: State, input: Input)
    requires !IsListCommand(input)
    ensures Apply(s, input).state.query == s.query
  {
  }

  /** Results are only ever extended at the end or cleared, never reordered
      or shortened otherwise. */
  lemma ThingsExtendOrClear(s: State, input: Input)
    ensures s.things <= Apply(s, input).state.things || Apply(s, input).state.things == []
  {
    if IsListCommand(input) {
      ThingsExtendOrClearForListCommand(s, input);
    } else {
      ThingsExtendOrClearForOtherInput(s, input);
    }
  }

  /** A list command keeps or clears the results. */
  lemma ThingsExtendOrClearForListCommand(s: State, input: Input)
    requires IsListCommand(input)
    ensures s.things <= Apply(s, input).state.things || Apply(s, input).state.things == []
  {
  }

  /** The other inputs keep or extend the results. */
  lemma ThingsExtendOrClearForOtherInput(s: State, input: Input)
    requires !IsListCommand(input)
    ensures s.things <= Apply(s, input).state.things || Apply(s, input).state.things == []
  {
  }

  /** An input that sends a list request leaves the service querying, with
      the collection flag set exactly for a collection's things, and the
      request asks for the new state's query and page. */
  lemma ListRequestMatchesState(s: State, input: Input)
    requires exists e :: e in Requests(Apply(s, input).effects) && e.ListRequest?
    ensures Apply(s, input).state.isQuerying
    ensures Apply(s, input).state.isFromCollection <==> input.CollectionDetails?
    ensures Requests(Apply(s, input).effects)
            == [ListRequest(Apply(s, input).state.query, Apply(s, input).state.page)]
  {
    if IsListCommand(input) {
      ListRequestMatchesStateForListCommand(s, input);
    } else {
      OtherInputSendsNoListRequest(s, input);
      assert false;
    }
  }

  /** A list command's list request matches the new state. */
  lemma ListRequestMatchesStateForListCommand(s: State, input: Input)
    requires IsListCommand(input)
    requires exists e :: e in Requests(Apply(s, input).effects) && e.ListRequest?
    ensures Apply(s, input).state.isQuerying
    ensures Apply(s, input).state.isFromCollection <==> input.CollectionDetails?
    ensures Requests(Apply(s, input).effects)
            == [ListRequest(Apply(s, input).state.query, Apply(s, input).state.page)]
  {
  }

  /** No input other than a list command sends a list request. */
  lemma OtherInputSendsNoListRequest(s: State, input: Input)
    requires !IsListCommand(input)
    ensures forall e :: e in Requests(Apply(s, input).effects) ==> !e.ListRequest?
  {
  }

  /** Over any run without a query completion, a running query stays running. */
  lemma {:induction false} RunKeepsQuerying(s: State, inputs: seq<Input>)
    requires s.isQuerying
    requires forall i :: 0 <= i < |inputs| ==> !inputs[i].QueryFinished?
    ensures Run(s, inputs).state.isQuerying
    decreases |inputs|
  {
    if inputs != [] {
      OnlyQueryFinishedClearsQuerying(s, inputs[0]);
      RunKeepsQuerying(Apply(s, inputs[0]).state, inputs[1..]);
    }
  }

  /** Over any run without a download completion, a running download stays running. */
  lemma {:induction false} RunKeepsDownloading(s: State, inputs: seq<Input>)
    requires s.isDownloading
    requires forall i :: 0 <= i < |inputs| ==> !inputs[i].DownloadFinished?
    ensures Run(s, inputs).state.isDownloading
    decreases |inputs|
  {
    if inputs != [] {
      OnlyDownloadFinishedClearsDownloading(s, inputs[0]);
      RunKeepsDownloading(Apply(s, inputs[0]).state, inputs[1..]);
    }
  }

  /** From the initial state on, the page number is always positive. */
  lemma {:induction false} RunKeepsPagePositive(s: State, inputs: seq<Input>)
    requires s.page >= 1
    ensures Run(s, inputs).state.page >= 1
    decreases |inputs|
  {
    if inputs != [] {
      ApplyKeepsPagePositive(s, inputs[0]);
      RunKeepsPagePositive(Apply(s, inputs[0]).state, inputs[1..]);
    }
  }

  /** Asking for `n` further pages and receiving each in turn: the query
      stays, the page advances by `n`, and the received pages are appended
      to the results in the order they arrived. Once a page has arrived the
      service is no longer querying and the collection flag is reset. */
  lemma {:induction false} PagingAccumulates(s: State, pages: seq<seq<Thing>>)
    ensures var t := PageThrough(s, pages);
            && t.query == s.query && t.page == s.page + |pages| && t.things == s.things + Concat(pages)
            && (pages != [] ==> !t.isQuerying && !t.isFromCollection)
    decreases |pages|
  {
    if pages != [] {
      var last := pages[|pages| - 1];
      var init := pages[..|pages| - 1];
      PagingAccumulates(s, init);
      var before := PageThrough(s, init);
      PageStep(before, last);
      assert PageThrough(s, pages) == OnQueryFinished(AddPage(before).state, last).state;
      ConcatLast(s.things, pages);
    }
  }

  /** One more page asked for and received. */
  lemma PageStep(s: State, received: seq<Thing>)
    ensures var t := OnQueryFinished(AddPage(s).state, received).state;
            && t.query == s.query && t.page == s.page + 1 && t.things == s.things + received
            && !t.isQuerying && !t.isFromCollection
  {
  }

  /** Appending the pages one by one appends their concatenation. */
  lemma {:induction false} ConcatLast(prefix: seq<Thing>, pages: seq<seq<Thing>>)
    requires pages != []
    ensures prefix + Concat(pages[..|pages| - 1]) + pages[|pages| - 1] == prefix + Concat(pages)
  {
    var init := Concat(pages[..|pages| - 1]);
    var last := pages[|pages| - 1];
    assert Concat(pages) == init + last;
    assert prefix + init + last == prefix + (init + last);
  }

  /** The results of several pages, in order. */
  function Concat(pages: seq<seq<Thing>>): seq<Thing>
    decreases |pages|
  {
    if pages == [] then [] else Concat(pages[..|pages| - 1]) + pages[|pages| - 1]
  }

  /** Ask for one more page and receive it, once per element of `pages`. */
  function PageThrough(s: State, pages: seq<seq<Thing>>): State
    decreases |pages|
  {
    if pages == [] then s
    else
      var before := PageThrough(s, pages[..|pages| - 1]);
      OnQueryFinished(AddPage(before).state, pages[|pages| - 1]).state
  }
}
