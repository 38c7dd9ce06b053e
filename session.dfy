/** The client's root component: session, view, history cache, upload and the
    two auto-dismissing messages. The component's state slots are the fields
    of `App`; each handler is a method that updates them in the order the
    component does. `fetch`, `localStorage` and `setTimeout` are the
    environment: a network call's outcome is a parameter, the stored token is
    the field `storage`, the requests issued are recorded in `sent`, and
    timers are deadlines on the clock `now`, fired by `Tick`. */
module Session {
  import opened Wrappers
  import Api

  datatype View = Login | Register | Dashboard | Analysis

  /** The analysis payload the backend returns. The client stores it without
      looking inside; it branches only on the overall score and on whether
      an `experience_analysis` entry is present. */
  datatype AnalysisResult = AnalysisResult(overallScore: int, hasExperienceAnalysis: bool)

  /** One entry of the history list returned by `GET /api/analyses`. */
  datatype AnalysisRecord = AnalysisRecord(id: int, filename: string, createdAt: string, analysis: AnalysisResult)

  /** What `selectedAnalysis` holds: a whole history record (set by the
      history list) or an upload's inner payload (set by the upload). */
  datatype Selection = WholeRecord(record: AnalysisRecord) | Payload(result: AnalysisResult)

  datatype Endpoint = LoginEndpoint | RegisterEndpoint

  /** A request the client issues, with its `Authorization` header. */
  datatype Request =
    | AuthRequest(endpoint: Endpoint)
    | ListAnalyses(authorization: string)
    | UploadResume(authorization: string)

  /** How a `fetch` ends: an ok response with its JSON body, a non-ok response
      with the body's `message`, or an exception (no response, or a body that
      is not JSON). */
  datatype Response<T> = Ok(body: T) | NotOk(message: string) | Thrown

  /** Milliseconds after which a message clears itself. */
  const MessageTimeout: int := 4000

  const NetworkErrorMessage := "Network error occurred"
  const UploadFailedMessage := "Failed to upload resume"
  const UploadSuccessMessage := "Resume analyzed successfully!"

  /** The history request `fetchUserAnalyses` issues with the token it closes
      over: none when that token is falsy. */
  function HistoryRequest(token: Option<string>): seq<Request> {
    if Api.Truthy(token) then [ListAnalyses(Api.BearerHeader(token.value))] else []
  }

  /** What the detail view shows for a selection: it renders a report only when
      the selected object has an `experience_analysis` entry. A history
      record has none at its top level. */
  datatype Detail = Unavailable | Report(result: AnalysisResult)

  function DetailOf(selection: Selection): (d: Detail)
    ensures selection.WholeRecord? ==> d == Unavailable
    ensures d.Report? <==> selection.Payload? && selection.result.hasExperienceAnalysis
    ensures d.Report? ==> d.result == selection.result
  {
    match selection
    case WholeRecord(_) => Unavailable
    case Payload(result) => if result.hasExperienceAnalysis then Report(result) else Unavailable
  }

  /** The screen the component renders. `Home` is the dashboard with the
      upload area; its history section shows `history` when non-empty.
      `NavOnly` is the dashboard frame with neither main panel. */
  datatype Screen =
    | Loading
    | LoginForm
    | RegisterForm
    | Home(history: seq<AnalysisRecord>)
    | Detail(detail: Detail)
    | NavOnly

  /** The badge of a history entry's overall score. */
  datatype Tier = Excellent | Good | NeedsWork

  function ScoreTier(score: int): (t: Tier)
    ensures t == Excellent <==> score >= 80
    ensures t == Good <==> 60 <= score < 80
    ensures t == NeedsWork <==> score < 60
  {
    if score >= 80 then Excellent else if score >= 60 then Good else NeedsWork
  }

  /** The badge text: each tier has its own label. */
  function TierLabel(t: Tier): (badge: string)
    ensures badge == "Excellent" <==> t == Excellent
    ensures badge == "Good" <==> t == Good
    ensures badge == "Needs Work" <==> t == NeedsWork
  {
    match t
    case Excellent => "Excellent"
    case Good => "Good"
    case NeedsWork => "Needs Work"
  }

  function TierRank(t: Tier): nat {
    match t
    case NeedsWork => 0
    case Good => 1
    case Excellent => 2
  }

  /** A higher score never gets a lower badge. */
  lemma ScoreTierMonotone(a: int, b: int)
    requires a <= b
    ensures TierRank(ScoreTier(a)) <= TierRank(ScoreTier(b))
  {
  }

  /** A message slot and its pending timer: a timer is pending exactly while the
      slot is non-empty, and it fires within `MessageTimeout` of now. */
  ghost predicate SlotValid(text: string, deadline: Option<int>, now: int) {
    && (text == "" <==> deadline.None?)
    && (deadline.Some? ==> now < deadline.value <= now + MessageTimeout)
  }

  class App {
    var user: Option<Api.User>
    var token: Option<string>
    var currentView: View
    var analyses: seq<AnalysisRecord>
    var selectedAnalysis: Option<Selection>
    var loading: bool
    var error: string
    var success: string
    var isInitialized: bool

    /** The "token" entry of `localStorage`. */
    var storage: Option<string>
    /** The requests issued so far, oldest first. */
    var sent: seq<Request>
    /** The clock, in milliseconds, and the deadline of each message's timer. */
    var now: int
    var errorDeadline: Option<int>
    var successDeadline: Option<int>

    ghost predicate Valid()
      reads this
    {
      && (!isInitialized ==> token.None? && currentView == Login)
      && (currentView == Analysis ==> selectedAnalysis.Some?)
      && (Api.Truthy(token) ==> storage == token && (currentView == Dashboard || currentView == Analysis))
      && SlotValid(error, errorDeadline, now)
      && SlotValid(success, successDeadline, now)
    }

    /** The component's first render: every slot at its initial value. */
    constructor(stored: Option<string>, clock: int)
      ensures Valid()
      ensures user.None? && token.None? && currentView == Login && analyses == [] && selectedAnalysis.None?
      ensures !loading && error == "" && success == "" && !isInitialized
      ensures storage == stored && sent == [] && now == clock
      ensures errorDeadline.None? && successDeadline.None?
    {
      user, token, currentView, analyses, selectedAnalysis := None, None, Login, [], None;
      loading, error, success, isInitialized := false, "", "", false;
      storage, sent, now := stored, [], clock;
      errorDeadline, successDeadline := None, None;
    }

    function Screen(): (s: Screen)
      reads this
      ensures s == Loading <==> !isInitialized
      ensures isInitialized && !Api.Truthy(token) ==>
        (s == LoginForm <==> currentView == Login) && (s == RegisterForm <==> currentView != Login)
      ensures s.Home? <==> isInitialized && Api.Truthy(token) && currentView == Dashboard
      ensures s.Home? ==> s.history == analyses
      ensures s.Detail? <==>
        isInitialized && Api.Truthy(token) && currentView == Analysis && selectedAnalysis.Some?
      ensures s.Detail? ==> s.detail == DetailOf(selectedAnalysis.value)
      ensures Valid() ==> !s.NavOnly?
    {
      if !isInitialized then Loading
      else if !Api.Truthy(token) then (if currentView == Login then LoginForm else RegisterForm)
      else if currentView == Dashboard then Home(analyses)
      else if currentView == Analysis && selectedAnalysis.Some? then Detail(DetailOf(selectedAnalysis.value))
      else NavOnly
    }

    predicate ShowsAuthForm()
      reads this
    {
      Screen() == LoginForm || Screen() == RegisterForm
    }

    // -------------------------------------------------------------------------
    // Message slots

    /** `setError`: a changed value cancels the pending timer and, when
        non-empty, starts a new one; setting the current value again changes
        nothing, so its timer keeps running. */
    method SetError(message: string)
      requires SlotValid(error, errorDeadline, now)
      modifies this`error, this`errorDeadline
      ensures SlotValid(error, errorDeadline, now)
      ensures error == message
      ensures message != old(error) && message != "" ==> errorDeadline == Some(now + MessageTimeout)
      ensures message == old(error) ==> errorDeadline == old(errorDeadline)
    {
      if message != error {
        error := message;
        errorDeadline := if message == "" then None else Some(now + MessageTimeout);
      }
    }

    /** `setSuccess`, with the same timer behaviour as `SetError`. */
    method SetSuccess(message: string)
      requires SlotValid(success, successDeadline, now)
      modifies this`success, this`successDeadline
      ensures SlotValid(success, successDeadline, now)
      ensures success == message
      ensures message != old(success) && message != "" ==> successDeadline == Some(now + MessageTimeout)
      ensures message == old(success) ==> successDeadline == old(successDeadline)
    {
      if message != success {
        success := message;
        successDeadline := if message == "" then None else Some(now + MessageTimeout);
      }
    }

    /** The clock reaches `t`; each timer due by then fires and clears its slot. */
    method Tick(t: int)
      requires Valid() && t >= now
      modifies this`now, this`error, this`errorDeadline, this`success, this`successDeadline
      ensures Valid() && now == t
      ensures old(errorDeadline).Some? && old(errorDeadline).value <= t ==> error == ""
      ensures !(old(errorDeadline).Some? && old(errorDeadline).value <= t) ==>
        error == old(error) && errorDeadline == old(errorDeadline)
      ensures old(successDeadline).Some? && old(successDeadline).value <= t ==> success == ""
      ensures !(old(successDeadline).Some? && old(successDeadline).value <= t) ==>
        success == old(success) && successDeadline == old(successDeadline)
      ensures t >= old(now) + MessageTimeout ==> error == "" && success == ""
    {
      now := t;
      if errorDeadline.Some? && errorDeadline.value <= t {
        error, errorDeadline := "", None;
      }
      if successDeadline.Some? && successDeadline.value <= t {
        success, successDeadline := "", None;
      }
    }

    /** The error toast's close button. */
    method DismissError()
      requires Valid()
      modifies this`error, this`errorDeadline
      ensures Valid() && error == "" && errorDeadline.None?
    {
      SetError("");
    }

    /** The success toast's close button. */
    method DismissSuccess()
      requires Valid()
      modifies this`success, this`successDeadline
      ensures Valid() && success == "" && successDeadline.None?
    {
      SetSuccess("");
    }

    // -------------------------------------------------------------------------
    // Session and history

    /** The mount effect: a stored token is trusted as it is and opens the
        dashboard. The history effect then fetches with it. */
    method Initialize()
      requires Valid() && !isInitialized
      modifies this`token, this`currentView, this`isInitialized, this`sent
      ensures Valid() && isInitialized
      ensures Api.Truthy(storage) ==>
        token == storage && currentView == Dashboard &&
        sent == old(sent) + [ListAnalyses(Api.BearerHeader(storage.value))]
      ensures !Api.Truthy(storage) ==> token.None? && currentView == Login && sent == old(sent)
    {
      var prevToken, prevInitialized := token, isInitialized;
      if Api.Truthy(storage) {
        token := storage;
        currentView := Dashboard;
      }
      isInitialized := true;
      HistoryEffect(prevToken, prevInitialized);
    }

    /** The issuing half of `fetchUserAnalyses`, with the token its closure
        captured: nothing when that token is falsy. */
    method FetchUserAnalyses(captured: Option<string>)
      modifies this`sent
      ensures Api.Truthy(captured) ==> sent == old(sent) + [ListAnalyses(Api.BearerHeader(captured.value))]
      ensures !Api.Truthy(captured) ==> sent == old(sent)
    {
      if Api.Truthy(captured) {
        sent := sent + [ListAnalyses(Api.BearerHeader(captured.value))];
      }
    }

    /** The effect on `[token, fetchUserAnalyses, isInitialized]`: after a render
        in which the token or the initialisation flag changed, it fetches the
        history when there is a token and initialisation is done. */
    method HistoryEffect(prevToken: Option<string>, prevInitialized: bool)
      modifies this`sent
      ensures (token != prevToken || isInitialized != prevInitialized) && isInitialized ==>
        sent == old(sent) + HistoryRequest(token)
      ensures !((token != prevToken || isInitialized != prevInitialized) && isInitialized) ==> sent == old(sent)
    {
      if (token != prevToken || isInitialized != prevInitialized) && Api.Truthy(token) && isInitialized {
        FetchUserAnalyses(token);
      }
    }

    /** The completing half of `fetchUserAnalyses`: an ok response replaces the
        list wholesale; a failure only logs, keeping the old list. Nothing
        checks that the session is still the one that asked. */
    method ReceiveAnalyses(outcome: Response<seq<AnalysisRecord>>)
      requires Valid()
      modifies this`analyses
      ensures Valid()
      ensures outcome.Ok? ==> analyses == outcome.body
      ensures !outcome.Ok? ==> analyses == old(analyses)
    {
      if outcome.Ok? {
        analyses := outcome.body;
      }
    }

    /** `handleAuth`, submitted from the login or the register form. The direct
        call to `fetchUserAnalyses` uses the token of the render that showed
        the form, which is falsy, so it issues nothing; the history request
        comes from the token effect. */
    method Authenticate(outcome: Response<Api.AuthResponse>)
      requires Valid() && ShowsAuthForm()
      modifies this`loading, this`error, this`errorDeadline, this`token, this`user, this`storage,
               this`success, this`successDeadline, this`currentView, this`sent
      ensures Valid() && !loading
      ensures outcome.Ok? ==>
        && token == Some(outcome.body.token) && user == Some(outcome.body.user)
        && storage == Some(outcome.body.token) && success == outcome.body.message
        && currentView == Dashboard && error == ""
        && sent == old(sent) + [AuthRequest(if old(currentView) == Login then LoginEndpoint else RegisterEndpoint)]
                  + HistoryRequest(Some(outcome.body.token))
      ensures !outcome.Ok? ==>
        && token == old(token) && user == old(user) && storage == old(storage)
        && currentView == old(currentView) && success == old(success) && successDeadline == old(successDeadline)
        && sent == old(sent) + [AuthRequest(if old(currentView) == Login then LoginEndpoint else RegisterEndpoint)]
      ensures outcome.NotOk? ==> error == outcome.message
      ensures outcome.Thrown? ==> error == NetworkErrorMessage
      ensures !outcome.Ok? ==> errorDeadline == (if error == "" then None else Some(now + MessageTimeout))
      ensures outcome.Ok? ==>
        successDeadline == (if success == old(success) then old(successDeadline)
                            else if success == "" then None else Some(now + MessageTimeout))
    {
      var captured := token;
      var prevToken, prevInitialized := token, isInitialized;
      var endpoint := if currentView == Login then LoginEndpoint else RegisterEndpoint;
      loading := true;
      SetError("");
      sent := sent + [AuthRequest(endpoint)];
      ApplyAuthOutcome(captured, outcome);
      loading := false;
      HistoryEffect(prevToken, prevInitialized);
    }

    /** What `handleAuth` does once the response is in, before the render. */
    method ApplyAuthOutcome(captured: Option<string>, outcome: Response<Api.AuthResponse>)
      requires SlotValid(error, errorDeadline, now) && SlotValid(success, successDeadline, now)
      modifies this`error, this`errorDeadline, this`token, this`user, this`storage,
               this`success, this`successDeadline, this`currentView, this`sent
      ensures SlotValid(error, errorDeadline, now) && SlotValid(success, successDeadline, now)
      ensures outcome.Ok? ==>
        && token == Some(outcome.body.token) && user == Some(outcome.body.user)
        && storage == Some(outcome.body.token) && success == outcome.body.message
        && currentView == Dashboard && error == old(error) && errorDeadline == old(errorDeadline)
        && sent == old(sent) + HistoryRequest(captured)
      ensures !outcome.Ok? ==>
        && token == old(token) && user == old(user) && storage == old(storage)
        && currentView == old(currentView) && success == old(success) && successDeadline == old(successDeadline)
        && sent == old(sent)
      ensures outcome.NotOk? ==> error == outcome.message
      ensures outcome.Thrown? ==> error == NetworkErrorMessage
      ensures !outcome.Ok? ==>
        errorDeadline == (if error == old(error) then old(errorDeadline)
                          else if error == "" then None else Some(now + MessageTimeout))
      ensures outcome.Ok? ==>
        successDeadline == (if success == old(success) then old(successDeadline)
                            else if success == "" then None else Some(now + MessageTimeout))
    {
      match outcome {
        case Ok(body) =>
          token := Some(body.token);
          user := Some(body.user);
          storage := Some(body.token);
          SetSuccess(body.message);
          currentView := Dashboard;
          FetchUserAnalyses(captured);
        case NotOk(message) =>
          SetError(message);
        case Thrown =>
          SetError(NetworkErrorMessage);
      }
    }

    /** `handleLogout`: always succeeds and issues nothing. */
    method Logout()
      requires Valid()
      modifies this`token, this`user, this`storage, this`currentView, this`analyses,
               this`selectedAnalysis, this`sent
      ensures Valid()
      ensures token.None? && user.None? && storage.None? && currentView == Login
      ensures analyses == [] && selectedAnalysis.None? && sent == old(sent)
    {
      var prevToken, prevInitialized := token, isInitialized;
      token := None;
      user := None;
      storage := None;
      currentView := Login;
      analyses := [];
      selectedAnalysis := None;
      HistoryEffect(prevToken, prevInitialized);
    }

    // -------------------------------------------------------------------------
    // Upload

    /** The first half of `handleFileUpload`, up to the request: returns the
        token its closure holds, which the second half uses. */
    method BeginUpload() returns (captured: Option<string>)
      requires Valid() && Screen().Home?
      modifies this`loading, this`error, this`errorDeadline, this`sent
      ensures Valid() && loading && error == "" && captured == token
      ensures sent == old(sent) + [UploadResume(Api.BearerHeader(token.value))]
    {
      captured := token;
      loading := true;
      SetError("");
      sent := sent + [UploadResume(Api.BearerHeader(token.value))];
    }

    /** The second half of `handleFileUpload`, when the response arrives. It is
        applied whatever happened meanwhile: no check that the session is
        still the one that uploaded. */
    method CompleteUpload(captured: Option<string>, outcome: Response<AnalysisResult>)
      requires Valid() && isInitialized
      modifies this`loading, this`error, this`errorDeadline, this`success, this`successDeadline,
               this`selectedAnalysis, this`currentView, this`sent
      ensures Valid() && !loading
      ensures outcome.Ok? ==>
        && success == UploadSuccessMessage && selectedAnalysis == Some(Payload(outcome.body))
        && currentView == Analysis && sent == old(sent) + HistoryRequest(captured)
        && error == old(error) && errorDeadline == old(errorDeadline)
      ensures !outcome.Ok? ==>
        && selectedAnalysis == old(selectedAnalysis) && currentView == old(currentView)
        && success == old(success) && successDeadline == old(successDeadline) && sent == old(sent)
      ensures outcome.NotOk? ==> error == outcome.message
      ensures outcome.Thrown? ==> error == UploadFailedMessage
      ensures !outcome.Ok? ==>
        errorDeadline == (if error == old(error) then old(errorDeadline)
                          else if error == "" then None else Some(now + MessageTimeout))
      ensures outcome.Ok? ==>
        successDeadline == (if success == old(success) then old(successDeadline)
                            else if success == "" then None else Some(now + MessageTimeout))
    {
      match outcome {
        case Ok(result) =>
          SetSuccess(UploadSuccessMessage);
          FetchUserAnalyses(captured);
          selectedAnalysis := Some(Payload(result));
          currentView := Analysis;
        case NotOk(message) =>
          SetError(message);
        case Thrown =>
          SetError(UploadFailedMessage);
      }
      loading := false;
    }

    // -------------------------------------------------------------------------
    // Navigation

    /** The "Sign Up" / "Sign In" link under the auth form. */
    method ToggleAuthView()
      requires Valid() && ShowsAuthForm()
      modifies this`currentView
      ensures Valid()
      ensures old(currentView) == Login ==> currentView == Register && Screen() == RegisterForm
      ensures old(currentView) != Login ==> currentView == Login && Screen() == LoginForm
    {
      currentView := if currentView == Login then Register else Login;
    }

    /** The eye button of a history entry: stores the whole record. */
    method SelectHistory(record: AnalysisRecord)
      requires Valid() && Screen().Home? && record in analyses
      modifies this`selectedAnalysis, this`currentView
      ensures Valid()
      ensures selectedAnalysis == Some(WholeRecord(record)) && currentView == Analysis
      ensures Screen() == Detail(Unavailable)
    {
      selectedAnalysis := Some(WholeRecord(record));
      currentView := Analysis;
    }

    /** The eye button as evidently intended: stores the record's payload, as
        the upload does, so the detail view shows its report. */
    method SelectHistoryPayload(record: AnalysisRecord)
      requires Valid() && Screen().Home? && record in analyses
      modifies this`selectedAnalysis, this`currentView
      ensures Valid()
      ensures selectedAnalysis == Some(Payload(record.analysis)) && currentView == Analysis
      ensures record.analysis.hasExperienceAnalysis ==> Screen() == Detail(Report(record.analysis))
    {
      selectedAnalysis := Some(Payload(record.analysis));
      currentView := Analysis;
    }

    /** "Back to Dashboard". */
    method Back()
      requires Valid() && Screen().Detail?
      modifies this`currentView
      ensures Valid()
      ensures currentView == Dashboard && Screen() == Home(analyses)
    {
      currentView := Dashboard;
    }
  }

  /** A session restored from storage uploads a resume, logs out while the
      upload is in flight, and then the upload's ok response arrives: it is
      applied anyway. The view becomes "analysis" with no token, so the
      component renders the register form (the auth form shown for any view
      but "login"), and a history request goes out with the old token. */
  method LateUploadAfterLogout(stored: string, result: AnalysisResult) returns (app: App)
    requires stored != ""
    ensures app.token.None? && app.storage.None?
    ensures app.currentView == Analysis && app.selectedAnalysis == Some(Payload(result))
    ensures app.Screen() == RegisterForm && app.success == UploadSuccessMessage
    ensures app.sent == [ListAnalyses(Api.BearerHeader(stored)), UploadResume(Api.BearerHeader(stored)),
                         ListAnalyses(Api.BearerHeader(stored))]
  {
    app := new App(Some(stored), 0);
    app.Initialize();
    var captured := app.BeginUpload();
    app.Logout();
    app.CompleteUpload(captured, Ok(result));
  }

  /** Case: a failed login's message stays up until 4000 ms have passed and
      is gone at 4000 ms. */
  method FailedLoginMessageLifetime(message: string, clock: int) returns (shownBefore: string, shownAfter: string)
    requires message != ""
    ensures shownBefore == message && shownAfter == ""
  {
    var app := new App(None, clock);
    app.Initialize();
    app.Authenticate(NotOk(message));
    app.Tick(clock + MessageTimeout - 1);
    shownBefore := app.error;
    app.Tick(clock + MessageTimeout);
    shownAfter := app.error;
  }
}
