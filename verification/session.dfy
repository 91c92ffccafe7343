/** Session handling of `login.py`: replaying stored cookies and the decision
    flow of `linkedin_login`, as a state machine driven by what the browser
    shows. The browser's answers are inputs; what the code does to the browser
    is recorded as a trace of actions. */
module Session {
  import opened Wrappers
  import Text

  /** A cookie attribute value as the browser reports it. */
  datatype CookieValue = Str(s: string) | Int(i: int) | Bool(b: bool)

  /** A cookie: attribute name to value. */
  type Cookie = map<string, CookieValue>

  /** The attributes stripped before a cookie is replayed. */
  const Unsupported: set<string> := {"sameSite", "expiry"}

  /** `cookie.pop("sameSite", None)` then `cookie.pop("expiry", None)`:
      exactly those two attributes are removed, if present, and every other
      attribute keeps its value. */
  function Sanitise(cookie: Cookie): (c: Cookie)
    ensures c.Keys == cookie.Keys - Unsupported
    ensures forall k :: k in c ==> c[k] == cookie[k]
  {
    cookie - {"sameSite"} - {"expiry"}
  }

  /** Sanitising is idempotent, and a cookie without the two attributes is
      replayed unchanged. */
  lemma SanitiseIdempotent(cookie: Cookie)
    ensures Sanitise(Sanitise(cookie)) == Sanitise(cookie)
    ensures "sameSite" !in cookie && "expiry" !in cookie ==> Sanitise(cookie) == cookie
  {
  }

  const RootUrl: string := "https://www.linkedin.com"
  const FeedUrl: string := "https://www.linkedin.com/feed/"
  const LoginUrl: string := "https://www.linkedin.com/login"

  /** The input fields the login flow types into. */
  datatype Field = Username | Password | PinByName | PinById

  /** What the code does to the browser or to disk. */
  datatype Action =
    | Navigate(url: string)
    | AddCookie(cookie: Cookie)
    | Refresh
    | Clear(field: Field)
    | TypeInto(field: Field, text: string)
    | ClickSubmit
    | SaveCookies

  /** `load_cookies`: with no cookie file it does nothing and reports false;
      otherwise it opens the site root, adds every stored cookie with the
      unsupported attributes removed, refreshes, and reports true. */
  function LoadCookies(stored: Option<seq<Cookie>>): (r: (bool, seq<Action>))
    ensures r.0 <==> stored.Some?
    ensures stored.None? ==> r.1 == []
    ensures stored.Some? ==>
      && |r.1| == |stored.value| + 2
      && r.1[0] == Navigate(RootUrl)
      && r.1[|r.1| - 1] == Refresh
      && forall i :: 0 <= i < |stored.value| ==> r.1[i + 1] == AddCookie(Sanitise(stored.value[i]))
    ensures forall a :: a in r.1 ==>
      a == Navigate(RootUrl) || a == Refresh || (a.AddCookie? && a.cookie.Keys !! Unsupported)
  {
    match stored
    case None => (false, [])
    case Some(cookies) =>
      var added := seq(|cookies|, i requires 0 <= i < |cookies| => AddCookie(Sanitise(cookies[i])));
      (true, [Navigate(RootUrl)] + added + [Refresh])
  }

  /** Everything the login flow observes: the stored cookies, the URL after
      opening the feed, the URL and pin-field presence after submitting
      credentials (login.py:85), whether the pin field can be found by name
      and by id once the code has been typed at the prompt (login.py:91,
      93), the typed two-factor code, and the URL and pin-field presence
      after submitting it. The page may change while the prompt waits, so
      the presence check and the lookup by name are separate observations. */
  datatype Observations = Observations(
    stored: Option<seq<Cookie>>,
    feedUrl: string,
    submitUrl: string,
    submitPinField: bool,
    pinNameField: bool,
    pinIdField: bool,
    code: string,
    verifyUrl: string,
    verifyPinField: bool)

  /** Account name and password. */
  datatype Credentials = Credentials(user: string, password: string)

  /** Why a login attempt failed. */
  datatype LoginError =
    | TwoFactorRejected   // the challenge is still there after the code
    | PinInputMissing     // neither pin field could be found
    | PasswordRejected    // still on a login page after the credentials; only `CheckedLogin` reports it

  /** How `linkedin_login` ends. `LoggedIn` is the code's own verdict: it
      is reached by any credential submission that shows no challenge, and
      by any accepted code, without checking that the password was right. */
  datatype Outcome =
    | AlreadyAuthenticated
    | LoggedIn(usedTwoFactor: bool)
    | Failed(error: LoginError)

  /** The steps of the flow. */
  datatype Phase =
    | LoadingCookies
    | CheckingFeed
    | SubmittingCredentials
    | AwaitingTwoFactor
    | VerifyingCode
    | SavingSession(usedTwoFactor: bool)
    | Done(outcome: Outcome)

  /** The feed redirected to a login or checkpoint page. */
  predicate NeedsLogin(url: string) {
    Text.Contains(url, "login") || Text.Contains(url, "checkpoint")
  }

  /** A two-factor challenge is showing. */
  predicate ChallengeShown(url: string, pinField: bool) {
    Text.Contains(url, "checkpoint/challenge") || pinField
  }

  /** Steps left before the flow ends. */
  function Rank(phase: Phase): nat {
    match phase
    case LoadingCookies => 6
    case CheckingFeed => 5
    case SubmittingCredentials => 4
    case AwaitingTwoFactor => 3
    case VerifyingCode => 2
    case SavingSession(_) => 1
    case Done(_) => 0
  }

  /** One step: the actions it performs and the phase it moves to. */
  function Step(phase: Phase, obs: Observations, creds: Credentials): (r: (Phase, seq<Action>))
    requires !phase.Done?
    ensures Rank(r.0) < Rank(phase)
    ensures SaveCookies in r.1 <==> phase.SavingSession?
    ensures r.0.Done? && r.0.outcome.LoggedIn? ==> phase.SavingSession?
  {
    match phase
    case LoadingCookies =>
      (CheckingFeed, LoadCookies(obs.stored).1)
    case CheckingFeed =>
      (if NeedsLogin(obs.feedUrl) then SubmittingCredentials else Done(AlreadyAuthenticated),
       [Navigate(FeedUrl)])
    case SubmittingCredentials =>
      (if ChallengeShown(obs.submitUrl, obs.submitPinField) then AwaitingTwoFactor
       else SavingSession(false),
       [Navigate(LoginUrl), TypeInto(Username, creds.user), TypeInto(Password, creds.password),
        ClickSubmit])
    case AwaitingTwoFactor =>
      if obs.pinNameField || obs.pinIdField then
        var field := if obs.pinNameField then PinByName else PinById;
        (VerifyingCode, [Clear(field), TypeInto(field, Text.Strip(obs.code)), ClickSubmit])
      else
        (Done(Failed(PinInputMissing)), [])
    case VerifyingCode =>
      (if ChallengeShown(obs.verifyUrl, obs.verifyPinField) then Done(Failed(TwoFactorRejected))
       else SavingSession(true),
       [])
    case SavingSession(twoFactor) =>
      (Done(LoggedIn(twoFactor)), [SaveCookies])
  }

  /** How many times cookies are saved in a trace. */
  function Saves(trace: seq<Action>): (n: nat)
    ensures n == 0 <==> SaveCookies !in trace
    ensures n <= |trace|
  {
    if |trace| == 0 then 0
    else (if trace[0] == SaveCookies then 1 else 0) + Saves(trace[1..])
  }

  lemma {:induction false} SavesAppend(a: seq<Action>, b: seq<Action>)
    ensures Saves(a + b) == Saves(a) + Saves(b)
  {
    if |a| > 0 {
      assert (a + b)[0] == a[0];
      assert (a + b)[1..] == a[1..] + b;
      SavesAppend(a[1..], b);
    } else {
      assert a + b == b;
    }
  }

  /** Runs the flow from `phase` to its end: the outcome and every action
      taken. Cookies are saved once exactly when the flow ends logged in,
      and saving is the last thing it does. */
  function Run(phase: Phase, obs: Observations, creds: Credentials): (r: (Outcome, seq<Action>))
    ensures phase.Done? ==> r == (phase.outcome, [])
    ensures !phase.Done? ==> Saves(r.1) == (if r.0.LoggedIn? then 1 else 0)
    ensures r.0.LoggedIn? && !phase.Done? ==> |r.1| > 0 && r.1[|r.1| - 1] == SaveCookies
    decreases Rank(phase)
  {
    if phase.Done? then (phase.outcome, [])
    else
      var (next, actions) := Step(phase, obs, creds);
      var (outcome, rest) := Run(next, obs, creds);
      SavesAppend(actions, rest);
      assert phase.SavingSession? ==> actions == [SaveCookies];
      (outcome, actions + rest)
  }

  /** `linkedin_login`. */
  function Login(obs: Observations, creds: Credentials): (r: (Outcome, seq<Action>)) {
    Run(LoadingCookies, obs, creds)
  }

  /** The actions of submitting username and password. */
  function SubmitActions(creds: Credentials): seq<Action> {
    [Navigate(LoginUrl), TypeInto(Username, creds.user), TypeInto(Password, creds.password), ClickSubmit]
  }

  /** The pin field the code goes into: the one found by name if there is
      one, else the one found by id. */
  function PinField(obs: Observations): Option<Field> {
    if obs.pinNameField then Some(PinByName)
    else if obs.pinIdField then Some(PinById)
    else None
  }

  /** What follows submitting the two-factor code (login.py:100-105). */
  function AfterCode(obs: Observations): (Outcome, seq<Action>) {
    if ChallengeShown(obs.verifyUrl, obs.verifyPinField) then (Failed(TwoFactorRejected), [])
    else (LoggedIn(true), [SaveCookies])
  }

  /** What follows submitting the credentials (login.py:84-105). */
  function AfterSubmit(obs: Observations): (Outcome, seq<Action>) {
    if !ChallengeShown(obs.submitUrl, obs.submitPinField) then (LoggedIn(false), [SaveCookies])
    else
      match PinField(obs)
      case None => (Failed(PinInputMissing), [])
      case Some(field) =>
        (AfterCode(obs).0,
         [Clear(field), TypeInto(field, Text.Strip(obs.code)), ClickSubmit] + AfterCode(obs).1)
  }

  /** What follows opening the feed (login.py:73-108). */
  function AfterFeed(obs: Observations, creds: Credentials): (Outcome, seq<Action>) {
    if !NeedsLogin(obs.feedUrl) then (AlreadyAuthenticated, [])
    else (AfterSubmit(obs).0, SubmitActions(creds) + AfterSubmit(obs).1)
  }

  /** `linkedin_login` read straight off its nested conditionals, as a
      reference for the state machine. */
  function DirectLogin(obs: Observations, creds: Credentials): (Outcome, seq<Action>) {
    (AfterFeed(obs, creds).0,
     LoadCookies(obs.stored).1 + [Navigate(FeedUrl)] + AfterFeed(obs, creds).1)
  }

  /** One step of the run: the step's actions come first, then the rest. */
  lemma RunUnfold(phase: Phase, obs: Observations, creds: Credentials)
    requires !phase.Done?
    ensures Run(phase, obs, creds).0 == Run(Step(phase, obs, creds).0, obs, creds).0
    ensures Run(phase, obs, creds).1 ==
      Step(phase, obs, creds).1 + Run(Step(phase, obs, creds).0, obs, creds).1
  {
  }

  lemma RunVerifying(obs: Observations, creds: Credentials)
    ensures Run(VerifyingCode, obs, creds) == AfterCode(obs)
  {
    RunUnfold(VerifyingCode, obs, creds);
    if ChallengeShown(obs.verifyUrl, obs.verifyPinField) {
      var none: seq<Action> := [];
      assert Run(Done(Failed(TwoFactorRejected)), obs, creds) == (Failed(TwoFactorRejected), none);
      assert none + none == none;
    } else {
      RunSaving(true, obs, creds);
      assert [] + [SaveCookies] == [SaveCookies];
    }
  }

  lemma RunSaving(twoFactor: bool, obs: Observations, creds: Credentials)
    ensures Run(SavingSession(twoFactor), obs, creds) == (LoggedIn(twoFactor), [SaveCookies])
  {
    RunUnfold(SavingSession(twoFactor), obs, creds);
    assert [SaveCookies] + [] == [SaveCookies];
  }

  lemma RunAwaiting(obs: Observations, creds: Credentials)
    requires ChallengeShown(obs.submitUrl, obs.submitPinField)
    ensures Run(AwaitingTwoFactor, obs, creds) == AfterSubmit(obs)
  {
    RunVerifying(obs, creds);
  }

  lemma RunSubmitting(obs: Observations, creds: Credentials)
    ensures Run(SubmittingCredentials, obs, creds) ==
      (AfterSubmit(obs).0, SubmitActions(creds) + AfterSubmit(obs).1)
  {
    if ChallengeShown(obs.submitUrl, obs.submitPinField) {
      RunAwaiting(obs, creds);
    } else {
      RunUnfold(SubmittingCredentials, obs, creds);
      RunSaving(false, obs, creds);
    }
  }

  lemma RunChecking(obs: Observations, creds: Credentials)
    ensures Run(CheckingFeed, obs, creds) ==
      (AfterFeed(obs, creds).0, [Navigate(FeedUrl)] + AfterFeed(obs, creds).1)
  {
    if NeedsLogin(obs.feedUrl) {
      RunSubmitting(obs, creds);
    } else {
      assert [Navigate(FeedUrl)] + [] == [Navigate(FeedUrl)];
    }
  }

  /** The state machine and the straight-line reading agree on every input. */
  lemma LoginIsDirectLogin(obs: Observations, creds: Credentials)
    ensures Login(obs, creds) == DirectLogin(obs, creds)
  {
    LoginTrace(obs, creds);
    RunUnfold(LoadingCookies, obs, creds);
    RunChecking(obs, creds);
    var load := LoadCookies(obs.stored).1;
    assert load + ([Navigate(FeedUrl)] + AfterFeed(obs, creds).1)
      == load + [Navigate(FeedUrl)] + AfterFeed(obs, creds).1;
  }

  /** An action `load_cookies` never performs is in the login trace exactly
      when it is the feed visit or part of what follows it. */
  lemma InLoginTrace(obs: Observations, creds: Credentials, a: Action)
    requires a != Navigate(RootUrl) && a != Refresh && !a.AddCookie?
    ensures a in Login(obs, creds).1 <==> a == Navigate(FeedUrl) || a in AfterFeed(obs, creds).1
  {
    LoginTrace(obs, creds);
    LoadOnlyReplays(obs.stored, a);
  }

  /** The login trace is the cookie-loading part, the feed visit, and what
      follows it. */
  lemma LoginTrace(obs: Observations, creds: Credentials)
    ensures Login(obs, creds).1 ==
      LoadCookies(obs.stored).1 + ([Navigate(FeedUrl)] + AfterFeed(obs, creds).1)
  {
    RunUnfold(LoadingCookies, obs, creds);
    RunChecking(obs, creds);
  }

  /** `load_cookies` only opens the site root, adds cookies and refreshes. */
  lemma LoadOnlyReplays(stored: Option<seq<Cookie>>, a: Action)
    requires a != Navigate(RootUrl) && a != Refresh && !a.AddCookie?
    ensures a !in LoadCookies(stored).1
  {
  }

  /** The two-factor code was typed into a pin field. */
  predicate EntersCode(trace: seq<Action>) {
    Clear(PinByName) in trace || Clear(PinById) in trace
  }

  /** The stored session is kept exactly when the feed did not redirect to a
      login or checkpoint page; then no credential is typed and no cookie is
      saved. Credentials are typed exactly on a redirect. */
  lemma FullLoginIffRedirected(obs: Observations, creds: Credentials)
    ensures Login(obs, creds).0 == AlreadyAuthenticated <==> !NeedsLogin(obs.feedUrl)
    ensures TypeInto(Username, creds.user) in Login(obs, creds).1 <==> NeedsLogin(obs.feedUrl)
    ensures !NeedsLogin(obs.feedUrl) ==>
      Login(obs, creds).1 == LoadCookies(obs.stored).1 + [Navigate(FeedUrl)]
  {
    LoginIsDirectLogin(obs, creds);
    InLoginTrace(obs, creds, TypeInto(Username, creds.user));
  }

  /** `TwoFactorIffChallenge` for the straight-line reading. */
  lemma DirectTwoFactor(obs: Observations, creds: Credentials)
    requires NeedsLogin(obs.feedUrl)
    ensures var (outcome, trace) := DirectLogin(obs, creds);
      && (EntersCode(trace) <==>
            ChallengeShown(obs.submitUrl, obs.submitPinField) && PinField(obs).Some?)
      && (!ChallengeShown(obs.submitUrl, obs.submitPinField) <==> outcome == LoggedIn(false))
      && (ChallengeShown(obs.submitUrl, obs.submitPinField) && PinField(obs).None? ==>
            outcome == Failed(PinInputMissing))
  {
    var load := LoadCookies(obs.stored).1;
    assert Clear(PinByName) !in load && Clear(PinById) !in load;
    var tail := AfterFeed(obs, creds).1;
    assert DirectLogin(obs, creds).1 == load + ([Navigate(FeedUrl)] + tail);
    if !ChallengeShown(obs.submitUrl, obs.submitPinField) {
      assert tail == SubmitActions(creds) + [SaveCookies];
    } else if PinField(obs).None? {
      assert tail == SubmitActions(creds);
    } else {
      var f := PinField(obs).value;
      assert tail == SubmitActions(creds) +
        ([Clear(f), TypeInto(f, Text.Strip(obs.code)), ClickSubmit] + AfterCode(obs).1);
      assert Clear(f) in tail;
    }
  }

  /** After the credentials, the code is asked for exactly when the URL shows
      a challenge or a pin field is present (and typed when a pin field can
      be found); without a challenge the login completes at once. */
  lemma TwoFactorIffChallenge(obs: Observations, creds: Credentials)
    requires NeedsLogin(obs.feedUrl)
    ensures var (outcome, trace) := Login(obs, creds);
      && (EntersCode(trace) <==>
            ChallengeShown(obs.submitUrl, obs.submitPinField) && PinField(obs).Some?)
      && (!ChallengeShown(obs.submitUrl, obs.submitPinField) <==> outcome == LoggedIn(false))
      && (ChallengeShown(obs.submitUrl, obs.submitPinField) && PinField(obs).None? ==>
            outcome == Failed(PinInputMissing))
  {
    LoginIsDirectLogin(obs, creds);
    DirectTwoFactor(obs, creds);
  }

  /** After a challenge, the code is typed into exactly the field `PinField` picks. */
  lemma AfterSubmitPin(obs: Observations, f: Field, code: string)
    requires ChallengeShown(obs.submitUrl, obs.submitPinField)
    requires code == Text.Strip(obs.code)
    ensures TypeInto(f, code) in AfterSubmit(obs).1 <==> PinField(obs) == Some(f)
  {
    AfterCodeOnlySaves(obs);
    match PinField(obs)
    case None =>
    case Some(g) =>
      CodeEntryField(f, g, code);
  }

  /** Entering the code into field `g` types it into `g` and nowhere else. */
  lemma CodeEntryField(f: Field, g: Field, code: string)
    ensures TypeInto(f, code) in [Clear(g), TypeInto(g, code), ClickSubmit] <==> f == g
  {
  }

  /** Everything up to the credentials' submission: the cookie-loading
      part, the feed visit and the login form. */
  function Front(obs: Observations, creds: Credentials): seq<Action> {
    LoadCookies(obs.stored).1 + [Navigate(FeedUrl)] + SubmitActions(creds)
  }

  /** Nothing before the two-factor step touches a pin field. */
  lemma FrontTypesNoPin(obs: Observations, creds: Credentials, f: Field, code: string)
    requires f == PinByName || f == PinById
    ensures TypeInto(f, code) !in Front(obs, creds)
  {
    var load := LoadCookies(obs.stored).1;
    LoadOnlyReplays(obs.stored, TypeInto(f, code));
    assert TypeInto(f, code) !in [Navigate(FeedUrl)] + SubmitActions(creds);
    assert Front(obs, creds) == load + ([Navigate(FeedUrl)] + SubmitActions(creds));
  }

  /** After a redirect, the trace is the front part followed by what the
      submission leads to. */
  lemma DirectLoginRedirected(obs: Observations, creds: Credentials)
    requires NeedsLogin(obs.feedUrl)
    ensures DirectLogin(obs, creds).1 == Front(obs, creds) + AfterSubmit(obs).1
  {
    var load := LoadCookies(obs.stored).1;
    assert AfterFeed(obs, creds).1 == SubmitActions(creds) + AfterSubmit(obs).1;
  }

  /** `PinLookupOrder` for the straight-line reading. */
  lemma DirectPinLookup(obs: Observations, creds: Credentials)
    requires NeedsLogin(obs.feedUrl) && ChallengeShown(obs.submitUrl, obs.submitPinField)
    ensures var trace := DirectLogin(obs, creds).1;
      && (TypeInto(PinByName, Text.Strip(obs.code)) in trace <==> obs.pinNameField)
      && (TypeInto(PinById, Text.Strip(obs.code)) in trace <==> !obs.pinNameField && obs.pinIdField)
  {
    var code := Text.Strip(obs.code);
    DirectLoginRedirected(obs, creds);
    FrontTypesNoPin(obs, creds, PinByName, code);
    FrontTypesNoPin(obs, creds, PinById, code);
    AfterSubmitPin(obs, PinByName, code);
    AfterSubmitPin(obs, PinById, code);
  }

  /** The code goes into the pin field found by name when there is one, and
      into the one found by id only when the lookup by name fails. */
  lemma PinLookupOrder(obs: Observations, creds: Credentials)
    requires NeedsLogin(obs.feedUrl) && ChallengeShown(obs.submitUrl, obs.submitPinField)
    ensures var trace := Login(obs, creds).1;
      && (TypeInto(PinByName, Text.Strip(obs.code)) in trace <==> obs.pinNameField)
      && (TypeInto(PinById, Text.Strip(obs.code)) in trace <==> !obs.pinNameField && obs.pinIdField)
  {
    LoginIsDirectLogin(obs, creds);
    DirectPinLookup(obs, creds);
  }

  /** A challenge still showing after the code fails the login with
      `TwoFactorRejected`, and then no cookie is saved. */
  lemma TwoFactorRejectedIffChallengePersists(obs: Observations, creds: Credentials)
    ensures var (outcome, trace) := Login(obs, creds);
      && (outcome == Failed(TwoFactorRejected) <==>
            && NeedsLogin(obs.feedUrl)
            && ChallengeShown(obs.submitUrl, obs.submitPinField)
            && PinField(obs).Some?
            && ChallengeShown(obs.verifyUrl, obs.verifyPinField))
      && (outcome == Failed(TwoFactorRejected) ==> SaveCookies !in trace)
  {
    LoginIsDirectLogin(obs, creds);
  }

  /** Cookies are saved exactly once, as the last action, when and only when
      the credentials were submitted and then either no challenge showed or
      the code was accepted; a reused session, a missing pin field or a
      rejected code saves none. Whether the password itself was accepted
      plays no part (see `RejectedPasswordSaved`). */
  lemma CookiesSavedOnlyAfterFullLogin(obs: Observations, creds: Credentials)
    ensures var (outcome, trace) := Login(obs, creds);
      && Saves(trace) == (if outcome.LoggedIn? then 1 else 0)
      && (outcome.LoggedIn? ==> trace[|trace| - 1] == SaveCookies)
      && (outcome.LoggedIn? <==>
            && NeedsLogin(obs.feedUrl)
            && (!ChallengeShown(obs.submitUrl, obs.submitPinField) ||
                (PinField(obs).Some? && !ChallengeShown(obs.verifyUrl, obs.verifyPinField))))
  {
    LoginIsDirectLogin(obs, creds);
  }

  /** Submitting the code leads at most to saving the cookies. */
  lemma AfterCodeOnlySaves(obs: Observations)
    ensures AfterCode(obs).1 == [] || AfterCode(obs).1 == [SaveCookies]
  {
  }

  /** What follows the credentials adds no cookie and never opens the site root. */
  lemma AfterSubmitAddsNoCookie(obs: Observations)
    ensures forall a :: a in AfterSubmit(obs).1 ==> !a.AddCookie? && a != Navigate(RootUrl)
  {
    AfterCodeOnlySaves(obs);
    match PinField(obs)
    case None =>
    case Some(g) =>
      var typed := [Clear(g), TypeInto(g, Text.Strip(obs.code)), ClickSubmit];
      assert forall a :: a in typed ==> !a.AddCookie? && a != Navigate(RootUrl);
  }

  /** Nothing after the cookie-loading part adds a cookie or opens the site root. */
  lemma AfterFeedAddsNoCookie(obs: Observations, creds: Credentials)
    ensures forall a :: a in AfterFeed(obs, creds).1 ==> !a.AddCookie? && a != Navigate(RootUrl)
  {
    AfterSubmitAddsNoCookie(obs);
  }

  /** `ReplayedCookiesAreSanitised` for the straight-line reading. */
  lemma DirectReplay(obs: Observations, creds: Credentials)
    ensures forall a :: a in DirectLogin(obs, creds).1 && a.AddCookie? ==> a.cookie.Keys !! Unsupported
    ensures obs.stored.None? ==>
      && DirectLogin(obs, creds).1[0] == Navigate(FeedUrl)
      && forall a :: a in DirectLogin(obs, creds).1 ==> !a.AddCookie? && a != Navigate(RootUrl)
  {
    var load := LoadCookies(obs.stored).1;
    var tail := [Navigate(FeedUrl)] + AfterFeed(obs, creds).1;
    AfterFeedAddsNoCookie(obs, creds);
    assert forall a :: a in tail ==> !a.AddCookie? && a != Navigate(RootUrl);
    assert DirectLogin(obs, creds).1 == load + tail;
    if obs.stored.None? {
      assert load == [];
      assert DirectLogin(obs, creds).1 == tail;
    }
  }

  /** Every cookie replayed into the browser lacks the unsupported
      attributes, and with no cookie file none is replayed and the site root
      is never opened: the flow starts at the feed. */
  lemma ReplayedCookiesAreSanitised(obs: Observations, creds: Credentials)
    ensures forall a :: a in Login(obs, creds).1 && a.AddCookie? ==> a.cookie.Keys !! Unsupported
    ensures obs.stored.None? ==>
      && Login(obs, creds).1[0] == Navigate(FeedUrl)
      && forall a :: a in Login(obs, creds).1 ==> !a.AddCookie? && a != Navigate(RootUrl)
  {
    LoginIsDirectLogin(obs, creds);
    DirectReplay(obs, creds);
  }

  /** As written, a rejected password goes unnoticed: when the page after
      the credentials still asks for a login and shows no challenge, the
      flow reports a login without two-factor and saves the cookies of the
      logged-out session. */
  lemma RejectedPasswordSaved(obs: Observations, creds: Credentials)
    requires NeedsLogin(obs.feedUrl) && PasswordRefused(obs)
    ensures Login(obs, creds).0 == LoggedIn(false)
    ensures SaveCookies in Login(obs, creds).1
  {
    LoginIsDirectLogin(obs, creds);
    assert AfterSubmit(obs) == (LoggedIn(false), [SaveCookies]);
  }

  /** The page after the credentials is still a login or checkpoint page
      and shows no two-factor challenge: the password was not accepted. */
  predicate PasswordRefused(obs: Observations) {
    NeedsLogin(obs.submitUrl) && !ChallengeShown(obs.submitUrl, obs.submitPinField)
  }

  /** What follows the credentials once the check that login.py:104 takes
      for granted is made: a refused password fails the login, and nothing
      is saved. */
  function CheckedAfterSubmit(obs: Observations): (Outcome, seq<Action>) {
    if PasswordRefused(obs) then (Failed(PasswordRejected), []) else AfterSubmit(obs)
  }

  /** What follows opening the feed, with a refused password detected. */
  function CheckedAfterFeed(obs: Observations, creds: Credentials): (Outcome, seq<Action>) {
    if !NeedsLogin(obs.feedUrl) then (AlreadyAuthenticated, [])
    else (CheckedAfterSubmit(obs).0, SubmitActions(creds) + CheckedAfterSubmit(obs).1)
  }

  /** `linkedin_login` with a refused password detected. */
  function CheckedLogin(obs: Observations, creds: Credentials): (Outcome, seq<Action>) {
    (CheckedAfterFeed(obs, creds).0,
     LoadCookies(obs.stored).1 + [Navigate(FeedUrl)] + CheckedAfterFeed(obs, creds).1)
  }

  /** With the check in place, cookies are saved exactly when the flow ends
      logged in. A login without a code means the page after the
      credentials showed neither a login nor a challenge; a login with a
      code means the page after the code showed no challenge. A refused
      password is reported as such. */
  lemma CheckedLoginSavesOnlyAccepted(obs: Observations, creds: Credentials)
    ensures SaveCookies in CheckedLogin(obs, creds).1 <==> CheckedLogin(obs, creds).0.LoggedIn?
    ensures CheckedLogin(obs, creds).0 == LoggedIn(false) ==>
      !NeedsLogin(obs.submitUrl) && !ChallengeShown(obs.submitUrl, obs.submitPinField)
    ensures CheckedLogin(obs, creds).0 == LoggedIn(true) ==>
      !ChallengeShown(obs.verifyUrl, obs.verifyPinField)
    ensures CheckedLogin(obs, creds).0 == Failed(PasswordRejected) <==>
      NeedsLogin(obs.feedUrl) && PasswordRefused(obs)
  {
    CheckedSaves(obs, creds);
  }

  /** The checked flow saves the cookies exactly when it ends logged in. */
  lemma CheckedSaves(obs: Observations, creds: Credentials)
    ensures SaveCookies in CheckedLogin(obs, creds).1 <==> CheckedLogin(obs, creds).0.LoggedIn?
  {
    LoadOnlyReplays(obs.stored, SaveCookies);
    CheckedAfterFeedSaves(obs, creds);
  }

  /** What follows the feed, checked, saves the cookies exactly when it ends
      logged in. */
  lemma CheckedAfterFeedSaves(obs: Observations, creds: Credentials)
    ensures SaveCookies in CheckedAfterFeed(obs, creds).1 <==> CheckedAfterFeed(obs, creds).0.LoggedIn?
  {
    CheckedAfterSubmitSaves(obs);
  }

  /** What follows the credentials, checked, saves the cookies exactly when
      it ends logged in. */
  lemma CheckedAfterSubmitSaves(obs: Observations)
    ensures SaveCookies in CheckedAfterSubmit(obs).1 <==> CheckedAfterSubmit(obs).0.LoggedIn?
  {
    AfterCodeOnlySaves(obs);
  }

  /** Whenever the password was not refused, the checked flow is exactly the
      flow as written. */
  lemma CheckedLoginAgrees(obs: Observations, creds: Credentials)
    requires !(NeedsLogin(obs.feedUrl) && PasswordRefused(obs))
    ensures CheckedLogin(obs, creds) == Login(obs, creds)
  {
    LoginIsDirectLogin(obs, creds);
  }
}
