/** The HTTP endpoints of the automation server (server/index.js) over the
    session engine: each request handler acquires the session (or not), checks
    its arguments, acts on the page and answers with a status and, where the
    server takes one, a screenshot. HTTP plumbing itself is not modelled: a
    handler returns the reply it would serialise. */
module Endpoints {
  import opened Common
  import opened Session
  import opened Protocol

  /** What the page does during one navigation: the outcome of `goto`, the
      address afterwards, the title or the error reading it threw, the body
      text (None when reading it throws) and the screenshot capture (None
      when it throws). */
  datatype Visit = Visit(load: Outcome, finalUrl: string, title: Result<string, string>,
                         bodyText: Option<string>, capture: Option<string>)

  /** Reply of POST /navigate. */
  datatype NavigateReply =
    | Navigated(url: string, title: string, screenshot: string, content: string)
    | NavigateFailed(status: nat, error: string)

  /** Reply of POST /action. */
  datatype ActionReply =
    | ActionDone(screenshot: string)
    | ActionFailed(error: string, errorShot: Option<string>)

  const NavigateErrorPrefix: string := "Error navegando: "

  /** The session `initBrowser` handed back is the engine's live browser
      and open page. */
  predicate Holds(e: Engine, acquired: Result<Acquired, string>)
    reads e
  {
    acquired.Ok? ==>
      e.browser.Some? && e.browser.value.connected && e.page == Some(acquired.value.page) &&
      !acquired.value.page.closed
  }

  /** POST /navigate: a missing or empty url is refused with 400 before the
      session is touched; otherwise the session is acquired, the page loads,
      and the reply carries the final address, the title, a screenshot and at
      most 20000 characters of text. A failure to acquire the session, to
      load or to read the title is a 500 with the cause after the prefix. */
  method Navigate(e: Engine, url: Option<string>, profileId: Option<string>,
                  startup: Startup, newPage: Outcome, visit: Visit)
    returns (acquired: Option<Result<Acquired, string>>, reply: NavigateReply)
    requires e.Valid()
    modifies e
    ensures e.Valid()
    ensures !Given(url) ==> acquired.None? && reply == NavigateFailed(400, MissingUrl) && unchanged(e)
    // with a url, the session is acquired as `initBrowser` acquires it
    ensures Given(url) ==>
      acquired.Some? && Holds(e, acquired.value) &&
      e.currentProfileId == Some(InitProfile(profileId)) &&
      e.downloadDirs == old(e.downloadDirs) + {InitProfile(profileId)}
    ensures Given(url) && old(e.browser).None? && startup.Started? ==> acquired.Some? && acquired.value.Ok?
    // each failure answers 500 with its own cause
    ensures acquired.Some? && acquired.value.Err? ==>
      reply == NavigateFailed(500, NavigateErrorPrefix + acquired.value.error)
    ensures acquired.Some? && acquired.value.Ok? && visit.load.Throws? ==>
      reply == NavigateFailed(500, NavigateErrorPrefix + visit.load.message)
    ensures acquired.Some? && acquired.value.Ok? && visit.load.Succeeds? && visit.title.Err? ==>
      reply == NavigateFailed(500, NavigateErrorPrefix + visit.title.error)
    // success exactly when the session, the load and the title all work
    ensures reply.Navigated? <==>
      acquired.Some? && acquired.value.Ok? && visit.load.Succeeds? && visit.title.Ok?
    ensures reply.Navigated? ==>
      reply.url == visit.finalUrl && reply.title == visit.title.value &&
      reply.content == PageContent(visit.bodyText.GetOr("")) &&
      reply.screenshot == SuccessShotField(visit.capture)
  {
    if !Given(url) {
      return None, NavigateFailed(400, MissingUrl);
    }
    var session := e.InitBrowser(InitProfile(profileId), startup, newPage);
    acquired := Some(session);
    if session.Err? {
      return acquired, NavigateFailed(500, NavigateErrorPrefix + session.error);
    }
    if visit.load.Throws? {
      return acquired, NavigateFailed(500, NavigateErrorPrefix + visit.load.message);
    }
    var text := visit.bodyText.GetOr("");
    var shot := Screenshot(true, visit.capture);
    match visit.title
    case Err(m) =>
      reply := NavigateFailed(500, NavigateErrorPrefix + m);
    case Ok(title) =>
      reply := Navigated(visit.finalUrl, title, SuccessShotField(shot), PageContent(text));
  }

  /** POST /action: the session is acquired FIRST, so even a request the
      checks refuse starts or switches the browser; then the step is planned,
      carried out, and answered with a screenshot taken after it. A failure
      at any point answers with its message and a best-effort screenshot of
      the current page. */
  method Action(e: Engine, kind: string, selector: Option<string>, value: Option<string>,
                profileId: Option<string>, startup: Startup, newPage: Outcome,
                dom: Dom, capture: Option<string>)
    returns (acquired: Result<Acquired, string>, reply: ActionReply, effect: Option<Effect>)
    requires e.Valid()
    modifies e
    ensures e.Valid()
    // the session is acquired whatever the request says
    ensures e.currentProfileId == Some(InitProfile(profileId))
    ensures e.downloadDirs == old(e.downloadDirs) + {InitProfile(profileId)}
    ensures Holds(e, acquired)
    ensures old(e.browser).None? && startup.Started? ==> acquired.Ok?
    ensures acquired.Err? ==> reply.ActionFailed? && reply.error == acquired.error
    // success exactly when the session is there, the checks accept the
    // request and the page carries the step out
    ensures reply.ActionDone? <==>
      acquired.Ok? && PlanAction(kind, selector, value).Ok? &&
      Perform(PlanAction(kind, selector, value).value, dom).Ok?
    ensures effect.Some? <==> reply.ActionDone?
    ensures reply.ActionDone? ==>
      Perform(PlanAction(kind, selector, value).value, dom) == Ok(effect.value) &&
      reply.screenshot == SuccessShotField(capture)
    // a request the checks refuse is answered with the check's message
    ensures acquired.Ok? && PlanAction(kind, selector, value).Err? ==>
      reply == ActionFailed(PlanAction(kind, selector, value).error, NullableShotField(capture))
    // a step the page cannot carry out is answered with the page's message
    ensures acquired.Ok? && PlanAction(kind, selector, value).Ok? &&
            Perform(PlanAction(kind, selector, value).value, dom).Err? ==>
      reply == ActionFailed(Perform(PlanAction(kind, selector, value).value, dom).error,
                            NullableShotField(capture))
    // a failure carries the current page's screenshot when there is one
    ensures reply.ActionFailed? ==>
      reply.errorShot == NullableShotField(Screenshot(e.page.Some? && !e.page.value.closed, capture))
  {
    effect := None;
    acquired := e.InitBrowser(InitProfile(profileId), startup, newPage);
    var pageOpen := e.page.Some? && !e.page.value.closed;
    if acquired.Err? {
      return acquired, ActionFailed(acquired.error, NullableShotField(Screenshot(pageOpen, capture))), None;
    }
    var plan := PlanAction(kind, selector, value);
    if plan.Err? {
      return acquired, ActionFailed(plan.error, NullableShotField(Screenshot(pageOpen, capture))), None;
    }
    var done := Perform(plan.value, dom);
    if done.Err? {
      return acquired, ActionFailed(done.error, NullableShotField(Screenshot(pageOpen, capture))), None;
    }
    effect := Some(done.value);
    reply := ActionDone(SuccessShotField(Screenshot(pageOpen, capture)));
  }

  /** POST /downloads: the profile (default `'default'`) has no folder yet:
      an empty list, not an error; otherwise its listed file names. The
      browser is not touched. */
  method Downloads(e: Engine, profileId: Option<string>, listing: seq<string>)
    returns (files: seq<string>)
    ensures DownloadsProfile(profileId) !in e.downloadDirs ==> files == []
    ensures DownloadsProfile(profileId) in e.downloadDirs ==>
      forall f :: f in files <==> f in listing && Listed(f)
    ensures IsSubsequence(files, listing)
  {
    if DownloadsProfile(profileId) !in e.downloadDirs {
      EmptyIsSubsequence(listing);
      return [];
    }
    files := FilterDownloads(listing);
  }

  /** POST /extract: acquires the session, then reads the page text or one
      element's text in the page, with the sentinel when the selector matches
      nothing. `evaluation` is whether running that script in the page throws
      (an invalid selector, a page gone mid-call); its message is then the
      500 answer, as is the error of acquiring the session. */
  method Extract(e: Engine, selector: Option<string>, profileId: Option<string>,
                 startup: Startup, newPage: Outcome, evaluation: Outcome,
                 bodyText: string, elementText: map<string, string>)
    returns (acquired: Result<Acquired, string>, r: Result<string, string>)
    requires e.Valid()
    modifies e
    ensures e.Valid()
    ensures e.currentProfileId == Some(InitProfile(profileId))
    ensures e.downloadDirs == old(e.downloadDirs) + {InitProfile(profileId)}
    ensures Holds(e, acquired)
    ensures old(e.browser).None? && startup.Started? ==> acquired.Ok?
    ensures acquired.Err? ==> r == Err(acquired.error)
    ensures acquired.Ok? && evaluation.Throws? ==> r == Err(evaluation.message)
    ensures r.Ok? <==> acquired.Ok? && evaluation.Succeeds?
    ensures r.Ok? ==> r.value == ExtractText(selector, bodyText, elementText)
    ensures r.Ok? && Given(selector) && selector.value !in elementText ==> r.value == NotFoundSentinel
  {
    acquired := e.InitBrowser(InitProfile(profileId), startup, newPage);
    if acquired.Err? {
      return acquired, Err(acquired.error);
    }
    match evaluation
    case Throws(m) =>
      r := Err(m);
    case Succeeds =>
      r := Ok(ExtractText(selector, bodyText, elementText));
  }

  /** Reply of GET /status. */
  datatype StatusReply =
    | Inactive(message: string)
    | Active(url: string, title: string, screenshot: Option<string>)
    | StatusFailed(error: string)

  const InactiveMessage: string := "Navegador no iniciado o desconectado"

  /** GET /status: inactive unless there is a connected browser and a page;
      otherwise the page's address, its title and a screenshot when one can
      be taken. Reading the title throws when the page is gone (`title` is
      then the error), which answers 500. */
  method Status(e: Engine, url: string, title: Result<string, string>, capture: Option<string>)
    returns (reply: StatusReply)
    ensures reply.Inactive? <==> !(e.browser.Some? && e.page.Some? && e.browser.value.connected)
    ensures reply.Inactive? ==> reply.message == InactiveMessage
    ensures !reply.Inactive? && title.Err? ==> reply == StatusFailed(title.error)
    ensures !reply.Inactive? && title.Ok? ==>
      e.page.Some? &&
      reply == Active(url, title.value, NullableShotField(Screenshot(!e.page.value.closed, capture)))
  {
    if e.browser.None? || e.page.None? || !e.browser.value.connected {
      return Inactive(InactiveMessage);
    }
    var shot := Screenshot(!e.page.value.closed, capture);
    match title
    case Err(m) =>
      reply := StatusFailed(m);
    case Ok(t) =>
      reply := Active(url, t, NullableShotField(shot));
  }

  /** SIGINT / SIGTERM: the browser is closed before the process exits.
      A running process is asked to close, not merely forgotten. */
  method OnTerminationSignal(e: Engine)
    requires e.Valid()
    modifies e
    ensures e.Valid() && e.browser.None? && e.page.None?
    ensures old(e.browser).Some? ==>
      e.events == old(e.events) + [CloseRequested(old(e.browser).value.handle)] &&
      e.currentProfileId.None?
    ensures old(e.browser).None? ==>
      e.events == old(e.events) && e.currentProfileId == old(e.currentProfileId)
    ensures e.downloadDirs == old(e.downloadDirs)
  {
    e.CloseBrowser();
  }

  /** A refused click still starts the browser of the requesting profile,
      while a navigation without an address leaves everything alone. */
  method RefusalScenario() {
    var e := new Engine({});
    var attempt, nav := Navigate(e, None, Some("P1"), Started, Succeeds, Visit(Succeeds, "", Ok(""), None, None));
    assert nav == NavigateFailed(400, MissingUrl);
    assert e.browser.None?;
    var acquired, reply, effect := Action(e, "click", Some(""), None, Some("P1"), Started, Succeeds,
                                Dom({}, {}, {}, {}, "", "", "", ""), Some("IMG"));
    assert acquired.Ok? && e.browser.Some?;
    assert e.currentProfileId == Some("P1");
    assert reply == ActionFailed(ClickNeedsSelector, Some(JpegDataUriPrefix + "IMG"));
  }
}
