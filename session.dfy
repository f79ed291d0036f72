/** The browser session engine of the automation server (server/index.js):
    one headless browser process and one page, bound to one profile, kept in
    three module-level variables that `closeBrowser`, `initBrowser` and the
    process's 'disconnected' listener update in place. */
module Session {
  import opened Common

  /** A launched browser process. `handle` tells processes apart: every launch
      yields a new one, so "the same browser" means "the same handle". */
  datatype Browser = Browser(handle: nat, connected: bool)

  /** A tab of the browser process. */
  datatype Page = Page(handle: nat, closed: bool)

  /** What the driver does when asked to start a browser. */
  datatype Startup =
    | LaunchFails                   // the launch itself throws: no process
    | SetupFails(pageOpened: bool)  // the process starts, a later setup step throws
    | Started                       // process, page, viewport, user agent and downloads configured

  /** Outcome of a driver call whose error message is passed through. */
  datatype Outcome = Succeeds | Throws(message: string)

  /** What `initBrowser` hands back: the page and whose downloads folder it fills. */
  datatype Acquired = Acquired(page: Page, downloadProfile: string)

  /** What the engine did to browser processes and pages, in order. */
  datatype Event =
    | CloseRequested(browser: nat)
    | Discarded(browser: nat)
    | Launched(browser: nat, profile: string)
    | PageOpened(browser: nat, page: nat)

  const StartupFailureMessage: string := "No se pudo iniciar el motor de navegación."

  /** `initBrowser(profileId = 'default')`: the default applies only when the
      argument is missing. */
  function InitProfile(profileId: Option<string>): (p: string)
    ensures profileId.Some? ==> p == profileId.value
    ensures profileId.None? ==> p == "default"
  {
    profileId.GetOr("default")
  }

  class Engine {
    var browser: Option<Browser>
    var page: Option<Page>
    var currentProfileId: Option<string>
    /** Profiles whose downloads folder exists on disk. */
    var downloadDirs: set<string>
    /** Number of processes and pages created so far: the next handles. */
    var launches: nat
    var pagesOpened: nat
    ghost var events: seq<Event>

    ghost predicate Valid()
      reads this
    {
      (browser.None? ==> page.None?) &&
      (browser.Some? ==> currentProfileId.Some? && browser.value.handle < launches) &&
      (page.Some? ==> page.value.handle < pagesOpened)
    }

    /** The server starts with no browser; download folders of earlier runs persist. */
    constructor (existingDirs: set<string>)
      ensures Valid()
      ensures browser.None? && page.None? && currentProfileId.None?
      ensures downloadDirs == existingDirs && launches == 0 && pagesOpened == 0 && events == []
    {
      browser, page, currentProfileId := None, None, None;
      downloadDirs := existingDirs;
      launches, pagesOpened := 0, 0;
      events := [];
    }

    /** `closeBrowser`: without a browser nothing happens; otherwise the process
        is asked to close and, whether or not closing throws (the error is only
        logged), all three handles are cleared. */
    method CloseBrowser()
      requires Valid()
      modifies this
      ensures Valid()
      ensures old(browser).None? ==>
        browser == old(browser) && page == old(page) &&
        currentProfileId == old(currentProfileId) && events == old(events)
      ensures old(browser).Some? ==>
        browser.None? && page.None? && currentProfileId.None? &&
        events == old(events) + [CloseRequested(old(browser).value.handle)]
      ensures downloadDirs == old(downloadDirs)
      ensures launches == old(launches) && pagesOpened == old(pagesOpened)
    {
      if browser.Some? {
        events := events + [CloseRequested(browser.value.handle)];
        browser, page, currentProfileId := None, None, None;
      }
    }

    /** The first two steps of `initBrowser`: a browser bound to another
        profile is closed, and a disconnected one is dropped. Afterwards either
        there is no browser or there is a live one bound to `profileId`. */
    method ReleaseStale(profileId: string)
      requires Valid()
      modifies this
      ensures Valid()
      ensures browser.Some? ==> browser.value.connected && currentProfileId == Some(profileId)
      ensures Reusable(old(browser), old(currentProfileId), profileId) ==>
        browser == old(browser) && page == old(page) &&
        currentProfileId == old(currentProfileId) && events == old(events)
      ensures !Reusable(old(browser), old(currentProfileId), profileId) ==> browser.None? && page.None?
      ensures old(browser).None? ==> events == old(events)
      ensures old(browser).Some? && old(currentProfileId) != Some(profileId) ==>
        events == old(events) + [CloseRequested(old(browser).value.handle)]
      ensures old(browser).Some? && old(currentProfileId) == Some(profileId) &&
              !old(browser).value.connected ==>
        events == old(events) + [Discarded(old(browser).value.handle)]
      ensures downloadDirs == old(downloadDirs)
      ensures launches == old(launches) && pagesOpened == old(pagesOpened)
    {
      if browser.Some? && currentProfileId != Some(profileId) {
        CloseBrowser();
      }
      if browser.Some? && !browser.value.connected {
        events := events + [Discarded(browser.value.handle)];
        browser, page := None, None;
      }
    }

    /** The launch step of `initBrowser`, taken only when there is no browser:
        one attempt; any failure surfaces as the startup error, and a process
        that started before a later setup step threw is kept. */
    method Launch(profileId: string, startup: Startup) returns (failed: bool)
      requires Valid() && browser.None? && currentProfileId == Some(profileId)
      modifies this
      ensures Valid() && currentProfileId == old(currentProfileId)
      ensures downloadDirs == old(downloadDirs)
      ensures failed == !startup.Started?
      ensures startup.LaunchFails? ==> unchanged(this)
      ensures !startup.LaunchFails? ==>
        browser == Some(Browser(old(launches), true)) && launches == old(launches) + 1
      ensures startup.Started? || startup == SetupFails(true) ==>
        page == Some(Page(old(pagesOpened), false)) && pagesOpened == old(pagesOpened) + 1 &&
        events == old(events) + [Launched(old(launches), profileId), PageOpened(old(launches), old(pagesOpened))]
      ensures startup == SetupFails(false) ==>
        page.None? && pagesOpened == old(pagesOpened) &&
        events == old(events) + [Launched(old(launches), profileId)]
    {
      var b := launches;
      match startup
      case LaunchFails =>
        return true;
      case SetupFails(pageOpened) =>
        browser := Some(Browser(b, true));
        events := events + [Launched(b, profileId)];
        launches := launches + 1;
        if pageOpened {
          page := Some(Page(pagesOpened, false));
          events := events + [PageOpened(b, pagesOpened)];
          pagesOpened := pagesOpened + 1;
        }
        return true;
      case Started =>
        browser := Some(Browser(b, true));
        page := Some(Page(pagesOpened, false));
        events := events + [Launched(b, profileId), PageOpened(b, pagesOpened)];
        launches, pagesOpened := launches + 1, pagesOpened + 1;
        return false;
    }

    /** The recovery step of `initBrowser`: a browser whose page is missing or
        closed gets a new page on the same process; an open page is kept. */
    method EnsurePage(newPage: Outcome) returns (r: Result<Page, string>)
      requires Valid() && browser.Some?
      modifies this
      ensures Valid()
      ensures browser == old(browser) && currentProfileId == old(currentProfileId)
      ensures downloadDirs == old(downloadDirs) && launches == old(launches)
      ensures old(page).Some? && !old(page).value.closed ==> r == Ok(old(page).value) && unchanged(this)
      ensures (old(page).None? || old(page).value.closed) && newPage.Throws? ==>
        r == Err(newPage.message) && unchanged(this)
      ensures (old(page).None? || old(page).value.closed) && newPage.Succeeds? ==>
        r == Ok(Page(old(pagesOpened), false)) && page == Some(r.value) &&
        pagesOpened == old(pagesOpened) + 1 &&
        events == old(events) + [PageOpened(browser.value.handle, old(pagesOpened))]
    {
      if page.None? || page.value.closed {
        match newPage
        case Throws(m) =>
          return Err(m);
        case Succeeds =>
          page := Some(Page(pagesOpened, false));
          events := events + [PageOpened(browser.value.handle, pagesOpened)];
          pagesOpened := pagesOpened + 1;
      }
      r := Ok(page.value);
    }

    /** `initBrowser(profileId)`. A live browser bound to another profile is torn
        down first; a disconnected one is dropped, never reused; the profile is
        bound and its downloads folder created before any launch; without a
        browser one launch is attempted, and its failure is reported and not
        retried; a surviving browser whose page is missing or closed gets a new
        page. */
    method InitBrowser(profileId: string, startup: Startup, newPage: Outcome)
      returns (r: Result<Acquired, string>)
      requires Valid()
      modifies this
      ensures Valid()
      // the binding and the folder are updated before anything can fail
      ensures currentProfileId == Some(profileId)
      ensures downloadDirs == old(downloadDirs) + {profileId}
      // success: a live browser and an open page, owned by the engine
      ensures r.Ok? ==>
        browser.Some? && browser.value.connected && page == Some(r.value.page) &&
        !r.value.page.closed && r.value.downloadProfile == profileId
      // at most one launch per call; the event trail only grows
      ensures old(launches) <= launches <= old(launches) + 1
      ensures |events| >= |old(events)| && events[..|old(events)|] == old(events)
      // profile switch: the old process is closed before anything else
      ensures old(browser).Some? && old(currentProfileId) != Some(profileId) ==>
        |events| > |old(events)| &&
        events[|old(events)|] == CloseRequested(old(browser).value.handle)
      // same profile, dead process: it is dropped before anything else
      ensures old(browser).Some? && old(currentProfileId) == Some(profileId) &&
              !old(browser).value.connected ==>
        |events| > |old(events)| &&
        events[|old(events)|] == Discarded(old(browser).value.handle)
      // a live browser of the same profile is kept ...
      ensures Reusable(old(browser), old(currentProfileId), profileId) ==>
        browser == old(browser) && launches == old(launches)
      // ... with its page if that page is open ...
      ensures Reusable(old(browser), old(currentProfileId), profileId) &&
              old(page).Some? && !old(page).value.closed ==>
        r == Ok(Acquired(old(page).value, profileId)) && page == old(page) &&
        events == old(events)
      // ... or with a fresh page on the same process otherwise
      ensures Reusable(old(browser), old(currentProfileId), profileId) &&
              (old(page).None? || old(page).value.closed) ==>
        (newPage.Succeeds? ==> r == Ok(Acquired(Page(old(pagesOpened), false), profileId))) &&
        (newPage.Throws? ==> r == Err(newPage.message))
      // otherwise any browser afterwards is a brand-new process
      ensures !Reusable(old(browser), old(currentProfileId), profileId) ==>
        (browser.Some? ==> browser.value.handle == old(launches)) &&
        (startup.LaunchFails? ==> r == Err(StartupFailureMessage) && browser.None? && page.None?) &&
        (startup.SetupFails? ==> r == Err(StartupFailureMessage) && browser.Some?) &&
        (startup.Started? ==>
           r == Ok(Acquired(Page(old(pagesOpened), false), profileId)) &&
           pagesOpened == old(pagesOpened) + 1 &&
           |events| >= 2 &&
           events[|events| - 2..] == [Launched(old(launches), profileId), PageOpened(old(launches), old(pagesOpened))])
    {
      ReleaseStale(profileId);
      currentProfileId := Some(profileId);
      downloadDirs := downloadDirs + {profileId};
      if browser.None? {
        var failed := Launch(profileId, startup);
        if failed {
          return Err(StartupFailureMessage);
        }
      }
      var p := EnsurePage(newPage);
      match p
      case Err(m) =>
        return Err(m);
      case Ok(pg) =>
        r := Ok(Acquired(pg, profileId));
    }

    /** The browser process dies (crash or kill): `isConnected()` turns false;
        the 'disconnected' listener has not run yet. */
    method ProcessExits()
      requires Valid()
      modifies this
      ensures Valid()
      ensures browser == if old(browser).Some? then Some(old(browser).value.(connected := false)) else None
      ensures page == old(page) && currentProfileId == old(currentProfileId)
      ensures downloadDirs == old(downloadDirs) && events == old(events)
      ensures launches == old(launches) && pagesOpened == old(pagesOpened)
    {
      if browser.Some? {
        browser := Some(browser.value.(connected := false));
      }
    }

    /** The 'disconnected' listener registered on every launched process: it
        clears the browser and page handles, whichever process is current, and
        leaves the profile binding as it was. */
    method OnDisconnected()
      requires Valid()
      requires launches > 0
      modifies this
      ensures Valid()
      ensures browser.None? && page.None?
      ensures currentProfileId == old(currentProfileId)
      ensures downloadDirs == old(downloadDirs) && events == old(events)
      ensures launches == old(launches) && pagesOpened == old(pagesOpened)
    {
      browser, page := None, None;
    }

    /** The page is closed from outside while the process may live on. */
    method PageCloses()
      requires Valid()
      modifies this
      ensures Valid()
      ensures page == if old(page).Some? then Some(old(page).value.(closed := true)) else None
      ensures browser == old(browser) && currentProfileId == old(currentProfileId)
      ensures downloadDirs == old(downloadDirs) && events == old(events)
      ensures launches == old(launches) && pagesOpened == old(pagesOpened)
    {
      if page.Some? {
        page := Some(page.value.(closed := true));
      }
    }
  }

  /** `initBrowser` keeps the current process exactly when it is live and bound
      to the requested profile. */
  predicate Reusable(browser: Option<Browser>, bound: Option<string>, profileId: string) {
    browser.Some? && browser.value.connected && bound == Some(profileId)
  }

  /** Two profiles in a row: the first process is closed before the second is
      launched, and a crash is followed by a brand-new process. */
  method ProfileSwitchScenario() {
    var e := new Engine({});
    var r1 := e.InitBrowser("P1", Started, Succeeds);
    assert r1 == Ok(Acquired(Page(0, false), "P1"));
    var n := |e.events|;
    var r2 := e.InitBrowser("P2", Started, Succeeds);
    assert e.events[n] == CloseRequested(0);
    assert e.events[|e.events| - 2] == Launched(1, "P2");
    assert r2 == Ok(Acquired(Page(1, false), "P2"));
    e.ProcessExits();
    var r3 := e.InitBrowser("P2", Started, Succeeds);
    assert e.browser == Some(Browser(2, true));
    e.OnDisconnected();
    assert e.currentProfileId == Some("P2");
  }
}
