/**
 * The "voice_agent" service: executeCode and the predefined actions, as a
 * class whose methods update the browser state they touch and the shared
 * notification service. Each method is proved to do what the matching
 * function of module Actions says.
 */
module AgentService {
  import opened Wrappers
  import opened Notifications
  import opened Actions

  class VoiceAgentService {
    const notification: NotificationService
    /** The search parameters of the page's URL. A navigation started by
        assigning `browser.location.href` is taken to have completed before
        the next call, so this is the URL the next call reads. */
    var query: map<string, string>
    /** Clicks and navigations, in order. */
    var effects: seq<Effect>
    /** Names whose openApp retry timer is armed, oldest first. */
    var retries: seq<string>
    /** Every code string handed to executeCode. */
    var evaluated: seq<string>

    function Snapshot(): Host
      reads this, notification
    {
      Host(query, effects, retries, evaluated, notification.log)
    }

    constructor (notification: NotificationService, query: map<string, string>)
      ensures this.notification == notification
      ensures Snapshot() == Host(query, [], [], [], notification.log)
    {
      this.notification := notification;
      this.query := query;
      effects, retries, evaluated := [], [], [];
    }

    /** Runs backend-supplied code. Evaluation itself is opaque: `evaluation`
        says whether it completed or threw. On a throw the service notifies
        and rethrows the same error, which is what it returns here. */
    method ExecuteCode(code: string, evaluation: Evaluation) returns (thrown: Evaluation)
      modifies this`evaluated, notification
      ensures thrown == evaluation
      ensures Snapshot() == Execute(old(Snapshot()), code, evaluation)
    {
      evaluated := evaluated + [code];
      match evaluation {
        case Completed =>
        case Threw(_) =>
          notification.Add(ExecutionFailed, Danger);
      }
      thrown := evaluation;
    }

    method OpenMainMenu(hasMenuToggle: bool)
      modifies this`effects, notification
      ensures Snapshot() == Actions.OpenMainMenu(old(Snapshot()), hasMenuToggle)
    {
      if hasMenuToggle {
        effects := effects + [ClickMenuToggle];
      } else {
        notification.Add(MenuToggleMissing, Warning);
      }
    }

    method ActivateDebugMode()
      modifies this`query, this`effects, notification
      ensures Snapshot() == Actions.ActivateDebugMode(old(Snapshot()))
    {
      if "debug" !in query {
        query := query["debug" := "1"];
        effects := effects + [Navigate(query)];
      } else {
        notification.Add(DebugAlreadyActive, Info);
      }
    }

    /** `dom` is the page when openApp runs; `hasAppsButton` says whether
        ".o_navbar_apps_menu button" is present. */
    method OpenApp(name: string, dom: seq<Entry>, hasAppsButton: bool)
      modifies this`effects, this`retries, notification
      ensures Snapshot() == Actions.OpenApp(old(Snapshot()), name, dom, hasAppsButton)
    {
      var app := FindFirst(dom, AppsOrDropdownItems, name);
      if app.Some? {
        effects := effects + [ClickEntry(dom[app.value])];
      } else if hasAppsButton {
        effects := effects + [ClickAppsButton];
        retries := retries + [name];
      } else {
        notification.Add(AppNotFound(name), Warning);
      }
    }

    /** The openApp retry timer fires; `dom` is the page at that moment. */
    method RetryOpenApp(dom: seq<Entry>)
      requires retries != []
      modifies this`effects, this`retries, notification
      ensures Snapshot() == Actions.RetryOpenApp(old(Snapshot()), dom)
    {
      var name := retries[0];
      retries := retries[1..];
      var appInMenu := FindFirst(dom, DropdownItems, name);
      if appInMenu.Some? {
        effects := effects + [ClickEntry(dom[appInMenu.value])];
      } else {
        notification.Add(AppNotFound(name), Warning);
      }
    }

    /** openSettings is openApp("Settings"). */
    method OpenSettings(dom: seq<Entry>, hasAppsButton: bool)
      modifies this`effects, this`retries, notification
      ensures Snapshot() == Actions.OpenApp(old(Snapshot()), "Settings", dom, hasAppsButton)
    {
      OpenApp("Settings", dom, hasAppsButton);
    }
  }

  /** A client of the service: two calls of activateDebugMode, the second
      made after the first one's navigation has loaded, navigate at most
      once, whatever the starting location. */
  method ActivateDebugModeTwice(service: VoiceAgentService)
    modifies service, service.notification
    ensures |service.effects| <= |old(service.effects)| + 1
    ensures "debug" in service.query
  {
    service.ActivateDebugMode();
    service.ActivateDebugMode();
  }
}
