/**
 * What the voice agent service does to its host, as functions over a
 * snapshot of that host: the browser's query parameters, a log of clicks
 * and navigations, the openApp retries waiting on their 300 ms timer, the
 * action code handed to executeCode, and the notifications shown.
 */
module Actions {
  import opened Wrappers
  import opened JsText
  import opened Notifications

  /** An element that the apps/dropdown selectors can find, with its text content. */
  datatype Entry = Entry(isApp: bool, isDropdownItem: bool, text: string)

  /** The two selectors openApp queries: ".o_app, .dropdown-item" first, ".dropdown-item" on retry. */
  datatype Selector = AppsOrDropdownItems | DropdownItems

  /** The outcome of evaluating backend-supplied code: it completes or throws. */
  datatype Evaluation = Completed | Threw(error: string)

  /** Visible effects of the actions on the page. */
  datatype Effect =
    | ClickEntry(entry: Entry)
    | ClickAppsButton
    | ClickMenuToggle
    | Navigate(query: map<string, string>)

  datatype Host = Host(
    query: map<string, string>,
    effects: seq<Effect>,
    retries: seq<string>,
    evaluated: seq<string>,
    notices: seq<Notification>)

  const ExecutionFailed := "Error executing voice command"
  const MenuToggleMissing := "Main menu toggle button not found"
  const DebugAlreadyActive := "Debug mode is already active"

  function AppNotFound(name: string): string {
    "App \"" + name + "\" not found"
  }

  predicate Selects(sel: Selector, e: Entry) {
    match sel
    case AppsOrDropdownItems => e.isApp || e.isDropdownItem
    case DropdownItems => e.isDropdownItem
  }

  /** An entry whose trimmed text equals the requested name, ignoring case. */
  predicate NameMatches(e: Entry, name: string) {
    Lower(Trim(e.text)) == Lower(name)
  }

  /** An entry matches exactly when its trimmed text equals the name up to ASCII case. */
  lemma NameMatchesIgnoringCase(e: Entry, name: string)
    ensures NameMatches(e, name) <==> EqualIgnoringCase(Trim(e.text), name)
  {
    LowerEqualIffEqualIgnoringCase(Trim(e.text), name);
  }

  predicate Hit(sel: Selector, e: Entry, name: string) {
    Selects(sel, e) && NameMatches(e, name)
  }

  /** `Array.prototype.find`, as a position: the first element satisfying `p`. */
  function Find<T>(xs: seq<T>, p: T -> bool): (r: Option<nat>)
    ensures r.Some? ==> r.value < |xs| && p(xs[r.value])
    ensures r.Some? ==> forall k :: 0 <= k < r.value ==> !p(xs[k])
    ensures r.None? <==> forall k :: 0 <= k < |xs| ==> !p(xs[k])
  {
    if xs == [] then None
    else if p(xs[0]) then Some(0)
    else
      match Find(xs[1..], p)
      case None => None
      case Some(i) => Some(i + 1)
  }

  /** `Array.from(document.querySelectorAll(sel)).find(...)`: the position, in
      document order, of the first selected entry whose name matches. */
  function FindFirst(dom: seq<Entry>, sel: Selector, name: string): (r: Option<nat>)
    ensures r.Some? ==> r.value < |dom| && Hit(sel, dom[r.value], name)
    ensures r.Some? ==> forall k :: 0 <= k < r.value ==> !Hit(sel, dom[k], name)
    ensures r.None? <==> forall k :: 0 <= k < |dom| ==> !Hit(sel, dom[k], name)
  {
    Find(dom, e => Hit(sel, e, name))
  }

  /** Matching ignores the case of the requested name. */
  lemma {:induction false} FindFirstIgnoresCase(dom: seq<Entry>, sel: Selector, name: string)
    ensures FindFirst(dom, sel, Lower(name)) == FindFirst(dom, sel, name)
  {
    LowerIdempotent(name);
    if dom != [] {
      FindFirstIgnoresCase(dom[1..], sel, name);
    }
  }

  /** The retry searches only dropdown items, so whatever it finds the first search would have found too. */
  lemma RetryFindsOnlyFirstSearchHits(dom: seq<Entry>, name: string)
    ensures FindFirst(dom, DropdownItems, name).Some? ==> FindFirst(dom, AppsOrDropdownItems, name).Some?
  {
  }

  /** The notifications executeCode adds for an evaluation. */
  function ExecuteNotices(ev: Evaluation): seq<Notification> {
    if ev.Threw? then [Notification(ExecutionFailed, Danger)] else []
  }

  /** executeCode: record the evaluated code; on a throw, one danger notification (the error is then rethrown). */
  function Execute(h: Host, code: string, ev: Evaluation): (r: Host)
    ensures r.evaluated == h.evaluated + [code]
    ensures ev.Completed? ==> r.notices == h.notices
    ensures ev.Threw? ==> r.notices == h.notices + [Notification(ExecutionFailed, Danger)]
    ensures r.query == h.query && r.effects == h.effects && r.retries == h.retries
  {
    h.(evaluated := h.evaluated + [code], notices := h.notices + ExecuteNotices(ev))
  }

  /** actions.openMainMenu: click the toggle if it exists, otherwise warn. */
  function OpenMainMenu(h: Host, hasMenuToggle: bool): (r: Host)
    ensures hasMenuToggle ==> r.effects == h.effects + [ClickMenuToggle] && r.notices == h.notices
    ensures !hasMenuToggle ==> r.effects == h.effects && r.notices == h.notices + [Notification(MenuToggleMissing, Warning)]
    ensures r.query == h.query && r.retries == h.retries && r.evaluated == h.evaluated
  {
    if hasMenuToggle then h.(effects := h.effects + [ClickMenuToggle])
    else h.(notices := h.notices + [Notification(MenuToggleMissing, Warning)])
  }

  /** actions.activateDebugMode: set debug=1 and navigate, unless debug is
      already present. The new query is the one the loaded page will have. */
  function ActivateDebugMode(h: Host): (r: Host)
    ensures "debug" in r.query
    ensures "debug" !in h.query ==>
      r.query == h.query["debug" := "1"] && r.effects == h.effects + [Navigate(r.query)] && r.notices == h.notices
    ensures "debug" in h.query ==>
      r.query == h.query && r.effects == h.effects
      && r.notices == h.notices + [Notification(DebugAlreadyActive, Info)]
    ensures r.retries == h.retries && r.evaluated == h.evaluated
  {
    if "debug" !in h.query then
      var q := h.query["debug" := "1"];
      h.(query := q, effects := h.effects + [Navigate(q)])
    else
      h.(notices := h.notices + [Notification(DebugAlreadyActive, Info)])
  }

  /** The number of navigations in an effect log. */
  function Navigations(es: seq<Effect>): (n: nat)
    ensures n <= |es|
  {
    if es == [] then 0
    else Navigations(es[..|es| - 1]) + (if es[|es| - 1].Navigate? then 1 else 0)
  }

  lemma {:induction false} NavigationsAppend(a: seq<Effect>, b: seq<Effect>)
    ensures Navigations(a + b) == Navigations(a) + Navigations(b)
    decreases |b|
  {
    if b != [] {
      assert (a + b)[..|a + b| - 1] == a + b[..|b| - 1];
      NavigationsAppend(a, b[..|b| - 1]);
    } else {
      assert a + b == a;
    }
  }

  /** Calling activateDebugMode twice, the second time on the page the first
      navigated to, navigates at most once, and the second call only reports
      that debug mode is already active. */
  lemma DebugModeTwiceNavigatesOnce(h: Host)
    ensures var once := ActivateDebugMode(h); var twice := ActivateDebugMode(once);
      Navigations(twice.effects) <= Navigations(h.effects) + 1
      && twice.query == once.query && twice.effects == once.effects
      && twice.notices == once.notices + [Notification(DebugAlreadyActive, Info)]
  {
    var once := ActivateDebugMode(h);
    if "debug" !in h.query {
      NavigationsAppend(h.effects, [Navigate(once.query)]);
    }
  }

  /** actions.openApp: click the first matching entry; failing that, open the
      apps menu and arm one retry; failing that, warn that the app was not found. */
  function OpenApp(h: Host, name: string, dom: seq<Entry>, hasAppsButton: bool): (r: Host)
    ensures r.query == h.query && r.evaluated == h.evaluated
    ensures FindFirst(dom, AppsOrDropdownItems, name).Some? ==>
      var e := dom[FindFirst(dom, AppsOrDropdownItems, name).value];
      r.effects == h.effects + [ClickEntry(e)] && r.retries == h.retries && r.notices == h.notices
    ensures FindFirst(dom, AppsOrDropdownItems, name).None? && hasAppsButton ==>
      r.effects == h.effects + [ClickAppsButton] && r.retries == h.retries + [name] && r.notices == h.notices
    ensures FindFirst(dom, AppsOrDropdownItems, name).None? && !hasAppsButton ==>
      r.effects == h.effects && r.retries == h.retries
      && r.notices == h.notices + [Notification(AppNotFound(name), Warning)]
  {
    match FindFirst(dom, AppsOrDropdownItems, name)
    case Some(i) => h.(effects := h.effects + [ClickEntry(dom[i])])
    case None =>
      if hasAppsButton then h.(effects := h.effects + [ClickAppsButton], retries := h.retries + [name])
      else h.(notices := h.notices + [Notification(AppNotFound(name), Warning)])
  }

  /** The 300 ms timer armed by openApp fires: the oldest pending name is
      searched once more, among dropdown items only, in the page as it is now. */
  function RetryOpenApp(h: Host, dom: seq<Entry>): (r: Host)
    requires h.retries != []
    ensures r.retries == h.retries[1..]
    ensures r.query == h.query && r.evaluated == h.evaluated
    ensures FindFirst(dom, DropdownItems, h.retries[0]).Some? ==>
      var e := dom[FindFirst(dom, DropdownItems, h.retries[0]).value];
      e.isDropdownItem && r.effects == h.effects + [ClickEntry(e)] && r.notices == h.notices
    ensures FindFirst(dom, DropdownItems, h.retries[0]).None? ==>
      r.effects == h.effects && r.notices == h.notices + [Notification(AppNotFound(h.retries[0]), Warning)]
  {
    var name := h.retries[0];
    var h1 := h.(retries := h.retries[1..]);
    match FindFirst(dom, DropdownItems, name)
    case Some(i) => h1.(effects := h.effects + [ClickEntry(dom[i])])
    case None => h1.(notices := h.notices + [Notification(AppNotFound(name), Warning)])
  }

  /** An openApp that misses and then retries shows at most one warning and
      performs at most one click beyond the apps button, whatever the page
      looks like when the retry fires. */
  lemma OpenAppThenRetry(h: Host, name: string, before: seq<Entry>, after: seq<Entry>)
    requires h.retries == []
    requires FindFirst(before, AppsOrDropdownItems, name).None?
    ensures var r := RetryOpenApp(OpenApp(h, name, before, true), after);
      r.retries == [] && |r.notices| + |r.effects| == |h.notices| + |h.effects| + 2
      && (r.notices == h.notices <==> FindFirst(after, DropdownItems, name).Some?)
  {
  }
}
