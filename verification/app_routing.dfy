/** Which screen the main layout shows (src/App.jsx): the sign-in screen until a user is
    signed in, then the view the active tab names, with the dashboard for any other tab. */
module AppRouting {
  import opened Text

  datatype View =
    | Auth
    | Dashboard
    | ScriptAnalysis
    | Feasibility
    | VisualPlanning
    | Continuity
    | FootageSearch
    | TakeSelection
    | SentimentAnalysis
    | SceneIntentEngine
    | VideoPreviz
    | StoryboardGenerator
    | ProductionHistory
    | SettingsPanel

  /** The tab ids the content switch names, in the order of its cases. */
  const SwitchTabs: seq<string> := ["dashboard", "script", "feasibility", "visuals", "continuity", "footage",
    "takes", "sentiment", "intent", "video_previz", "storyboard", "history", "settings"]

  /** `renderContent()`. */
  function TabView(tab: string): View
  {
    if tab == "dashboard" then Dashboard
    else if tab == "script" then ScriptAnalysis
    else if tab == "feasibility" then Feasibility
    else if tab == "visuals" then VisualPlanning
    else if tab == "continuity" then Continuity
    else if tab == "footage" then FootageSearch
    else if tab == "takes" then TakeSelection
    else if tab == "sentiment" then SentimentAnalysis
    else if tab == "intent" then SceneIntentEngine
    else if tab == "video_previz" then VideoPreviz
    else if tab == "storyboard" then StoryboardGenerator
    else if tab == "history" then ProductionHistory
    else if tab == "settings" then SettingsPanel
    else Dashboard
  }

  /** `MainLayout`. */
  function MainLayout(isLoggedIn: bool, activeTab: string): View
  {
    if !isLoggedIn then Auth else TabView(activeTab)
  }

  /** The tab id whose case shows a content view; the sign-in screen has none. */
  function TabOf(v: View): Option<string>
  {
    match v
    case Auth => None
    case Dashboard => Some("dashboard")
    case ScriptAnalysis => Some("script")
    case Feasibility => Some("feasibility")
    case VisualPlanning => Some("visuals")
    case Continuity => Some("continuity")
    case FootageSearch => Some("footage")
    case TakeSelection => Some("takes")
    case SentimentAnalysis => Some("sentiment")
    case SceneIntentEngine => Some("intent")
    case VideoPreviz => Some("video_previz")
    case StoryboardGenerator => Some("storyboard")
    case ProductionHistory => Some("history")
    case SettingsPanel => Some("settings")
  }

  /** Signed out, the sign-in screen is shown whatever the tab; signed in, it never is. */
  lemma SignedOutShowsAuth(activeTab: string)
    ensures MainLayout(false, activeTab) == Auth
    ensures MainLayout(true, activeTab) != Auth
  {
  }

  /** Every content view is reached from its own tab id. */
  lemma EachViewHasItsTab(v: View)
    ensures v != Auth ==> TabView(TabOf(v).value) == v
  {
  }

  /** No tab shows the sign-in screen, and no id other than its own shows a content view,
      except that the dashboard is also the default. */
  lemma EachTabItsOwnView(tab: string)
    ensures TabView(tab) != Dashboard ==> TabOf(TabView(tab)) == Some(tab)
    ensures TabView(tab) != Auth
  {
  }

  /** A tab id the switch does not name falls back to the dashboard. */
  lemma UnknownTabShowsDashboard(tab: string)
    ensures tab !in SwitchTabs ==> TabView(tab) == Dashboard
    ensures tab in SwitchTabs ==> TabOf(TabView(tab)) == Some(tab)
  {
  }

  /** The ids the sidebar's menu sections and its settings button navigate to
      (src/components/Sidebar.jsx). */
  const SidebarTabs: seq<string> := ["dashboard", "script", "intent", "video_previz", "history",
    "visuals", "storyboard", "sentiment", "footage", "takes", "settings"]

  /** Every sidebar id is an explicit case, so none of them reaches the default. */
  lemma SidebarTabsAreCases()
    ensures forall id :: id in SidebarTabs ==> id in SwitchTabs && TabOf(TabView(id)) == Some(id)
  {
    forall id | id in SidebarTabs ensures id in SwitchTabs && TabOf(TabView(id)) == Some(id) {
      UnknownTabShowsDashboard(id);
    }
  }
}
