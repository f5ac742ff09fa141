/**
 * The navigation state of `DashboardPage`: the active module, the
 * profile-completion gate flag, and the module-id to content mapping.
 * Content components are opaque; each is one `Content` tag.
 */
module Dashboard {
  import opened Wrappers
  import opened Session

  /** The page's two pieces of React state. */
  datatype Nav = Nav(activeModule: string, showProfileDialog: bool)

  const HomeModule := "dashboard"
  const ProfileModule := "personal-info"

  /** The state on mount: the home module, the dialog flag down. */
  const InitialNav := Nav(HomeModule, false)

  /** `location.state` when present; its `activeModule` may be missing. */
  datatype LocationState = LocationState(activeModule: Option<string>)

  /** The navigation state is truthy and carries a truthy (non-empty) module id. */
  predicate Requests(state: Option<LocationState>) {
    state.Some? && state.value.activeModule.Some? && state.value.activeModule.value != ""
  }

  /** The location-state effect: a requested module replaces the active one; the dialog flag is untouched. */
  function ApplyLocationState(nav: Nav, state: Option<LocationState>): (r: Nav)
    ensures r.showProfileDialog == nav.showProfileDialog
    ensures Requests(state) ==> r.activeModule == state.value.activeModule.value
    ensures !Requests(state) ==> r == nav
  {
    if Requests(state) then nav.(activeModule := state.value.activeModule.value) else nav
  }

  /** The history entry after the effect: replaced by an empty state (`{}`) once a request was applied. */
  function ConsumedState(state: Option<LocationState>): (r: Option<LocationState>)
    ensures !Requests(r)
    ensures !Requests(state) ==> r == state
  {
    if Requests(state) then Some(LocationState(None)) else state
  }

  /** A navigation request is applied once: replaying the history entry left behind changes nothing. */
  lemma LocationStateConsumedOnce(nav: Nav, state: Option<LocationState>)
    ensures ApplyLocationState(ApplyLocationState(nav, state), ConsumedState(state))
            == ApplyLocationState(nav, state)
  {
  }

  /** The gate condition: not loading, signed in, not a super admin, profile incomplete. */
  predicate GateOpen(user: Option<User>, isLoading: bool) {
    !isLoading && user.Some? && user.value.role != SuperAdminRole && !user.value.profileComplete
  }

  /** The profile-gate effect, re-run whenever `user` or `isLoading` changes. */
  function RecomputeGate(nav: Nav, user: Option<User>, isLoading: bool): (r: Nav)
    ensures r.activeModule == nav.activeModule
    ensures r.showProfileDialog <==> GateOpen(user, isLoading)
  {
    nav.(showProfileDialog := GateOpen(user, isLoading))
  }

  /** `handleModuleSelect`: switches module and dismisses the dialog, whatever the flag was. */
  function SelectModule(nav: Nav, id: string): (r: Nav)
    ensures r.activeModule == id
    ensures !r.showProfileDialog
  {
    Nav(id, false)
  }

  /** The dialog's `onClose`: lowers the flag, keeps the module. */
  function CloseDialog(nav: Nav): (r: Nav)
    ensures !r.showProfileDialog
    ensures r.activeModule == nav.activeModule
  {
    nav.(showProfileDialog := false)
  }

  /** The dialog's `onNavigateToProfile`: `handleModuleSelect('personal-info')`. */
  function NavigateToProfile(nav: Nav): (r: Nav)
    ensures r.activeModule == ProfileModule
    ensures !r.showProfileDialog
  {
    SelectModule(nav, ProfileModule)
  }

  /** The condition under which the dialog element is mounted at all. */
  predicate DialogMounted(user: Option<User>) {
    user.Some? && !user.value.profileComplete && user.value.role != SuperAdminRole
  }

  /** Whether the dialog is on screen: mounted and `isOpen`. */
  function DialogVisible(nav: Nav, user: Option<User>): (v: bool)
    ensures v ==> user.Some? && !user.value.profileComplete && user.value.role != SuperAdminRole
    ensures v ==> nav.showProfileDialog
    ensures DialogMounted(user) && nav.showProfileDialog ==> v
  {
    DialogMounted(user) && nav.showProfileDialog
  }

  /** Right after the gate effect, the dialog is on screen exactly when the gate condition holds. */
  lemma GateDecidesVisibility(nav: Nav, user: Option<User>, isLoading: bool)
    ensures DialogVisible(RecomputeGate(nav, user, isLoading), user) <==> GateOpen(user, isLoading)
  {
  }

  /** The content shown for a module; the two unfinished modules show placeholders. */
  datatype Content =
    | Home
    | PersonalInfo
    | MemberJourney
    | VocationalTest
    | Events
    | Courses
    | Devotionals
    | Offerings
    | Kids
    | MemberManagement
    | Ministries
    | FinancialPanel
    | LiveStreamingPlaceholder
    | SiteManagementPlaceholder
    | SystemSettings
    | SystemStatus

  /** The module ids with their own content. */
  const RoutedModules: map<string, Content> := map[
    "personal-info" := PersonalInfo,
    "member-journey" := MemberJourney,
    "vocational-test" := VocationalTest,
    "events" := Events,
    "courses" := Courses,
    "devotionals" := Devotionals,
    "offerings" := Offerings,
    "kids" := Kids,
    "member-management" := MemberManagement,
    "ministries" := Ministries,
    "financial-panel" := FinancialPanel,
    "live-streaming" := LiveStreamingPlaceholder,
    "site-management" := SiteManagementPlaceholder,
    "system-settings" := SystemSettings,
    "system-status" := SystemStatus]

  /** `renderModuleContent`: total over all strings; the home content is the fallback. */
  function RenderModuleContent(id: string): (c: Content)
    ensures id in RoutedModules ==> c == RoutedModules[id]
    ensures id !in RoutedModules ==> c == Home
  {
    match id
    case "personal-info" => PersonalInfo
    case "member-journey" => MemberJourney
    case "vocational-test" => VocationalTest
    case "events" => Events
    case "courses" => Courses
    case "devotionals" => Devotionals
    case "offerings" => Offerings
    case "kids" => Kids
    case "member-management" => MemberManagement
    case "ministries" => Ministries
    case "financial-panel" => FinancialPanel
    case "live-streaming" => LiveStreamingPlaceholder
    case "site-management" => SiteManagementPlaceholder
    case "system-settings" => SystemSettings
    case "system-status" => SystemStatus
    case "dashboard" => Home
    case _ => Home
  }

  /** `'dashboard'` and every unlisted id show the home content; every listed id shows something else. */
  lemma HomeIsTheFallback(id: string)
    ensures RenderModuleContent(HomeModule) == Home
    ensures RenderModuleContent(id) == Home <==> id !in RoutedModules
  {
  }

  /** Distinct routed ids show distinct content. */
  lemma RenderDistinguishesModules(a: string, b: string)
    requires a in RoutedModules && b in RoutedModules && a != b
    ensures RenderModuleContent(a) != RenderModuleContent(b)
  {
  }

  /** The id a content is reached by: the inverse of `RenderModuleContent` on the routed ids and `'dashboard'`. */
  function ModuleIdOf(c: Content): (id: string)
    ensures RenderModuleContent(id) == c
    ensures c != Home <==> id in RoutedModules
  {
    match c
    case Home => HomeModule
    case PersonalInfo => "personal-info"
    case MemberJourney => "member-journey"
    case VocationalTest => "vocational-test"
    case Events => "events"
    case Courses => "courses"
    case Devotionals => "devotionals"
    case Offerings => "offerings"
    case Kids => "kids"
    case MemberManagement => "member-management"
    case Ministries => "ministries"
    case FinancialPanel => "financial-panel"
    case LiveStreamingPlaceholder => "live-streaming"
    case SiteManagementPlaceholder => "site-management"
    case SystemSettings => "system-settings"
    case SystemStatus => "system-status"
  }

  /** Rendering then asking for the id gives back every routed id. */
  lemma ModuleIdRoundTrip(id: string)
    requires id in RoutedModules
    ensures ModuleIdOf(RenderModuleContent(id)) == id
  {
  }
}
