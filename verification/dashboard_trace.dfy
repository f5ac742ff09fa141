/**
 * The dashboard page over time: the navigation state together with the
 * `user`/`isLoading` it last read from the store. The mount and every store
 * change are taken together with the effects React runs after them, so each
 * view here is a state after effects have settled.
 */
module DashboardTrace {
  import opened Wrappers
  import opened Session
  import opened Dashboard

  datatype View = View(nav: Nav, user: Option<User>, isLoading: bool)

  datatype UiStep =
    | AuthChanged(user: Option<User>, isLoading: bool)  // the store changed; the gate effect re-runs
    | Navigated(state: Option<LocationState>)           // `location.state` changed; its effect runs
    | Select(id: string)                                // a module chosen in the layout
    | Close                                             // the dialog's `onClose`
    | GoToProfile                                       // the dialog's `onNavigateToProfile`

  /**
   * The page just mounted, with both effects run once as React does after the
   * first render: the location-state effect on the initial `useState` values,
   * then the gate effect.
   */
  function Mount(state: Option<LocationState>, user: Option<User>, isLoading: bool): (v: View)
    ensures v.user == user && v.isLoading == isLoading
    ensures Requests(state) ==> v.nav.activeModule == state.value.activeModule.value
    ensures !Requests(state) ==> v.nav.activeModule == HomeModule
    ensures v.nav.showProfileDialog <==> GateOpen(user, isLoading)
  {
    View(RecomputeGate(ApplyLocationState(InitialNav, state), user, isLoading), user, isLoading)
  }

  /** A user already loaded when the page mounts sees the dialog at once exactly when the gate condition holds. */
  lemma MountShowsGate(state: Option<LocationState>, user: Option<User>, isLoading: bool)
    ensures var v := Mount(state, user, isLoading);
            DialogVisible(v.nav, v.user) <==> GateOpen(user, isLoading)
  {
  }

  /** One step of the page; only a store change touches what the page read from the store. */
  function NextView(v: View, step: UiStep): (r: View)
    ensures step.AuthChanged? ==>
              r.user == step.user && r.isLoading == step.isLoading
              && r.nav.activeModule == v.nav.activeModule
    ensures !step.AuthChanged? ==> r.user == v.user && r.isLoading == v.isLoading
  {
    match step
    case AuthChanged(user, isLoading) => View(RecomputeGate(v.nav, user, isLoading), user, isLoading)
    case Navigated(state) => v.(nav := ApplyLocationState(v.nav, state))
    case Select(id) => v.(nav := SelectModule(v.nav, id))
    case Close => v.(nav := CloseDialog(v.nav))
    case GoToProfile => v.(nav := NavigateToProfile(v.nav))
  }

  function RunView(v: View, steps: seq<UiStep>): View
    decreases |steps|
  {
    if steps == [] then v else RunView(NextView(v, steps[0]), steps[1..])
  }

  /** The dialog flag is raised only while the gate condition holds for what the page last read. */
  predicate GateConsistent(v: View) {
    v.nav.showProfileDialog ==> GateOpen(v.user, v.isLoading)
  }

  lemma NextViewKeepsGate(v: View, step: UiStep)
    requires GateConsistent(v)
    ensures GateConsistent(NextView(v, step))
  {
  }

  lemma {:induction false} RunViewKeepsGate(v: View, steps: seq<UiStep>)
    requires GateConsistent(v)
    ensures GateConsistent(RunView(v, steps))
    decreases |steps|
  {
    if steps != [] {
      NextViewKeepsGate(v, steps[0]);
      RunViewKeepsGate(NextView(v, steps[0]), steps[1..]);
    }
  }

  /**
   * After any sequence of store changes, navigations and dialog actions, a
   * raised dialog flag means the user is signed in, not a super admin, has an
   * incomplete profile and nothing is loading; and the dialog is on screen
   * exactly when the flag is raised.
   */
  lemma DialogOnlyForIncompleteProfiles(state: Option<LocationState>, user: Option<User>, isLoading: bool,
                                        steps: seq<UiStep>)
    ensures var v := RunView(Mount(state, user, isLoading), steps);
            && (v.nav.showProfileDialog ==>
                  && v.user.Some?
                  && v.user.value.role != SuperAdminRole
                  && !v.user.value.profileComplete
                  && !v.isLoading)
            && (DialogVisible(v.nav, v.user) <==> v.nav.showProfileDialog)
  {
    RunViewKeepsGate(Mount(state, user, isLoading), steps);
  }

  /** Scenario: a pastor with an incomplete profile sees the gate once loading settles, and choosing a module dismisses it. */
  lemma PastorSeesGateUntilNavigating(u: User, id: string)
    requires u.role == "pastor" && !u.profileComplete
    ensures var v := RunView(Mount(None, None, true), [AuthChanged(Some(u), true), AuthChanged(Some(u), false)]);
            DialogVisible(v.nav, v.user)
    ensures var v := RunView(Mount(None, None, true), [AuthChanged(Some(u), true), AuthChanged(Some(u), false), Select(id)]);
            !DialogVisible(v.nav, v.user) && v.nav.activeModule == id
  {
    var v0 := Mount(None, None, true);
    var v1 := NextView(v0, AuthChanged(Some(u), true));
    var v2 := NextView(v1, AuthChanged(Some(u), false));
    var v3 := NextView(v2, Select(id));
    assert RunView(v2, []) == v2;
    assert RunView(v1, [AuthChanged(Some(u), false)]) == v2;
    assert RunView(v3, []) == v3;
    assert RunView(v2, [Select(id)]) == v3;
    assert RunView(v1, [AuthChanged(Some(u), false), Select(id)]) == v3;
  }
}
