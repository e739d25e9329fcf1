/** The profile screen's view-model: it folds the user repository's outcomes
    into its screen state and user data, toggles the daily-streak reminder,
    and forwards logout to the repository. */
module ProfileViewModels {
  import opened Results
  import opened Entities

  /** The two fields of the shared authentication screen state that this
      view-model writes. */
  datatype AuthUi = AuthUi(isLoading: bool, error: Option<string>)

  /** Calls into collaborators, in the order they are made. */
  datatype ProfileEffect =
    | GetUser
    | CreateNotificationChannel
    | ScheduleStreakWorker
    | CancelStreakWorker
    | PersistNotificationsEnabled(enabled: bool)
    | RepositoryLogout

  datatype ProfileState = ProfileState(
    ui: AuthUi,
    userData: Option<UserData>,
    notificationsEnabled: bool,
    effects: seq<ProfileEffect>)

  datatype ProfileEvent =
    | GetUserData
    | UserEmitted(r: Result<UserData>)
    | SetNotificationsEnabled(enabled: bool)
    | NotificationsPreferenceEmitted(stored: bool)
    | Logout

  /** No user data yet, and notifications shown as off until the preference
      store emits. */
  function Initial(ui: AuthUi): (s: ProfileState)
    ensures s.ui == ui && s.userData == None && !s.notificationsEnabled && s.effects == []
  {
    ProfileState(ui, None, false, [])
  }

  /** The collaborator calls `setNotificationsEnabled(enabled)` makes: turning
      on creates the channel and schedules the streak worker, turning off
      cancels it; either way the flag is persisted last. */
  function NotificationEffects(enabled: bool): (r: seq<ProfileEffect>)
    ensures |r| >= 2 && r[|r| - 1] == PersistNotificationsEnabled(enabled)
    ensures ScheduleStreakWorker in r <==> enabled
    ensures CancelStreakWorker in r <==> !enabled
  {
    if enabled then [CreateNotificationChannel, ScheduleStreakWorker, PersistNotificationsEnabled(true)]
    else [CancelStreakWorker, PersistNotificationsEnabled(false)]
  }

  function OnUser(s: ProfileState, r: Result<UserData>): ProfileState {
    match r
    case Loading => s.(ui := s.ui.(isLoading := true))
    case Success(u) => s.(ui := s.ui.(isLoading := false, error := None), userData := Some(u))
    case Error(m) => s.(ui := s.ui.(isLoading := false, error := Some(m)))
  }

  function Step(s: ProfileState, e: ProfileEvent): ProfileState {
    match e
    case GetUserData => s.(effects := s.effects + [GetUser])
    case UserEmitted(r) => OnUser(s, r)
    case SetNotificationsEnabled(b) => s.(effects := s.effects + NotificationEffects(b))
    case NotificationsPreferenceEmitted(b) => s.(notificationsEnabled := b)
    case Logout => s.(effects := s.effects + [RepositoryLogout])
  }

  function Run(s: ProfileState, es: seq<ProfileEvent>): ProfileState
    decreases |es|
  {
    if es == [] then s else Step(Run(s, es[..|es| - 1]), es[|es| - 1])
  }

  lemma RunSnoc(s: ProfileState, es: seq<ProfileEvent>, e: ProfileEvent)
    ensures Run(s, es + [e]) == Step(Run(s, es), e)
  {
    assert (es + [e])[..|es|] == es;
  }

  /** The flag of the last `setNotificationsEnabled` call in `es`, if any. */
  function LastRequested(es: seq<ProfileEvent>): Option<bool>
    decreases |es|
  {
    if es == [] then None
    else if es[|es| - 1].SetNotificationsEnabled? then Some(es[|es| - 1].enabled)
    else LastRequested(es[..|es| - 1])
  }

  /** The flag most recently written to the preference store. */
  function LastPersisted(effs: seq<ProfileEffect>): Option<bool>
    decreases |effs|
  {
    if effs == [] then None
    else if effs[|effs| - 1].PersistNotificationsEnabled? then Some(effs[|effs| - 1].enabled)
    else LastPersisted(effs[..|effs| - 1])
  }

  /** Whether the streak worker is scheduled after these calls: the last of
      schedule or cancel wins. */
  function StreakScheduled(effs: seq<ProfileEffect>): Option<bool>
    decreases |effs|
  {
    if effs == [] then None
    else if effs[|effs| - 1] == ScheduleStreakWorker then Some(true)
    else if effs[|effs| - 1] == CancelStreakWorker then Some(false)
    else StreakScheduled(effs[..|effs| - 1])
  }

  /** Appending calls that neither persist nor touch the worker changes
      neither summary. */
  lemma {:induction false} SummariesIgnoreOtherCalls(a: seq<ProfileEffect>, b: seq<ProfileEffect>)
    requires forall j :: 0 <= j < |b| ==> !b[j].PersistNotificationsEnabled? && b[j] != ScheduleStreakWorker && b[j] != CancelStreakWorker
    ensures LastPersisted(a + b) == LastPersisted(a)
    ensures StreakScheduled(a + b) == StreakScheduled(a)
    decreases |b|
  {
    if b == [] {
      assert a + b == a;
    } else {
      var k := |b| - 1;
      assert (a + b)[..|a| + k] == a + b[..k];
      assert (a + b)[|a| + k] == b[k];
      SummariesIgnoreOtherCalls(a, b[..k]);
    }
  }

  /** After the calls one `setNotificationsEnabled(enabled)` makes, the
      persisted flag and the worker's state both equal `enabled`. */
  lemma NotificationEffectsDecide(a: seq<ProfileEffect>, enabled: bool)
    ensures LastPersisted(a + NotificationEffects(enabled)) == Some(enabled)
    ensures StreakScheduled(a + NotificationEffects(enabled)) == Some(enabled)
  {
    var r := a + NotificationEffects(enabled);
    assert r[..|r| - 1] == a + NotificationEffects(enabled)[..|NotificationEffects(enabled)| - 1];
    if enabled {
      assert r[..|r| - 1][..|r| - 2] == a + [CreateNotificationChannel];
    }
  }

  /** The last `setNotificationsEnabled` call decides both the persisted
      preference and whether the streak worker is scheduled, whatever other
      events come after it. */
  lemma {:induction false} LastToggleWins(s: ProfileState, es: seq<ProfileEvent>)
    requires LastRequested(es).Some?
    ensures LastPersisted(Run(s, es).effects) == LastRequested(es)
    ensures StreakScheduled(Run(s, es).effects) == LastRequested(es)
    decreases |es|
  {
    var k := |es| - 1;
    var b := Run(s, es[..k]);
    match es[k]
    case SetNotificationsEnabled(flag) =>
      NotificationEffectsDecide(b.effects, flag);
    case GetUserData =>
      LastToggleWins(s, es[..k]);
      SummariesIgnoreOtherCalls(b.effects, [GetUser]);
    case Logout =>
      LastToggleWins(s, es[..k]);
      SummariesIgnoreOtherCalls(b.effects, [RepositoryLogout]);
    case UserEmitted(_) =>
      LastToggleWins(s, es[..k]);
      assert Run(s, es).effects == b.effects;
    case NotificationsPreferenceEmitted(_) =>
      LastToggleWins(s, es[..k]);
      assert Run(s, es).effects == b.effects;
  }

  /** User data is only ever replaced by the payload of a successful
      emission; errors and loading keep what was there. */
  lemma {:induction false} UserDataFromSuccess(s: ProfileState, es: seq<ProfileEvent>)
    ensures var u := Run(s, es).userData;
      u == s.userData || exists i :: 0 <= i < |es| && es[i].UserEmitted? && es[i].r.Success? && u == Some(es[i].r.data)
    decreases |es|
  {
    if es != [] {
      var k := |es| - 1;
      var pre := es[..k];
      UserDataFromSuccess(s, pre);
      var u := Run(s, es).userData;
      if u != Run(s, pre).userData {
        assert es[k].UserEmitted? && es[k].r.Success? && u == Some(es[k].r.data);
      } else if u != s.userData {
        var i :| 0 <= i < |pre| && pre[i].UserEmitted? && pre[i].r.Success? && u == Some(pre[i].r.data);
        assert es[i] == pre[i];
      }
    }
  }

  /** The three branches of the `getUserData` observer. */
  lemma UserOutcomes(s: ProfileState, u: UserData, m: string)
    ensures Step(s, UserEmitted(Loading)) == s.(ui := s.ui.(isLoading := true))
    ensures var t := Step(s, UserEmitted(Success(u)));
      t.ui == AuthUi(false, None) && t.userData == Some(u) && t.effects == s.effects
    ensures var t := Step(s, UserEmitted(Error(m)));
      t.ui == AuthUi(false, Some(m)) && t.userData == s.userData && t.effects == s.effects
  {
  }

  class ProfileViewModel {
    var uiState: AuthUi
    var userData: Option<UserData>
    /** The preference as last emitted by the store (`stateIn`, initially false). */
    var notificationsEnabled: bool
    var effects: seq<ProfileEffect>
    ghost var initialUi: AuthUi
    ghost var history: seq<ProfileEvent>

    function State(): ProfileState
      reads this
    {
      ProfileState(uiState, userData, notificationsEnabled, effects)
    }

    ghost predicate Valid()
      reads this
    {
      State() == Run(Initial(initialUi), history)
    }

    /** `ui` is the shared authentication screen state's default value. */
    constructor(ui: AuthUi)
      ensures Valid() && history == [] && initialUi == ui
      ensures uiState == ui && userData == None && !notificationsEnabled && effects == []
    {
      uiState := ui;
      userData := None;
      notificationsEnabled := false;
      effects := [];
      initialUi := ui;
      history := [];
    }

    method Record(ghost before: ProfileState, e: ProfileEvent)
      requires before == Run(Initial(initialUi), history)
      requires State() == Step(before, e)
      modifies this`history
      ensures Valid() && history == old(history) + [e]
    {
      RunSnoc(Initial(initialUi), history, e);
      history := history + [e];
    }

    method Logout()
      requires Valid()
      modifies this
      ensures Valid() && history == old(history) + [ProfileEvent.Logout] && initialUi == old(initialUi)
      ensures effects == old(effects) + [RepositoryLogout]
      ensures uiState == old(uiState) && userData == old(userData) && notificationsEnabled == old(notificationsEnabled)
    {
      ghost var before := State();
      effects := effects + [RepositoryLogout];
      Record(before, ProfileEvent.Logout);
    }

    /** The preference is persisted, not shown: `notificationsEnabled`
        changes only when the store emits the new value. */
    method SetNotificationsEnabled(enabled: bool)
      requires Valid()
      modifies this
      ensures Valid() && history == old(history) + [ProfileEvent.SetNotificationsEnabled(enabled)] && initialUi == old(initialUi)
      ensures effects == old(effects) + NotificationEffects(enabled)
      ensures uiState == old(uiState) && userData == old(userData) && notificationsEnabled == old(notificationsEnabled)
    {
      ghost var before := State();
      if enabled {
        effects := effects + [CreateNotificationChannel, ScheduleStreakWorker];
      } else {
        effects := effects + [CancelStreakWorker];
      }
      effects := effects + [PersistNotificationsEnabled(enabled)];
      Record(before, ProfileEvent.SetNotificationsEnabled(enabled));
    }

    method OnNotificationsPreference(stored: bool)
      requires Valid()
      modifies this
      ensures Valid() && history == old(history) + [NotificationsPreferenceEmitted(stored)] && initialUi == old(initialUi)
      ensures notificationsEnabled == stored
      ensures uiState == old(uiState) && userData == old(userData) && effects == old(effects)
    {
      ghost var before := State();
      notificationsEnabled := stored;
      Record(before, NotificationsPreferenceEmitted(stored));
    }

    method GetUserData()
      requires Valid()
      modifies this
      ensures Valid() && history == old(history) + [ProfileEvent.GetUserData] && initialUi == old(initialUi)
      ensures effects == old(effects) + [GetUser]
      ensures uiState == old(uiState) && userData == old(userData) && notificationsEnabled == old(notificationsEnabled)
    {
      ghost var before := State();
      effects := effects + [GetUser];
      Record(before, ProfileEvent.GetUserData);
    }

    /** The observer of `getUserData`. */
    method OnUser(r: Result<UserData>)
      requires Valid()
      modifies this
      ensures Valid() && history == old(history) + [UserEmitted(r)] && initialUi == old(initialUi)
      ensures uiState.isLoading == r.Loading?
      ensures uiState.error == (if r.Loading? then old(uiState.error) else if r.Error? then Some(r.error) else None)
      ensures userData == (if r.Success? then Some(r.data) else old(userData))
      ensures notificationsEnabled == old(notificationsEnabled) && effects == old(effects)
    {
      ghost var before := State();
      match r {
        case Loading =>
          uiState := uiState.(isLoading := true);
        case Success(u) =>
          uiState := uiState.(isLoading := false, error := None);
          userData := Some(u);
        case Error(m) =>
          uiState := uiState.(isLoading := false, error := Some(m));
      }
      Record(before, UserEmitted(r));
    }
  }
}
