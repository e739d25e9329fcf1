/** The behaviour in the profile screen: which image source the avatar
    loads, the edit-profile dialog with its email-change confirmation, the
    logout that follows a saved email change, and the two logout paths of
    the screen itself. */
module ProfileScreens {
  import opened Results
  import opened Entities
  import Utils

  // ---------------------------------------------------------------------
  // ProfileImage

  /** Kotlin's `Char.isWhitespace()`: Java whitespace or a Unicode space
      separator. */
  predicate IsWhitespace(c: char) {
    var n := c as int;
    (0x09 <= n <= 0x0D) || (0x1C <= n <= 0x20) || n == 0xA0 || n == 0x1680
    || (0x2000 <= n <= 0x200A) || n == 0x2028 || n == 0x2029 || n == 0x202F
    || n == 0x205F || n == 0x3000
  }

  /** `isNullOrBlank()`: null, empty, or whitespace only. */
  predicate IsNullOrBlank(s: Option<string>) {
    s.None? || forall i :: 0 <= i < |s.value| ==> IsWhitespace(s.value[i])
  }

  /** `ProfileImage`'s model: the picked image unless it is null or blank,
      otherwise the stored photo URL. */
  function ProfileImageModel(imageUrl: Option<string>, imageUri: Option<string>): (model: Option<string>)
    ensures !IsNullOrBlank(imageUri) ==> model == imageUri
    ensures IsNullOrBlank(imageUri) ==> model == imageUrl
    ensures model == imageUri || model == imageUrl
  {
    if !IsNullOrBlank(imageUri) then imageUri else imageUrl
  }

  /** The screen's own avatar passes no picked image, so it always shows the
      stored photo; a picked image with a visible character always wins in
      the dialog. */
  lemma AvatarSources(u: Option<UserData>, picked: string, k: nat)
    requires k < |picked| && !IsWhitespace(picked[k])
    ensures ProfileImageModel(PhotoUrl(u), None) == PhotoUrl(u)
    ensures ProfileImageModel(PhotoUrl(u), Some(picked)) == Some(picked)
  {
  }

  /** `userData?.profilePhotoUrl`. */
  function PhotoUrl(u: Option<UserData>): (url: Option<string>)
    ensures u.None? ==> url.None?
    ensures u.Some? ==> url == u.value.profilePhotoUrl
  {
    if u.None? then None else u.value.profilePhotoUrl
  }

  /** `userData?.email`: null when there is no user or no email. */
  function StoredEmail(u: Option<UserData>): (email: Option<string>)
    ensures u.None? ==> email.None?
    ensures u.Some? ==> email == u.value.email
  {
    if u.None? then None else u.value.email
  }

  /** Kotlin's `s != userData?.email` for a non-null `s`. */
  predicate EmailChanged(u: Option<UserData>, email: string) {
    Some(email) != StoredEmail(u)
  }

  // ---------------------------------------------------------------------
  // EditProfileDialog

  /** What the dialog reports to its host: `onSave(name, email, birthday,
      imageUri)` and `onDismiss()`. */
  datatype DialogEffect = Saved(name: string, email: string, birthday: string, imageUri: Option<string>) | Dismissed

  /** The dialog's remembered state, as one value; `effects` lists the
      callbacks it has invoked, in order. */
  datatype DialogState = DialogState(
    name: string,
    email: string,
    birthday: string,
    imageUri: Option<string>,
    showDatePicker: bool,
    showEmailConfirmationDialog: bool,
    pendingEmail: string,
    effects: seq<DialogEffect>)
  {
    /** Once the host has been told to dismiss, it removes the dialog and
        no further input reaches it. */
    predicate Closed() {
      Dismissed in effects
    }
  }

  /** User input the dialog reacts to. `DateConfirmed` carries the picker's
      selection already formatted as "yyyy-MM-dd", or None when nothing is
      selected. */
  datatype DialogEvent =
    | NameEdited(name: string)
    | EmailEdited(email: string)
    | BirthdayTyped(typed: string)
    | ImagePicked(uri: Option<string>)
    | DatePickerOpened
    | DateConfirmed(selected: Option<string>)
    | DatePickerDismissed
    | SaveClicked
    | EmailChangeConfirmed
    | EmailChangeCancelled
    | CancelClicked

  /** The fields as the dialog opens: the user's values, or "" for each
      missing one, no picked image and no sub-dialog. */
  function DialogInitial(u: Option<UserData>): (s: DialogState)
    ensures s.name == (if u.Some? then u.value.name.OrElse("") else "")
    ensures s.email == StoredEmail(u).OrElse("")
    ensures s.birthday == (if u.Some? then u.value.birthday.OrElse("") else "")
    ensures s.imageUri.None? && !s.showDatePicker && !s.showEmailConfirmationDialog
    ensures s.pendingEmail == "" && s.effects == []
  {
    match u
    case None => DialogState("", "", "", None, false, false, "", [])
    case Some(d) => DialogState(d.name.OrElse(""), d.email.OrElse(""), d.birthday.OrElse(""), None, false, false, "", [])
  }

  /** The Save button: an unchanged email saves and dismisses at once; a
      changed one is parked in `pendingEmail` behind the confirmation. */
  function OnSaveClicked(u: Option<UserData>, s: DialogState): DialogState {
    if EmailChanged(u, s.email) then s.(pendingEmail := s.email, showEmailConfirmationDialog := true)
    else s.(effects := s.effects + [Saved(s.name, s.email, s.birthday, s.imageUri), Dismissed])
  }

  /** One input applied to the dialog of user `u`. Sub-dialog buttons only
      exist while their sub-dialog is shown. */
  function DialogStep(u: Option<UserData>, s: DialogState, e: DialogEvent): DialogState {
    if s.Closed() then s
    else
      match e
      case NameEdited(v) => s.(name := v)
      case EmailEdited(v) => s.(email := v)
      case BirthdayTyped(_) => s
      case ImagePicked(uri) => s.(imageUri := uri)
      case DatePickerOpened => s.(showDatePicker := true)
      case DateConfirmed(selected) =>
        if !s.showDatePicker then s
        else s.(birthday := selected.OrElse(s.birthday), showDatePicker := false)
      case DatePickerDismissed => s.(showDatePicker := false)
      case SaveClicked => OnSaveClicked(u, s)
      case EmailChangeConfirmed =>
        if !s.showEmailConfirmationDialog then s
        else s.(effects := s.effects + [Saved(s.name, s.pendingEmail, s.birthday, s.imageUri), Dismissed],
                showEmailConfirmationDialog := false)
      case EmailChangeCancelled =>
        if !s.showEmailConfirmationDialog then s
        else s.(showEmailConfirmationDialog := false, email := StoredEmail(u).OrElse(""))
      case CancelClicked => s.(effects := s.effects + [Dismissed])
  }

  function DialogRun(u: Option<UserData>, s: DialogState, es: seq<DialogEvent>): DialogState
    decreases |es|
  {
    if es == [] then s else DialogStep(u, DialogRun(u, s, es[..|es| - 1]), es[|es| - 1])
  }

  lemma DialogRunSnoc(u: Option<UserData>, s: DialogState, es: seq<DialogEvent>, e: DialogEvent)
    ensures DialogRun(u, s, es + [e]) == DialogStep(u, DialogRun(u, s, es), e)
  {
    assert (es + [e])[..|es + [e]| - 1] == es;
  }

  /** Saving and confirming, one step at a time: an unchanged email is saved
      with the fields as they are; a changed email is not saved but parked;
      confirming saves the parked email and closes; cancelling restores the
      stored email and saves nothing. */
  lemma SaveConfirmCancel(u: Option<UserData>, s: DialogState)
    requires !s.Closed()
    ensures !EmailChanged(u, s.email)
            ==> DialogStep(u, s, SaveClicked).effects == s.effects + [Saved(s.name, s.email, s.birthday, s.imageUri), Dismissed]
    ensures EmailChanged(u, s.email)
            ==> var t := DialogStep(u, s, SaveClicked);
                t.effects == s.effects && t.showEmailConfirmationDialog && t.pendingEmail == s.email
    ensures s.showEmailConfirmationDialog
            ==> DialogStep(u, s, EmailChangeConfirmed).effects
                == s.effects + [Saved(s.name, s.pendingEmail, s.birthday, s.imageUri), Dismissed]
    ensures s.showEmailConfirmationDialog
            ==> var t := DialogStep(u, s, EmailChangeCancelled);
                t.effects == s.effects && !t.showEmailConfirmationDialog && t.email == StoredEmail(u).OrElse("")
  {
  }

  /** The birthday never follows typing; only a confirmed picker selection
      changes it. */
  lemma BirthdayOnlyFromPicker(u: Option<UserData>, s: DialogState, e: DialogEvent)
    ensures DialogStep(u, s, e).birthday != s.birthday
            ==> e.DateConfirmed? && s.showDatePicker && e.selected == Some(DialogStep(u, s, e).birthday)
  {
  }

  /** Without user data every email counts as changed, so every save goes
      through the confirmation. */
  lemma NoUserDataAlwaysConfirms(s: DialogState)
    requires !s.Closed()
    ensures DialogStep(None, s, SaveClicked).showEmailConfirmationDialog
    ensures DialogStep(None, s, SaveClicked).effects == s.effects
  {
  }

  /** The dialog's lifetime invariant: it has reported nothing, only a
      dismissal, or one save followed by a dismissal; and a shown
      confirmation always holds an email different from the stored one. */
  ghost predicate DialogInvariant(u: Option<UserData>, s: DialogState) {
    (s.effects == [] || s.effects == [Dismissed]
     || (|s.effects| == 2 && s.effects[0].Saved? && s.effects[1] == Dismissed))
    && (s.showEmailConfirmationDialog ==> EmailChanged(u, s.pendingEmail))
  }

  /** Over any sequence of inputs the dialog saves at most once, always
      dismisses right after saving, and saves an email different from the
      stored one only after the user confirmed it. */
  lemma {:induction false} DialogLifetime(u: Option<UserData>, es: seq<DialogEvent>)
    ensures var s := DialogRun(u, DialogInitial(u), es);
            DialogInvariant(u, s)
            && (s.effects != [] && s.effects[0].Saved? && EmailChanged(u, s.effects[0].email)
                ==> EmailChangeConfirmed in es)
    decreases |es|
  {
    if es != [] {
      var pre := es[..|es| - 1];
      DialogLifetime(u, pre);
      var s := DialogRun(u, DialogInitial(u), pre);
      var e := es[|es| - 1];
      assert es == pre + [e];
      if s.effects != [] && s.effects[0].Saved? && EmailChanged(u, s.effects[0].email) {
        assert EmailChangeConfirmed in pre;
      }
    }
  }

  /** Confirming a shown email change always saves a changed email. */
  lemma ConfirmedSaveIsAChange(u: Option<UserData>, s: DialogState)
    requires DialogInvariant(u, s) && !s.Closed() && s.showEmailConfirmationDialog
    ensures var t := DialogStep(u, s, EmailChangeConfirmed);
            t.effects[|t.effects| - 2].Saved? && EmailChanged(u, t.effects[|t.effects| - 2].email)
  {
  }

  // ---------------------------------------------------------------------
  // ProfileInfo's onSave

  /** What `ProfileInfo` does with a save: send the profile update (the
      picked image is copied to a file, compressed and attached) and, when
      the email changed, invoke its `onLogout`. */
  datatype InfoEffect = UpdateProfile(name: string, email: string, birthday: string, image: Option<string>) | LogoutRequested

  /** `imageThrew` says whether copying or compressing the picked image
      threw; the lambda then aborts before either effect. */
  function ProfileInfoOnSave(u: Option<UserData>, name: string, email: string, birthday: string,
                             imageUri: Option<string>, imageThrew: bool): (r: seq<InfoEffect>)
    ensures imageUri.Some? && imageThrew ==> r == []
    ensures !(imageUri.Some? && imageThrew) ==> |r| >= 1 && r[0] == UpdateProfile(name, email, birthday, imageUri)
    ensures !(imageUri.Some? && imageThrew) ==> (LogoutRequested in r <==> EmailChanged(u, email))
    ensures |r| <= 2
  {
    if imageUri.Some? && imageThrew then []
    else [UpdateProfile(name, email, birthday, imageUri)] + (if EmailChanged(u, email) then [LogoutRequested] else [])
  }

  /** With the image compression as written, a picked photo that only fits
      at quality 0 makes the compression throw, so the save sends no update
      and the email-change logout never happens. */
  lemma CompressionThrowAbortsSave(u: Option<UserData>, name: string, email: string, birthday: string,
                                   path: string)
    ensures var threw := Utils.AsWrittenOutcome(Some(Utils.Decoded(path)), Utils.FitsOnlyAtZero).CompressThrew?;
            ProfileInfoOnSave(u, name, email, birthday, Some(path), threw) == []
  {
    Utils.AsWrittenThrowsAfterFitAtZero(path);
  }

  /** End to end: whatever the user does in the dialog, the profile screen
      asks to log out only after a confirmed email change. */
  lemma LogoutOnlyAfterConfirmedEmailChange(u: Option<UserData>, es: seq<DialogEvent>, imageThrew: bool)
    ensures var s := DialogRun(u, DialogInitial(u), es);
            s.effects != [] && s.effects[0].Saved?
            && LogoutRequested in ProfileInfoOnSave(u, s.effects[0].name, s.effects[0].email,
                                                    s.effects[0].birthday, s.effects[0].imageUri, imageThrew)
            ==> EmailChangeConfirmed in es
  {
    DialogLifetime(u, es);
  }

  /** The edit-profile dialog of user `userData`. */
  class EditProfileDialog {
    const userData: Option<UserData>
    var name: string
    var email: string
    var birthday: string
    var imageUri: Option<string>
    var showDatePicker: bool
    var showEmailConfirmationDialog: bool
    var pendingEmail: string
    /** The host callbacks invoked so far. */
    var effects: seq<DialogEffect>
    ghost var history: seq<DialogEvent>

    function State(): DialogState
      reads this
    {
      DialogState(name, email, birthday, imageUri, showDatePicker, showEmailConfirmationDialog, pendingEmail, effects)
    }

    ghost predicate Valid()
      reads this
    {
      State() == DialogRun(userData, DialogInitial(userData), history)
    }

    constructor(userData: Option<UserData>)
      ensures Valid() && history == [] && this.userData == userData
      ensures State() == DialogInitial(userData)
    {
      this.userData := userData;
      var s := DialogInitial(userData);
      name := s.name;
      email := s.email;
      birthday := s.birthday;
      imageUri := None;
      showDatePicker := false;
      showEmailConfirmationDialog := false;
      pendingEmail := "";
      effects := [];
      history := [];
    }

    method Record(ghost before: DialogState, e: DialogEvent)
      requires before == DialogRun(userData, DialogInitial(userData), history)
      requires State() == DialogStep(userData, before, e)
      modifies this`history
      ensures Valid() && history == old(history) + [e]
    {
      DialogRunSnoc(userData, DialogInitial(userData), history, e);
      history := history + [e];
    }

    method EditName(v: string)
      requires Valid() && !State().Closed()
      modifies this
      ensures Valid() && history == old(history) + [NameEdited(v)]
      ensures State() == old(State()).(name := v)
    {
      ghost var before := State();
      name := v;
      Record(before, NameEdited(v));
    }

    method EditEmail(v: string)
      requires Valid() && !State().Closed()
      modifies this
      ensures Valid() && history == old(history) + [EmailEdited(v)]
      ensures State() == old(State()).(email := v)
    {
      ghost var before := State();
      email := v;
      Record(before, EmailEdited(v));
    }

    /** The birthday field is read-only: typing changes nothing. */
    method TypeBirthday(v: string)
      requires Valid() && !State().Closed()
      modifies this
      ensures Valid() && history == old(history) + [BirthdayTyped(v)]
      ensures State() == old(State())
    {
      ghost var before := State();
      Record(before, BirthdayTyped(v));
    }

    /** The image picker's result; a cancelled pick delivers null. */
    method PickImage(uri: Option<string>)
      requires Valid() && !State().Closed()
      modifies this
      ensures Valid() && history == old(history) + [ImagePicked(uri)]
      ensures State() == old(State()).(imageUri := uri)
    {
      ghost var before := State();
      imageUri := uri;
      Record(before, ImagePicked(uri));
    }

    method OpenDatePicker()
      requires Valid() && !State().Closed()
      modifies this
      ensures Valid() && history == old(history) + [DatePickerOpened]
      ensures State() == old(State()).(showDatePicker := true)
    {
      ghost var before := State();
      showDatePicker := true;
      Record(before, DatePickerOpened);
    }

    method ConfirmDate(selected: Option<string>)
      requires Valid() && !State().Closed() && showDatePicker
      modifies this
      ensures Valid() && history == old(history) + [DateConfirmed(selected)]
      ensures selected.Some? ==> birthday == selected.value
      ensures selected.None? ==> birthday == old(birthday)
      ensures !showDatePicker
      ensures State() == old(State()).(birthday := birthday, showDatePicker := false)
    {
      ghost var before := State();
      if selected.Some? {
        birthday := selected.value;
      }
      showDatePicker := false;
      Record(before, DateConfirmed(selected));
    }

    method DismissDatePicker()
      requires Valid() && !State().Closed()
      modifies this
      ensures Valid() && history == old(history) + [DatePickerDismissed]
      ensures State() == old(State()).(showDatePicker := false)
    {
      ghost var before := State();
      showDatePicker := false;
      Record(before, DatePickerDismissed);
    }

    /** The Save button. */
    method Save()
      requires Valid() && !State().Closed()
      modifies this
      ensures Valid() && history == old(history) + [SaveClicked]
      ensures EmailChanged(userData, old(email))
              ==> State() == old(State()).(pendingEmail := old(email), showEmailConfirmationDialog := true)
      ensures !EmailChanged(userData, old(email))
              ==> State() == old(State()).(effects := old(effects) + [Saved(name, email, birthday, imageUri), Dismissed])
    {
      ghost var before := State();
      if Some(email) != StoredEmail(userData) {
        pendingEmail := email;
        showEmailConfirmationDialog := true;
      } else {
        effects := effects + [Saved(name, email, birthday, imageUri), Dismissed];
      }
      Record(before, SaveClicked);
    }

    /** The confirmation's confirm button. */
    method ConfirmEmailChange()
      requires Valid() && !State().Closed() && showEmailConfirmationDialog
      modifies this
      ensures Valid() && history == old(history) + [EmailChangeConfirmed]
      ensures effects == old(effects) + [Saved(name, pendingEmail, birthday, imageUri), Dismissed]
      ensures EmailChanged(userData, pendingEmail)
      ensures State() == old(State()).(effects := effects, showEmailConfirmationDialog := false)
    {
      ghost var before := State();
      DialogLifetime(userData, history);
      effects := effects + [Saved(name, pendingEmail, birthday, imageUri), Dismissed];
      showEmailConfirmationDialog := false;
      Record(before, EmailChangeConfirmed);
    }

    /** The confirmation's dismiss: the typed email is thrown away. */
    method CancelEmailChange()
      requires Valid() && !State().Closed() && showEmailConfirmationDialog
      modifies this
      ensures Valid() && history == old(history) + [EmailChangeCancelled]
      ensures State() == old(State()).(showEmailConfirmationDialog := false, email := StoredEmail(userData).OrElse(""))
    {
      ghost var before := State();
      showEmailConfirmationDialog := false;
      email := if userData.Some? then userData.value.email.OrElse("") else "";
      Record(before, EmailChangeCancelled);
    }

    /** The Cancel button, or a tap outside the dialog. */
    method Cancel()
      requires Valid() && !State().Closed()
      modifies this
      ensures Valid() && history == old(history) + [CancelClicked]
      ensures State() == old(State()).(effects := old(effects) + [Dismissed])
    {
      ghost var before := State();
      effects := effects + [Dismissed];
      Record(before, CancelClicked);
    }
  }

  // ---------------------------------------------------------------------
  // ProfileScreen's logout paths

  /** What the profile screen does on logout: `viewModel.logout()`, then the
      host's `onLogout()` that leaves the screen. */
  datatype ScreenEffect = ViewModelLogout | LeaveScreen

  /** The logout handed to `ProfileInfo` (used by the email-change logout):
      it does nothing while the screen is loading. */
  function GuardedLogout(isLoading: bool): (r: seq<ScreenEffect>)
    ensures r == [] <==> isLoading
    ensures !isLoading ==> r == [ViewModelLogout, LeaveScreen]
  {
    if isLoading then [] else [ViewModelLogout, LeaveScreen]
  }

  /** A confirmed email change leaves the screen only when the profile is
      not loading at that moment; otherwise the logout is dropped. */
  lemma EmailChangeLogoutNeedsIdleScreen(u: Option<UserData>, name: string, email: string, birthday: string,
                                         imageUri: Option<string>, isLoading: bool)
    requires EmailChanged(u, email)
    ensures LogoutRequested in ProfileInfoOnSave(u, name, email, birthday, imageUri, false)
    ensures LeaveScreen in GuardedLogout(isLoading) <==> !isLoading
  {
  }

  /** The screen's logout-confirmation dialog and the effects it triggers. */
  class ProfileScreen {
    var showConfirmDialog: bool
    var effects: seq<ScreenEffect>

    constructor()
      ensures !showConfirmDialog && effects == []
    {
      showConfirmDialog := false;
      effects := [];
    }

    /** `ProfileInfo`'s `onLogout`, guarded by the loading flag. */
    method InlineLogout(isLoading: bool)
      modifies this`effects
      ensures effects == old(effects) + GuardedLogout(isLoading)
    {
      if !isLoading {
        effects := effects + [ViewModelLogout, LeaveScreen];
      }
    }

    method ShowLogoutDialog()
      modifies this`showConfirmDialog
      ensures showConfirmDialog
    {
      showConfirmDialog := true;
    }

    /** The dialog's confirm logs out whatever the loading flag says. */
    method ConfirmLogout()
      requires showConfirmDialog
      modifies this
      ensures effects == old(effects) + [ViewModelLogout, LeaveScreen]
      ensures !showConfirmDialog
    {
      effects := effects + [ViewModelLogout, LeaveScreen];
      showConfirmDialog := false;
    }

    method DismissLogoutDialog()
      requires showConfirmDialog
      modifies this
      ensures effects == old(effects) && !showConfirmDialog
    {
      showConfirmDialog := false;
    }
  }
}
