/**
 The profile page's form (app/profile/page.tsx): one record of six text inputs edited
 field by field, a profile update that sends the name and phone, and a password change
 that is refused locally when the new password and its confirmation differ.
 */
module Profile {
  import opened Text
  import Toasts

  /** The form's state: the three profile inputs and the three password inputs. */
  datatype FormData = FormData(
    name: string,
    email: string,
    phone: string,
    currentPassword: string,
    newPassword: string,
    confirmPassword: string)

  /** The profile as the server returns it (only the fields the form uses). */
  datatype ServerProfile = ServerProfile(fullName: string, email: string, phoneNumber: string)

  /** The form after the profile has loaded: the profile's values and empty password inputs. */
  function FormFromProfile(p: ServerProfile): (f: FormData)
    ensures f.name == p.fullName && f.email == p.email && f.phone == p.phoneNumber
    ensures f.currentPassword == "" && f.newPassword == "" && f.confirmPassword == ""
  {
    FormData(p.fullName, p.email, p.phoneNumber, "", "", "")
  }

  // ---------------------------------------------------------------------------
  // Editing
  // ---------------------------------------------------------------------------

  datatype Field = Name | Email | Phone | CurrentPassword | NewPassword | ConfirmPassword

  /** The `name` attribute of each input. */
  function FieldName(f: Field): string {
    match f
    case Name => "name"
    case Email => "email"
    case Phone => "phone"
    case CurrentPassword => "currentPassword"
    case NewPassword => "newPassword"
    case ConfirmPassword => "confirmPassword"
  }

  /** The form field an input name designates, if any. */
  function FieldNamed(name: string): (f: Option<Field>)
    ensures f.Some? ==> FieldName(f.value) == name
    ensures f.None? ==> forall g: Field :: FieldName(g) != name
  {
    if name == "name" then Some(Name)
    else if name == "email" then Some(Email)
    else if name == "phone" then Some(Phone)
    else if name == "currentPassword" then Some(CurrentPassword)
    else if name == "newPassword" then Some(NewPassword)
    else if name == "confirmPassword" then Some(ConfirmPassword)
    else None
  }

  function Get(form: FormData, f: Field): string {
    match f
    case Name => form.name
    case Email => form.email
    case Phone => form.phone
    case CurrentPassword => form.currentPassword
    case NewPassword => form.newPassword
    case ConfirmPassword => form.confirmPassword
  }

  /**
   `handleInputChange`: the input's value replaces the field its name designates, and no
   other field changes.
   */
  function HandleInputChange(form: FormData, name: string, value: string): (form': FormData)
    ensures FieldNamed(name).Some? ==> Get(form', FieldNamed(name).value) == value
    ensures forall g: Field :: FieldName(g) != name ==> Get(form', g) == Get(form, g)
  {
    match FieldNamed(name)
    case None => form
    case Some(Name) => form.(name := value)
    case Some(Email) => form.(email := value)
    case Some(Phone) => form.(phone := value)
    case Some(CurrentPassword) => form.(currentPassword := value)
    case Some(NewPassword) => form.(newPassword := value)
    case Some(ConfirmPassword) => form.(confirmPassword := value)
  }

  /** Each field's name routes edits to that field: typing into an input reads back as typed. */
  lemma {:induction false} InputNamesRoundTrip(form: FormData, f: Field, value: string)
    ensures FieldNamed(FieldName(f)) == Some(f)
    ensures Get(HandleInputChange(form, FieldName(f), value), f) == value
  {
    match f
    case Name =>
    case Email =>
    case Phone =>
    case CurrentPassword =>
    case NewPassword =>
    case ConfirmPassword =>
  }

  /** Typing the current value again leaves the form as it was. */
  lemma RetypingChangesNothing(form: FormData, f: Field)
    ensures HandleInputChange(form, FieldName(f), Get(form, f)) == form
  {
    InputNamesRoundTrip(form, f, Get(form, f));
  }

  // ---------------------------------------------------------------------------
  // Profile update
  // ---------------------------------------------------------------------------

  /** The body of `updateProfile`. */
  datatype ProfileUpdate = ProfileUpdate(fullName: string, phoneNumber: string)

  /** What submitting the profile form does at once: the loading flag and the request. */
  datatype ProfileSubmission = ProfileSubmission(loading: bool, request: ProfileUpdate)

  /**
   A request has been answered: the form afterwards, the loading flag, and the toasts the
   page itself shows.
   */
  datatype Settled = Settled(form: FormData, loading: bool, toasts: seq<Toasts.Toast>)

  const ProfileUpdatedText: string := "Thông tin cơ bản đã cập nhật"

  /**
   `handleProfileUpdate` raises the loading flag and sends the name and phone inputs; the
   e-mail input is not sent.
   */
  function HandleProfileUpdate(form: FormData): (sub: ProfileSubmission)
    ensures sub.loading
    ensures sub.request.fullName == form.name && sub.request.phoneNumber == form.phone
  {
    ProfileSubmission(true, ProfileUpdate(form.name, form.phone))
  }

  /**
   The update's answer: the flag comes down whatever the outcome; a success shows one
   success toast and leaves the form as the user has it now; a failure adds no toast of the
   page's own.
   */
  function OnProfileUpdateSettled(current: FormData, succeeded: bool): (after: Settled)
    ensures !after.loading && after.form == current
    ensures succeeded ==> after.toasts == Toasts.ShowSuccess(ProfileUpdatedText)
    ensures !succeeded ==> after.toasts == []
  {
    Settled(current, false, if succeeded then Toasts.ShowSuccess(ProfileUpdatedText) else [])
  }

  /**
   The update ignores the e-mail and the password inputs: two forms that agree on name and
   phone send the same body, and a freshly loaded form sends the profile back unchanged.
   */
  lemma ProfileUpdateIgnoresOtherFields(f1: FormData, f2: FormData, p: ServerProfile)
    ensures f1.name == f2.name && f1.phone == f2.phone ==> HandleProfileUpdate(f1) == HandleProfileUpdate(f2)
    ensures HandleProfileUpdate(FormFromProfile(p)).request == ProfileUpdate(p.fullName, p.phoneNumber)
  {
  }

  // ---------------------------------------------------------------------------
  // Password change
  // ---------------------------------------------------------------------------

  /** The body of `changePassword`. */
  datatype PasswordChange = PasswordChange(oldPassword: string, newPassword: string)

  const MismatchText: string := "Mật khẩu không khớp nhau."
  const PasswordUpdatedText: string := "Mật khẩu đã cập nhật"

  /** What submitting the password form does at once: the loading flag, toasts, and the request if any. */
  datatype Submission = Submission(loading: bool, toasts: seq<Toasts.Toast>, request: Option<PasswordChange>)

  /**
   `handlePasswordChange`: a new password that differs from its confirmation is refused on
   the spot with an error toast and no request; otherwise the current and new passwords are
   sent and the page stays loading until the answer.
   */
  function HandlePasswordChange(form: FormData): (sub: Submission)
    ensures sub.request.Some? <==> form.newPassword == form.confirmPassword
    ensures sub.request.Some? ==> sub.request.value == PasswordChange(form.currentPassword, form.newPassword)
    ensures sub.request.Some? ==> sub.loading && sub.toasts == []
    ensures sub.request.None? ==> !sub.loading && sub.toasts == [Toasts.Toast(Toasts.Error, MismatchText)]
  {
    if form.newPassword != form.confirmPassword then
      Submission(false, [Toasts.Toast(Toasts.Error, MismatchText)], None)
    else
      Submission(true, [], Some(PasswordChange(form.currentPassword, form.newPassword)))
  }

  /**
   The password change's answer; `submitted` is the form captured when it was sent and
   `current` the form as it is now. On success the form becomes the submitted one with its
   three password inputs emptied and a success toast appears; on failure the form is left
   as it is and the page adds no toast of its own. The flag comes down either way.
   */
  function OnPasswordSettled(submitted: FormData, current: FormData, succeeded: bool): (after: Settled)
    ensures !after.loading
    ensures succeeded ==> after.form.currentPassword == "" && after.form.newPassword == "" && after.form.confirmPassword == ""
    ensures succeeded ==> after.form.name == submitted.name && after.form.email == submitted.email && after.form.phone == submitted.phone
    ensures succeeded ==> after.toasts == Toasts.ShowSuccess(PasswordUpdatedText)
    ensures !succeeded ==> after.form == current && after.toasts == []
  {
    if succeeded then
      Settled(submitted.(currentPassword := "", newPassword := "", confirmPassword := ""), false,
              Toasts.ShowSuccess(PasswordUpdatedText))
    else
      Settled(current, false, [])
  }

  /**
   The password a sent request sets is the one typed twice, and a successful change clears
   every trace of the passwords from the form while the profile inputs stay as submitted.
   */
  lemma PasswordRequestOnlyWhenConfirmed(form: FormData, current: FormData)
    requires HandlePasswordChange(form).request.Some?
    ensures HandlePasswordChange(form).request.value.newPassword == form.confirmPassword
    ensures OnPasswordSettled(form, current, true).form == FormFromProfile(ServerProfile(form.name, form.email, form.phone))
  {
  }

  /**
   Because the success handler rebuilds the form from the values captured at submission,
   a profile field edited while the request was pending reverts to its submitted value;
   after a failure the edit stays.
   */
  lemma EditsDuringRequestRevert(submitted: FormData, value: string)
    requires value != submitted.name
    ensures OnPasswordSettled(submitted, HandleInputChange(submitted, "name", value), true).form.name != value
    ensures OnPasswordSettled(submitted, HandleInputChange(submitted, "name", value), false).form.name == value
  {
  }

  /**
   Both forms end idle: whenever a submission raises the loading flag, the answer lowers it
   again, whether the request succeeded or not.
   */
  lemma SubmissionsEndIdle(form: FormData, current: FormData, succeeded: bool)
    ensures HandleProfileUpdate(form).loading && !OnProfileUpdateSettled(current, succeeded).loading
    ensures HandlePasswordChange(form).loading ==>
              HandlePasswordChange(form).request.Some? && !OnPasswordSettled(form, current, succeeded).loading
  {
  }
}
