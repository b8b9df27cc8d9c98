/**
 * The admin user editor (`AdminUsers.jsx`): a modal form whose dirtiness is measured against the
 * selected user's values, a confirmation before discarding edits, and the request a submit or a
 * block toggle sends.
 */
module AdminUsers {
  import opened Wrappers

  /** A record of the `/users` collection; every field may be missing. */
  datatype UserRecord = UserRecord(
    id: string, fullName: Option<string>, email: Option<string>, phone: Option<string>,
    isAdmin: Option<bool>, blocked: Option<bool>)

  /** `formData`. A text field is `None` only when copied from a record that lacks it. */
  datatype FormData = FormData(fullName: Option<string>, email: Option<string>, phone: Option<string>, isAdmin: bool)

  datatype TextField = FullNameField | EmailField | PhoneField

  /** An input event: a text box (`e.target.value`) or the admin checkbox (`e.target.checked`). */
  datatype Change = TextChange(field: TextField, value: string) | AdminCheckbox(checked: bool)

  const DefaultPassword := "default123"

  /** What the editor sends to the store. */
  datatype Request =
    | UpdateUser(id: string, form: FormData)
    | CreateUser(form: FormData, password: string, blocked: bool)
    | SetBlocked(id: string, blocked: bool)
    | DeleteUser(id: string)

  const EmptyForm := FormData(Some(""), Some(""), Some(""), false)

  /** `x || false` for a flag that may be missing. */
  function Truthy(b: Option<bool>): bool { b == Some(true) }

  /** `initialForm`: the selected user's values with "" and false for what is missing, or the empty form. */
  function InitialForm(selected: Option<UserRecord>): (f: FormData)
    ensures selected.None? ==> f == EmptyForm
    ensures f.fullName.Some? && f.email.Some? && f.phone.Some?
    ensures selected.Some? ==>
      && f.fullName.value == selected.value.fullName.GetOr("")
      && f.email.value == selected.value.email.GetOr("")
      && f.phone.value == selected.value.phone.GetOr("")
      && f.isAdmin == Truthy(selected.value.isAdmin)
  {
    if selected.None? then EmptyForm
    else
      var u := selected.value;
      FormData(Some(u.fullName.GetOr("")), Some(u.email.GetOr("")), Some(u.phone.GetOr("")), Truthy(u.isAdmin))
  }

  /** `isDirty`: some field differs from the initial form. */
  predicate IsDirty(form: FormData, initial: FormData) {
    || form.fullName != initial.fullName
    || form.email != initial.email
    || form.phone != initial.phone
    || form.isAdmin != initial.isAdmin
  }

  /** Dirty means different: the four fields are the whole form. */
  lemma DirtyIffDifferent(form: FormData, initial: FormData)
    ensures IsDirty(form, initial) <==> form != initial
  {
  }

  /** `handleInputChange`: `{ ...formData, [name]: value }`. */
  function ApplyChange(form: FormData, change: Change): (r: FormData)
    ensures change.TextChange? && change.field == FullNameField ==>
      r == form.(fullName := Some(change.value))
    ensures change.TextChange? && change.field == EmailField ==>
      r == form.(email := Some(change.value))
    ensures change.TextChange? && change.field == PhoneField ==>
      r == form.(phone := Some(change.value))
    ensures change.AdminCheckbox? ==> r == form.(isAdmin := change.checked)
  {
    match change
    case AdminCheckbox(checked) => form.(isAdmin := checked)
    case TextChange(field, value) =>
      match field
      case FullNameField => form.(fullName := Some(value))
      case EmailField => form.(email := Some(value))
      case PhoneField => form.(phone := Some(value))
  }

  /** Typing back the initial value of the one field that differed makes the form clean again. */
  lemma ChangeBackIsClean(form: FormData, initial: FormData, field: TextField)
    requires initial.fullName.Some? && initial.email.Some? && initial.phone.Some?
    requires form.isAdmin == initial.isAdmin
    requires field != FullNameField ==> form.fullName == initial.fullName
    requires field != EmailField ==> form.email == initial.email
    requires field != PhoneField ==> form.phone == initial.phone
    ensures var value := match field
        case FullNameField => initial.fullName.value
        case EmailField => initial.email.value
        case PhoneField => initial.phone.value;
      !IsDirty(ApplyChange(form, TextChange(field, value)), initial)
  {
  }

  /** `handleEdit`'s form: the record's raw fields, only the flag defaulted. */
  function EditForm(u: UserRecord): FormData {
    FormData(u.fullName, u.email, u.phone, Truthy(u.isAdmin))
  }

  /** An edit form starts clean exactly when the record has a name, an email and a phone. */
  lemma EditFormCleanIff(u: UserRecord)
    ensures !IsDirty(EditForm(u), InitialForm(Some(u))) <==> u.fullName.Some? && u.email.Some? && u.phone.Some?
  {
  }

  /** `handleSubmit`'s request: update the selected user, or create one with the default password, unblocked. */
  function SubmitRequest(selected: Option<UserRecord>, form: FormData): (r: Request)
    ensures selected.Some? <==> r.UpdateUser?
    ensures r.UpdateUser? ==> r.id == selected.value.id && r.form == form
    ensures r.CreateUser? ==> r.form == form && r.password == DefaultPassword && !r.blocked
  {
    if selected.Some? then UpdateUser(selected.value.id, form) else CreateUser(form, DefaultPassword, false)
  }

  /** `toggleBlock(id, isBlocked)`: sends the negated flag, a missing flag counting as unblocked. */
  function ToggleBlockRequest(id: string, isBlocked: Option<bool>): (r: Request)
    ensures r.SetBlocked? && r.id == id
    ensures r.blocked <==> !Truthy(isBlocked)
  {
    SetBlocked(id, !Truthy(isBlocked))
  }

  /** Toggling twice, with the store applying the first toggle, restores the flag. */
  lemma ToggleTwiceRestores(id: string, isBlocked: bool)
    ensures ToggleBlockRequest(id, Some(ToggleBlockRequest(id, Some(isBlocked)).blocked)).blocked == isBlocked
  {
  }

  class UsersPage {
    var selectedUser: Option<UserRecord>
    var isModalOpen: bool
    var formData: FormData
    /** The requests sent to the store, oldest first. */
    var sent: seq<Request>

    constructor()
      ensures selectedUser.None? && !isModalOpen && formData == EmptyForm && sent == []
    {
      selectedUser, isModalOpen, formData, sent := None, false, EmptyForm, [];
    }

    predicate Dirty()
      reads this
    {
      IsDirty(formData, InitialForm(selectedUser))
    }

    /** `useUnsavedChanges(isModalOpen && isDirty)`: the browser asks before leaving. */
    predicate UnloadGuardArmed()
      reads this
    {
      isModalOpen && Dirty()
    }

    method HandleInputChange(change: Change)
      modifies this
      ensures formData == ApplyChange(old(formData), change)
      ensures selectedUser == old(selectedUser) && isModalOpen == old(isModalOpen) && sent == old(sent)
    {
      formData := ApplyChange(formData, change);
    }

    method ResetForm()
      modifies this
      ensures formData == EmptyForm && selectedUser.None? && !Dirty()
      ensures isModalOpen == old(isModalOpen) && sent == old(sent)
    {
      formData, selectedUser := EmptyForm, None;
    }

    method HandleEdit(u: UserRecord)
      modifies this
      ensures selectedUser == Some(u) && formData == EditForm(u) && isModalOpen
      ensures !Dirty() <==> u.fullName.Some? && u.email.Some? && u.phone.Some?
      ensures sent == old(sent)
    {
      selectedUser, formData, isModalOpen := Some(u), EditForm(u), true;
      EditFormCleanIff(u);
    }

    /** The "Add User" button: a fresh, clean form in an open modal. */
    method OpenAdd()
      modifies this
      ensures formData == EmptyForm && selectedUser.None? && isModalOpen && !Dirty()
      ensures sent == old(sent)
    {
      ResetForm();
      isModalOpen := true;
    }

    /**
     * The close button and Cancel: a dirty form asks first, and a declined confirmation keeps
     * everything; otherwise the modal closes and the form resets.
     */
    method Close(confirmDiscard: bool)
      modifies this
      ensures old(Dirty()) && !confirmDiscard ==>
        isModalOpen == old(isModalOpen) && formData == old(formData) && selectedUser == old(selectedUser)
      ensures !old(Dirty()) || confirmDiscard ==>
        !isModalOpen && formData == EmptyForm && selectedUser.None? && !UnloadGuardArmed()
      ensures sent == old(sent)
    {
      if Dirty() && !confirmDiscard {
        return;
      }
      isModalOpen := false;
      ResetForm();
    }

    /** `handleSubmit`: the request goes out; once the store accepts it the modal closes and the form resets. */
    method HandleSubmit(ok: bool)
      modifies this
      ensures sent == old(sent) + [SubmitRequest(old(selectedUser), old(formData))]
      ensures ok ==> !isModalOpen && formData == EmptyForm && selectedUser.None?
      ensures !ok ==> isModalOpen == old(isModalOpen) && formData == old(formData) && selectedUser == old(selectedUser)
    {
      sent := sent + [SubmitRequest(selectedUser, formData)];
      if ok {
        isModalOpen := false;
        ResetForm();
      }
    }

    /** The delete button: the user is deleted only once the admin confirms. */
    method HandleDelete(id: string, confirmed: bool)
      modifies this
      ensures sent == if confirmed then old(sent) + [DeleteUser(id)] else old(sent)
      ensures selectedUser == old(selectedUser) && isModalOpen == old(isModalOpen) && formData == old(formData)
    {
      if confirmed {
        sent := sent + [DeleteUser(id)];
      }
    }

    method ToggleBlock(id: string, isBlocked: Option<bool>)
      modifies this
      ensures sent == old(sent) + [ToggleBlockRequest(id, isBlocked)]
      ensures selectedUser == old(selectedUser) && isModalOpen == old(isModalOpen) && formData == old(formData)
    {
      sent := sent + [ToggleBlockRequest(id, isBlocked)];
    }
  }
}
