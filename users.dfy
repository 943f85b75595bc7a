/**
  * The user administration list: users are edited and added through a
  * dialog form and removed by id, all on the local list.
  */
module Users {
  import opened Wrappers
  import opened Types
  import Lists

  function UserId(u: UserData): string {
    u.id
  }

  /** The dialog's form fields. */
  datatype UserForm = UserForm(
    name: string,
    email: string,
    phoneNumber: string,
    password: string,
    metaData: map<string, string>)

  const InitialFormData: UserForm := UserForm("", "", "", "", map[])

  /** `{ ...currentUser, ...formData }`: the form's fields over the edited user, whose id is kept. */
  function Merged(current: UserData, form: UserForm): (u: UserData)
    ensures u.id == current.id
    ensures u.name == form.name && u.email == form.email && u.phoneNumber == form.phoneNumber
    ensures u.metaData == form.metaData && u.password == Some(form.password)
  {
    UserData(current.id, form.name, form.email, form.phoneNumber, form.metaData, Some(form.password))
  }

  /** `{ ...formData, id }` for a new user. */
  function Created(form: UserForm, id: string): (u: UserData)
    ensures u.id == id && u.name == form.name && u.email == form.email
    ensures u.phoneNumber == form.phoneNumber && u.metaData == form.metaData && u.password == Some(form.password)
  {
    UserData(id, form.name, form.email, form.phoneNumber, form.metaData, Some(form.password))
  }

  /** The form `handleEdit` fills from a user: its fields, an empty password. */
  function FormOf(u: UserData): (f: UserForm)
    ensures f.name == u.name && f.email == u.email && f.phoneNumber == u.phoneNumber
    ensures f.password == "" && f.metaData == u.metaData
  {
    UserForm(u.name, u.email, u.phoneNumber, "", u.metaData)
  }

  /** Every user with the edited user's id becomes the merged user. */
  function Replaced(users: seq<UserData>, current: UserData, form: UserForm): (r: seq<UserData>)
    ensures |r| == |users|
    ensures forall j :: 0 <= j < |users| && users[j].id == current.id ==> r[j] == Merged(current, form)
    ensures forall j :: 0 <= j < |users| && users[j].id != current.id ==> r[j] == users[j]
  {
    Lists.MapWhereId(users, current.id, UserId, (u: UserData) => Merged(current, form))
  }

  /** An edit keeps the list's length, every id in its place, and so the set of ids. */
  lemma EditKeepsIds(users: seq<UserData>, current: UserData, form: UserForm)
    ensures var r := Replaced(users, current, form);
      (forall j :: 0 <= j < |r| ==> r[j].id == users[j].id)
      && Lists.IdSet(r, UserId) == Lists.IdSet(users, UserId)
  {
    var r := Replaced(users, current, form);
    assert forall j :: 0 <= j < |r| ==> UserId(r[j]) == UserId(users[j]);
    forall id | id in Lists.IdSet(r, UserId) ensures id in Lists.IdSet(users, UserId) {
      var j :| 0 <= j < |r| && UserId(r[j]) == id;
    }
    forall id | id in Lists.IdSet(users, UserId) ensures id in Lists.IdSet(r, UserId) {
      var j :| 0 <= j < |users| && UserId(users[j]) == id;
    }
  }

  /**
    * Opening a user for editing and saving without changes gives back the
    * same user, except that it now carries an empty password.
    */
  lemma EditUnchangedKeepsUser(u: UserData)
    ensures Merged(u, FormOf(u)) == u.(password := Some(""))
  {
  }

  class UsersView {
    var users: seq<UserData>
    var isEditing: bool
    var currentUser: Option<UserData>
    var isDialogOpen: bool
    var formData: UserForm

    constructor ()
      ensures users == [] && !isEditing && currentUser == None && !isDialogOpen
      ensures formData == InitialFormData
    {
      users := [];
      isEditing := false;
      currentUser := None;
      isDialogOpen := false;
      formData := InitialFormData;
    }

    /**
      * Saves the form: in edit mode the edited user is replaced by the merge;
      * otherwise a user with the fresh id is appended. Either way the form is
      * reset, edit mode ends and the dialog closes.
      */
    method HandleSubmit(newId: string)
      modifies this
      ensures old(isEditing) && old(currentUser).Some? ==>
        users == Replaced(old(users), old(currentUser).value, old(formData))
      ensures !(old(isEditing) && old(currentUser).Some?) ==>
        users == old(users) + [Created(old(formData), newId)]
      ensures formData == InitialFormData && !isEditing && currentUser == None && !isDialogOpen
    {
      if isEditing && currentUser.Some? {
        users := Replaced(users, currentUser.value, formData);
      } else {
        users := users + [Created(formData, newId)];
      }
      formData := InitialFormData;
      isEditing := false;
      currentUser := None;
      isDialogOpen := false;
    }

    method HandleEdit(u: UserData)
      modifies this`isEditing, this`currentUser, this`formData, this`isDialogOpen
      ensures isEditing && currentUser == Some(u) && formData == FormOf(u) && isDialogOpen
    {
      isEditing := true;
      currentUser := Some(u);
      formData := FormOf(u);
      isDialogOpen := true;
    }

    /** Drops every user with the id and keeps the others in order. */
    method HandleDelete(id: string)
      modifies this`users
      ensures users == Lists.RemoveId(old(users), id, UserId)
    {
      users := Lists.RemoveId(users, id, UserId);
    }
  }
}
