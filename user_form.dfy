/** The create/edit user dialog: its validation schema, the data it hands
    on when submitted, and how it fills itself from the user being edited. */
module UserForm {
  import opened Common
  import Strings

  /** The form's values. `password` is absent when the field was never
      registered (edit mode hides it). */
  datatype FormValues = FormValues(email: string, password: Option<string>, role: string)

  /** What `onSubmit` receives (`UserCreateData`). */
  datatype UserCreateData = UserCreateData(email: string, password: Option<string>, role: string)

  const DefaultRole := "OPERADOR"
  const MinPasswordLength := 6

  /** `z.string().min(6).optional().or(z.literal(''))`; the minimum is
      on the JavaScript length, in UTF-16 code units. */
  predicate PasswordValid(p: Option<string>)
  {
    p.None? || p.value == "" || Strings.Utf16Length(p.value) >= MinPasswordLength
  }

  /** `z.enum(["ADM", "OPERADOR"])`. */
  predicate RoleValid(r: string)
  {
    r == "ADM" || r == "OPERADOR"
  }

  /** The whole schema; the e-mail check is the library's, given here as
      `isEmail`. */
  predicate SchemaAccepts(v: FormValues, isEmail: string -> bool)
  {
    isEmail(v.email) && PasswordValid(v.password) && RoleValid(v.role)
  }

  /** A password of one to five code units is refused; every other one is
      accepted. Six characters always suffice, three never do. */
  lemma PasswordLengths(p: string)
    ensures PasswordValid(Some(p)) <==> |p| == 0 || Strings.Utf16Length(p) >= 6
    ensures |p| >= 6 ==> PasswordValid(Some(p))
    ensures 0 < |p| < 3 ==> !PasswordValid(Some(p))
  {
  }

  /** Three emoji are six code units, so the schema accepts them although
      they are three characters. */
  lemma {:induction false} AstralPasswordAccepted()
    ensures PasswordValid(Some(['\U{1F600}', '\U{1F600}', '\U{1F600}']))
  {
    var p := ['\U{1F600}', '\U{1F600}', '\U{1F600}'];
    assert p[1..] == ['\U{1F600}', '\U{1F600}'];
    assert p[1..][1..] == ['\U{1F600}'];
    assert Strings.Utf16Length(p[1..][1..]) == 2;
  }

  /** `handleFormSubmit`: an empty or absent password is deleted, anything
      else is passed on as typed; e-mail and role go as they are. */
  function SubmittedData(v: FormValues): (d: UserCreateData)
    ensures d.email == v.email && d.role == v.role
    ensures d.password.None? <==> v.password.None? || v.password.value == ""
    ensures d.password.Some? ==> d.password == v.password
  {
    var password := if v.password.Some? && v.password.value != "" then v.password else None;
    UserCreateData(v.email, password, v.role)
  }

  /** Whatever passes the schema reaches `onSubmit` with either no password
      or one of at least six characters, and with one of the two roles. */
  lemma SubmittedDataValid(v: FormValues, isEmail: string -> bool)
    requires SchemaAccepts(v, isEmail)
    ensures var d := SubmittedData(v);
            (d.password.None? || Strings.Utf16Length(d.password.value) >= MinPasswordLength) && RoleValid(d.role) && isEmail(d.email)
  {
  }

  /** The dialog's form state, and whether it is editing an existing user. */
  class UserFormDialog {
    var values: FormValues
    var user: Option<AppUser>

    constructor ()
      ensures values == FormValues("", Some(""), DefaultRole) && user.None?
    {
      values := FormValues("", Some(""), DefaultRole);
      user := None;
    }

    /** `isEditMode`: a user was supplied. */
    predicate IsEditMode()
      reads this
    {
      user.Some?
    }

    /** The e-mail field is disabled, and the password field hidden, exactly
        in edit mode. */
    predicate EmailDisabled()
      reads this
    {
      IsEditMode()
    }

    predicate PasswordShown()
      reads this
    {
      !IsEditMode()
    }

    /** The effect that runs when the `user` prop changes: editing loads the
        user's e-mail and role (`OPERADOR` when the user has none) and keeps
        the password; creating resets every field to its default. */
    method UserChanged(u: Option<AppUser>)
      modifies this
      ensures user == u
      ensures u.Some? ==> values == FormValues(u.value.email, old(values).password,
                                                if u.value.role.Some? then RoleName(u.value.role.value) else DefaultRole)
      ensures u.None? ==> values == FormValues("", Some(""), DefaultRole)
    {
      user := u;
      if u.Some? {
        values := values.(email := u.value.email);
        values := values.(role := if u.value.role.Some? then RoleName(u.value.role.value) else DefaultRole);
      } else {
        values := FormValues("", Some(""), DefaultRole);
      }
    }

    /** The role select (`setValue("role", …)`). */
    method SelectRole(r: Role)
      modifies this
      ensures values == old(values).(role := RoleName(r)) && user == old(user)
    {
      values := values.(role := RoleName(r));
    }

    /** `handleSubmit(handleFormSubmit)`: the schema runs first, and only
        accepted values reach `onSubmit`, password-stripped. */
    method Submit(isEmail: string -> bool) returns (data: Option<UserCreateData>)
      ensures data.Some? <==> SchemaAccepts(values, isEmail)
      ensures data.Some? ==> data.value == SubmittedData(values)
    {
      if SchemaAccepts(values, isEmail) {
        data := Some(SubmittedData(values));
      } else {
        data := None;
      }
    }
  }

  /** The role the dialog loads for a user is always one the schema accepts. */
  lemma LoadedRoleValid(u: AppUser)
    ensures RoleValid(if u.role.Some? then RoleName(u.role.value) else DefaultRole)
  {
  }
}
