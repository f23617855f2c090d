/**
 * The registration form: five text fields updated one at a time, the terms
 * checkbox, the submit checks and the simulated completion that hands the
 * new user to the app.
 */
module RegisterForm {
  import opened Wrappers
  import opened Records

  /** The form's fields; `role` holds "patient" or "doctor". */
  datatype FormData = FormData(name: string, email: string, password: string, confirmPassword: string, role: string)

  datatype Field = Name | Email | Password | ConfirmPassword | RoleField

  /** The blank form; the role starts as patient. */
  const InitialForm := FormData("", "", "", "", "patient")

  /** Reads one field. */
  function Get(f: FormData, field: Field): string {
    match field
    case Name => f.name
    case Email => f.email
    case Password => f.password
    case ConfirmPassword => f.confirmPassword
    case RoleField => f.role
  }

  /** `handleInputChange`: the named field takes the value; every other field is kept. */
  function SetField(f: FormData, field: Field, value: string): (r: FormData)
    ensures Get(r, field) == value
    ensures forall g :: g != field ==> Get(r, g) == Get(f, g)
  {
    match field
    case Name => f.(name := value)
    case Email => f.(email := value)
    case Password => f.(password := value)
    case ConfirmPassword => f.(confirmPassword := value)
    case RoleField => f.(role := value)
  }

  /** Setting a field to what it already holds changes nothing. */
  lemma SetFieldSameValue(f: FormData, field: Field)
    ensures SetField(f, field, Get(f, field)) == f
  {
  }

  /** Later writes to the same field win. */
  lemma SetFieldOverwrite(f: FormData, field: Field, a: string, b: string)
    ensures SetField(SetField(f, field, a), field, b) == SetField(f, field, b)
  {
  }

  /** Writes to different fields commute. */
  lemma SetFieldCommutes(f: FormData, g1: Field, a: string, g2: Field, b: string)
    requires g1 != g2
    ensures SetField(SetField(f, g1, a), g2, b) == SetField(SetField(f, g2, b), g1, a)
  {
  }

  /** What a submit attempt runs into. */
  datatype SubmitCheck = PasswordMismatch | TermsNotAccepted | Accepted

  /** The submit checks, in the order they run: password match first, then the terms. */
  function Check(f: FormData, agreed: bool): (c: SubmitCheck)
    ensures c == PasswordMismatch <==> f.password != f.confirmPassword
    ensures c == TermsNotAccepted <==> f.password == f.confirmPassword && !agreed
    ensures c == Accepted <==> f.password == f.confirmPassword && agreed
  {
    if f.password != f.confirmPassword then PasswordMismatch
    else if !agreed then TermsNotAccepted
    else Accepted
  }

  /** The four `required` text fields are filled; the role is a select and always has a value. */
  predicate RequiredFilled(f: FormData) {
    f.name != "" && f.email != "" && f.password != "" && f.confirmPassword != ""
  }

  /** The user handed to the app: the submitted name, email and role. */
  function Registered(f: FormData, now: int): (u: UserData)
    ensures u.email == f.email && u.name == f.name && u.role == f.role && u.id == now
  {
    UserData(now, f.email, f.name, f.role, PlaceholderAvatar)
  }

  /**
   * The form's state.  `scheduled` holds, in order, the form contents each
   * pending completion timer captured when its submit ran.
   */
  class RegisterFormState {
    var formData: FormData
    var isLoading: bool
    var agreed: bool
    var scheduled: seq<FormData>

    ghost predicate Valid()
      reads this
    {
      isLoading ==> scheduled != []
    }

    constructor ()
      ensures Valid()
      ensures formData == InitialForm && !isLoading && !agreed && scheduled == []
    {
      formData := InitialForm;
      isLoading := false;
      agreed := false;
      scheduled := [];
    }

    /** A field's `onChange`. */
    method Edit(field: Field, value: string)
      modifies this
      ensures formData == SetField(old(formData), field, value)
      ensures isLoading == old(isLoading) && agreed == old(agreed) && scheduled == old(scheduled)
    {
      formData := SetField(formData, field, value);
    }

    /** The terms checkbox. */
    method SetAgreed(b: bool)
      modifies this
      ensures agreed == b
      ensures formData == old(formData) && isLoading == old(isLoading) && scheduled == old(scheduled)
    {
      agreed := b;
    }

    /**
     * The browser fires `onSubmit` when the `required` fields are filled;
     * `emailWellFormed` is its verdict on the `type="email"` field.  The
     * submit button's own `disabled` state does not gate the form: the two
     * link buttons in the terms label have no `type`, so they are submit
     * buttons too, and the first of them is the one Enter presses.
     */
    predicate Fires(emailWellFormed: bool)
      reads this
    {
      RequiredFilled(formData) && emailWellFormed
    }

    /**
     * A submit attempt.  When the browser blocks it the result is `None` and
     * nothing changes.  Otherwise `handleSubmit` runs its checks: a failed
     * check changes nothing; a passed one starts loading and schedules the
     * completion with the current contents, even when one is already pending.
     */
    method Submit(emailWellFormed: bool) returns (check: Option<SubmitCheck>)
      requires Valid()
      modifies this
      ensures Valid()
      ensures check.None? <==> !old(Fires(emailWellFormed))
      ensures check.Some? ==> check.value == Check(old(formData), old(agreed))
      ensures check != Some(Accepted) ==> isLoading == old(isLoading) && scheduled == old(scheduled)
      ensures check == Some(Accepted) ==> isLoading && scheduled == old(scheduled) + [old(formData)]
      ensures formData == old(formData) && agreed == old(agreed)
    {
      if !Fires(emailWellFormed) {
        return None;
      }
      check := Some(Check(formData, agreed));
      if check == Some(Accepted) {
        isLoading := true;
        scheduled := scheduled + [formData];
      }
    }

    /** The completion timer fires: the captured contents become the registered user. */
    method CompleteRegistration(now: int) returns (user: UserData)
      requires Valid() && scheduled != []
      modifies this
      ensures Valid()
      ensures user == Registered(old(scheduled)[0], now)
      ensures !isLoading && scheduled == old(scheduled)[1..]
      ensures formData == old(formData) && agreed == old(agreed)
    {
      user := Registered(scheduled[0], now);
      isLoading := false;
      scheduled := scheduled[1..];
    }
  }

  /**
   * Edits made while the completion is pending do not reach the registered
   * user: it carries what was on the form when submit was pressed.
   */
  method EditWhileRegistering(form: RegisterFormState, field: Field, value: string, now: int) returns (user: UserData)
    requires form.Valid() && form.scheduled == [] && Check(form.formData, form.agreed) == Accepted
    requires RequiredFilled(form.formData)
    modifies form
    ensures user == Registered(old(form.formData), now)
    ensures form.formData == SetField(old(form.formData), field, value) && !form.isLoading
  {
    var check := form.Submit(true);
    form.Edit(field, value);
    user := form.CompleteRegistration(now);
  }
}
