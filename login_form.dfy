/**
 * The sign-in form: the simulated login derives the user's display name and
 * role from the email address alone.
 */
module LoginForm {
  import opened Wrappers
  import opened Text
  import opened Records

  /** `email.split("@")[0]`: everything before the first '@', or the whole address. */
  function NameOf(email: string): (name: string)
    ensures name <= email
    ensures '@' !in name
    ensures name == email || email[|name|] == '@'
  {
    match CharIndexFrom(email, '@', 0)
    case None => email
    case Some(at) => email[..at]
  }

  /** The name is recovered from any address built on it. */
  lemma NameOfAddress(name: string, domain: string)
    requires '@' !in name
    ensures NameOf(name + "@" + domain) == name
  {
    var email := name + "@" + domain;
    assert email[|name|] == '@';
    assert forall k :: 0 <= k < |name| ==> email[k] == name[k];
    assert email[..|name|] == name;
  }

  /** `email.includes("doctor") ? "doctor" : "patient"`. */
  function RoleOf(email: string): (role: string)
    ensures role == "doctor" <==> Contains(email, "doctor")
    ensures role == "patient" <==> !Contains(email, "doctor")
  {
    if Contains(email, "doctor") then "doctor" else "patient"
  }

  /** Any address with "doctor" anywhere in it signs in as a doctor. */
  lemma DoctorAnywhere(before: string, after: string)
    ensures RoleOf(before + "doctor" + after) == "doctor"
  {
    assert OccursAt("doctor", "doctor", 0);
    ContainsIff("doctor", "doctor");
    ContainsInConcat(before, "doctor", after, "doctor");
  }

  /** The user handed to the app: the email unchanged, the derived name and role. */
  function DeriveUser(email: string): (u: UserData)
    ensures u.id == 1 && u.email == email && u.avatar == PlaceholderAvatar
    ensures u.name == NameOf(email) && u.role == RoleOf(email)
    ensures u.name <= email && '@' !in u.name
    ensures u.role in {"doctor", "patient"}
  {
    UserData(1, email, NameOf(email), RoleOf(email), PlaceholderAvatar)
  }

  /**
   * The form's state.  `scheduled` holds, in order, the addresses each
   * pending completion timer captured when its submit ran.
   */
  class LoginFormState {
    var email: string
    var password: string
    var isLoading: bool
    var scheduled: seq<string>

    ghost predicate Valid()
      reads this
    {
      isLoading ==> scheduled != []
    }

    constructor ()
      ensures Valid()
      ensures email == "" && password == "" && !isLoading && scheduled == []
    {
      email := "";
      password := "";
      isLoading := false;
      scheduled := [];
    }

    method EditEmail(text: string)
      modifies this
      ensures email == text
      ensures password == old(password) && isLoading == old(isLoading) && scheduled == old(scheduled)
    {
      email := text;
    }

    method EditPassword(text: string)
      modifies this
      ensures password == text
      ensures email == old(email) && isLoading == old(isLoading) && scheduled == old(scheduled)
    {
      password := text;
    }

    /**
     * The browser fires `onSubmit` when both `required` fields are filled;
     * `emailWellFormed` is its verdict on the `type="email"` field.  The
     * submit button's `disabled` state does not gate the form: the
     * "forgot password" link button has no `type`, so it is a submit button
     * too, and it is the one Enter presses.
     */
    predicate Fires(emailWellFormed: bool)
      reads this
    {
      email != "" && password != "" && emailWellFormed
    }

    /**
     * A submit attempt.  When the browser lets it through, `handleSubmit`
     * starts loading and schedules the completion with the current email,
     * even when one is already pending; otherwise nothing changes.
     */
    method Submit(emailWellFormed: bool) returns (fired: bool)
      requires Valid()
      modifies this
      ensures Valid()
      ensures fired == old(Fires(emailWellFormed))
      ensures fired ==> isLoading && scheduled == old(scheduled) + [old(email)]
      ensures !fired ==> isLoading == old(isLoading) && scheduled == old(scheduled)
      ensures email == old(email) && password == old(password)
    {
      fired := Fires(emailWellFormed);
      if fired {
        isLoading := true;
        scheduled := scheduled + [email];
      }
    }

    /** The completion timer fires: `onLogin` receives the derived user, loading ends. */
    method Complete() returns (user: UserData)
      requires Valid() && scheduled != []
      modifies this
      ensures Valid()
      ensures user == DeriveUser(old(scheduled)[0])
      ensures !isLoading && scheduled == old(scheduled)[1..]
      ensures email == old(email) && password == old(password)
    {
      user := DeriveUser(scheduled[0]);
      isLoading := false;
      scheduled := scheduled[1..];
    }
  }

  /**
   * A second submit while the first is still pending, through the link
   * button or Enter, schedules a second completion: `onLogin` then receives
   * the same user twice.
   */
  method DoubleSignIn(form: LoginFormState, email: string, password: string) returns (first: UserData, second: UserData)
    requires form.Valid() && form.scheduled == [] && email != "" && password != ""
    modifies form
    ensures first == DeriveUser(email) && second == DeriveUser(email)
    ensures !form.isLoading && form.scheduled == []
  {
    form.EditEmail(email);
    form.EditPassword(password);
    var fired := form.Submit(true);
    fired := form.Submit(true);
    first := form.Complete();
    second := form.Complete();
  }

  /**
   * One sign-in from an idle form, with an address the browser accepts and a
   * password, hands over exactly one user, built from the typed email.
   */
  method SignIn(form: LoginFormState, name: string, domain: string, password: string) returns (user: UserData)
    requires form.Valid() && form.scheduled == [] && '@' !in name && password != ""
    modifies form
    ensures user.email == name + "@" + domain && user.name == name
    ensures !form.isLoading && form.scheduled == []
  {
    form.EditEmail(name + "@" + domain);
    form.EditPassword(password);
    var fired := form.Submit(true);
    user := form.Complete();
    NameOfAddress(name, domain);
  }
}
