/** The registration form: role selection, the password checks on submit and
    the hand-off to the session store. The new account's id and creation
    time are passed in. */
module Register {
  import opened Wrappers
  import opened Types
  import Auth

  datatype RegisterForm = RegisterForm(
    name: string,
    email: string,
    phone: string,
    password: string,
    confirmPassword: string,
    role: string,
    terms: bool)

  /** `searchParams.get('role') || 'rider'` as the page computes it: any
      non-empty query value is taken as the role, unchecked. */
  function DefaultRoleAsWritten(param: Option<string>): (r: string)
    ensures param.Some? && param.value != "" ==> r == param.value
    ensures param.None? || param.value == "" ==> r == "rider"
  {
    if param.Some? && param.value != "" then param.value else "rider"
  }

  /** The role the form's type declares it can hold: "host" when asked for,
      "rider" otherwise. */
  function DefaultRole(param: Option<string>): (r: string)
    ensures r == "rider" || r == "host"
    ensures r == "host" <==> param == Some("host")
    ensures param.Some? && param.value in {"rider", "host"} ==> r == DefaultRoleAsWritten(param)
  {
    if param == Some("host") then "host" else "rider"
  }

  /** The two defaults disagree exactly on a non-empty query value other
      than "rider" and "host". */
  lemma AsWrittenDiffers(param: Option<string>)
    ensures DefaultRoleAsWritten(param) != DefaultRole(param) <==>
              param.Some? && param.value != "" && param.value != "rider" && param.value != "host"
  {
  }

  /** The form as first shown, with the corrected default role and the
      terms box unticked. */
  function InitialForm(param: Option<string>): (f: RegisterForm)
    ensures f.name == "" && f.email == "" && f.phone == "" && f.password == "" && f.confirmPassword == ""
    ensures f.role == DefaultRole(param)
  {
    RegisterForm("", "", "", "", "", DefaultRole(param), false)
  }

  /** The form as the page first shows it, role taken from the query unchecked. */
  function InitialFormAsWritten(param: Option<string>): (f: RegisterForm)
    ensures f.name == "" && f.email == "" && f.phone == "" && f.password == "" && f.confirmPassword == ""
    ensures f.role == DefaultRoleAsWritten(param)
  {
    RegisterForm("", "", "", "", "", DefaultRoleAsWritten(param), false)
  }

  /** What the form lets the user do: type into a field, pick one of the two
      role buttons, tick or untick the terms box (which keeps its own state). */
  datatype Field = Name | Email | Phone | Password | ConfirmPassword
  datatype Event = Type(field: Field, text: string) | PickRider | PickHost | ToggleTerms

  function Dispatch(f: RegisterForm, e: Event): (r: RegisterForm)
    ensures e.PickRider? ==> r == f.(role := "rider")
    ensures e.PickHost? ==> r == f.(role := "host")
    ensures e.Type? || e.ToggleTerms? ==> r.role == f.role
    ensures e.ToggleTerms? ==> r == f.(terms := !f.terms)
  {
    match e
    case PickRider => f.(role := "rider")
    case PickHost => f.(role := "host")
    case ToggleTerms => f.(terms := !f.terms)
    case Type(Name, s) => f.(name := s)
    case Type(Email, s) => f.(email := s)
    case Type(Phone, s) => f.(phone := s)
    case Type(Password, s) => f.(password := s)
    case Type(ConfirmPassword, s) => f.(confirmPassword := s)
  }

  function Run(f: RegisterForm, events: seq<Event>): RegisterForm
    decreases |events|
  {
    if |events| == 0 then f else Run(Dispatch(f, events[0]), events[1..])
  }

  /** Whatever is done on the form, its role stays "rider" or "host". */
  lemma {:induction false} RoleStaysKnown(param: Option<string>, events: seq<Event>)
    ensures Run(InitialForm(param), events).role in {"rider", "host"}
  {
    RunKeepsRole(InitialForm(param), events);
  }

  lemma {:induction false} RunKeepsRole(f: RegisterForm, events: seq<Event>)
    requires f.role in {"rider", "host"}
    ensures Run(f, events).role in {"rider", "host"}
    decreases |events|
  {
    if |events| > 0 {
      RunKeepsRole(Dispatch(f, events[0]), events[1..]);
    }
  }

  /** Typing into fields and ticking the terms box never change the role:
      it is whatever the form started with until a role button is clicked. */
  lemma {:induction false} TypingKeepsRole(f: RegisterForm, events: seq<Event>)
    requires forall i :: 0 <= i < |events| ==> !events[i].PickRider? && !events[i].PickHost?
    ensures Run(f, events).role == f.role
    decreases |events|
  {
    if |events| > 0 {
      TypingKeepsRole(Dispatch(f, events[0]), events[1..]);
    }
  }

  /** `Blocked`: the browser refused to submit and the handler never ran. */
  datatype Outcome = Blocked | Mismatch | TooShort | Registered

  /** The form's fields that become part of the account. */
  function ToRegistration(f: RegisterForm): Auth.Registration {
    Auth.Registration(f.name, f.email, f.phone, f.role)
  }

  /** The browser's constraint validation: the five text fields are
      `required`, and so is the terms box. */
  predicate Submittable(f: RegisterForm) {
    f.name != "" && f.email != "" && f.phone != "" && f.password != "" && f.confirmPassword != "" && f.terms
  }

  /** `handleSubmit`: a confirmation that differs is refused first, then a
      password shorter than 6 characters; only then is the account created
      and signed in. A refused form leaves the session as it was. */
  function HandleSubmit(current: Option<User>, f: RegisterForm, id: string, createdAt: string): (r: (Outcome, Option<User>))
    ensures r.0 != Blocked
    ensures r.0 == Mismatch <==> f.password != f.confirmPassword
    ensures r.0 == TooShort <==> f.password == f.confirmPassword && |f.password| < 6
    ensures r.0 == Registered <==> f.password == f.confirmPassword && |f.password| >= 6
    ensures r.0 != Registered ==> r.1 == current
    ensures r.0 == Registered ==> r.1 == Auth.Register(current, ToRegistration(f), id, createdAt).1
  {
    if f.password != f.confirmPassword then (Mismatch, current)
    else if |f.password| < 6 then (TooShort, current)
    else (Registered, Auth.Register(current, ToRegistration(f), id, createdAt).1)
  }

  /** Pressing "Create Account": the browser blocks an incomplete form
      before `handleSubmit` runs, leaving the session alone; a complete form
      goes to the handler. */
  function Submit(current: Option<User>, f: RegisterForm, id: string, createdAt: string): (r: (Outcome, Option<User>))
    ensures r.0 == Blocked <==> !Submittable(f)
    ensures r.0 == Blocked ==> r.1 == current
    ensures Submittable(f) ==> r == HandleSubmit(current, f, id, createdAt)
  {
    if !Submittable(f) then (Blocked, current) else HandleSubmit(current, f, id, createdAt)
  }

  /** A password of one to five characters passes the browser and is refused
      by the handler: the length check is not dead code. */
  lemma ShortPasswordRefused(current: Option<User>, f: RegisterForm, id: string, createdAt: string)
    requires Submittable(f) && f.password == f.confirmPassword && |f.password| < 6
    ensures Submit(current, f, id, createdAt) == (TooShort, current)
  {
  }

  /** An account created through the form is a fresh rider or host with the
      form's details. */
  lemma RegisteredAccount(current: Option<User>, param: Option<string>, events: seq<Event>, id: string, createdAt: string)
    requires var f := Run(InitialForm(param), events);
             f.password == f.confirmPassword && |f.password| >= 6
    ensures var f := Run(InitialForm(param), events);
            var r := HandleSubmit(current, f, id, createdAt);
            && r.1.Some?
            && r.1.value.role in {"rider", "host"}
            && r.1.value.name == f.name && r.1.value.email == f.email && r.1.value.phone == f.phone
            && r.1.value.wallet == 0 && !r.1.value.kycVerified
  {
    RoleStaysKnown(param, events);
  }

  /** The form as first shown is blocked by the browser, with the page's or
      the corrected default role, and signs nobody in. */
  lemma UntouchedFormBlocked(current: Option<User>, param: Option<string>, id: string, createdAt: string)
    ensures Submit(current, InitialForm(param), id, createdAt) == (Blocked, current)
    ensures Submit(current, InitialFormAsWritten(param), id, createdAt) == (Blocked, current)
  {
  }

  /** The events that fill in every required field with two matching
      six-character passwords and tick the terms box. */
  const FillIn: seq<Event> := [
    Type(Name, "Eve"), Type(Email, "eve@example.com"), Type(Phone, "+91 9000000000"),
    Type(Password, "secret"), Type(ConfirmPassword, "secret"), ToggleTerms]

  /** On the page as written, `/register?role=admin` followed by a complete
      form creates and signs in an admin account. */
  lemma QueryGrantsAdmin(current: Option<User>, id: string, createdAt: string)
    ensures var f := Run(InitialFormAsWritten(Some("admin")), FillIn);
            var r := Submit(current, f, id, createdAt);
            r.0 == Registered && r.1.Some? && r.1.value.role == "admin"
  {
    var f0 := InitialFormAsWritten(Some("admin"));
    TypingKeepsRole(f0, FillIn);
    var f := Run(f0, FillIn);
    assert f == f0.(name := "Eve", email := "eve@example.com", phone := "+91 9000000000",
                    password := "secret", confirmPassword := "secret", terms := true);
  }
}
