/** The registration form's submit handler: three input checks in a fixed
    order, then a call into the registry, and the notice shown for each outcome. */
module RegisterForm {

  import opened Optional
  import opened Text
  import opened Auth

  /** The reasons the form refuses its input before calling the registry. */
  datatype FormError = PasswordMismatch | MissingField | PasswordTooShort

  const MinPasswordLength: nat := 6

  const ErrorTitle := "Error en el registro"
  const SuccessTitle := "¡Registro exitoso!"

  function ErrorDescription(e: FormError): string {
    match e
    case PasswordMismatch => "Las contraseñas no coinciden"
    case MissingField => "Por favor, complete todos los campos"
    case PasswordTooShort => "La contraseña debe tener al menos 6 caracteres"
  }

  /** The checks, in the order the handler runs them; the first failing one is reported. */
  function Validate(name: string, email: string, password: string, confirmPassword: string): (r: Option<FormError>)
    ensures password != confirmPassword ==> r == Some(PasswordMismatch)
    ensures r == Some(MissingField) ==> password == confirmPassword && (name == "" || email == "" || password == "")
    ensures r == Some(PasswordTooShort) ==>
      password == confirmPassword && name != "" && email != "" && 0 < |password| < MinPasswordLength
    ensures r == None <==>
      password == confirmPassword && name != "" && email != "" && |password| >= MinPasswordLength
  {
    if password != confirmPassword then Some(PasswordMismatch)
    else if name == "" || email == "" || password == "" then Some(MissingField)
    else if |password| < MinPasswordLength then Some(PasswordTooShort)
    else None
  }

  // ---------------------------------------------------------------------------
  // An order-free description of the checks.

  /** Every check the input fails, regardless of order. */
  function Violations(name: string, email: string, password: string, confirmPassword: string): set<FormError> {
    (if password != confirmPassword then {PasswordMismatch} else {})
    + (if name == "" || email == "" || password == "" then {MissingField} else {})
    + (if |password| < MinPasswordLength then {PasswordTooShort} else {})
  }

  /** The order in which the handler runs the checks. */
  function Rank(e: FormError): nat {
    match e
    case PasswordMismatch => 0
    case MissingField => 1
    case PasswordTooShort => 2
  }

  /** The handler reports nothing exactly when no check fails, and otherwise the
      earliest of the failing checks. */
  lemma ValidateReportsFirstViolation(name: string, email: string, password: string, confirmPassword: string)
    ensures Validate(name, email, password, confirmPassword) == None
        <==> Violations(name, email, password, confirmPassword) == {}
    ensures Validate(name, email, password, confirmPassword).Some? ==>
      var e := Validate(name, email, password, confirmPassword).value;
      && e in Violations(name, email, password, confirmPassword)
      && forall v :: v in Violations(name, email, password, confirmPassword) ==> Rank(e) <= Rank(v)
  {
    var vs := Violations(name, email, password, confirmPassword);
    if Validate(name, email, password, confirmPassword) == None {
      assert |password| >= MinPasswordLength;
      assert vs == {};
    } else {
      assert vs != {};
    }
  }

  // ---------------------------------------------------------------------------
  // The submit handler.

  datatype Toast = Toast(destructive: bool, title: string, description: string)

  /** The store after submitting, the notice shown, and whether `onRegister` was
      scheduled (after a delay). `onRegister` only navigates to the dashboard: no
      session is stored by registering. */
  datatype Submission = Submission(store: Store, toast: Toast, onRegisterScheduled: bool)

  function HandleSubmit(st: Store, name: string, email: string, password: string, confirmPassword: string,
                        id: string, storageFails: bool, mailDelivered: bool): (out: Submission)
    ensures Validate(name, email, password, confirmPassword).Some? ==>
      && out.store == st
      && !out.onRegisterScheduled
      && out.toast == Toast(true, ErrorTitle, ErrorDescription(Validate(name, email, password, confirmPassword).value))
    ensures Validate(name, email, password, confirmPassword).None? ==>
      var reg := RegisterUser(st, name, email, password, id, storageFails, mailDelivered);
      && out.store == reg.store
      && out.onRegisterScheduled == reg.reply.success
      && out.toast.destructive == !reg.reply.success
      && out.toast.description == reg.reply.message
  {
    match Validate(name, email, password, confirmPassword)
    case Some(e) => Submission(st, Toast(true, ErrorTitle, ErrorDescription(e)), false)
    case None =>
      var reg := RegisterUser(st, name, email, password, id, storageFails, mailDelivered);
      if reg.reply.success then
        Submission(reg.store, Toast(false, SuccessTitle, reg.reply.message), true)
      else
        Submission(reg.store, Toast(true, ErrorTitle, reg.reply.message), false)
  }

  /** A submission that schedules the navigation to the dashboard added exactly
      one user, whose lowercased address was new, whose password passed every
      check, and who can now log in with that address and password; the session
      is left as it was, so the new user is not logged in. */
  lemma ScheduledMeansRegistered(st: Store, name: string, email: string, password: string, confirmPassword: string,
                                 id: string, storageFails: bool, mailDelivered: bool)
    requires HandleSubmit(st, name, email, password, confirmPassword, id, storageFails, mailDelivered).onRegisterScheduled
    ensures var out := HandleSubmit(st, name, email, password, confirmPassword, id, storageFails, mailDelivered);
      && !storageFails
      && !IsEmailRegistered(st.users, email)
      && password == confirmPassword && name != "" && |password| >= MinPasswordLength
      && out.store.users == st.users + [User(id, name, Lower(email), password)]
      && out.store.session == st.session
      && LoginUser(out.store, email, password).reply.success
  {
    var out := HandleSubmit(st, name, email, password, confirmPassword, id, storageFails, mailDelivered);
    RegisterThenLogin(st, name, email, password, id, mailDelivered, email);
  }

  /** A refused submission leaves the registry as it was. */
  lemma RefusedLeavesStore(st: Store, name: string, email: string, password: string, confirmPassword: string,
                           id: string, storageFails: bool, mailDelivered: bool)
    requires !HandleSubmit(st, name, email, password, confirmPassword, id, storageFails, mailDelivered).onRegisterScheduled
    ensures HandleSubmit(st, name, email, password, confirmPassword, id, storageFails, mailDelivered).store == st
    ensures HandleSubmit(st, name, email, password, confirmPassword, id, storageFails, mailDelivered).toast.destructive
  {
  }

  /** Mismatched passwords are reported first even when every field is empty. */
  lemma MismatchWinsOverEmptyFields()
    ensures Validate("", "", "", "x") == Some(PasswordMismatch)
    ensures Validate("", "", "abc", "abc") == Some(MissingField)
    ensures Validate("Ana", "ana@example.com", "abc", "abc") == Some(PasswordTooShort)
  {
  }
}
