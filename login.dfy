/** The login / sign-up form: a mode flag, three text fields, and the
    validation that decides what submitting the form does. */
module Login {
  import opened Ui

  datatype Field = Name | Email | Password

  datatype FormData = FormData(name: string, email: string, password: string)

  /** The value of one field. */
  function Get(form: FormData, field: Field): string
  {
    match field
    case Name => form.name
    case Email => form.email
    case Password => form.password
  }

  /** `{ ...prev, [field]: value }`: the named field takes `value`, the
      other two keep theirs. */
  function WithField(form: FormData, field: Field, value: string): (r: FormData)
    ensures Get(r, field) == value
    ensures forall f :: f != field ==> Get(r, f) == Get(form, f)
  {
    match field
    case Name => form.(name := value)
    case Email => form.(email := value)
    case Password => form.(password := value)
  }

  /** JavaScript's `!s` on a string: only the empty string is falsy, so a
      field holding only white space is not. */
  predicate Falsy(s: string)
    ensures Falsy(s) <==> s == ""
    ensures (exists i :: 0 <= i < |s| && s[i] == ' ') ==> !Falsy(s)
  {
    |s| == 0
  }

  datatype SubmitOutcome =
    | Rejected(toast: Toast)
    | Accepted(toast: Toast, destination: string)

  const MissingFieldsToast: Toast :=
    Toast("Missing Information", "Please fill in all required fields.", true)

  const MissingNameToast: Toast :=
    Toast("Missing Information", "Please enter your name.", true)

  /** `handleSubmit`: the email and the password are checked first, in
      either mode; in sign-up mode the name next; otherwise a success toast
      for the mode and navigation to the dashboard. */
  function HandleSubmit(form: FormData, isLogin: bool): (r: SubmitOutcome)
    ensures form.email == "" || form.password == "" ==> r == Rejected(MissingFieldsToast)
    ensures form.email != "" && form.password != "" && !isLogin && form.name == "" ==>
      r == Rejected(MissingNameToast)
    ensures r.Accepted? <==> form.email != "" && form.password != "" && (isLogin || form.name != "")
    ensures r.Accepted? ==>
      && r.destination == "/dashboard"
      && !r.toast.destructive
      && r.toast.title == (if isLogin then "Welcome back!" else "Account created!")
  {
    if Falsy(form.email) || Falsy(form.password) then
      Rejected(MissingFieldsToast)
    else if !isLogin && Falsy(form.name) then
      Rejected(MissingNameToast)
    else
      Accepted(
        if isLogin then Toast("Welcome back!", "Successfully logged in.", false)
        else Toast("Account created!", "Your account has been created successfully.", false),
        "/dashboard")
  }

  /** In login mode the name is never looked at. */
  lemma LoginIgnoresName(form: FormData, name: string)
    ensures HandleSubmit(form.(name := name), true) == HandleSubmit(form, true)
  {
  }

  /** There is no trimming: fields of white space alone pass. */
  lemma WhiteSpaceFieldsPass()
    ensures HandleSubmit(FormData(" ", " ", " "), false).Accepted?
  {
  }

  /** The page's state: the mode (`true` for login, `false` for sign-up)
      and the form fields. */
  class LoginPage {
    var isLogin: bool
    var formData: FormData

    constructor ()
      ensures isLogin && formData == FormData("", "", "")
    {
      isLogin, formData := true, FormData("", "", "");
    }

    /** `handleInputChange`: set exactly the named field. */
    method HandleInputChange(field: Field, value: string)
      modifies this
      ensures formData == WithField(old(formData), field, value)
      ensures isLogin == old(isLogin)
    {
      formData := WithField(formData, field, value);
    }

    /** The "Sign up" / "Sign in" link: flip the mode, keep the fields. */
    method ToggleMode()
      modifies this
      ensures isLogin == !old(isLogin)
      ensures formData == old(formData)
    {
      isLogin := !isLogin;
    }

    /** `handleSubmit` on the current state: accepted exactly when email
        and password are filled in and, in sign-up mode, the name too. */
    function Submit(): (r: SubmitOutcome)
      reads this
      ensures r.Accepted? <==>
        formData.email != "" && formData.password != "" && (isLogin || formData.name != "")
      ensures r.Accepted? ==> r.destination == "/dashboard"
    {
      HandleSubmit(formData, isLogin)
    }
  }

  /** A form with all three fields filled in is accepted in both modes:
      switching between login and sign-up does not change that. */
  method ToggleKeepsFilledFormAccepted(page: LoginPage)
    requires page.formData.name != "" && page.formData.email != "" && page.formData.password != ""
    modifies page
    ensures page.isLogin == !old(page.isLogin) && page.formData == old(page.formData)
    ensures old(page.Submit()).Accepted? && page.Submit().Accepted?
  {
    page.ToggleMode();
  }

  /** Toggling twice restores the mode and leaves the fields alone. */
  method ToggleTwice(page: LoginPage)
    modifies page
    ensures page.isLogin == old(page.isLogin) && page.formData == old(page.formData)
  {
    page.ToggleMode();
    page.ToggleMode();
  }
}
