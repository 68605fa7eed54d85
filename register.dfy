/** The registration form of src/app/register/page.tsx: its two checks, in order, and its call into the
    user store. */
module RegisterPage {
  import opened Common
  import opened Users

  const RequiredFieldsError: string := "Пожалуйста, заполните все обязательные поля"
  const PasswordMismatchError: string := "Пароли не совпадают"
  const DashboardPath: string := "/dashboard"

  /** The error the form's checks produce, if any: the required-fields check runs first, so a form with
      an empty field never reports a password mismatch. */
  function ValidationError(email: string, password: string, confirmPassword: string, name: string): (e: Option<string>)
    ensures e == Some(RequiredFieldsError) <==> email == "" || password == "" || name == ""
    ensures e == Some(PasswordMismatchError) <==>
              email != "" && password != "" && name != "" && password != confirmPassword
    ensures e.None? <==> email != "" && password != "" && name != "" && password == confirmPassword
  {
    if email == "" || password == "" || name == "" then Some(RequiredFieldsError)
    else if password != confirmPassword then Some(PasswordMismatchError)
    else None
  }

  /** The form's error text and where the router was sent. */
  class RegisterForm {
    var error: string
    var navigatedTo: Option<string>

    constructor ()
      ensures error == "" && navigatedTo.None?
    {
      error := "";
      navigatedTo := None;
    }

    /** `handleRegister`: the error is cleared, each failed check sets its error and returns before the
        store is called; otherwise the store's `register` runs, and success navigates to the dashboard.
        `newId` stands for the store's random user id. The store accepts every form that passes the
        checks, so the registration error is never shown. */
    method HandleRegister(users: UserStore, email: string, password: string, confirmPassword: string,
                          name: string, newId: string) returns (called: bool)
      modifies this, users
      ensures called <==> ValidationError(email, password, confirmPassword, name).None?
      ensures !called ==> error == ValidationError(email, password, confirmPassword, name).value &&
                          navigatedTo == old(navigatedTo) && users.user == old(users.user)
      ensures called ==> error == "" && navigatedTo == Some(DashboardPath) &&
                         users.user == Some(User(newId, email, Some(name), [], [], true))
      ensures !called ==> users.isLoading == old(users.isLoading)
      ensures called ==> !users.isLoading
    {
      error := "";
      if email == "" || password == "" || name == "" {
        error := RequiredFieldsError;
        return false;
      }
      if password != confirmPassword {
        error := PasswordMismatchError;
        return false;
      }
      var success := users.Register(email, password, name, newId);
      called := true;
      if success {
        navigatedTo := Some(DashboardPath);
      } else {
        // The checks above imply the store's own condition, so `register` cannot answer false here
        // and the source's registration-failure message is never set.
        assert false;
      }
    }
  }
}
