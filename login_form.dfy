/** The login form (frontend/src/components/LoginForm.jsx). */
module LoginForm {
  import opened Wrappers
  import opened Text

  class Formulario {
    /** The text typed so far (the component's local `responsable`). */
    var responsable: string

    constructor ()
      ensures responsable == ""
    {
      responsable := "";
    }

    /** Typing only records the text; it never logs in. */
    method HandleChange(valor: string)
      modifies this
      ensures responsable == valor
    {
      responsable := valor;
    }

    /** `handleSubmit`: the value passed to `onLogin`, if it is called at all. */
    method HandleSubmit() returns (login: Option<string>)
      ensures login.Some? <==> !AllSpace(responsable)
      ensures login.Some? ==> login.value == Trim(responsable) && login.value != ""
    {
      TrimEmptyIffBlank(responsable);
      var t := Trim(responsable);
      if t != "" {
        login := Some(t);
      } else {
        login := None;
      }
    }
  }
}
