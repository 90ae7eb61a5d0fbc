/**
 * The sign-in dialog: a login/register form over a blurred backdrop.  Its
 * state outlives its visibility (the component stays mounted while closed),
 * so the mode and the typed values survive closing and reopening.  Submitting
 * does not validate anything; it only asks the parent to close the dialog.
 */
module AuthModal {
  import opened Wrappers

  datatype Mode = Login | Register

  /** The mode switch at the bottom of the dialog. */
  function Toggled(m: Mode): (r: Mode)
    ensures r != m
  {
    if m == Login then Register else Login
  }

  /** Two presses of the mode switch restore the mode. */
  lemma ToggleTwice(m: Mode)
    ensures Toggled(Toggled(m)) == m
  {
  }

  /** A labelled input with its `type` attribute and its current value. */
  datatype Input = Input(caption: string, inputType: string, value: string)

  /** What the open dialog shows. */
  datatype Form = Form(heading: string, headingNative: string, inputs: seq<Input>,
                       submitLabel: string, toggleLabel: string)

  class Dialog {
    var mode: Mode
    var showPassword: bool
    var email: string
    var password: string
    var name: string

    constructor ()
      ensures mode == Login && !showPassword
      ensures email == "" && password == "" && name == ""
    {
      mode := Login;
      showPassword := false;
      email, password, name := "", "", "";
    }

    /** The mode switch: flips the mode and keeps everything typed so far. */
    method ToggleMode()
      modifies this`mode
      ensures mode == Toggled(old(mode))
    {
      mode := Toggled(mode);
    }

    /** The eye button next to the password. */
    method ToggleShowPassword()
      modifies this`showPassword
      ensures showPassword == !old(showPassword)
    {
      showPassword := !showPassword;
    }

    /** The three inputs' change handlers. */
    method SetName(v: string)
      modifies this`name
      ensures name == v
    {
      name := v;
    }

    method SetEmail(v: string)
      modifies this`email
      ensures email == v
    {
      email := v;
    }

    method SetPassword(v: string)
      modifies this`password
      ensures password == v
    {
      password := v;
    }

    /** Submitting asks the parent to close, whatever the fields hold; nothing is validated and no state changes. */
    method Submit() returns (closes: bool)
      ensures closes
    {
      closes := true;
    }

    /** A click on the backdrop or on the close button also asks the parent to close. */
    method Dismiss() returns (closes: bool)
      ensures closes
    {
      closes := true;
    }

    /** The type of the password input: shown as plain text exactly while the eye button is on. */
    function PasswordInputType(): (t: string)
      reads this
      ensures t == "text" <==> showPassword
      ensures t == "password" <==> !showPassword
    {
      if showPassword then "text" else "password"
    }

    /**
     * The rendered dialog: nothing while closed; otherwise the heading and the
     * labels of the current mode, and the inputs, the name input only in
     * register mode, each showing the value typed into it.
     */
    function View(isOpen: bool): (f: Option<Form>)
      reads this
      ensures f.None? <==> !isOpen
      ensures f.Some? ==> |f.value.inputs| == (if mode == Register then 3 else 2)
      ensures f.Some? ==>
        ((exists i :: 0 <= i < |f.value.inputs| && f.value.inputs[i].caption == "Name") <==> mode == Register)
      ensures f.Some? ==> forall i :: 0 <= i < |f.value.inputs| ==>
        var input := f.value.inputs[i];
        && (input.caption == "Name" ==> input.value == name)
        && (input.caption == "Email" ==> input.value == email && input.inputType == "email")
        && (input.caption == "Password" ==> input.value == password && input.inputType == PasswordInputType())
      ensures f.Some? ==> f.value.inputs[|f.value.inputs| - 1].caption == "Password"
      ensures f.Some? && mode == Login ==>
        f.value.heading == "Welcome Back" && f.value.submitLabel == "Continue Journey" && f.value.toggleLabel == "Create an account"
      ensures f.Some? && mode == Register ==>
        f.value.heading == "Join the Journey" && f.value.submitLabel == "Begin Journey" && f.value.toggleLabel == "Already have an account?"
    {
      if !isOpen then None
      else
        var fields := [Input("Email", "email", email), Input("Password", PasswordInputType(), password)];
        match mode
        case Login =>
          Some(Form("Welcome Back", "お帰りなさい", fields, "Continue Journey", "Create an account"))
        case Register =>
          var inputs := [Input("Name", "text", name)] + fields;
          assert inputs[0].caption == "Name";
          Some(Form("Join the Journey", "旅に参加する", inputs, "Begin Journey", "Already have an account?"))
    }
  }

  /** Switching to register and back keeps every typed value and the password visibility. */
  method ToggleModeTwice(d: Dialog)
    modifies d
    ensures d.mode == old(d.mode)
    ensures d.email == old(d.email) && d.password == old(d.password) && d.name == old(d.name)
    ensures d.showPassword == old(d.showPassword)
  {
    d.ToggleMode();
    d.ToggleMode();
    ToggleTwice(old(d.mode));
  }
}
