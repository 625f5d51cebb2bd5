/** components/invite-user-modal.tsx: the dialog that invites a user to a team. Submitting
    checks the e-mail (present, and shaped like an address) and the role (present); with any
    error the errors are shown and the fields kept, otherwise the invitation is handed on and the
    form is cleared. */
module InviteUserModal {
  import opened Results
  import opened Text

  const EmailRequired := "Email is required"
  const EmailInvalid := "Email is invalid"
  const RoleRequired := "Role is required"

  /** The errors of the form for these field values, by field name. */
  function InviteErrors(email: string, role: string): (r: map<string, string>)
    ensures r.Keys <= {"email", "role"}
    ensures "email" in r <==> email == "" || !IsEmailShaped(email)
    ensures email == "" ==> r["email"] == EmailRequired
    ensures email != "" && !IsEmailShaped(email) ==> r["email"] == EmailInvalid
    ensures "role" in r <==> role == ""
    ensures role == "" ==> r["role"] == RoleRequired
  {
    var withEmail: map<string, string> :=
      if email == "" then map["email" := EmailRequired]
      else if !IsEmailShaped(email) then map["email" := EmailInvalid]
      else map[];
    if role == "" then withEmail["role" := RoleRequired] else withEmail
  }

  /** The form passes exactly when the e-mail is address-shaped (hence present) and a role is
      chosen; the e-mail's error does not depend on the role, nor the role's on the e-mail. */
  lemma ValidInvitation(email: string, role: string)
    ensures InviteErrors(email, role) == map[] <==> IsEmailShaped(email) && role != ""
    ensures forall other :: InviteErrors(email, role) - {"role"} == InviteErrors(email, other) - {"role"}
    ensures forall other :: ("role" in InviteErrors(email, role)) == ("role" in InviteErrors(other, role))
  {
    if IsEmailShaped(email) {
      assert email != "" by {
        var a, d :| EmailWitness(email, a, d);
      }
    }
    if InviteErrors(email, role) == map[] {
      assert "email" !in InviteErrors(email, role);
    }
  }

  /** What the dialog hands on when it submits. */
  datatype Invitation = Invitation(teamId: Option<int>, email: string, role: string)

  class InviteForm {
    var email: string
    var role: string
    var errors: map<string, string>

    constructor()
      ensures email == "" && role == "" && errors == map[]
    {
      email := "";
      role := "";
      errors := map[];
    }

    /** The `newErrors` object of `handleSubmit`, filled one check at a time. */
    method Validate() returns (newErrors: map<string, string>)
      ensures newErrors == InviteErrors(email, role)
    {
      newErrors := map[];
      if email == "" {
        newErrors := newErrors["email" := EmailRequired];
      } else if !IsEmailShaped(email) {
        newErrors := newErrors["email" := EmailInvalid];
      }
      if role == "" {
        newErrors := newErrors["role" := RoleRequired];
      }
    }

    /** `resetForm`. */
    method ResetForm()
      modifies this
      ensures email == "" && role == "" && errors == map[]
    {
      email := "";
      role := "";
      errors := map[];
    }

    /** `handleSubmit`: with errors they are shown and the fields are kept; otherwise the
        invitation is handed on and the form is reset. */
    method HandleSubmit(teamId: Option<int>) returns (submitted: Option<Invitation>)
      modifies this
      ensures var errs := InviteErrors(old(email), old(role));
        if errs != map[] then
          submitted == None && errors == errs && email == old(email) && role == old(role)
        else
          submitted == Some(Invitation(teamId, old(email), old(role)))
          && email == "" && role == "" && errors == map[]
    {
      var newErrors := Validate();
      if |newErrors.Keys| > 0 {
        errors := newErrors;
        return None;
      }
      submitted := Some(Invitation(teamId, email, role));
      ResetForm();
    }
  }
}
