/**
 * routes/medicine/android.js: registration for the Android application. The
 * email and phone number are validated in a fixed order, then the email is
 * checked against the ANDROID table and the registration inserted. The
 * email-format validator is an input predicate; whether a statement fails is
 * an input.
 */
module Android {
  import opened Js
  import opened Http

  const BadEmail: string := "Email invalido"
  const BadPhone: string := "Celular invalido"
  const EmailTaken: string := "Email ya existe"

  /** The longest accepted email and the accepted phone number lengths. */
  const MaxEmail: nat := 50
  const MinPhone: nat := 9
  const MaxPhone: nat := 15

  /** An ANDROID row (its auto-increment id is not modelled). */
  datatype Registration = Registration(email: string, celular: string)

  /**
   * The validation chain: the first failing check decides the message, and a
   * request passes exactly when the validator accepts the email, the email
   * has at most 50 UTF-16 code units and the phone number between 9 and 15.
   */
  function Check(email: string, celular: string, valid: string -> bool): (error: Option<string>)
    ensures error.None? <==> valid(email) && Length(email) <= MaxEmail && MinPhone <= Length(celular) <= MaxPhone
    ensures !valid(email) ==> error == Some(BadEmail)
    ensures valid(email) && Length(email) > MaxEmail ==> error == Some(BadEmail)
    ensures valid(email) && Length(email) <= MaxEmail && !(MinPhone <= Length(celular) <= MaxPhone) ==> error == Some(BadPhone)
  {
    if !valid(email) then Some(BadEmail)
    else if MaxEmail < Length(email) then Some(BadEmail)
    else if Length(celular) < MinPhone || MaxPhone < Length(celular) then Some(BadPhone)
    else None
  }

  /** No two registrations share an email. */
  predicate UniqueEmails(rows: seq<Registration>) {
    forall i, j :: 0 <= i < j < |rows| ==> rows[i].email != rows[j].email
  }

  predicate Registered(rows: seq<Registration>, email: string) {
    exists r :: r in rows && r.email == email
  }

  class AndroidTable {
    var rows: seq<Registration>

    /** Emails are unique and every stored registration passed the length checks. */
    predicate Valid()
      reads this
    {
      UniqueEmails(rows)
      && forall i :: 0 <= i < |rows| ==> Length(rows[i].email) <= MaxEmail && MinPhone <= Length(rows[i].celular) <= MaxPhone
    }

    constructor ()
      ensures rows == [] && Valid()
    {
      rows := [];
    }

    /**
     * POST /android with `email` and `celular` (each `|| ''`); `selectDown`
     * and `insertDown` say the lookup or the insert fails.
     */
    method Register(emailParam: Option<string>, celularParam: Option<string>, valid: string -> bool,
                    selectDown: bool, insertDown: bool)
      returns (resp: Response)
      requires Valid()
      modifies this
      ensures Valid()
      ensures var email, celular := OrText(emailParam, ""), OrText(celularParam, "");
              Check(email, celular, valid).Some? ==>
                resp == Response(400, Resm(400, Check(email, celular, valid))) && rows == old(rows)
      ensures var email, celular := OrText(emailParam, ""), OrText(celularParam, "");
              Check(email, celular, valid).None? && (selectDown || (!Registered(old(rows), email) && insertDown)) ==>
                resp == Status(500) && rows == old(rows)
      ensures var email, celular := OrText(emailParam, ""), OrText(celularParam, "");
              Check(email, celular, valid).None? && !selectDown && Registered(old(rows), email) ==>
                resp == Response(400, Resm(400, Some(EmailTaken))) && rows == old(rows)
      ensures var email, celular := OrText(emailParam, ""), OrText(celularParam, "");
              Check(email, celular, valid).None? && !selectDown && !Registered(old(rows), email) && !insertDown ==>
                resp == Status(200) && rows == old(rows) + [Registration(email, celular)]
    {
      var email := OrText(emailParam, "");
      var celular := OrText(celularParam, "");
      var error := Check(email, celular, valid);
      if error.Some? {
        return Response(400, Resm(400, error));
      }
      // uniqueEmail()
      if selectDown {
        return Status(500);
      }
      if Registered(rows, email) {
        return Response(400, Resm(400, Some(EmailTaken)));
      }
      // register()
      if insertDown {
        return Status(500);
      }
      rows := rows + [Registration(email, celular)];
      resp := Status(200);
    }
  }
}
