/**
 * The sign-up form: the password check, the `FormData` it sends, and where
 * it goes afterwards.
 */
module SignUp {

  import opened Js
  import opened Browser

  const FailureFallback := "Signup failed"
  const PendingNotice := "Your seller application has been submitted and is pending approval."

  /** The form's state when it is submitted; `role` is "customer" or "seller" from the radio buttons. */
  datatype SignupForm = SignupForm(
    role: string, username: string, email: string, firstName: string, lastName: string,
    phone: string, address: string, password: string, recheckPassword: string,
    businessPermit: Option<File>, paypal: string)

  /** The fields every sign-up sends, in order. */
  const BaseKeys: seq<string> := ["username", "email", "first_name", "last_name", "phone", "address", "password", "role"]

  /** The values of the first seven base fields, before trimming. */
  function TextFields(f: SignupForm): seq<string>
  {
    [f.username, f.email, f.firstName, f.lastName, f.phone, f.address, f.password]
  }

  /** The `role` field: "Customer" exactly for the customer role, otherwise "Seller". */
  function RoleLabel(role: string): (r: string)
    ensures r == "Customer" <==> role == "customer"
    ensures r != "Customer" ==> r == "Seller"
  {
    if role == "customer" then "Customer" else "Seller"
  }

  /** The eight fields every sign-up sends: the text fields trimmed, then the role. */
  function BaseFields(f: SignupForm): (r: Payload)
    ensures |r| == 8 && r[7] == ("role", Text(RoleLabel(f.role)))
  {
    [("username", Text(Trim(f.username))), ("email", Text(Trim(f.email))),
     ("first_name", Text(Trim(f.firstName))), ("last_name", Text(Trim(f.lastName))),
     ("phone", Text(Trim(f.phone))), ("address", Text(Trim(f.address))),
     ("password", Text(Trim(f.password))), ("role", Text(RoleLabel(f.role)))]
  }

  /** A seller's extra fields: the permit when a file is chosen, the PayPal address when it is not empty. */
  function SellerFields(f: SignupForm): (r: Payload)
    ensures |r| <= 2
    ensures f.role != "seller" ==> r == []
    ensures |r| == 2 <==> f.role == "seller" && f.businessPermit.Some? && f.paypal != ""
  {
    if f.role != "seller" then []
    else
      (if f.businessPermit.Some? then [("businessPermit", Blob(f.businessPermit.value))] else [])
      + (if f.paypal != "" then [("paypal", Text(Trim(f.paypal)))] else [])
  }

  /** The body of `POST /api/signup`. */
  function SignupPayload(f: SignupForm): (r: Payload)
    ensures 8 <= |r| <= 10
    ensures r[..8] == BaseFields(f)
  {
    assert (BaseFields(f) + SellerFields(f))[..8] == BaseFields(f);
    BaseFields(f) + SellerFields(f)
  }

  /**
   * `handleSignup` up to the request: passwords that differ as typed stop it
   * before anything is appended; otherwise the fields are appended one by one.
   */
  method BuildPayload(f: SignupForm) returns (payload: Option<Payload>)
    ensures payload.None? <==> f.password != f.recheckPassword
    ensures payload.Some? ==> payload.value == SignupPayload(f)
  {
    if f.password != f.recheckPassword {
      return None;
    }
    var form: Payload := [];
    form := form + [("username", Text(Trim(f.username)))];
    form := form + [("email", Text(Trim(f.email)))];
    form := form + [("first_name", Text(Trim(f.firstName)))];
    form := form + [("last_name", Text(Trim(f.lastName)))];
    form := form + [("phone", Text(Trim(f.phone)))];
    form := form + [("address", Text(Trim(f.address)))];
    form := form + [("password", Text(Trim(f.password)))];
    form := form + [("role", Text(RoleLabel(f.role)))];
    assert form == BaseFields(f);
    if f.role == "seller" {
      if f.businessPermit.Some? {
        form := form + [("businessPermit", Blob(f.businessPermit.value))];
      }
      if f.paypal != "" {
        form := form + [("paypal", Text(Trim(f.paypal)))];
      }
    }
    payload := Some(form);
  }

  /** The names of a seller's extra fields, given which of them are sent. */
  function SellerKeys(isSeller: bool, hasPermit: bool, hasPaypal: bool): seq<string>
  {
    if !isSeller then []
    else (if hasPermit then ["businessPermit"] else []) + (if hasPaypal then ["paypal"] else [])
  }

  /** The field names a sign-up sends. */
  lemma PayloadKeys(f: SignupForm)
    ensures Keys(SignupPayload(f)) == BaseKeys + SellerKeys(f.role == "seller", f.businessPermit.Some?, f.paypal != "")
  {
    KeysConcat(BaseFields(f), SellerFields(f));
    if f.role == "seller" {
      var permit: Payload := if f.businessPermit.Some? then [("businessPermit", Blob(f.businessPermit.value))] else [];
      var paypal: Payload := if f.paypal != "" then [("paypal", Text(Trim(f.paypal)))] else [];
      KeysConcat(permit, paypal);
    }
  }

  /** The base fields come first, in fixed order, each text field trimmed. */
  lemma PayloadStartsWithBaseFields(f: SignupForm)
    ensures 8 <= |SignupPayload(f)| <= 10
    ensures Keys(SignupPayload(f))[..8] == BaseKeys
    ensures forall i :: 0 <= i < 7 ==> SignupPayload(f)[i].1 == Text(Trim(TextFields(f)[i]))
    ensures SignupPayload(f)[7].1 == Text(RoleLabel(f.role))
  {
    PayloadKeys(f);
    assert SignupPayload(f)[..8] == BaseFields(f);
  }

  /**
   * The permit and the PayPal address are sent only by a seller, and only
   * when given; a customer sends exactly the eight base fields.
   */
  lemma SellerOnlyFields(f: SignupForm)
    ensures "businessPermit" in Keys(SignupPayload(f)) <==> f.role == "seller" && f.businessPermit.Some?
    ensures "paypal" in Keys(SignupPayload(f)) <==> f.role == "seller" && f.paypal != ""
    ensures f.role != "seller" ==> SignupPayload(f) == BaseFields(f) && |SignupPayload(f)| == 8
    ensures forall i :: 8 <= i < |SignupPayload(f)| ==> SignupPayload(f)[i].0 in {"businessPermit", "paypal"}
  {
    PayloadKeys(f);
    var extra := SellerKeys(f.role == "seller", f.businessPermit.Some?, f.paypal != "");
    assert "businessPermit" !in BaseKeys && "paypal" !in BaseKeys;
    assert forall i :: 8 <= i < |SignupPayload(f)| ==> SignupPayload(f)[i].0 == extra[i - 8];
  }

  lemma SignupKeyListDistinct(isSeller: bool, hasPermit: bool, hasPaypal: bool)
    ensures Distinct(BaseKeys + SellerKeys(isSeller, hasPermit, hasPaypal))
  {
  }

  /** No field name is sent twice. */
  lemma PayloadKeysDistinct(f: SignupForm)
    ensures forall i, j :: 0 <= i < j < |SignupPayload(f)| ==> SignupPayload(f)[i].0 != SignupPayload(f)[j].0
  {
    PayloadKeys(f);
    SignupKeyListDistinct(f.role == "seller", f.businessPermit.Some?, f.paypal != "");
  }

  /** The answer of `POST /api/signup` (`response.ok` and the parsed body), or a request or parse that threw. */
  datatype SignupResponse = Answered(ok: bool, message: Option<string>, user: Option<Record>) | Thrown(error: string)

  /** How a submitted sign-up ends. */
  datatype SignupEnd =
    | Navigate(path: string, notice: Option<string>)
    | Failed(alert: string)
    /** A successful customer answer without `user`: reading `user.user_id` throws. */
    | MissingUser

  /**
   * A non-ok answer fails with its message or "Signup failed". A seller's
   * success goes to `/login` with the pending-approval notice; a customer's
   * goes to `/home/{user_id}`.
   */
  function AfterSignup(role: string, resp: SignupResponse): (e: SignupEnd)
    ensures resp.Thrown? ==> e == Failed("Signup failed: " + resp.error)
    ensures resp.Answered? && !resp.ok ==> e == Failed("Signup failed: " + OrDefault(resp.message, FailureFallback))
    ensures resp.Answered? && resp.ok && role == "seller" ==> e == Navigate("/login", Some(PendingNotice))
    ensures resp.Answered? && resp.ok && role != "seller" && resp.user.Some? ==>
              e.Navigate? && e.notice.None? && StartsWith(e.path, "/home/")
              && e.path[|"/home/"|..] == Interpolate(Field(resp.user.value, "user_id"))
    ensures resp.Answered? && resp.ok && role != "seller" && resp.user.None? ==> e == MissingUser
    ensures e.Navigate? ==> resp.Answered? && resp.ok
  {
    match resp
    case Thrown(error) => Failed("Signup failed: " + error)
    case Answered(ok, message, user) =>
      if !ok then Failed("Signup failed: " + OrDefault(message, FailureFallback))
      else if role == "seller" then Navigate("/login", Some(PendingNotice))
      else if user.None? then MissingUser
      else
        var id := Interpolate(Field(user.value, "user_id"));
        StartsWithConcat("/home/", id);
        Navigate("/home/" + id, None)
  }
}
