/**
 * The request rules of server/src/routes/auth.routes.ts: the password policy and name rule at
 * registration, the profile-update rules, and the settings of the two limiters. Each rule gives
 * the messages of the validators that fail, in chain order; a field the body lacks is read as
 * the empty string, as the validators do.
 */
module AuthValidation {
  import opened Text

  /** A body field: absent (`undefined`) or a string. */
  datatype Field = Absent | Value(s: string)

  function ValueOf(f: Field): string {
    if f.Value? then f.s else ""
  }

  const DEFAULT_MESSAGE: string := "Invalid value"

  /**
   * The length `isLength` measures: code points, not counting the variation selectors U+FE0E
   * and U+FE0F.
   */
  function MeasuredLength(s: string): (n: nat)
    ensures n <= |s|
  {
    if s == [] then 0
    else MeasuredLength(s[..|s| - 1]) + (if s[|s| - 1] == '\U{FE0E}' || s[|s| - 1] == '\U{FE0F}' then 0 else 1)
  }

  /** Without variation selectors the measured length is the plain length. */
  lemma {:induction false} MeasuredLengthPlain(s: string)
    requires forall i :: 0 <= i < |s| ==> s[i] != '\U{FE0E}' && s[i] != '\U{FE0F}'
    ensures MeasuredLength(s) == |s|
  {
    if s != [] {
      MeasuredLengthPlain(s[..|s| - 1]);
    }
  }

  /** The regular expressions `/[A-Z]/`, `/[a-z]/` and `/\d/`: ASCII ranges only. */
  predicate HasUpper(s: string) { exists i :: 0 <= i < |s| && 'A' <= s[i] <= 'Z' }
  predicate HasLower(s: string) { exists i :: 0 <= i < |s| && 'a' <= s[i] <= 'z' }
  predicate HasDigit(s: string) { exists i :: 0 <= i < |s| && '0' <= s[i] <= '9' }

  const TOO_SHORT: string := "Password must be at least 8 characters long"
  const NO_UPPER: string := "Password must contain at least one uppercase letter"
  const NO_LOWER: string := "Password must contain at least one lowercase letter"
  const NO_DIGIT: string := "Password must contain at least one number"

  /** Where a password message stands in the validator chain. */
  function ChainPosition(message: string): nat {
    if message == TOO_SHORT then 0
    else if message == NO_UPPER then 1
    else if message == NO_LOWER then 2
    else 3
  }

  /**
   * The password chain: every failing check adds its message, in order. The password is
   * accepted exactly when it is at least 8 long and has an upper-case letter, a lower-case
   * letter and a digit.
   */
  function PasswordErrors(p: string): (errors: seq<string>)
    ensures errors == [] <==> MeasuredLength(p) >= 8 && HasUpper(p) && HasLower(p) && HasDigit(p)
    ensures TOO_SHORT in errors <==> MeasuredLength(p) < 8
    ensures NO_UPPER in errors <==> !HasUpper(p)
    ensures NO_LOWER in errors <==> !HasLower(p)
    ensures NO_DIGIT in errors <==> !HasDigit(p)
    ensures |errors| <= 4
    ensures forall i, j :: 0 <= i < j < |errors| ==> ChainPosition(errors[i]) < ChainPosition(errors[j])
  {
    (if MeasuredLength(p) < 8 then [TOO_SHORT] else [])
    + (if !HasUpper(p) then [NO_UPPER] else [])
    + (if !HasLower(p) then [NO_LOWER] else [])
    + (if !HasDigit(p) then [NO_DIGIT] else [])
  }

  /** A missing password fails all four checks. */
  lemma MissingPasswordFailsAll()
    ensures PasswordErrors(ValueOf(Absent)) == [TOO_SHORT, NO_UPPER, NO_LOWER, NO_DIGIT]
  {
  }

  /** A sample: `Passw0rd` is accepted, `password1` lacks only an upper-case letter. */
  lemma PasswordSamples()
    ensures PasswordErrors("Passw0rd") == []
    ensures PasswordErrors("password1") == [NO_UPPER]
  {
    assert "Passw0rd"[0] == 'P' && "Passw0rd"[1] == 'a' && "Passw0rd"[5] == '0';
    MeasuredLengthPlain("Passw0rd");
    MeasuredLengthPlain("password1");
    assert "password1"[0] == 'p' && "password1"[8] == '1';
    assert !HasUpper("password1") by {
      forall i | 0 <= i < |"password1"| ensures !('A' <= "password1"[i] <= 'Z') {
        assert "password1"[i] in "password1";
      }
    }
  }

  /** The length check `isLength({ min: 2, max: 50 })` on a trimmed name. */
  function NameLengthErrors(trimmed: string): seq<string> {
    if 2 <= MeasuredLength(trimmed) <= 50 then [] else [DEFAULT_MESSAGE]
  }

  /**
   * The registration name chain `trim().notEmpty().isLength(2..50)`: a name that trims to nothing
   * fails both checks; otherwise it passes exactly when its trimmed length is 2 to 50.
   */
  function RegisterNameErrors(name: Field): (errors: seq<string>)
    ensures errors == [] <==> 2 <= MeasuredLength(Trim(ValueOf(name))) <= 50
    ensures AllWhitespace(ValueOf(name)) ==> errors == [DEFAULT_MESSAGE, DEFAULT_MESSAGE]
  {
    var trimmed := Trim(ValueOf(name));
    TrimEmptyIffAllWhitespace(ValueOf(name));
    (if trimmed == "" then [DEFAULT_MESSAGE] else []) + NameLengthErrors(trimmed)
  }

  /** The registration rules for password and name. */
  function RegisterErrors(password: Field, name: Field): (errors: seq<string>)
    ensures errors == [] <==> PasswordErrors(ValueOf(password)) == [] && RegisterNameErrors(name) == []
  {
    PasswordErrors(ValueOf(password)) + RegisterNameErrors(name)
  }

  const CURRENT_REQUIRED: string := "Current password is required to change password"

  /**
   * The profile-update rules: a name, when present, must trim to 2 to 50 characters; when a
   * password is present, `currentPassword` must be non-empty and the password must meet the
   * registration policy. Absent fields are not checked.
   */
  function UpdateErrors(name: Field, currentPassword: Field, password: Field): (errors: seq<string>)
    ensures password.Absent? && name.Absent? ==> errors == []
    ensures errors == [] <==>
              (name.Value? ==> 2 <= MeasuredLength(Trim(name.s)) <= 50)
              && (password.Value? ==> ValueOf(currentPassword) != "" && PasswordErrors(password.s) == [])
    ensures password.Value? && ValueOf(currentPassword) == "" ==> CURRENT_REQUIRED in errors
  {
    (if name.Value? then NameLengthErrors(Trim(name.s)) else [])
    + (if password.Value? && ValueOf(currentPassword) == "" then [CURRENT_REQUIRED] else [])
    + (if password.Value? then PasswordErrors(password.s) else [])
  }

  /** The name `Al` passes the registration name chain. */
  lemma ShortestNameAccepted()
    ensures RegisterNameErrors(Value("Al")) == []
  {
    assert "Al"[0] == 'A' && "Al"[1] == 'l';
    assert TrimStart("Al") == "Al";
    assert TrimEnd("Al") == "Al";
    MeasuredLengthPlain("Al");
  }

  /** A new password on update is held to exactly the registration policy. */
  lemma UpdatePolicyMatchesRegister(p: string, current: string)
    requires current != ""
    ensures UpdateErrors(Absent, Value(current), Value(p)) == PasswordErrors(p)
    ensures UpdateErrors(Absent, Value(current), Value(p)) == RegisterErrors(Value(p), Value("Al"))
  {
    assert UpdateErrors(Absent, Value(current), Value(p)) == [] + [] + PasswordErrors(p);
    ShortestNameAccepted();
    assert RegisterErrors(Value(p), Value("Al")) == PasswordErrors(p) + [];
  }

  /** The settings of an `express-rate-limit` limiter. */
  datatype LimiterSettings = LimiterSettings(windowMs: nat, max: nat, message: string)

  /** The auth routes: 100 requests per address in each fixed 15-minute window. */
  const AUTH_LIMITER: LimiterSettings :=
    LimiterSettings(15 * 60 * 1000, 100, "Too many requests from this IP, please try again after 15 minutes")

  /** Guest creation: 10 accounts per address in each fixed one-hour window. */
  const GUEST_LIMITER: LimiterSettings :=
    LimiterSettings(60 * 60 * 1000, 10, "Too many guest accounts created from this IP, please try again later")
}
