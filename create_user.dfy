/**
 * The `create_user` management command: its role argument and the
 * structure of the password it generates. The random draws are inputs.
 */
module CreateUserCommand {
  import opened Wrappers
  import opened Text
  import opened Models

  const SPECIALS: string := "!@#$%^&*"

  /** `string.ascii_letters + string.digits + "!@#$%^&*"` */
  predicate InAlphabet(c: char) {
    IsLetter(c) || IsDigit(c) || c in SPECIALS
  }

  /**
   * `generate_strong_password`: twelve characters drawn from the alphabet,
   * of which the first four are replaced by one upper-case letter, one
   * lower-case letter, one digit and one special character, in that order.
   */
  function GenerateStrongPassword(drawn: string, upper: char, lower: char, digit: char, special: char): (pw: string)
    requires |drawn| == 12 && forall i | 0 <= i < |drawn| :: InAlphabet(drawn[i])
    requires IsUpper(upper) && IsLower(lower) && IsDigit(digit) && special in SPECIALS
    ensures |pw| == 12
    ensures IsUpper(pw[0]) && IsLower(pw[1]) && IsDigit(pw[2]) && pw[3] in SPECIALS
    ensures forall i | 0 <= i < |pw| :: InAlphabet(pw[i])
    ensures pw[4..] == drawn[4..]
  {
    [upper, lower, digit, special] + drawn[4..]
  }

  /** Every generated password has at least one character of each of the four kinds. */
  lemma PasswordHasEveryKind(drawn: string, upper: char, lower: char, digit: char, special: char)
    requires |drawn| == 12 && forall i | 0 <= i < |drawn| :: InAlphabet(drawn[i])
    requires IsUpper(upper) && IsLower(lower) && IsDigit(digit) && special in SPECIALS
    ensures var pw := GenerateStrongPassword(drawn, upper, lower, digit, special);
      (exists i | 0 <= i < |pw| :: IsUpper(pw[i])) && (exists i | 0 <= i < |pw| :: IsLower(pw[i]))
      && (exists i | 0 <= i < |pw| :: IsDigit(pw[i])) && (exists i | 0 <= i < |pw| :: pw[i] in SPECIALS)
  {
    var pw := GenerateStrongPassword(drawn, upper, lower, digit, special);
    assert IsUpper(pw[0]) && IsLower(pw[1]) && IsDigit(pw[2]) && pw[3] in SPECIALS;
  }

  /**
   * The `--role` argument: absent it is "user"; present it must be "user"
   * or "superadmin", otherwise argument parsing fails.
   */
  function RoleArgument(given: Option<string>): (r: Result<string, string>)
    ensures r.Ok? ==> r.value in ROLE_CHOICES
    ensures given.None? ==> r == Ok(USER_ROLE)
    ensures given.Some? ==> (r.Ok? <==> given.value in ROLE_CHOICES) && (r.Ok? ==> r.value == given.value)
  {
    match given
    case None => Ok(USER_ROLE)
    case Some(role) =>
      if role in ["user", "superadmin"] then Ok(role)
      else Err("argument --role: invalid choice: '" + role + "' (choose from 'user', 'superadmin')")
  }
}
