/** The identity side of the service: the verified claim set of a caller, the
    success test applied to every identity-provider HTTP reply, and the admin test. */
module Identity {
  import opened Text
  import opened Decimal

  /** A claim set: claim name to claim value. */
  type Claims = map<string, string>

  /** The claims minted into every custom token. */
  const UserClaims: Claims := map["profile" := "user"]

  /** Python's `d[key]` on a dict: the value, or a `KeyError` naming the key. */
  datatype Lookup = Found(value: string) | KeyError(key: string)

  function Get(claims: Claims, key: string): (r: Lookup)
    ensures r.Found? <==> key in claims
    ensures r.Found? ==> r.value == claims[key]
    ensures r.KeyError? ==> r.key == key
  {
    if key in claims then Found(claims[key]) else KeyError(key)
  }

  // ---------------------------------------------------------------------------
  // The provider-call gate

  /** The gate the service puts on a provider reply: the call counts as successful
      when the characters "20" occur in the decimal rendering of its status code. */
  predicate ProviderCallSucceeded(status: nat)
    ensures ProviderCallSucceeded(status) <==> IsSubstring("20", DecimalString(status))
    ensures ProviderCallSucceeded(status) ==> status >= 20
  {
    Contains("20", DecimalString(status))
  }

  /** The success class an HTTP client would ordinarily test: 2xx. */
  predicate IsSuccessClass(status: nat)
  {
    200 <= status < 300
  }

  /** What the gate does on a three-digit status code: it passes exactly the codes
      200 to 209 and the codes ending in "20". */
  lemma GateOnThreeDigits(status: nat)
    requires 100 <= status < 1000
    ensures ProviderCallSucceeded(status) <==> (200 <= status < 210 || status % 100 == 20)
  {
    var h, t, u := status / 100, status / 10 % 10, status % 10;
    ThreeDigits(status);
    var s := DecimalString(status);
    assert s == [DigitChar(h), DigitChar(t), DigitChar(u)];
    assert s[1..] == [DigitChar(t), DigitChar(u)];
    assert s[1..][1..] == [DigitChar(u)];
    assert Contains("20", s) == (s[..2] == "20" || s[1..][..2] == "20");
    assert s[..2] == "20" <==> h == 2 && t == 0 by {
      assert s[..2] == [DigitChar(h), DigitChar(t)];
    }
    assert s[1..][..2] == "20" <==> t == 2 && u == 0 by {
      assert s[1..][..2] == [DigitChar(t), DigitChar(u)];
    }
  }

  /** The gate's verdict on the codes the service is likely to see. */
  lemma GateExamples()
    ensures ProviderCallSucceeded(200) && ProviderCallSucceeded(201) && ProviderCallSucceeded(204)
    ensures !ProviderCallSucceeded(210) && !ProviderCallSucceeded(404) && !ProviderCallSucceeded(500)
    ensures ProviderCallSucceeded(420) && ProviderCallSucceeded(120)
  {
    GateOnThreeDigits(200);
    GateOnThreeDigits(201);
    GateOnThreeDigits(204);
    GateOnThreeDigits(210);
    GateOnThreeDigits(404);
    GateOnThreeDigits(500);
    GateOnThreeDigits(420);
    GateOnThreeDigits(120);
  }

  /** The gate and the 2xx class agree on 200 to 209 and on every code that neither
      is 2xx nor ends in "20"; they disagree on the rest of the three-digit codes. */
  lemma GateVersusSuccessClass(status: nat)
    requires 100 <= status < 1000
    ensures 200 <= status < 210 ==> ProviderCallSucceeded(status) && IsSuccessClass(status)
    ensures 210 <= status < 300 && status != 220 ==> !ProviderCallSucceeded(status) && IsSuccessClass(status)
    ensures !IsSuccessClass(status) ==> (ProviderCallSucceeded(status) <==> status % 100 == 20)
  {
    GateOnThreeDigits(status);
  }

  /** The outcome of one identity-provider call as the handlers see it. */
  datatype ProviderReply = Proceed | Forbidden(code: nat, detail: string)

  const WrongLogin := "wrong login or password."
  const CustomTokenFailed := "error during sign custom token, token expired ?"

  /** The check after `check_user_identity` (`detail` is `WrongLogin`) and after
      `sign_in_with_custom_token` (`detail` is `CustomTokenFailed`): a reply that fails
      the gate is turned into an HTTP 403 carrying `detail`. */
  function ProviderGate(status: nat, detail: string): (r: ProviderReply)
    ensures r == Proceed <==> ProviderCallSucceeded(status)
    ensures r.Forbidden? ==> r.code == 403 && r.detail == detail
  {
    if !ProviderCallSucceeded(status) then Forbidden(403, detail) else Proceed
  }

  /** A request turned away for a failed password check carries the login message,
      and one that passes carries nothing: the two call sites differ only in text. */
  lemma ProviderGateSites(status: nat)
    ensures ProviderGate(status, WrongLogin).Proceed? == ProviderGate(status, CustomTokenFailed).Proceed?
    ensures ProviderGate(404, WrongLogin) == Forbidden(403, WrongLogin)
    ensures ProviderGate(420, CustomTokenFailed) == Proceed
  {
    GateOnThreeDigits(404);
    GateOnThreeDigits(420);
  }

  // ---------------------------------------------------------------------------
  // The admin gate

  /** The admin test: the characters "admin" occur somewhere in the profile claim. */
  predicate IsAdminProfile(profile: string)
    ensures IsAdminProfile(profile) <==> IsSubstring("admin", profile)
    ensures IsAdminProfile(profile) ==> |profile| >= 5
  {
    Contains("admin", profile)
  }

  /** The replies of `polite_if_you_are_admin` once the token has been exchanged. */
  datatype AdminReply = InvalidToken | MissingClaim(name: string) | GetOut | WelcomeAdmin

  /** `polite_if_you_are_admin` given the verified claims: an empty claim set is an
      invalid token, a missing profile claim is a `KeyError`, and otherwise the
      admin test decides. */
  function PoliteIfYouAreAdmin(user: Claims): (r: AdminReply)
    ensures r == InvalidToken <==> user == map[]
    ensures r == MissingClaim("profile") <==> user != map[] && "profile" !in user
    ensures r == WelcomeAdmin <==> user != map[] && "profile" in user && IsSubstring("admin", user["profile"])
    ensures r == GetOut <==> user != map[] && "profile" in user && !IsSubstring("admin", user["profile"])
  {
    if user == map[] then InvalidToken
    else match Get(user, "profile")
      case KeyError(k) => MissingClaim(k)
      case Found(profile) => if !IsAdminProfile(profile) then GetOut else WelcomeAdmin
  }

  /** The claims minted into every custom token never pass the admin test. */
  lemma DefaultClaimsNotAdmin()
    ensures !IsAdminProfile(UserClaims["profile"])
    ensures PoliteIfYouAreAdmin(UserClaims) == GetOut
  {
  }

  /** The admin test is containment, not equality: it admits any profile that merely
      mentions "admin", and it is case-sensitive. */
  lemma AdminTestIsContainment()
    ensures IsAdminProfile("admin")
    ensures IsAdminProfile("superadmin") && IsAdminProfile("administrator") && IsAdminProfile("not-an-admin")
    ensures !IsAdminProfile("Admin") && !IsAdminProfile("user")
  {
    ContainsSelf("admin");
    assert OccursAt("admin", "superadmin", 5);
    assert OccursAt("admin", "administrator", 0);
    assert OccursAt("admin", "not-an-admin", 7);
    ContainsSameLength("admin", "Admin");
  }
}
