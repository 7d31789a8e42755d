/** The library's error type and its human-readable descriptions. */
module Errors {
  import opened Wrappers
  import opened Strings

  /** `FastMCPError`. A `generic` error wraps a foreign error, of which only
      its localized description is kept. */
  datatype FastMCPError =
    | PortInUse(port: int)
    | InvalidConfiguration(message: string)
    | AuthRequiredForHttp
    | ServerStartFailed(message: string)
    | Generic(localizedDescription: string)

  // ---------------------------------------------------------------- decimal numerals

  predicate IsDigit(c: char)
  {
    '0' <= c <= '9'
  }

  predicate AllDigits(s: string)
  {
    forall i :: 0 <= i < |s| ==> IsDigit(s[i])
  }

  function DigitChar(d: int): (c: char)
    requires 0 <= d < 10
    ensures IsDigit(c)
  {
    ('0' as int + d) as char
  }

  function DigitValue(c: char): int
  {
    c as int - '0' as int
  }

  /** The decimal numeral of a natural number, without leading zeros. */
  function NatDigits(n: nat): (s: string)
    ensures |s| >= 1 && AllDigits(s)
    ensures |s| > 1 ==> s[0] != '0'
  {
    if n < 10 then [DigitChar(n)]
    else
      var front := NatDigits(n / 10);
      assert AllDigits(front + [DigitChar(n % 10)]) by {
        forall i | 0 <= i < |front| + 1
          ensures IsDigit((front + [DigitChar(n % 10)])[i])
        {
          if i < |front| {
            assert (front + [DigitChar(n % 10)])[i] == front[i];
          }
        }
      }
      front + [DigitChar(n % 10)]
  }

  /** How Swift interpolates an `Int`: a minus sign for negatives, then the
      digits of the magnitude. */
  function Decimal(n: int): (s: string)
    ensures |s| >= 1
    ensures s[0] == '-' <==> n < 0
    ensures n >= 0 ==> AllDigits(s)
    ensures n < 0 ==> |s| >= 2 && AllDigits(s[1..])
  {
    if n < 0 then "-" + NatDigits(-n) else NatDigits(n)
  }

  /** The value of a numeral, read left to right. */
  function NumeralValue(s: string): int
  {
    if s == [] then 0 else NumeralValue(s[..|s| - 1]) * 10 + DigitValue(s[|s| - 1])
  }

  /** Reads a decimal numeral with an optional leading minus sign. */
  function ParseDecimal(s: string): Option<int>
  {
    if |s| >= 2 && s[0] == '-' && AllDigits(s[1..]) then Some(-NumeralValue(s[1..]))
    else if |s| >= 1 && AllDigits(s) then Some(NumeralValue(s))
    else None
  }

  lemma {:induction false} NatDigitsValue(n: nat)
    ensures NumeralValue(NatDigits(n)) == n
    decreases n
  {
    var s := NatDigits(n);
    if n < 10 {
      assert s[..0] == [];
    } else {
      NatDigitsValue(n / 10);
      assert s[..|s| - 1] == NatDigits(n / 10);
      assert DigitValue(s[|s| - 1]) == n % 10;
    }
  }

  /** Reading back the numeral gives the number. */
  lemma DecimalRoundTrip(n: int)
    ensures ParseDecimal(Decimal(n)) == Some(n)
  {
    if n < 0 {
      NatDigitsValue(-n);
      assert Decimal(n)[1..] == NatDigits(-n);
    } else {
      NatDigitsValue(n);
    }
  }

  // ---------------------------------------------------------------- descriptions

  const PortLead: string := "Port "
  const PortTail: string := " is already in use"
  const InvalidConfigurationLead: string := "Invalid configuration: "
  const AuthRequiredMessage: string := "HTTP transport requires auth " + "configuration for security"
  const ServerStartFailedLead: string := "Server failed to start: "
  const GenericLead: string := "Unexpected error: "

  /** `errorDescription`: every case has a description. */
  function ErrorDescription(e: FastMCPError): (r: Option<string>)
    ensures r.Some?
    ensures e.PortInUse? ==> r.value == PortLead + Decimal(e.port) + PortTail
    ensures e.InvalidConfiguration? ==> r.value == InvalidConfigurationLead + e.message
    ensures e.AuthRequiredForHttp? ==> r.value == AuthRequiredMessage
    ensures e.ServerStartFailed? ==> r.value == ServerStartFailedLead + e.message
    ensures e.Generic? ==> r.value == GenericLead + e.localizedDescription
  {
    match e
    case PortInUse(port) => Some("Port " + Decimal(port) + " is already in use")
    case InvalidConfiguration(message) => Some("Invalid configuration: " + message)
    case AuthRequiredForHttp => Some("HTTP transport requires auth configuration for security")
    case ServerStartFailed(message) => Some("Server failed to start: " + message)
    case Generic(description) => Some("Unexpected error: " + description)
  }

  /** Reads a description back as the error it describes. */
  function ParseErrorDescription(s: string): Option<FastMCPError>
  {
    if s == AuthRequiredMessage then Some(AuthRequiredForHttp)
    else if StartsWith(s, PortLead) && EndsWith(s, PortTail) && |PortLead| + |PortTail| <= |s| then
      match ParseDecimal(s[|PortLead|..|s| - |PortTail|])
      case Some(port) => Some(PortInUse(port))
      case None => None
    else if StartsWith(s, InvalidConfigurationLead) then Some(InvalidConfiguration(s[|InvalidConfigurationLead|..]))
    else if StartsWith(s, ServerStartFailedLead) then Some(ServerStartFailed(s[|ServerStartFailedLead|..]))
    else if StartsWith(s, GenericLead) then Some(Generic(s[|GenericLead|..]))
    else None
  }

  /** `lead + rest` starts with `lead`, and with no string whose first
      character differs from `lead`'s. */
  lemma LeadDecides(lead: string, rest: string, other: string)
    requires |lead| >= 1 && |other| >= 1 && lead[0] != other[0]
    ensures StartsWith(lead + rest, lead) && (lead + rest)[|lead|..] == rest
    ensures !StartsWith(lead + rest, other) && lead + rest != other
  {
  }

  /** Every description can be read back as the error it came from. */
  lemma DescriptionRoundTrip(e: FastMCPError)
    ensures ParseErrorDescription(ErrorDescription(e).value) == Some(e)
  {
    var s := ErrorDescription(e).value;
    match e
    case PortInUse(port) =>
      var digits := Decimal(port);
      assert s == PortLead + (digits + PortTail);
      assert AuthRequiredMessage[0] == 'H';
      LeadDecides(PortLead, digits + PortTail, AuthRequiredMessage);
      assert s[|s| - |PortTail|..] == PortTail;
      assert s[|PortLead|..|s| - |PortTail|] == digits;
      DecimalRoundTrip(port);
    case InvalidConfiguration(m) =>
      LeadDecides(InvalidConfigurationLead, m, AuthRequiredMessage);
      LeadDecides(InvalidConfigurationLead, m, PortLead);
    case AuthRequiredForHttp =>
    case ServerStartFailed(m) =>
      LeadDecides(ServerStartFailedLead, m, AuthRequiredMessage);
      LeadDecides(ServerStartFailedLead, m, PortLead);
      LeadDecides(ServerStartFailedLead, m, InvalidConfigurationLead);
    case Generic(m) =>
      LeadDecides(GenericLead, m, AuthRequiredMessage);
      LeadDecides(GenericLead, m, PortLead);
      LeadDecides(GenericLead, m, InvalidConfigurationLead);
      LeadDecides(GenericLead, m, ServerStartFailedLead);
  }

  /** Different errors never share a description. A `Generic` error is known
      only by its description string, so this speaks of model errors. */
  lemma DescriptionInjective(a: FastMCPError, b: FastMCPError)
    requires ErrorDescription(a) == ErrorDescription(b)
    ensures a == b
  {
    DescriptionRoundTrip(a);
    DescriptionRoundTrip(b);
  }
}
