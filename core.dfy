/** Items shared by the whole library: the schema version constant, the error type and
    the stand-ins for values the library never looks inside. */
module AgsiCore {

  /** The AGSi schema version this library writes and checks against. */
  const AGSI_VERSION: string := "1.0.1"

  /** The producing-tool name written into every new document. */
  const SOFTWARE_NAME: string := "agsi-rust"

  /** The crate's error type; every variant carries the text the Rust code formats. */
  datatype Error =
    | Serialization(message: string)
    | Deserialization(message: string)
    | Validation(message: string)
    | Geometry(message: string)
    | Io(message: string)
    | Json(message: string)
    | InvalidSchemaVersion(expected: string, found: string)
    | MissingField(message: string)
    | InvalidProperty(message: string)
    | ModelNotFound(message: string)
    | MaterialNotFound(message: string)

  /** An arbitrary JSON value (metadata, attributes, geometry blobs), kept as its JSON text.
      The library stores and copies these values but never inspects them. */
  datatype JsonValue = JsonValue(text: string)

  /** One field's list of messages from the derived structural check. */
  datatype FieldErrors = FieldErrors(field: string, messages: seq<string>)

  /** The verdict of the derived structural check (`Validate::validate`): either it passed,
      or it failed with its field-level errors and its own rendering as text. */
  datatype DeriveOutcome = Passed | Failed(fieldErrors: seq<FieldErrors>, text: string)

  /** The character of a decimal digit. */
  function Digit(d: nat): (c: char)
    requires d < 10
    ensures '0' <= c <= '9' && c as int - '0' as int == d
  {
    ('0' as int + d) as char
  }

  /** Decimal text of a number, as `format!("{}", n)` writes it: digits only, one digit
      exactly for the numbers below ten, and no leading zero. */
  function NatToString(n: nat): (s: string)
    ensures |s| > 0 && (|s| == 1 <==> n < 10)
    ensures forall k :: 0 <= k < |s| ==> '0' <= s[k] <= '9'
    ensures |s| > 1 ==> s[0] != '0'
  {
    if n < 10 then [Digit(n)] else NatToString(n / 10) + [Digit(n % 10)]
  }

  /** The number a string of decimal digits denotes, most significant digit first. */
  function DecimalValue(s: string): int {
    if |s| == 0 then 0 else DecimalValue(s[..|s| - 1]) * 10 + (s[|s| - 1] as int - '0' as int)
  }

  /** Reading the decimal text back gives the number. */
  lemma {:induction false} DecimalRoundTrip(n: nat)
    ensures DecimalValue(NatToString(n)) == n
  {
    var s := NatToString(n);
    if n < 10 {
      assert s[..0] == [];
    } else {
      DecimalRoundTrip(n / 10);
      assert s[..|s| - 1] == NatToString(n / 10);
    }
  }

  /** Two numbers with the same decimal text are equal. */
  lemma NatToStringInjective(a: nat, b: nat)
    ensures NatToString(a) == NatToString(b) ==> a == b
  {
    DecimalRoundTrip(a);
    DecimalRoundTrip(b);
  }

  /** A number's text followed by a text that does not start with a digit can be split back
      into the two. */
  lemma NumberThenNonDigit(a: nat, x: string, b: nat, y: string)
    requires |x| > 0 && !('0' <= x[0] <= '9') && |y| > 0 && !('0' <= y[0] <= '9')
    requires NatToString(a) + x == NatToString(b) + y
    ensures a == b && x == y
  {
    var sa, sb := NatToString(a), NatToString(b);
    if |sa| < |sb| {
      CharAt(sa, x, |sa|);
      CharAt(sb, y, |sa|);
      assert false;
    }
    if |sb| < |sa| {
      CharAt(sa, x, |sb|);
      CharAt(sb, y, |sb|);
      assert false;
    }
    assert sa == (sa + x)[..|sa|];
    assert sb == (sb + y)[..|sb|];
    NatToStringInjective(a, b);
    assert x == (sa + x)[|sa|..];
    assert y == (sb + y)[|sb|..];
  }

  /** A number written between a fixed opening and a closing that starts with a non-digit
      can be read back: equal texts mean equal numbers. */
  lemma FramedNumberInjective(opening: string, a: nat, b: nat, closing: string)
    requires |closing| > 0 && !('0' <= closing[0] <= '9')
    ensures (opening + NatToString(a) + closing == opening + NatToString(b) + closing) ==> a == b
  {
    var ra, rb := opening + NatToString(a) + closing, opening + NatToString(b) + closing;
    if ra == rb {
      assert ra[|opening|..] == NatToString(a) + closing;
      assert rb[|opening|..] == NatToString(b) + closing;
      NumberThenNonDigit(a, closing, b, closing);
    }
  }

  /** The character at position `k` of a concatenation. */
  lemma CharAt(a: string, b: string, k: nat)
    ensures k < |a| ==> (a + b)[k] == a[k]
    ensures |a| <= k < |a| + |b| ==> (a + b)[k] == b[k - |a|]
  {
  }
}
