/**
 * The helpers every route handler uses: the `X-Device-Id` check and the
 * error response shape.
 */
module ApiHelpers {
  import opened Common

  /**
   * What a route handler answers. `Reply` is a JSON body with status 200,
   * `ErrorReply` the body `{error: message}` with the given status, and
   * `Crash` an exception the handler does not catch, which the framework
   * answers with status 500.
   */
  datatype Response<P> = Reply(payload: P) | ErrorReply(status: int, message: string) | Crash {
    function Status(): int {
      match this
      case Reply(_) => 200
      case ErrorReply(s, _) => s
      case Crash => 500
    }
  }

  const MissingDeviceIdMessage := "Missing or invalid X-Device-Id header"

  /** `errorResponse(message, status = 400)`. */
  function ErrorResponse<P>(message: string, status: int := 400): (r: Response<P>)
    ensures r.ErrorReply? && r.message == message
    ensures r.Status() == status
  {
    ErrorReply(status, message)
  }

  lemma ErrorResponseDefaultsTo400<P>(message: string)
    ensures ErrorResponse<P>(message).Status() == 400
    ensures ErrorResponse<P>(message) == ErrorReply(400, message)
  {
  }

  // ---------------------------------------------------------------------
  // The device-id regular expression
  // ---------------------------------------------------------------------

  /** The character classes the device-id expression uses. */
  datatype CharClass = Hex | Dash | Version | Variant

  /** Whether a character matches a class under the expression's `i` flag. */
  predicate ClassMatches(c: char, k: CharClass) {
    match k
    case Hex => IsHexDigit(c)
    case Dash => c == '-'
    case Version => '1' <= c <= '5'
    case Variant => c in "89abAB"
  }

  function Repeat(k: CharClass, n: nat): (r: seq<CharClass>)
    ensures |r| == n
    ensures forall i :: 0 <= i < n ==> r[i] == k
  {
    seq(n, _ => k)
  }

  /**
   * `^[0-9a-f]{8}-[0-9a-f]{4}-[1-5][0-9a-f]{3}-[89ab][0-9a-f]{3}-[0-9a-f]{12}$`,
   * one class per character: the expression has no alternation or variable
   * repetition, so it matches strings of exactly this length.
   */
  const UuidPattern: seq<CharClass> :=
    Repeat(Hex, 8) + [Dash] + Repeat(Hex, 4) + [Dash, Version] + Repeat(Hex, 3)
    + [Dash, Variant] + Repeat(Hex, 3) + [Dash] + Repeat(Hex, 12)

  /** The anchored test of a fixed-length pattern, one character at a time. */
  predicate MatchesPattern(s: string, p: seq<CharClass>) {
    if p == [] then s == []
    else s != [] && ClassMatches(s[0], p[0]) && MatchesPattern(s[1..], p[1..])
  }

  lemma {:induction false} MatchesPatternPointwise(s: string, p: seq<CharClass>)
    ensures MatchesPattern(s, p)
        <==> |s| == |p| && forall i :: 0 <= i < |s| ==> ClassMatches(s[i], p[i])
  {
    if p != [] && s != [] {
      MatchesPatternPointwise(s[1..], p[1..]);
      if |s| == |p| && forall i :: 0 <= i < |s| ==> ClassMatches(s[i], p[i]) {
        assert forall i :: 0 <= i < |s| - 1 ==> s[1..][i] == s[i + 1] && p[1..][i] == p[i + 1];
      }
    }
  }

  // ---------------------------------------------------------------------
  // The textual UUID form of RFC 4122
  // ---------------------------------------------------------------------

  /** Offsets of the four hyphens of the 8-4-4-4-12 form. */
  predicate IsHyphenOffset(i: int) {
    i == 8 || i == 13 || i == 18 || i == 23
  }

  /**
   * The string representation of section 3 of RFC 4122: 32 hexadecimal
   * digits in groups of 8-4-4-4-12 separated by hyphens, where the version
   * (the high nibble of time_hi_and_version, section 4.1.3) is one of the
   * five defined versions and the variant (the top two bits of
   * clock_seq_hi_and_reserved, section 4.1.1) is binary 10.
   */
  predicate IsRfc4122Uuid(s: string) {
    && |s| == 36
    && (forall i :: 0 <= i < 36 ==> if IsHyphenOffset(i) then s[i] == '-' else IsHexDigit(s[i]))
    && 1 <= HexValue(s[14]) <= 5
    && HexValue(s[19]) / 4 == 2
  }

  /** The class the expression puts at each offset of a 36-character string. */
  function UuidClassAt(i: int): CharClass {
    if IsHyphenOffset(i) then Dash
    else if i == 14 then Version
    else if i == 19 then Variant
    else Hex
  }

  lemma UuidPatternAt()
    ensures |UuidPattern| == 36
    ensures forall i :: 0 <= i < 36 ==> UuidPattern[i] == UuidClassAt(i)
  {
    var g1, g2, g3, g4, g5 := Repeat(Hex, 8), Repeat(Hex, 4), Repeat(Hex, 3), Repeat(Hex, 3), Repeat(Hex, 12);
    assert UuidPattern == g1 + [Dash] + g2 + [Dash, Version] + g3 + [Dash, Variant] + g4 + [Dash] + g5;
  }

  /** The regular expression accepts exactly the RFC 4122 form with versions 1-5 and the 10xx variant. */
  lemma UuidPatternIsRfc4122(s: string)
    ensures MatchesPattern(s, UuidPattern) <==> IsRfc4122Uuid(s)
  {
    MatchesPatternPointwise(s, UuidPattern);
    UuidPatternAt();
    if |s| == 36 {
      if forall i :: 0 <= i < 36 ==> if IsHyphenOffset(i) then s[i] == '-' else IsHexDigit(s[i]) {
        assert ClassMatches(s[14], Version) <==> 1 <= HexValue(s[14]) <= 5;
        assert ClassMatches(s[19], Variant) <==> HexValue(s[19]) / 4 == 2;
      }
      if MatchesPattern(s, UuidPattern) {
        assert ClassMatches(s[14], Version) && ClassMatches(s[19], Variant);
      }
    }
  }

  /** `getDeviceId`: the `X-Device-Id` header when present, non-empty and a UUID, else null. */
  function GetDeviceId(header: Option<string>): (r: Option<string>)
    ensures r.Some? <==> header.Some? && IsRfc4122Uuid(header.value)
    ensures r.Some? ==> r.value == header.value
  {
    if header.None? || header.value == "" then None
    else
      UuidPatternIsRfc4122(header.value);
      if !MatchesPattern(header.value, UuidPattern) then None else header
  }

  /** ASCII lower-casing. */
  function LowerAscii(s: string): (r: string)
    ensures |r| == |s|
    ensures forall i :: 0 <= i < |s| ==> r[i] == if 'A' <= s[i] <= 'Z' then (s[i] as int + 32) as char else s[i]
  {
    seq(|s|, i requires 0 <= i < |s| => if 'A' <= s[i] <= 'Z' then (s[i] as int + 32) as char else s[i])
  }

  /** Hex letters of the device id match in either case. */
  lemma DeviceIdCaseInsensitive(s: string)
    ensures GetDeviceId(Some(s)).Some? <==> GetDeviceId(Some(LowerAscii(s))).Some?
  {
    var t := LowerAscii(s);
    forall i | 0 <= i < |s|
      ensures IsHexDigit(s[i]) <==> IsHexDigit(t[i])
      ensures IsHexDigit(s[i]) ==> HexValue(s[i]) == HexValue(t[i])
      ensures s[i] == '-' <==> t[i] == '-'
    {
    }
  }
}
