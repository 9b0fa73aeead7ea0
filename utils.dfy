/**
 * The helpers of the utils package: message sanitising before logging, the
 * error envelope of the HTTP layer, and response identifiers. The clock and
 * the UUID generator that `generate_id` consults are parameters here.
 */
module Utils {
  import opened Common

  // ---------------------------------------------------------------------------
  // sanitize_message
  // ---------------------------------------------------------------------------

  /** The words whose presence marks a message as sensitive, in the order tried. */
  const SensitivePatterns: seq<string> := ["password", "token", "key", "secret"]

  /** What a sensitive message is replaced by. */
  const Redacted := "***REDACTED***"

  /** Some pattern occurs in the message, ignoring case. */
  predicate IsSensitive(message: string) {
    exists j :: 0 <= j < |SensitivePatterns| && Contains(Lower(message), Lower(SensitivePatterns[j]))
  }

  /** What sanitising a message yields: the marker alone, or the message untouched. */
  function Sanitized(message: string): string {
    if IsSensitive(message) then Redacted else message
  }

  /**
   * `s.replace(target, replacement)` for a non-empty `target`: every non-overlapping
   * occurrence, scanning left to right, is replaced.
   */
  function ReplaceAll(s: string, target: string, replacement: string): (r: string)
    requires target != []
    ensures !Contains(s, target) ==> r == s
    decreases |s|
  {
    if |s| < |target| then s
    else if s[..|target|] == target then
      assert OccursAt(s, target, 0);
      replacement + ReplaceAll(s[|target|..], target, replacement)
    else
      var rest := ReplaceAll(s[1..], target, replacement);
      assert !Contains(s, target) ==> !Contains(s[1..], target) by {
        if Contains(s[1..], target) {
          var j :| OccursAt(s[1..], target, j);
          assert s[j + 1..j + 1 + |target|] == s[1..][j..j + |target|];
          assert OccursAt(s, target, j + 1);
        }
      }
      assert s == [s[0]] + s[1..];
      [s[0]] + rest
  }

  /** Replacing a non-empty string within itself leaves exactly the replacement. */
  lemma ReplaceWhole(s: string, replacement: string)
    requires s != []
    ensures ReplaceAll(s, s, replacement) == replacement
  {
    assert s[|s|..] == [];
  }

  /**
   * sanitize_message: tries the patterns in order and, on the first one found
   * in the lower-cased message, replaces the message by the marker and stops.
   */
  method SanitizeMessage(message: string) returns (sanitized: string)
    ensures sanitized == Sanitized(message)
    ensures IsSensitive(message) ==> sanitized == Redacted
    ensures !IsSensitive(message) ==> sanitized == message
  {
    sanitized := message;
    var i := 0;
    while i < |SensitivePatterns|
      invariant 0 <= i <= |SensitivePatterns|
      invariant sanitized == message
      invariant forall j :: 0 <= j < i ==> !Contains(Lower(message), Lower(SensitivePatterns[j]))
    {
      if Contains(Lower(message), Lower(SensitivePatterns[i])) {
        // The pattern is non-empty, so the message it occurs in is too.
        assert message != [] by {
          var k :| OccursAt(Lower(message), Lower(SensitivePatterns[i]), k);
        }
        ReplaceWhole(message, Redacted);
        sanitized := ReplaceAll(sanitized, message, Redacted);
        return;
      }
      i := i + 1;
    }
  }

  /** A word holding a letter that `s` lacks occurs nowhere in `s`. */
  lemma AbsentLetter(s: string, word: string, m: nat, k: int)
    requires m < |word| && word[m] !in s
    ensures !OccursAt(s, word, k)
  {
    if 0 <= k <= |s| - |word| {
      assert s[k..k + |word|][m] == s[k + m];
    }
  }

  /** The four words are already lower case. */
  lemma PatternsAreLower(j: nat)
    requires j < |SensitivePatterns|
    ensures Lower(SensitivePatterns[j]) == SensitivePatterns[j]
  {
    var p := SensitivePatterns[j];
    forall i | 0 <= i < |p| ensures Lower(p)[i] == p[i] {
      assert LowerChar(p[i]) == p[i];
    }
  }

  /** The marker itself is not sensitive: none of the four words occurs in "***redacted***". */
  lemma RedactedIsNotSensitive()
    ensures !IsSensitive(Redacted)
  {
    var low := Lower(Redacted);
    assert low == "***redacted***" by {
      forall i | 0 <= i < |low| ensures low[i] == "***redacted***"[i] {
        assert low[i] == LowerChar(Redacted[i]);
      }
    }
    // Each word holds a letter that "***redacted***" lacks: p, o, k and s.
    var absent: seq<nat> := [0, 1, 0, 0];
    forall j, k | 0 <= j < |SensitivePatterns|
      ensures !OccursAt(low, Lower(SensitivePatterns[j]), k)
    {
      PatternsAreLower(j);
      AbsentLetter(low, SensitivePatterns[j], absent[j], k);
    }
  }

  /** Sanitising twice is the same as sanitising once. */
  lemma SanitizeIdempotent(message: string)
    ensures Sanitized(Sanitized(message)) == Sanitized(message)
  {
    if IsSensitive(message) {
      RedactedIsNotSensitive();
    }
  }

  /** Matching ignores case: messages that agree after lower-casing are judged alike. */
  lemma SensitivityIgnoresCase(a: string, b: string)
    requires Lower(a) == Lower(b)
    ensures IsSensitive(a) <==> IsSensitive(b)
    ensures IsSensitive(a) ==> Sanitized(a) == Sanitized(b)
  {
  }

  /** An upper-case keyword is caught: "PASSWORD: admin123" is redacted. */
  lemma UpperCaseKeywordRedacted()
    ensures Sanitized("PASSWORD: admin123") == Redacted
  {
    var message := "PASSWORD: admin123";
    var low := Lower(message);
    assert low[..8] == "password" by {
      forall i | 0 <= i < 8 ensures low[i] == "password"[i] {
        assert low[i] == LowerChar(message[i]);
      }
    }
    assert Lower(SensitivePatterns[0]) == "password" by {
      var p := SensitivePatterns[0];
      forall i | 0 <= i < |p| ensures Lower(p)[i] == p[i] {
        assert LowerChar(p[i]) == p[i];
      }
    }
    assert OccursAt(low, Lower(SensitivePatterns[0]), 0);
  }

  // ---------------------------------------------------------------------------
  // create_error_response
  // ---------------------------------------------------------------------------

  const InvalidRequestError := "invalid_request_error"

  /** The body `{"error": {"code", "message", "type"}}` of an HTTP error. */
  datatype ErrorDetail = ErrorDetail(code: string, message: string, kind: string)
  datatype ErrorResponse = ErrorResponse(error: ErrorDetail)

  /** create_error_response: code and message copied, the type always "invalid_request_error". */
  function CreateErrorResponse(errorCode: string, errorMessage: string): (r: ErrorResponse)
    ensures r.error.code == errorCode && r.error.message == errorMessage
    ensures r.error.kind == InvalidRequestError
  {
    ErrorResponse(ErrorDetail(errorCode, errorMessage, InvalidRequestError))
  }

  // ---------------------------------------------------------------------------
  // generate_id
  // ---------------------------------------------------------------------------

  const DefaultIdPrefix := "chatcmpl"

  /** How many characters of the UUID text end an identifier. */
  const UuidPrefixLength := 8

  predicate IsDigit(c: char) {
    '0' <= c <= '9'
  }

  predicate IsDigits(s: string) {
    forall i :: 0 <= i < |s| ==> IsDigit(s[i])
  }

  function DigitChar(d: nat): (c: char)
    requires d < 10
    ensures IsDigit(c) && c as int - '0' as int == d
  {
    ('0' as int + d) as char
  }

  /** `str(n)` for a non-negative integer: decimal digits without leading zeros. */
  function NatToDecimal(n: nat): (r: string)
    ensures r != [] && IsDigits(r)
    ensures |r| > 1 ==> r[0] != '0'
  {
    if n < 10 then [DigitChar(n)] else NatToDecimal(n / 10) + [DigitChar(n % 10)]
  }

  /** The number a string of decimal digits denotes. */
  function DecimalValue(s: string): nat
    requires IsDigits(s)
  {
    if s == [] then 0 else DecimalValue(s[..|s| - 1]) * 10 + (s[|s| - 1] as int - '0' as int)
  }

  /** Reading back the digits `str(n)` writes gives `n`. */
  lemma {:induction false} DecimalRoundTrip(n: nat)
    ensures DecimalValue(NatToDecimal(n)) == n
  {
    if n >= 10 {
      var s := NatToDecimal(n);
      assert s[..|s| - 1] == NatToDecimal(n / 10);
      DecimalRoundTrip(n / 10);
    }
  }

  /** The first `k` characters of `s`, or all of them when `s` is shorter (Python's `s[:k]`). */
  function Take(s: string, k: nat): (r: string)
    ensures |r| <= k && |r| <= |s| && r == s[..|r|]
    ensures |s| >= k ==> |r| == k
    ensures |s| < k ==> r == s
  {
    if |s| <= k then s else s[..k]
  }

  /**
   * generate_id(prefix) called when the clock reads `micros` microseconds and
   * the UUID generator yields the text `uuid`: prefix, a dash, the
   * microsecond count in decimal, a dash, and the first eight UUID characters.
   */
  function GenerateId(prefix: string, micros: nat, uuid: string): (id: string)
    ensures |id| == |prefix| + |NatToDecimal(micros)| + |Take(uuid, UuidPrefixLength)| + 2
    ensures id[..|prefix| + 1] == prefix + "-"
  {
    prefix + "-" + NatToDecimal(micros) + "-" + Take(uuid, UuidPrefixLength)
  }

  /** The length of the longest run of digits at the start of `s`. */
  function DigitRun(s: string): (k: nat)
    ensures k <= |s| && IsDigits(s[..k])
    ensures k < |s| ==> !IsDigit(s[k])
  {
    if s != [] && IsDigit(s[0]) then
      var k := 1 + DigitRun(s[1..]);
      assert s[..k] == [s[0]] + s[1..][..k - 1];
      k
    else
      0
  }

  /**
   * Reads an identifier made with `prefix` back into its timestamp and its
   * UUID piece; `None` when `id` does not have that shape.
   */
  function ParseId(id: string, prefix: string): Option<(nat, string)> {
    if |id| < |prefix| + 1 || id[..|prefix| + 1] != prefix + "-" then None
    else
      var rest := id[|prefix| + 1..];
      var k := DigitRun(rest);
      if k == 0 || k == |rest| || rest[k] != '-' then None
      else Some((DecimalValue(rest[..k]), rest[k + 1..]))
  }

  /** An identifier reads back into the clock value and UUID piece it was made from. */
  lemma GenerateIdRoundTrip(prefix: string, micros: nat, uuid: string)
    ensures ParseId(GenerateId(prefix, micros, uuid), prefix) == Some((micros, Take(uuid, UuidPrefixLength)))
  {
    var id := GenerateId(prefix, micros, uuid);
    var digits := NatToDecimal(micros);
    var tail := Take(uuid, UuidPrefixLength);
    var rest := id[|prefix| + 1..];
    assert rest == digits + "-" + tail;
    DigitRunStopsAtDash(digits, tail);
    assert rest[..|digits|] == digits;
    DecimalRoundTrip(micros);
  }

  /** The digit run of `digits + "-" + tail` is exactly `digits`. */
  lemma {:induction false} DigitRunStopsAtDash(digits: string, tail: string)
    requires IsDigits(digits)
    ensures DigitRun(digits + "-" + tail) == |digits|
  {
    if digits != [] {
      assert (digits + "-" + tail)[1..] == digits[1..] + "-" + tail;
      DigitRunStopsAtDash(digits[1..], tail);
    }
  }

  /** Identifiers made at different clock readings differ, whatever the UUIDs. */
  lemma IdsDifferAcrossClockReadings(prefix: string, t1: nat, u1: string, t2: nat, u2: string)
    requires t1 != t2
    ensures GenerateId(prefix, t1, u1) != GenerateId(prefix, t2, u2)
  {
    GenerateIdRoundTrip(prefix, t1, u1);
    GenerateIdRoundTrip(prefix, t2, u2);
  }
}
