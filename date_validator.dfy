/**
  The backend's date-shape check (`validate_date_format`): a string passes when
  the pattern "four digits, '-', two digits, end" matches from its start, and
  otherwise an HTTP 400 error with a fixed detail message is raised. Month and
  year ranges are not checked.
 */
module DateValidator {
  import opened Wrappers
  import opened Decimal

  /** One position of the pattern: `\d` or a literal character. */
  datatype Token = AnyDigit | Literal(c: char)

  /** `\d{4}-\d{2}`, one token per character it consumes. */
  const Pattern: seq<Token> := [AnyDigit, AnyDigit, AnyDigit, AnyDigit, Literal('-'), AnyDigit, AnyDigit]

  predicate TokenMatches(t: Token, c: char) {
    match t
    case AnyDigit => IsDigit(c)
    case Literal(x) => c == x
  }

  /** Matches the tokens against a prefix of `s` (the implicit `^` of `re.match`); yields the rest. */
  function MatchPrefix(p: seq<Token>, s: string): (rest: Option<string>)
    ensures rest.Some? ==> |p| <= |s| && rest.value == s[|p|..]
  {
    if p == [] then Some(s)
    else if s != [] && TokenMatches(p[0], s[0]) then MatchPrefix(p[1..], s[1..])
    else None
  }

  /** Python's `$`: the end of the string, or just before a newline that ends it. */
  predicate AtEnd(rest: string) {
    rest == [] || rest == ['\n']
  }

  /** The error FastAPI turns into the response. */
  datatype HttpException = HttpException(statusCode: int, detail: string)

  const FormatDetail: string := "Dates must be in YYYY-MM format"

  /** Returns nothing on success (the argument is not normalised) and raises otherwise. */
  function ValidateDateFormat(dateStr: string): (r: Result<(), HttpException>)
    ensures r.Failure? ==> r.error == HttpException(400, FormatDetail)
  {
    var rest := MatchPrefix(Pattern, dateStr);
    if rest.Some? && AtEnd(rest.value) then Success(()) else Failure(HttpException(400, FormatDetail))
  }

  lemma {:induction false} MatchPrefixExactly(p: seq<Token>, s: string)
    ensures MatchPrefix(p, s).Some? <==>
      |p| <= |s| && forall i :: 0 <= i < |p| ==> TokenMatches(p[i], s[i])
    decreases |p|
  {
    if p != [] && s != [] {
      MatchPrefixExactly(p[1..], s[1..]);
      if MatchPrefix(p, s).None? && TokenMatches(p[0], s[0]) && |p| <= |s| {
        var i :| 1 <= i < |p| && !TokenMatches(p[i], s[i]);
        assert !TokenMatches(p[1..][i - 1], s[1..][i - 1]);
      }
    }
  }

  /**
    A string passes exactly when it is four digits, '-', two digits, optionally
    followed by one newline; everything else raises.
   */
  lemma AcceptsExactly(s: string)
    ensures ValidateDateFormat(s).Success? <==>
      && (|s| == 7 || (|s| == 8 && s[7] == '\n'))
      && AllDigits(s[..4]) && s[4] == '-' && IsDigit(s[5]) && IsDigit(s[6])
  {
    MatchPrefixExactly(Pattern, s);
    if |s| >= 7 {
      assert (forall i :: 0 <= i < 7 ==> TokenMatches(Pattern[i], s[i])) <==>
        AllDigits(s[..4]) && s[4] == '-' && IsDigit(s[5]) && IsDigit(s[6]);
    }
  }

  /** Well-formed months pass, and so does one trailing newline, which `$` allows. */
  lemma AcceptedExamples()
    ensures ValidateDateFormat("2025-01").Success?
    ensures ValidateDateFormat("2025-01\n").Success?
  {
    AcceptsExactly("2025-01");
    AcceptsExactly("2025-01\n");
  }

  /** Month and year ranges are not checked. */
  lemma RangesNotChecked()
    ensures ValidateDateFormat("2025-13").Success?
    ensures ValidateDateFormat("0000-00").Success?
  {
    AcceptsExactly("2025-13");
    AcceptsExactly("0000-00");
  }

  /** Inputs that raise the 400 error. */
  lemma RejectedExamples()
    ensures ValidateDateFormat("2025-1").Failure?
    ensures ValidateDateFormat("25-01").Failure?
    ensures ValidateDateFormat("2025/01").Failure?
    ensures ValidateDateFormat("2025-01-01").Failure?
    ensures ValidateDateFormat("2025-01\n\n").Failure?
  {
    AcceptsExactly("2025/01");
    AcceptsExactly("2025-01-01");
    AcceptsExactly("2025-01\n\n");
  }
}
