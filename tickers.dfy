/** Ticker validation shared by the submission endpoints and the
    `validate_ticker` decorator (api/utils.py): the submitted symbol is
    upper-cased and then accepted only when it is non-empty, alphanumeric and
    two to five characters long. Characters are ASCII: `upper` maps a-z to A-Z
    and leaves everything else alone, and `isalnum` means A-Z, a-z or 0-9. */
module Tickers {
  import opened Outcomes

  const InvalidTickerMessage := "Invalid ticker symbol."

  function UpperChar(c: char): char {
    if 'a' <= c <= 'z' then (c as int - 32) as char else c
  }

  /** Python's `str.upper()` restricted to ASCII. */
  function Upper(s: string): (u: string)
    ensures |u| == |s|
    ensures forall i :: 0 <= i < |s| ==> u[i] == UpperChar(s[i])
  {
    seq(|s|, i requires 0 <= i < |s| => UpperChar(s[i]))
  }

  predicate IsAlnum(c: char) {
    'A' <= c <= 'Z' || 'a' <= c <= 'z' || '0' <= c <= '9'
  }

  /** `not ticker or not ticker.isalnum() or not 2 <= len(ticker) <= 5`,
      negated, on the upper-cased input. */
  predicate IsValidTicker(raw: string) {
    var ticker := Upper(raw);
    ticker != [] && (forall i :: 0 <= i < |ticker| ==> IsAlnum(ticker[i])) && 2 <= |ticker| <= 5
  }

  /** The pattern `^[A-Za-z0-9]{2,5}$`, read directly on the raw input. */
  predicate MatchesTickerPattern(s: string) {
    2 <= |s| <= 5 && forall i :: 0 <= i < |s| ==> IsAlnum(s[i])
  }

  /** The symbol a valid ticker is normalised to: upper-case letters and digits. */
  predicate IsNormalTicker(s: string) {
    2 <= |s| <= 5 && forall i :: 0 <= i < |s| ==> 'A' <= s[i] <= 'Z' || '0' <= s[i] <= '9'
  }

  lemma UpperCharKeepsAlnum(c: char)
    ensures IsAlnum(UpperChar(c)) <==> IsAlnum(c)
    ensures IsAlnum(c) ==> 'A' <= UpperChar(c) <= 'Z' || '0' <= UpperChar(c) <= '9'
  {
  }

  /** Upper-casing first changes nothing about acceptance: the check accepts
      exactly the inputs matching the pattern, in both directions. */
  lemma {:induction false} ValidIffPattern(raw: string)
    ensures IsValidTicker(raw) <==> MatchesTickerPattern(raw)
  {
    var t := Upper(raw);
    forall i | 0 <= i < |raw|
      ensures IsAlnum(t[i]) <==> IsAlnum(raw[i])
    {
      UpperCharKeepsAlnum(raw[i]);
    }
  }

  /** Validation is case-insensitive: an input is accepted exactly when its
      upper-case form is, and the accepted form is upper-case letters and digits. */
  lemma {:induction false} ValidationIsCaseInsensitive(raw: string)
    ensures Upper(Upper(raw)) == Upper(raw)
    ensures IsValidTicker(raw) <==> IsValidTicker(Upper(raw))
    ensures IsValidTicker(raw) ==> IsNormalTicker(Upper(raw))
  {
    var t := Upper(raw);
    assert Upper(t) == t by {
      forall i | 0 <= i < |t| ensures Upper(t)[i] == t[i] {
        assert t[i] == UpperChar(raw[i]);
      }
    }
    ValidIffPattern(raw);
    if IsValidTicker(raw) {
      forall i | 0 <= i < |t|
        ensures 'A' <= t[i] <= 'Z' || '0' <= t[i] <= '9'
      {
        UpperCharKeepsAlnum(raw[i]);
      }
    }
  }

  /** What a decorated view produces: the 400 response, or the view's own. */
  datatype Guarded<R> = Rejected(error: HttpError) | Passed(response: R)

  /** `validate_ticker(f)`: reject with 400 "Invalid ticker symbol." without
      calling `f`, or call `f` on the original arguments unchanged. */
  function ValidateTicker<A, R>(raw: string, f: A -> R, args: A): (r: Guarded<R>)
    ensures r.Rejected? <==> !MatchesTickerPattern(raw)
    ensures r.Rejected? ==> r.error == BadRequest(InvalidTickerMessage) && r.error.code == 400
    ensures r.Passed? ==> r.response == f(args)
  {
    ValidIffPattern(raw);
    if !IsValidTicker(raw) then Rejected(BadRequest(InvalidTickerMessage)) else Passed(f(args))
  }
}
