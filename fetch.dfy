/** The HTTP requests the pages hand to the fetch service, the task handle the
    service gives back, and the URLs the requests address. The network itself is
    not modelled: a request is a value, and the message its response is turned
    into is recorded as a reply tag chosen by each page. */
module Fetch {
  import opened Models

  datatype HttpMethod = GET | PUT | DELETE

  datatype Request<R> = Request(
    verb: HttpMethod,
    url: string,
    headers: seq<(string, string)>,
    body: Option<Door>,
    reply: R)

  /** Every request goes to this fixed backend. */
  const Origin: string := "http://localhost:8000"

  /** The collection of doors: `GET` lists it, `PUT` upserts one door into it. */
  const DoorsUrl: string := Origin + "/api/v1alpha1/door"

  const JsonHeaders: seq<(string, string)> := [("Content-Type", "application/json")]

  /** The URL of one door, as `format!("…/door/{0}", id)` builds it. */
  function DoorUrl(id: int): (u: string)
    ensures |u| > |DoorsUrl| + 1 && u[..|DoorsUrl| + 1] == DoorsUrl + "/"
    ensures ParseInt(u[|DoorsUrl| + 1..]) == Some(id)
  {
    FormatIntRoundTrip(id);
    assert (DoorsUrl + "/" + FormatInt(id))[|DoorsUrl| + 1..] == FormatInt(id);
    DoorsUrl + "/" + FormatInt(id)
  }

  /** Different doors are addressed by different URLs, so a request built from
      `DoorUrl(id)` can only ever touch the door `id`. */
  lemma DoorUrlInjective(a: int, b: int)
    ensures DoorUrl(a) == DoorUrl(b) <==> a == b
  {
  }

  /** The handle FetchService::fetch returns for one in-flight request. Each
      call allocates a new one, so a page that stores it replaces the old one. */
  class FetchTask<R> {
    const request: Request<R>

    constructor (r: Request<R>)
      ensures request == r
    {
      request := r;
    }
  }

  // Decimal rendering of an integer, as Rust's Display prints an i32.

  predicate IsDigit(c: char)
  {
    '0' <= c <= '9'
  }

  function DigitChar(d: nat): (c: char)
    requires d < 10
  {
    (('0' as int) + d) as char
  }

  /** The decimal digits of `n`, most significant first, without leading zeros. */
  function Digits(n: nat): (s: string)
    ensures |s| > 0
    ensures forall i :: 0 <= i < |s| ==> IsDigit(s[i])
    ensures n > 0 ==> s[0] != '0'
  {
    if n < 10 then [DigitChar(n)] else Digits(n / 10) + [DigitChar(n % 10)]
  }

  /** Reads a non-empty string of decimal digits back as a number. */
  function ParseDigits(s: string): Option<nat>
  {
    if |s| == 0 || !IsDigit(s[|s| - 1]) then None
    else
      var d := (s[|s| - 1] as int) - ('0' as int);
      if |s| == 1 then Some(d)
      else match ParseDigits(s[..|s| - 1])
        case None => None
        case Some(p) => Some(10 * p + d)
  }

  function FormatInt(i: int): string
  {
    if i < 0 then "-" + Digits(-i) else Digits(i)
  }

  function ParseInt(s: string): Option<int>
  {
    if |s| > 0 && s[0] == '-' then
      match ParseDigits(s[1..])
      case Some(n) => if n == 0 then None else Some(-(n as int))
      case None => None
    else
      match ParseDigits(s)
      case Some(n) => Some(n)
      case None => None
  }

  lemma {:induction false} ParseDigitsRoundTrip(n: nat)
    ensures ParseDigits(Digits(n)) == Some(n)
  {
    if n >= 10 {
      var s := Digits(n);
      assert s[..|s| - 1] == Digits(n / 10);
      ParseDigitsRoundTrip(n / 10);
    }
  }

  /** Printing an integer and reading it back gives the same integer. */
  lemma FormatIntRoundTrip(i: int)
    ensures ParseInt(FormatInt(i)) == Some(i)
  {
    if i < 0 {
      var digits := Digits(-i);
      var s := "-" + digits;
      assert FormatInt(i) == s;
      assert |s| > 0 && s[0] == '-';
      assert s[1..] == digits;
      ParseDigitsRoundTrip(-i);
      assert ParseDigits(s[1..]) == Some(-i);
    } else {
      var s := Digits(i);
      assert FormatInt(i) == s;
      assert s[0] != '-';
      ParseDigitsRoundTrip(i);
    }
  }
}
