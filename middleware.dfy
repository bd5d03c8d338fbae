/**
 * The edge middleware in front of every `/admin` page. It reads the
 * `x-redirect-count` request header as a JavaScript number, stops at a
 * count above 3, writes the count plus one on the pass-through response,
 * sends everything but the login page to the login page when the backend
 * is not configured, lets the login page through with `x-skip-admin-check`,
 * and otherwise asks the auth service for the session.
 *
 * `Number(text)` is modelled for the texts a decimal integer header can
 * hold: surrounding whitespace is ignored, the empty text is 0, an
 * optional sign followed by ASCII digits is that integer, and any other
 * text is NaN. The numbers are unbounded integers rather than doubles, so
 * `String(n)` is modelled as the plain decimal writing of an integer, or
 * "NaN". JavaScript agrees with this only while |n| is at most 2^53
 * (beyond it the value is rounded) and below 10^21 (from there on it is
 * written in exponent form, as in "-1e+23").
 */
module Middleware {
  import opened Common

  const CountHeader := "x-redirect-count"
  const SkipHeader := "x-skip-admin-check"
  const LoginPath := "/admin/login"
  const TooManyRedirects := "/error?message=too-many-redirects"
  const ConfigError := "/admin/login?error=config"
  const AuthFailed := "/admin/login?error=auth-failed"
  const LoginRedirect := "/admin/login?redirected=true"
  const RedirectStatus := 307

  /** A JavaScript number as far as the header can make one. */
  datatype JsNumber = Finite(value: int) | NaN

  function DigitValue(c: char): nat
    requires IsDigit(c)
  {
    c as int - '0' as int
  }

  function DigitChar(d: nat): (c: char)
    requires d < 10
    ensures IsDigit(c) && DigitValue(c) == d
  {
    ('0' as int + d) as char
  }

  /** The value of a run of decimal digits. */
  function DecimalValue(s: string): nat
    requires AllDigits(s)
    decreases |s|
  {
    if |s| == 0 then 0 else DecimalValue(s[..|s| - 1]) * 10 + DigitValue(s[|s| - 1])
  }

  /** The decimal digits of a natural number, without leading zeros. */
  function NatText(n: nat): (s: string)
    ensures |s| >= 1 && AllDigits(s)
    decreases n
  {
    if n < 10 then [DigitChar(n)] else NatText(n / 10) + [DigitChar(n % 10)]
  }

  /** `String(n)` for an integer of at most 21 digits that a double holds exactly. */
  function NumberText(n: JsNumber): string {
    match n
    case NaN => "NaN"
    case Finite(v) => if v < 0 then "-" + NatText(-v) else NatText(v)
  }

  /** `Number(text)`. */
  function ToNumber(text: string): JsNumber {
    var t := Trim(text);
    if t == "" then Finite(0)
    else if |t| > 1 && t[0] == '-' && AllDigits(t[1..]) then Finite(-(DecimalValue(t[1..]) as int))
    else if |t| > 1 && t[0] == '+' && AllDigits(t[1..]) then Finite(DecimalValue(t[1..]))
    else if AllDigits(t) then Finite(DecimalValue(t))
    else NaN
  }

  /** `n + 1`; NaN stays NaN. */
  function Increment(n: JsNumber): JsNumber {
    match n
    case NaN => NaN
    case Finite(v) => Finite(v + 1)
  }

  /** `n > 3`; false for NaN. */
  predicate Exceeds(n: JsNumber) {
    n.Finite? && n.value > 3
  }

  lemma {:induction false} DecimalOfText(n: nat)
    ensures DecimalValue(NatText(n)) == n
    decreases n
  {
    if n >= 10 {
      DecimalOfText(n / 10);
      var s := NatText(n);
      assert s[..|s| - 1] == NatText(n / 10);
    }
  }

  /** A text with no whitespace at either end is its own trim. */
  lemma TrimKeeps(s: string)
    requires |s| >= 1 && !IsSpace(s[0]) && !IsSpace(s[|s| - 1])
    ensures Trim(s) == s
  {
  }

  /** Reading back what `String` wrote gives the same number: the header round-trips. */
  lemma NumberTextRoundTrip(n: JsNumber)
    ensures ToNumber(NumberText(n)) == n
  {
    match n {
      case NaN =>
        var t := "NaN";
        TrimKeeps(t);
        assert !IsDigit(t[0]);
      case Finite(v) =>
        var m: nat := if v < 0 then -v else v;
        var digits := NatText(m);
        DecimalOfText(m);
        var s := NumberText(n);
        if v < 0 {
          assert s == "-" + digits && s[1..] == digits;
        } else {
          assert s == digits && !IsSpace(s[0]);
        }
        TrimKeeps(s);
    }
  }

  /** The session as the auth service reports it. */
  datatype Session = SessionError | NoSession | HasSession | SessionThrows

  /** What the middleware reads: the count header, both environment variables, the path and the session. */
  datatype Request = Request(
    redirectCount: Option<string>,
    supabaseUrl: Option<string>,
    anonKey: Option<string>,
    path: string,
    session: Session)

  datatype Response = Next(headers: map<string, string>) | Redirect(location: string, status: nat)

  /** `Number(req.headers.get("x-redirect-count") || "0")`. */
  function IncomingCount(req: Request): JsNumber {
    ToNumber(OptOrElse(req.redirectCount, "0"))
  }

  predicate Configured(req: Request) {
    Truthy(req.supabaseUrl.GetOr("")) && Truthy(req.anonKey.GetOr(""))
  }

  /** The response for a request the matcher sent to the middleware. */
  function Decide(req: Request): (r: Response)
    ensures r.Redirect? ==> r.status == RedirectStatus
    ensures r.Next? ==> CountHeader in r.headers
  {
    var count := IncomingCount(req);
    if Exceeds(count) then Redirect(TooManyRedirects, RedirectStatus)
    else
      var headers := map[CountHeader := NumberText(Increment(count))];
      if !Configured(req) then
        if req.path == LoginPath then Next(headers) else Redirect(ConfigError, RedirectStatus)
      else if req.path == LoginPath then Next(headers[SkipHeader := "true"])
      else
        match req.session
        case SessionError => Redirect(AuthFailed, RedirectStatus)
        case SessionThrows => Redirect(AuthFailed, RedirectStatus)
        case NoSession => Redirect(LoginRedirect, RedirectStatus)
        case HasSession => Next(headers)
  }

  /** `matcher: ["/admin/:path*"]`: `/admin` itself and every path below it. */
  predicate Matched(path: string) {
    path == "/admin" || StartsWith(path, "/admin/")
  }

  /** The middleware's result for any request: `None` when the matcher does not run it. */
  function Middleware(req: Request): (r: Option<Response>)
    ensures r.Some? <==> Matched(req.path)
  {
    if Matched(req.path) then Some(Decide(req)) else None
  }

  /** A count above 3 is refused before anything else, and only such a count leads to the error page. */
  lemma TooManyRedirectsFirst(req: Request)
    ensures Exceeds(IncomingCount(req)) <==> Decide(req) == Redirect(TooManyRedirects, RedirectStatus)
  {
  }

  /** A pass-through response carries the incoming count plus one, which reads back as that number. */
  lemma PassThroughCountsOneMore(req: Request)
    requires Decide(req).Next?
    ensures ToNumber(Decide(req).headers[CountHeader]) == Increment(IncomingCount(req))
  {
    NumberTextRoundTrip(Increment(IncomingCount(req)));
  }

  /** Without configuration, the login page passes and every other admin path goes to the config error. */
  lemma UnconfiguredOnlyLoginPasses(req: Request)
    requires !Exceeds(IncomingCount(req)) && !Configured(req)
    ensures req.path == LoginPath ==> Decide(req).Next? && SkipHeader !in Decide(req).headers
    ensures req.path != LoginPath ==> Decide(req) == Redirect(ConfigError, RedirectStatus)
  {
  }

  /** The skip header is set exactly on configured requests for the login page under the count limit. */
  lemma SkipOnlyOnLogin(req: Request)
    ensures (Decide(req).Next? && SkipHeader in Decide(req).headers) <==>
      (!Exceeds(IncomingCount(req)) && Configured(req) && req.path == LoginPath)
    ensures Decide(req).Next? && SkipHeader in Decide(req).headers ==> Decide(req).headers[SkipHeader] == "true"
  {
  }

  /** An admin page other than the login page is reached only with a session. */
  lemma OtherPagesNeedSession(req: Request)
    requires req.path != LoginPath
    ensures Decide(req).Next? <==> !Exceeds(IncomingCount(req)) && Configured(req) && req.session == HasSession
  {
  }

  /** A session error or exception leads to the auth-failed page; no session to the plain login redirect. */
  lemma SessionFailures(req: Request)
    requires !Exceeds(IncomingCount(req)) && Configured(req) && req.path != LoginPath
    ensures req.session in {SessionError, SessionThrows} ==> Decide(req) == Redirect(AuthFailed, RedirectStatus)
    ensures req.session == NoSession ==> Decide(req) == Redirect(LoginRedirect, RedirectStatus)
  {
  }
}
