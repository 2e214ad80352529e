/**
 * The URLs the handlers build (`url_for`) and the rule that decides where a
 * successful login goes.
 */
module Urls {
  import opened Wrappers
  import opened Records

  const IndexUrl: string := "/"
  const DashboardUrl: string := "/client/dashboard"
  const RequestsUrl: string := "/client/requests"
  const ServiceFormPrefix: string := "/service/"

  predicate IsDigit(c: char) {
    '0' <= c <= '9'
  }

  predicate AllDigits(s: string) {
    forall i :: 0 <= i < |s| ==> IsDigit(s[i])
  }

  function Digit(d: nat): (c: char)
    requires d < 10
    ensures IsDigit(c) && c as int - '0' as int == d
  {
    ('0' as int + d) as char
  }

  /** `str(n)` for a non-negative integer, as the `int` route converter writes it: no leading zero. */
  function Decimal(n: nat): (r: string)
    ensures |r| > 0 && AllDigits(r)
    ensures r[0] == '0' ==> n == 0
  {
    if n < 10 then [Digit(n)] else Decimal(n / 10) + [Digit(n % 10)]
  }

  /** The `int` route converter reading a path segment of digits back. */
  function ParseDecimal(s: string): nat
    requires AllDigits(s)
  {
    if s == [] then 0
    else ParseDecimal(s[..|s| - 1]) * 10 + (s[|s| - 1] as int - '0' as int)
  }

  /** The route converter reads back exactly the id that `url_for` wrote. */
  lemma {:induction false} DecimalRoundTrip(n: nat)
    ensures ParseDecimal(Decimal(n)) == n
  {
    if n >= 10 {
      var d := Decimal(n);
      assert d[..|d| - 1] == Decimal(n / 10);
      DecimalRoundTrip(n / 10);
    }
  }

  /** `url_for('service_form', service_id=id)`: the form page of one service, which routes back to `id`. */
  function ServiceFormUrl(id: nat): (r: string)
    ensures |r| > |ServiceFormPrefix| && r[..|ServiceFormPrefix|] == ServiceFormPrefix
    ensures AllDigits(r[|ServiceFormPrefix|..]) && ParseDecimal(r[|ServiceFormPrefix|..]) == id
    ensures r[|ServiceFormPrefix|] == '0' ==> r == ServiceFormPrefix + "0"
  {
    var r := ServiceFormPrefix + Decimal(id);
    assert r[|ServiceFormPrefix|..] == Decimal(id);
    DecimalRoundTrip(id);
    r
  }

  /** `request.form.get('next') or url_for('index')`: a blank value falls back to the index URL. */
  function NextOrIndex(next: Option<string>): (r: string)
    ensures r != ""
    ensures !Blank(next) ==> r == next.value
    ensures Blank(next) ==> r == IndexUrl
  {
    if Blank(next) then IndexUrl else next.value
  }

  /** Where login redirects: the requested page when it starts with '/', the index otherwise. */
  function NextTarget(nextPage: string): (r: Page)
    ensures r.Url? <==> |nextPage| > 0 && nextPage[0] == '/'
    ensures r.Url? ==> r.path == nextPage
    ensures !r.Url? ==> r == Home
  {
    if |nextPage| > 0 && nextPage[0] == '/' then Url(nextPage) else Home
  }

  /** A login without `next` goes to the index URL itself. */
  lemma BlankNextGoesToIndexUrl(next: Option<string>)
    requires Blank(next)
    ensures NextTarget(NextOrIndex(next)) == Url(IndexUrl)
  {
  }

  /** A protocol-relative URL ("//host/...") passes the leading-slash test unchanged. */
  lemma ProtocolRelativeNextIsFollowed(host: string)
    ensures NextTarget("//" + host) == Url("//" + host)
  {
  }
}
