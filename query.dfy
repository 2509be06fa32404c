/** The query the widget sends for its first page: the operations of one account,
    or of the whole ledger, newest first, `limit` of them. */
module Query {
  import opened Records

  const DefaultLimit: nat := 10

  /** The page size: the `limit` property, 10 when it is not given. */
  function DefaultedLimit(limit: Option<nat>): (n: nat)
    ensures limit.None? ==> n == DefaultLimit
    ensures limit.Some? ==> n == limit.value
  {
    limit.GetOr(DefaultLimit)
  }

  predicate IsDigits(s: string) {
    forall i :: 0 <= i < |s| ==> '0' <= s[i] <= '9'
  }

  function Digit(d: nat): (c: char)
    requires d < 10
    ensures '0' <= c <= '9' && c as int - '0' as int == d
  {
    (d + '0' as int) as char
  }

  /** The decimal text of a number, as a template string writes it. */
  function DecimalText(n: nat): (s: string)
    ensures |s| > 0 && IsDigits(s)
    ensures |s| > 1 ==> s[0] != '0'
    decreases n
  {
    if n < 10 then [Digit(n)] else DecimalText(n / 10) + [Digit(n % 10)]
  }

  /** The number a string of decimal digits denotes. */
  function DecimalValue(s: string): nat
    requires IsDigits(s)
    decreases |s|
  {
    if s == [] then 0 else 10 * DecimalValue(s[..|s| - 1]) + (s[|s| - 1] as int - '0' as int)
  }

  /** The limit written into the query reads back as the same number. */
  lemma {:induction false} DecimalRoundTrip(n: nat)
    ensures DecimalValue(DecimalText(n)) == n
    decreases n
  {
    if n >= 10 {
      DecimalRoundTrip(n / 10);
      var s := DecimalText(n);
      assert s[..|s| - 1] == DecimalText(n / 10);
    }
  }

  /** The resource path: the account's operations when an account is configured,
      all operations otherwise. */
  function OperationsPath(account: Option<Account>): (path: string)
    ensures HasAccount(account) ==> path == "/accounts/" + account.value + "/operations"
    ensures !HasAccount(account) ==> path == "/operations"
  {
    if HasAccount(account) then "/accounts/" + account.value + "/operations" else "/operations"
  }

  const QueryPrefix: string := "?order=desc&limit="

  /** The URL of the first-page request. */
  function OperationsUrl(horizonUrl: string, account: Option<Account>, limit: nat): (url: string)
    ensures url == horizonUrl + OperationsPath(account) + QueryPrefix + DecimalText(limit)
  {
    var url := horizonUrl + OperationsPath(account);
    url + QueryPrefix + DecimalText(limit)
  }

  /** The URL starts with the service address, and its last characters are the
      digits of the requested page size, preceded by the descending-order query. */
  lemma LimitReadBack(horizonUrl: string, account: Option<Account>, limit: nat)
    ensures var url := OperationsUrl(horizonUrl, account, limit);
            var k := |DecimalText(limit)|;
            k + |QueryPrefix| <= |url| &&
            horizonUrl <= url &&
            url[|url| - k - |QueryPrefix|..|url| - k] == QueryPrefix &&
            IsDigits(url[|url| - k..]) && DecimalValue(url[|url| - k..]) == limit
  {
    var url := OperationsUrl(horizonUrl, account, limit);
    var d := DecimalText(limit);
    var k := |d|;
    assert url == (horizonUrl + OperationsPath(account)) + QueryPrefix + d;
    assert url[|url| - k..] == d;
    assert url[|url| - k - |QueryPrefix|..|url| - k] == QueryPrefix;
    assert url[..|horizonUrl|] == horizonUrl;
    DecimalRoundTrip(limit);
  }
}
