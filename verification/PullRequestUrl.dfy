/** Pull request URLs: printing (internal/integrations/github/mock.go) and reading the
    number back (prNumberFromURL in internal/workflows/cluster_provision.go). */
module PullRequestUrl {

  const MAX_INT := 0x7fff_ffff_ffff_ffff

  function Digit(d: nat): char
    requires d < 10
  {
    '0' + d as char
  }

  /** %d of a non-negative number. */
  function Itoa(n: nat): string {
    if n < 10 then [Digit(n)] else Itoa(n / 10) + [Digit(n % 10)]
  }

  function PullURL(owner: string, repo: string, n: nat): string {
    "https://github.com/" + owner + "/" + repo + "/pull/" + Itoa(n)
  }

  /** strings.LastIndex(s, "/"). */
  function LastSlash(s: string): (i: int)
    ensures -1 <= i < |s|
    ensures i >= 0 ==> s[i] == '/'
    ensures forall j :: i < j < |s| ==> s[j] != '/'
  {
    if |s| == 0 then -1
    else if s[|s| - 1] == '/' then |s| - 1
    else LastSlash(s[..|s| - 1])
  }

  predicate IsDigit(c: char) {
    '0' <= c <= '9'
  }

  /** The value of a string of digits, or -1. */
  function Digits(s: string): int {
    if |s| == 0 then 0
    else
      var v := Digits(s[..|s| - 1]);
      if v < 0 || !IsDigit(s[|s| - 1]) then -1 else 10 * v + (s[|s| - 1] - '0') as int
  }

  datatype Parsed = Number(n: int) | Malformed

  /** strconv.Atoi on a 64-bit platform: an optional sign, at least one digit, in range. */
  function Atoi(s: string): Parsed {
    var signed := |s| > 0 && (s[0] == '+' || s[0] == '-');
    var body := if signed then s[1..] else s;
    var v := Digits(body);
    if |body| == 0 || v < 0 then Malformed
    else if signed && s[0] == '-' then if v <= MAX_INT + 1 then Number(-v) else Malformed
    else if v <= MAX_INT then Number(v) else Malformed
  }

  function PrNumberFromURL(url: string): Parsed {
    var idx := LastSlash(url);
    if idx == -1 || idx == |url| - 1 then Malformed else Atoi(url[idx + 1..])
  }

  lemma {:induction false} ItoaDigits(n: nat)
    ensures |Itoa(n)| > 0 && Digits(Itoa(n)) == n
    ensures forall c :: c in Itoa(n) ==> IsDigit(c)
  {
    if n >= 10 {
      ItoaDigits(n / 10);
      assert Itoa(n)[..|Itoa(n)| - 1] == Itoa(n / 10);
    } else {
      assert Itoa(n)[..0] == [];
    }
  }

  /** The last slash is the one in front of a suffix without slashes. */
  lemma {:induction false} LastSlashBefore(prefix: string, digits: string)
    requires |prefix| > 0 && prefix[|prefix| - 1] == '/' && forall c :: c in digits ==> IsDigit(c)
    ensures LastSlash(prefix + digits) == |prefix| - 1
  {
    var url, at := prefix + digits, |prefix| - 1;
    assert url[at] == '/';
    assert forall j :: at < j < |url| ==> url[j] == digits[j - at - 1] && IsDigit(url[j]);
  }

  /** Reading a printed URL gives the number back, whatever owner and repository are (they may
      even contain slashes), for every number an int can hold; a larger one is rejected. */
  lemma {:induction false} RoundTrip(owner: string, repo: string, n: nat)
    ensures PrNumberFromURL(PullURL(owner, repo, n)) == if n <= MAX_INT then Number(n) else Malformed
  {
    var prefix, digits := "https://github.com/" + owner + "/" + repo + "/pull/", Itoa(n);
    ItoaDigits(n);
    LastSlashBefore(prefix, digits);
    assert PullURL(owner, repo, n) == prefix + digits;
    assert (prefix + digits)[|prefix|..] == digits;
    assert IsDigit(digits[0]);
  }

  /** Different numbers print differently, so a URL identifies its pull request. */
  lemma {:induction false} Injective(owner: string, repo: string, n: nat, m: nat)
    requires PullURL(owner, repo, n) == PullURL(owner, repo, m)
    ensures n == m
  {
    var prefix := "https://github.com/" + owner + "/" + repo + "/pull/";
    assert Itoa(n) == PullURL(owner, repo, n)[|prefix|..];
    assert Itoa(m) == PullURL(owner, repo, m)[|prefix|..];
    ItoaDigits(n);
    ItoaDigits(m);
  }

  lemma {:induction false} DigitsIff(s: string)
    ensures Digits(s) >= 0 <==> forall c :: c in s ==> IsDigit(c)
  {
    if |s| > 0 {
      DigitsIff(s[..|s| - 1]);
      assert forall c :: c in s <==> c in s[..|s| - 1] || c == s[|s| - 1];
    }
  }

  /** Behind the slash at this position there are these digits, at least one, perhaps with a sign in
      front, and nothing else, and an int can hold the number. */
  ghost predicate Names(url: string, at: nat, digits: string) {
    && at < |url| && url[at] == '/' && digits != "" && (forall c :: c in digits ==> IsDigit(c))
    && var rest := url[at + 1..];
       && (rest == digits || rest == "+" + digits || rest == "-" + digits)
       && Digits(digits) <= if rest == "-" + digits then MAX_INT + 1 else MAX_INT
  }

  /** Exactly those URLs parse. */
  lemma {:induction false} NumberIff(url: string)
    ensures PrNumberFromURL(url).Number? <==> exists at: nat, digits :: Names(url, at, digits)
    ensures PrNumberFromURL(url).Number? ==> -MAX_INT - 1 <= PrNumberFromURL(url).n <= MAX_INT
  {
    var idx := LastSlash(url);
    if PrNumberFromURL(url).Number? {
      var rest := url[idx + 1..];
      var body := if rest[0] == '+' || rest[0] == '-' then rest[1..] else rest;
      DigitsIff(body);
      assert Names(url, idx, body);
    }
    forall at: nat, digits | Names(url, at, digits) ensures PrNumberFromURL(url).Number? {
      NameParses(url, at, digits);
    }
  }

  lemma {:induction false} NameParses(url: string, at: nat, digits: string)
    requires Names(url, at, digits)
    ensures PrNumberFromURL(url).Number?
  {
    var rest := url[at + 1..];
    forall c | c in rest ensures c != '/' {
      assert c == '+' || c == '-' || c in digits;
    }
    forall j | at < j < |url| ensures url[j] != '/' {
      assert url[j] == rest[j - at - 1] && rest[j - at - 1] in rest;
    }
    DigitsIff(digits);
    assert if rest == digits then rest[0] in digits else rest[1..] == digits;
  }
}
