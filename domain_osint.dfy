/** Domain investigation (backend/modules/domain_osint.py). The WHOIS, DNS,
    HTTP and Shodan lookups are inputs; modelled are the cleaning of a domain
    name, the merge of response headers into the six security headers, the
    collection of subdomains and the security-risk assessment. */
module DomainOsint {
  import opened Wrappers
  import opened Text

  // ---------------------------------------------------------------------------
  // _clean_domain
  // ---------------------------------------------------------------------------

  predicate HasScheme(url: string) {
    IsPrefix("http://", url) || IsPrefix("https://", url)
  }

  predicate IsDelimiter(c: char) {
    c == '/' || c == '?' || c == '#'
  }

  /** The network location of what follows `//`: everything up to the first
      `/`, `?` or `#`. */
  function HostPart(s: string): (h: string)
    ensures IsPrefix(h, s)
    ensures forall i :: 0 <= i < |h| ==> !IsDelimiter(h[i])
    ensures |h| < |s| ==> IsDelimiter(s[|h|])
  {
    if s == [] || IsDelimiter(s[0]) then [] else [s[0]] + HostPart(s[1..])
  }

  /** What follows `http://` or `https://`. */
  function AfterScheme(url: string): string
    requires HasScheme(url)
  {
    if IsPrefix("https://", url) then url[8..] else url[7..]
  }

  /** `urlparse(url).netloc` for a URL that starts with `http://` or `https://`. */
  function Netloc(url: string): (n: string)
    requires HasScheme(url)
    ensures IsPrefix(n, AfterScheme(url))
    ensures forall i :: 0 <= i < |n| ==> !IsDelimiter(n[i])
    ensures |n| < |AfterScheme(url)| ==> IsDelimiter(AfterScheme(url)[|n|])
  {
    HostPart(AfterScheme(url))
  }

  /** `urlparse` raises `ValueError("Invalid IPv6 URL")` when the network
      location has an opening bracket without a closing one, or the reverse. */
  predicate UnbalancedBrackets(netloc: string) {
    ('[' in netloc) != (']' in netloc)
  }

  /** The URL `_clean_domain` parses: `http://` is put in front when no scheme is given. */
  function WithScheme(url: string): (u: string)
    ensures HasScheme(u)
    ensures HasScheme(url) ==> u == url
    ensures !HasScheme(url) ==> !IsPrefix("https://", u) && AfterScheme(u) == url
  {
    if HasScheme(url) then url
    else
      SchemeAdded(url);
      "http://" + url
  }

  /** `_clean_domain`: the network location of the URL (with `http://` put in
      front when no scheme is given) up to its first `:`. When `urlparse`
      fails on unbalanced brackets, the handler returns the URL with its
      scheme. */
  function CleanDomain(url: string): (domain: string)
    ensures UnbalancedBrackets(Netloc(WithScheme(url))) ==> domain == WithScheme(url)
    ensures !UnbalancedBrackets(Netloc(WithScheme(url))) ==> domain == CleanNetloc(WithScheme(url))
    ensures !UnbalancedBrackets(Netloc(WithScheme(url))) && !HasScheme(url) ==>
      IsPrefix(domain, url) && (|domain| == |url| || url[|domain|] == ':' || IsDelimiter(url[|domain|]))
    ensures HasScheme(domain) <==> UnbalancedBrackets(Netloc(WithScheme(url)))
  {
    var u := WithScheme(url);
    if UnbalancedBrackets(Netloc(u)) then u
    else
      var d := CleanNetloc(u);
      assert !HasScheme(d) by {
        if |d| >= 7 {
          assert d[4] in d && d[5] in d;
          assert "http://"[4] == ':' && "https://"[5] == ':';
        }
      }
      d
  }

  /** The network location of `u` cut at its first `:`: the longest prefix of
      what follows the scheme that holds no `:` and no delimiter. */
  function CleanNetloc(u: string): (domain: string)
    requires HasScheme(u)
    ensures ':' !in domain
    ensures forall i :: 0 <= i < |domain| ==> !IsDelimiter(domain[i])
    ensures var t := AfterScheme(u);
      IsPrefix(domain, t) && (|domain| == |t| || t[|domain|] == ':' || IsDelimiter(t[|domain|]))
  {
    var t := AfterScheme(u);
    var n := Netloc(u);
    var d := Field0(n, ":");
    Field0Char(n, ':');
    assert d == t[..|d|] by {
      assert d == n[..|d|] && n == t[..|n|];
    }
    assert forall i :: 0 <= i < |d| ==> !IsDelimiter(d[i]) by {
      forall i | 0 <= i < |d| ensures !IsDelimiter(d[i]) {
        assert d[i] == n[i];
      }
    }
    assert |d| == |t| || t[|d|] == ':' || IsDelimiter(t[|d|]) by {
      if |d| < |n| {
        assert t[|d|] == n[|d|];
      }
    }
    d
  }

  /** Putting `http://` in front of a URL without a scheme keeps the URL after it. */
  lemma SchemeAdded(url: string)
    requires !HasScheme(url)
    ensures var u := "http://" + url; HasScheme(u) && !IsPrefix("https://", u) && u[7..] == url
  {
    var u := "http://" + url;
    assert u[..7] == "http://";
    assert u[4] == ':';
  }

  /** A bare domain name, brackets balanced, comes back unchanged. */
  lemma CleanDomainBareName(host: string)
    requires !HasScheme(host) && ':' !in host && !UnbalancedBrackets(host)
    requires forall i :: 0 <= i < |host| ==> !IsDelimiter(host[i])
    ensures CleanDomain(host) == host
  {
    HostPartWhole(host);
    assert Netloc(WithScheme(host)) == host;
  }

  /** A bracket left open makes `urlparse` fail, and the URL comes back with
      `http://` in front. */
  lemma CleanDomainUnbalancedExample()
    ensures CleanDomain("[::1") == "http://[::1"
  {
    var url := "[::1";
    assert !HasScheme(url);
    HostPartWhole(url);
    assert Netloc(WithScheme(url)) == url;
    assert '[' in url && ']' !in url;
  }

  /** A port after the host is removed, with or without a scheme in front. */
  lemma CleanDomainStripsPort(prefix: string, host: string, rest: string)
    requires prefix == "" || prefix == "http://" || prefix == "https://"
    requires !HasScheme(host + ":" + rest) && ':' !in host
    requires forall i :: 0 <= i < |host| ==> !IsDelimiter(host[i])
    requires '[' !in host + rest && ']' !in host + rest
    ensures CleanDomain(prefix + host + ":" + rest) == host
  {
    var tail := host + ":" + rest;
    assert prefix + host + ":" + rest == prefix + tail;
    var u := WithSchemeOfPrefix(prefix, tail);
    NoBracketsInNetloc(u, tail);
    CleanNetlocAtPort(u, host, rest);
  }

  /** With `http://`, `https://` or nothing in front of a text without a
      scheme, the parsed URL reads that text after its scheme. */
  lemma WithSchemeOfPrefix(prefix: string, tail: string) returns (u: string)
    requires prefix == "" || prefix == "http://" || prefix == "https://"
    requires !HasScheme(tail)
    ensures u == WithScheme(prefix + tail) && AfterScheme(u) == tail
  {
    var scheme := if prefix == "" then "http://" else prefix;
    u := scheme + tail;
    NetlocAfterScheme(scheme, tail);
    if prefix == "" {
      assert prefix + tail == tail;
    } else {
      assert prefix + tail == u;
    }
  }

  /** A network location read from text without brackets has none. */
  lemma NoBracketsInNetloc(u: string, tail: string)
    requires HasScheme(u) && AfterScheme(u) == tail
    requires '[' !in tail && ']' !in tail
    ensures !UnbalancedBrackets(Netloc(u))
  {
    var n := Netloc(u);
    PrefixContained(n, tail);
    ContainedChars(tail, n);
  }

  /** What follows the scheme being `host:rest`, the clean netloc is `host`. */
  lemma CleanNetlocAtPort(u: string, host: string, rest: string)
    requires HasScheme(u) && AfterScheme(u) == host + ":" + rest && ':' !in host
    requires forall i :: 0 <= i < |host| ==> !IsDelimiter(host[i])
    ensures CleanNetloc(u) == host
  {
    var t := AfterScheme(u);
    var d := CleanNetloc(u);
    assert t[|host|] == ':';
    assert d == t[..|d|] && host == t[..|host|];
  }

  /** The network location `host:rest...` cut at its first `:` is `host`. */
  lemma NetlocCutAtPort(host: string, rest: string)
    requires ':' !in host
    requires forall i :: 0 <= i < |host| ==> !IsDelimiter(host[i])
    ensures var n := HostPart(host + ":" + rest); ':' in n && Field0(n, ":") == host
  {
    var tail := host + ":" + rest;
    assert tail == host + (":" + rest);
    HostPartUpTo(host, ":" + rest);
    var n := HostPart(tail);
    assert n == host + [':'] + HostPart(rest);
    assert n[|host|] == ':';
    Field0Before(n, host);
  }

  /** After `http://` or `https://`, the network location is read from the rest. */
  lemma NetlocAfterScheme(scheme: string, tail: string)
    requires scheme == "http://" || scheme == "https://"
    ensures HasScheme(scheme + tail) && AfterScheme(scheme + tail) == tail
    ensures Netloc(scheme + tail) == HostPart(tail)
  {
    var u := scheme + tail;
    assert u[..|scheme|] == scheme;
    if scheme == "http://" {
      assert u[4] == ':';
      assert !IsPrefix("https://", u);
      assert u[7..] == tail;
    } else {
      assert u[8..] == tail;
    }
  }

  lemma {:induction false} HostPartWhole(s: string)
    requires forall i :: 0 <= i < |s| ==> !IsDelimiter(s[i])
    ensures HostPart(s) == s
  {
    if s != [] {
      HostPartWhole(s[1..]);
    }
  }

  lemma {:induction false} HostPartUpTo(a: string, b: string)
    requires forall i :: 0 <= i < |a| ==> !IsDelimiter(a[i])
    requires b != [] && !IsDelimiter(b[0])
    ensures HostPart(a + b) == a + [b[0]] + HostPart(b[1..])
  {
    if a == [] {
      assert a + b == b;
    } else {
      assert (a + b)[1..] == a[1..] + b;
      HostPartUpTo(a[1..], b);
    }
  }

  /** Splitting at `:` a text whose first `:` follows `host` gives `host`. */
  lemma Field0Before(n: string, host: string)
    requires ':' !in host && IsPrefix(host, n) && |host| < |n| && n[|host|] == ':'
    ensures Field0(n, ":") == host
  {
    var d := Field0(n, ":");
    assert OccursAt(n, ":", |host|);
    assert Contains(n, ":");
    assert OccursAt(n, ":", |d|);
    ContainsChar(d, ':');
    assert n[|d|] == ':';
    assert forall i :: 0 <= i < |host| ==> n[i] == host[i];
    assert forall i :: 0 <= i < |d| ==> n[i] == d[i];
    assert |d| == |host|;
  }

  /** The URL the HTTP lookups fetch: `https://` is put in front when no scheme is given. */
  function FetchUrl(domain: string): (url: string)
    ensures HasScheme(url)
    ensures HasScheme(domain) ==> url == domain
    ensures !HasScheme(domain) ==> IsPrefix("https://", url) && url[8..] == domain
  {
    if HasScheme(domain) then domain else "https://" + domain
  }

  // ---------------------------------------------------------------------------
  // check_security_headers
  // ---------------------------------------------------------------------------

  /** The security headers looked for, in the order of the result map. */
  const SecurityHeaderNames: seq<string> := [
    "Strict-Transport-Security", "Content-Security-Policy", "X-Content-Type-Options",
    "X-Frame-Options", "X-XSS-Protection", "Referrer-Policy"]

  /** `False` until the header is seen, then the header's value. */
  datatype HeaderState = Absent | Present(value: string)

  /** The response headers, keyed by lower-cased name as a case-insensitive
      dictionary holds them; `None` when the request failed. */
  type ResponseHeaders = Option<map<string, string>>

  /** The state a header ends in: the response's value when it carries the header. */
  function ExpectedHeader(response: ResponseHeaders, name: string): (h: HeaderState)
    ensures h.Present? <==> response.Some? && Lower(name) in response.value
  {
    if response.Some? && Lower(name) in response.value then Present(response.value[Lower(name)]) else Absent
  }

  /** The lookup ignores the case of the name asked for. */
  lemma ExpectedHeaderIgnoresCase(response: ResponseHeaders, name: string, other: string)
    requires Lower(other) == Lower(name)
    ensures ExpectedHeader(response, other) == ExpectedHeader(response, name)
    ensures ExpectedHeader(response, Lower(name)) == ExpectedHeader(response, name)
  {
    LowerIdempotent(name);
  }

  /** `check_security_headers`: every one of the six headers starts absent and
      takes the response's value when the response carries it, in any case. */
  method CheckSecurityHeaders(response: ResponseHeaders) returns (headers: seq<(string, HeaderState)>)
    ensures |headers| == |SecurityHeaderNames|
    ensures forall i :: 0 <= i < |headers| ==> headers[i].0 == SecurityHeaderNames[i]
    ensures forall i :: 0 <= i < |headers| ==> headers[i].1 == ExpectedHeader(response, SecurityHeaderNames[i])
  {
    headers := seq(|SecurityHeaderNames|, i requires 0 <= i < |SecurityHeaderNames| => (SecurityHeaderNames[i], Absent));
    if response.None? {
      return;
    }
    var received := response.value;
    var k := 0;
    while k < |SecurityHeaderNames|
      invariant 0 <= k <= |SecurityHeaderNames| && |headers| == |SecurityHeaderNames|
      invariant forall i :: 0 <= i < |headers| ==> headers[i].0 == SecurityHeaderNames[i]
      invariant forall i :: 0 <= i < k ==> headers[i].1 == ExpectedHeader(response, SecurityHeaderNames[i])
      invariant forall i :: k <= i < |headers| ==> headers[i].1 == Absent
    {
      var header := SecurityHeaderNames[k];
      if Lower(header) in received {
        headers := headers[k := (header, Present(received[Lower(header)]))];
      }
      k := k + 1;
    }
  }

  /** The names whose state is still absent, in map order. */
  function MissingHeaders(headers: seq<(string, HeaderState)>): (missing: seq<string>)
    ensures |missing| <= |headers|
    ensures forall x :: x in missing <==> exists i :: 0 <= i < |headers| && headers[i].0 == x && headers[i].1.Absent?
  {
    if headers == [] then []
    else
      var init := headers[..|headers| - 1];
      var last := headers[|headers| - 1];
      assert forall i :: 0 <= i < |init| ==> init[i] == headers[i];
      MissingHeaders(init) + (if last.1.Absent? then [last.0] else [])
  }

  lemma SecurityHeaderNamesDistinct()
    ensures forall i, j :: 0 <= i < j < |SecurityHeaderNames| ==> SecurityHeaderNames[i] != SecurityHeaderNames[j]
  {
  }

  /** After the check, a header counts as missing iff the response did not carry it. */
  lemma MissingHeadersOfResponse(headers: seq<(string, HeaderState)>, response: ResponseHeaders, i: nat)
    requires |headers| == |SecurityHeaderNames| && i < |headers|
    requires forall j :: 0 <= j < |headers| ==> headers[j].0 == SecurityHeaderNames[j]
    requires forall j :: 0 <= j < |headers| ==> headers[j].1 == ExpectedHeader(response, SecurityHeaderNames[j])
    ensures SecurityHeaderNames[i] in MissingHeaders(headers) <==>
      !(response.Some? && Lower(SecurityHeaderNames[i]) in response.value)
  {
    SecurityHeaderNamesDistinct();
  }

  // ---------------------------------------------------------------------------
  // find_subdomains
  // ---------------------------------------------------------------------------

  /** `f"{line.strip()}.{domain}"`. */
  function Candidate(line: string, domain: string): string {
    Strip(line) + "." + domain
  }

  /** Each name-server record with its trailing dots removed. */
  function StrippedNames(records: seq<string>): (names: seq<string>)
    ensures |names| == |records| && forall i :: 0 <= i < |records| ==> names[i] == RStripChar(records[i], '.')
  {
    if records == [] then [] else StrippedNames(records[..|records| - 1]) + [RStripChar(records[|records| - 1], '.')]
  }

  /** The candidates `cand(x)` of the elements `x` of `xs` that `keep` lets
      through, in order. */
  function Hits<T>(xs: seq<T>, cand: T -> string, keep: string -> bool): (hits: seq<string>)
    ensures |hits| <= |xs|
  {
    if xs == [] then []
    else
      var c := cand(xs[|xs| - 1]);
      Hits(xs[..|xs| - 1], cand, keep) + (if keep(c) then [c] else [])
  }

  lemma {:induction false} HitsMembers<T>(xs: seq<T>, cand: T -> string, keep: string -> bool, x: string)
    ensures x in Hits(xs, cand, keep) <==> exists j :: 0 <= j < |xs| && x == cand(xs[j]) && keep(x)
  {
    if xs != [] {
      var init := xs[..|xs| - 1];
      HitsMembers(init, cand, keep, x);
      assert forall j :: 0 <= j < |init| ==> init[j] == xs[j];
    }
  }

  lemma HitsStep<T>(xs: seq<T>, j: nat, cand: T -> string, keep: string -> bool)
    requires j < |xs|
    ensures var c := cand(xs[j]);
      Hits(xs[..j + 1], cand, keep) == Hits(xs[..j], cand, keep) + (if keep(c) then [c] else [])
  {
    assert xs[..j + 1][..j] == xs[..j];
  }

  /** The candidates of the word list that resolve, in file order. */
  function ResolvingCandidates(lines: seq<string>, domain: string, resolves: string -> bool): (hits: seq<string>)
    ensures |hits| <= |lines|
  {
    Hits(lines, (line: string) => Candidate(line, domain), resolves)
  }

  /** A name is among the hits iff it is the candidate of some line and resolves. */
  lemma ResolvingCandidatesMembers(lines: seq<string>, domain: string, resolves: string -> bool, x: string)
    ensures x in ResolvingCandidates(lines, domain, resolves) <==>
      exists j :: 0 <= j < |lines| && x == Candidate(lines[j], domain) && resolves(x)
  {
    HitsMembers(lines, (line: string) => Candidate(line, domain), resolves, x);
  }

  /** One more line of the word list adds its candidate when it resolves. */
  lemma ResolvingCandidatesStep(lines: seq<string>, j: nat, domain: string, resolves: string -> bool)
    requires j < |lines|
    ensures var c := Candidate(lines[j], domain);
      ResolvingCandidates(lines[..j + 1], domain, resolves) ==
      ResolvingCandidates(lines[..j], domain, resolves) + (if resolves(c) then [c] else [])
  {
    HitsStep(lines, j, (line: string) => Candidate(line, domain), resolves);
  }

  /** `find_subdomains`: the name servers with trailing dots removed, then,
      when brute force is asked for and a word list is configured and
      readable, every candidate that resolves; duplicates are dropped.
      `nsRecords` is `None` when the NS lookup failed and `wordlist` is `None`
      when the file does not exist; `resolves` is the outcome of the A lookup. */
  method FindSubdomains(domain: string, nsRecords: Option<seq<string>>, useBruteforce: bool,
                        wordlistPath: string, wordlist: Option<seq<string>>, resolves: string -> bool)
    returns (found: set<string>)
    ensures found == (set x | x in SubdomainList(domain, nsRecords, useBruteforce, wordlistPath, wordlist, resolves))
  {
    var subdomains: seq<string> := [];
    var ns := if nsRecords.Some? then nsRecords.value else [];
    var i := 0;
    while i < |ns|
      invariant 0 <= i <= |ns|
      invariant subdomains == StrippedNames(ns[..i])
    {
      assert ns[..i + 1][..i] == ns[..i];
      subdomains := subdomains + [RStripChar(ns[i], '.')];
      i := i + 1;
    }
    assert ns[..i] == ns;
    if useBruteforce && wordlistPath != "" && wordlist.Some? {
      var hits := ResolveWordlist(wordlist.value, domain, resolves);
      subdomains := subdomains + hits;
    }
    assert subdomains == SubdomainList(domain, nsRecords, useBruteforce, wordlistPath, wordlist, resolves);
    found := set x | x in subdomains;
  }

  /** The brute-force pass of `find_subdomains`: each line of the word list,
      stripped and put before the domain, is kept when it resolves. */
  method ResolveWordlist(lines: seq<string>, domain: string, resolves: string -> bool) returns (hits: seq<string>)
    ensures hits == ResolvingCandidates(lines, domain, resolves)
  {
    hits := [];
    var j := 0;
    while j < |lines|
      invariant 0 <= j <= |lines|
      invariant hits == ResolvingCandidates(lines[..j], domain, resolves)
    {
      var subdomain := Candidate(lines[j], domain);
      ResolvingCandidatesStep(lines, j, domain, resolves);
      if resolves(subdomain) {
        hits := hits + [subdomain];
      } else {
        assert hits + [] == hits;
      }
      j := j + 1;
    }
    assert lines[..j] == lines;
  }

  /** The list `find_subdomains` builds before removing duplicates. */
  function SubdomainList(domain: string, nsRecords: Option<seq<string>>, useBruteforce: bool,
                         wordlistPath: string, wordlist: Option<seq<string>>, resolves: string -> bool): (names: seq<string>)
    ensures var ns := if nsRecords.Some? then nsRecords.value else [];
      |ns| <= |names| && forall i :: 0 <= i < |ns| ==> names[i] == RStripChar(ns[i], '.')
    ensures !(useBruteforce && wordlistPath != "" && wordlist.Some?) ==>
      |names| == |if nsRecords.Some? then nsRecords.value else []|
  {
    StrippedNames(if nsRecords.Some? then nsRecords.value else []) +
      (if useBruteforce && wordlistPath != "" && wordlist.Some? then ResolvingCandidates(wordlist.value, domain, resolves) else [])
  }

  /** A name is found iff it is a name server with its trailing dots removed,
      or, under brute force with a readable word list, a resolving candidate. */
  lemma SubdomainListMembers(domain: string, nsRecords: Option<seq<string>>, useBruteforce: bool,
                             wordlistPath: string, wordlist: Option<seq<string>>, resolves: string -> bool, x: string)
    ensures x in SubdomainList(domain, nsRecords, useBruteforce, wordlistPath, wordlist, resolves) <==>
      (nsRecords.Some? && exists i :: 0 <= i < |nsRecords.value| && x == RStripChar(nsRecords.value[i], '.')) ||
      (useBruteforce && wordlistPath != "" && wordlist.Some? &&
       exists j :: 0 <= j < |wordlist.value| && x == Candidate(wordlist.value[j], domain) && resolves(x))
  {
    var ns := StrippedNames(if nsRecords.Some? then nsRecords.value else []);
    if nsRecords.Some? && exists i :: 0 <= i < |nsRecords.value| && x == RStripChar(nsRecords.value[i], '.') {
      var i :| 0 <= i < |nsRecords.value| && x == RStripChar(nsRecords.value[i], '.');
      assert ns[i] == x;
    }
    if wordlist.Some? {
      ResolvingCandidatesMembers(wordlist.value, domain, resolves, x);
    }
  }

  // ---------------------------------------------------------------------------
  // assess_security_risk
  // ---------------------------------------------------------------------------

  datatype Cookie = Cookie(secure: bool, httponly: bool)

  /** What `get_http_info` returned: the facts the assessment reads, or an error map. */
  datatype HttpInfo = HttpInfo(https: bool, cookies: seq<Cookie>) | HttpFailed(error: string)

  /** The looked-up facts about a domain, or an exception raised while
      gathering them. `daysToExpiry` is `None` when WHOIS gave no usable
      expiration date; `vulns` is `None` when Shodan is off or reported none. */
  datatype RiskFacts =
    | Facts(headers: seq<(string, HeaderState)>, http: HttpInfo, daysToExpiry: Option<int>, vulns: Option<seq<string>>)
    | AnalysisRaised(message: string)

  datatype RiskLevel = Unknown | Low | Medium | High | Critical

  /** A triggered rule: its points, its issue and its recommendation. */
  datatype Rule = Rule(points: nat, issue: string, recommendation: string)

  datatype RiskAssessment = RiskAssessment(score: nat, maxScore: nat, level: RiskLevel,
                                           issues: seq<string>, recommendations: seq<string>)

  const MaxScore: nat := 100

  function Min(a: int, b: int): int {
    if a <= b then a else b
  }

  /** The four bands of the score. */
  function LevelOf(score: nat): (level: RiskLevel)
    ensures level != Unknown
    ensures level == Low <==> score < 20
    ensures level == Medium <==> 20 <= score < 50
    ensures level == High <==> 50 <= score < 80
    ensures level == Critical <==> score >= 80
  {
    if score < 20 then Low else if score < 50 then Medium else if score < 80 then High else Critical
  }

  /** A cookie without `Secure` or without `HttpOnly`. */
  predicate Insecure(c: Cookie) {
    !c.secure || !c.httponly
  }

  function InsecureCount(cs: seq<Cookie>): (n: nat)
    ensures n <= |cs|
    ensures n == 0 <==> forall i :: 0 <= i < |cs| ==> !Insecure(cs[i])
  {
    if cs == [] then 0
    else
      var init := cs[..|cs| - 1];
      assert forall i :: 0 <= i < |init| ==> init[i] == cs[i];
      InsecureCount(init) + (if Insecure(cs[|cs| - 1]) then 1 else 0)
  }

  const VulnIssuePrefix: string := "Vulnérabilités détectées par Shodan: "
  const MoreVulns: string := " et d'autres..."

  /** The vulnerabilities named in the issue: the first five. */
  function ListedVulns(vulns: seq<string>): (listed: seq<string>)
    ensures |listed| <= 5 && |listed| <= |vulns| && listed == vulns[..|listed|]
    ensures |listed| == |vulns| <==> |vulns| <= 5
  {
    vulns[..Min(5, |vulns|)]
  }

  /** The vulnerability issue: the listed names, and a closing remark exactly
      when more than five were found. */
  function VulnIssue(vulns: seq<string>): (issue: string)
    ensures IsPrefix(VulnIssuePrefix + Join(", ", ListedVulns(vulns)), issue)
    ensures |issue| == |VulnIssuePrefix + Join(", ", ListedVulns(vulns))| + (if |vulns| > 5 then |MoreVulns| else 0)
    ensures |vulns| > 5 ==> IsSuffix(MoreVulns, issue)
  {
    var head := VulnIssuePrefix + Join(", ", ListedVulns(vulns));
    var issue := head + (if |vulns| > 5 then MoreVulns else "");
    assert issue[..|head|] == head;
    issue
  }

  /** The five rules, in the order they are checked; `None` when a rule does not fire. */
  function HttpsRule(http: HttpInfo): (o: Option<Rule>)
    ensures o.Some? <==> !(http.HttpInfo? && http.https)
    ensures o.Some? ==> o.value.points == 20
  {
    if !(http.HttpInfo? && http.https)
    then Some(Rule(20, "Le site n'utilise pas HTTPS", "Activer HTTPS avec un certificat valide"))
    else None
  }

  function HeaderRule(headers: seq<(string, HeaderState)>): (o: Option<Rule>)
    ensures o.Some? <==> MissingHeaders(headers) != []
    ensures o.Some? ==> o.value.points == Min(5 * |MissingHeaders(headers)|, 30) <= 30
  {
    var missing := MissingHeaders(headers);
    if missing != []
    then Some(Rule(Min(5 * |missing|, 30), "En-têtes de sécurité manquants: " + Join(", ", missing),
                   "Configurer les en-têtes de sécurité HTTP manquants"))
    else None
  }

  function ExpiryRule(daysToExpiry: Option<int>): (o: Option<Rule>)
    ensures o.Some? <==> daysToExpiry.Some? && daysToExpiry.value < 30
    ensures o.Some? ==> o.value.points == 15
  {
    if daysToExpiry.Some? && daysToExpiry.value < 30
    then Some(Rule(15, "Le domaine expire dans moins de 30 jours", "Renouveler le domaine rapidement"))
    else None
  }

  function VulnRule(vulns: Option<seq<string>>): (o: Option<Rule>)
    ensures o.Some? <==> vulns.Some? && vulns.value != []
    ensures o.Some? ==> o.value.points == Min(5 * |vulns.value|, 25) <= 25 && o.value.issue == VulnIssue(vulns.value)
  {
    if vulns.Some? && vulns.value != []
    then Some(Rule(Min(5 * |vulns.value|, 25), VulnIssue(vulns.value), "Corriger les vulnérabilités identifiées"))
    else None
  }

  function CookieRule(http: HttpInfo): (o: Option<Rule>)
    ensures o.Some? <==> http.HttpInfo? && exists i :: 0 <= i < |http.cookies| && Insecure(http.cookies[i])
    ensures o.Some? ==> o.value.points == Min(5 * InsecureCount(http.cookies), 10) <= 10
  {
    if http.HttpInfo? && InsecureCount(http.cookies) > 0
    then Some(Rule(Min(5 * InsecureCount(http.cookies), 10),
                   IntToString(InsecureCount(http.cookies)) + " cookies sans attributs de sécurité adéquats",
                   "Configurer les attributs 'Secure' et 'HttpOnly' pour les cookies"))
    else None
  }

  function Points(o: Option<Rule>): nat {
    if o.Some? then o.value.points else 0
  }

  function IssueOf(o: Option<Rule>): seq<string> {
    if o.Some? then [o.value.issue] else []
  }

  function RecommendationOf(o: Option<Rule>): seq<string> {
    if o.Some? then [o.value.recommendation] else []
  }

  /** The rules of `f`, in the order they are checked. */
  function Rules(f: RiskFacts): (rules: seq<Option<Rule>>)
    requires f.Facts?
    ensures |rules| == 5
  {
    [HttpsRule(f.http), HeaderRule(f.headers), ExpiryRule(f.daysToExpiry), VulnRule(f.vulns), CookieRule(f.http)]
  }

  /** The score of the facts: the points of the rules that fire, which add
      up to at most `MaxScore`; a domain that fails the HTTPS rule scores at
      least 20. */
  function RiskScore(f: RiskFacts): (score: nat)
    requires f.Facts?
    ensures score <= MaxScore
    ensures !(f.http.HttpInfo? && f.http.https) ==> score >= 20
  {
    assert Points(HttpsRule(f.http)) <= 20;
    assert Points(HeaderRule(f.headers)) <= 30;
    assert Points(ExpiryRule(f.daysToExpiry)) <= 15;
    assert Points(VulnRule(f.vulns)) <= 25;
    assert Points(CookieRule(f.http)) <= 10;
    Points(HttpsRule(f.http)) + Points(HeaderRule(f.headers)) + Points(ExpiryRule(f.daysToExpiry)) +
    Points(VulnRule(f.vulns)) + Points(CookieRule(f.http))
  }

  /** A rule with positive points gives 0 points exactly when it does not fire. */
  lemma NoPointsIffSilent(o: Option<Rule>)
    requires o.Some? ==> o.value.points > 0
    ensures Points(o) == 0 <==> o.None?
  {
  }

  /** A domain scores 0 exactly when it is served over HTTPS, sends the six
      headers, does not expire within 30 days, has no known vulnerability and
      sets no cookie without `Secure` and `HttpOnly`. */
  lemma RiskScoreZero(f: RiskFacts)
    requires f.Facts?
    ensures RiskScore(f) == 0 <==>
      f.http.HttpInfo? && f.http.https && MissingHeaders(f.headers) == [] &&
      !(f.daysToExpiry.Some? && f.daysToExpiry.value < 30) && !(f.vulns.Some? && f.vulns.value != []) &&
      forall i :: 0 <= i < |f.http.cookies| ==> !Insecure(f.http.cookies[i])
  {
    NoPointsIffSilent(HttpsRule(f.http));
    NoPointsIffSilent(HeaderRule(f.headers));
    NoPointsIffSilent(ExpiryRule(f.daysToExpiry));
    NoPointsIffSilent(VulnRule(f.vulns));
    NoPointsIffSilent(CookieRule(f.http));
  }

  /** The maximum is reached: no HTTPS, two insecure cookies, the six headers
      missing, expiry within 30 days and five vulnerabilities give 100, the
      critical band. */
  lemma RiskScoreWorstCase(f: RiskFacts)
    requires f.Facts? && f.http.HttpInfo? && !f.http.https && InsecureCount(f.http.cookies) >= 2
    requires |MissingHeaders(f.headers)| >= 6
    requires f.daysToExpiry.Some? && f.daysToExpiry.value < 30
    requires f.vulns.Some? && |f.vulns.value| >= 5
    ensures RiskScore(f) == MaxScore && LevelOf(RiskScore(f)) == Critical
  {
    var cookie := CookieRule(f.http);
    assert Points(HttpsRule(f.http)) == 20;
    assert Points(HeaderRule(f.headers)) == 30;
    assert Points(ExpiryRule(f.daysToExpiry)) == 15;
    assert Points(VulnRule(f.vulns)) == 25;
    assert Points(cookie) == 10;
  }

  const AnalysisErrorPrefix: string := "Erreur lors de l'analyse: "

  /** `assess_security_risk`: adds the points of every rule that fires, in
      order, with one issue and one recommendation each, then classifies the
      score. An exception while gathering the facts leaves score 0 and level
      `Unknown`, with the error as the only issue. */
  method AssessSecurityRisk(f: RiskFacts) returns (r: RiskAssessment)
    ensures r.maxScore == MaxScore && r.score <= MaxScore
    ensures f.AnalysisRaised? ==> r == RiskAssessment(0, MaxScore, Unknown, [AnalysisErrorPrefix + f.message], [])
    ensures f.Facts? ==> r.level == LevelOf(r.score)
    ensures f.Facts? ==> |r.issues| == |r.recommendations| <= 5
    ensures f.Facts? ==> r.score == RiskScore(f)
    ensures f.Facts? ==>
      r.issues == IssueOf(HttpsRule(f.http)) + IssueOf(HeaderRule(f.headers)) + IssueOf(ExpiryRule(f.daysToExpiry)) +
                  IssueOf(VulnRule(f.vulns)) + IssueOf(CookieRule(f.http))
    ensures f.Facts? ==>
      r.recommendations == RecommendationOf(HttpsRule(f.http)) + RecommendationOf(HeaderRule(f.headers)) +
                           RecommendationOf(ExpiryRule(f.daysToExpiry)) + RecommendationOf(VulnRule(f.vulns)) +
                           RecommendationOf(CookieRule(f.http))
  {
    if f.AnalysisRaised? {
      return RiskAssessment(0, MaxScore, Unknown, [AnalysisErrorPrefix + f.message], []);
    }
    var https, header, expiry, vuln, cookie :=
      HttpsRule(f.http), HeaderRule(f.headers), ExpiryRule(f.daysToExpiry), VulnRule(f.vulns), CookieRule(f.http);
    var score, issues, recommendations := AddRules(https, header, expiry, vuln, cookie);
    r := RiskAssessment(score, MaxScore, LevelOf(score), issues, recommendations);
  }

  /** The five checks of `assess_security_risk`, in order, from score 0 and
      empty lists. */
  method AddRules(https: Option<Rule>, header: Option<Rule>, expiry: Option<Rule>, vuln: Option<Rule>, cookie: Option<Rule>)
    returns (score: nat, issues: seq<string>, recommendations: seq<string>)
    ensures score == Points(https) + Points(header) + Points(expiry) + Points(vuln) + Points(cookie)
    ensures issues == IssueOf(https) + IssueOf(header) + IssueOf(expiry) + IssueOf(vuln) + IssueOf(cookie)
    ensures recommendations == RecommendationOf(https) + RecommendationOf(header) + RecommendationOf(expiry) +
                               RecommendationOf(vuln) + RecommendationOf(cookie)
    ensures |issues| == |recommendations| <= 5
  {
    score, issues, recommendations := 0, [], [];
    score, issues, recommendations := AddRule(score, issues, recommendations, https);
    assert issues == IssueOf(https) && recommendations == RecommendationOf(https);
    score, issues, recommendations := AddRule(score, issues, recommendations, header);
    score, issues, recommendations := AddRule(score, issues, recommendations, expiry);
    score, issues, recommendations := AddRule(score, issues, recommendations, vuln);
    score, issues, recommendations := AddRule(score, issues, recommendations, cookie);
  }

  /** One check of `assess_security_risk`: when its rule fires, the points are
      added and its issue and recommendation appended. */
  method AddRule(score: nat, issues: seq<string>, recommendations: seq<string>, rule: Option<Rule>)
    returns (score': nat, issues': seq<string>, recommendations': seq<string>)
    ensures score' == score + Points(rule)
    ensures issues' == issues + IssueOf(rule) && recommendations' == recommendations + RecommendationOf(rule)
    ensures |issues'| - |issues| == |recommendations'| - |recommendations| <= 1
  {
    score', issues', recommendations' := score, issues, recommendations;
    if rule.Some? {
      score' := score' + rule.value.points;
      issues' := issues' + [rule.value.issue];
      recommendations' := recommendations' + [rule.value.recommendation];
    }
  }
}
