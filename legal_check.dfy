/** Ethical and legal checks on requests (backend/utils/legal_check.py): the
    use-case whitelist, the sensitive-keyword and personal-data scan of a
    request, the GDPR purpose/retention check and the privacy notice. */
module LegalCheck {
  import opened Wrappers
  import opened Text

  const AllowedUseCases: seq<string> := [
    "security_research", "pentest", "missing_person",
    "identity_verification", "academic_research", "threat_intel"]

  /** Scanned in this order; the first whole-word hit is reported. */
  const SensitiveKeywords: seq<string> := [
    "hack", "stalk", "spy", "track", "monitor", "girlfriend", "boyfriend",
    "spouse", "wife", "husband", "ex", "revenge", "private", "nude", "steal"]

  /** `validate_use_case`: a missing or empty use case is refused; otherwise
      it is accepted iff its lower-cased form is one of the six allowed ones. */
  function ValidateUseCase(useCase: Option<string>): (ok: bool)
    ensures useCase.None? || useCase == Some("") ==> !ok
    ensures ok ==> useCase.Some? && Lower(useCase.value) in AllowedUseCases
    ensures useCase.Some? && Lower(useCase.value) in AllowedUseCases ==> ok
  {
    match useCase
    case None => false
    case Some(u) => u != "" && Lower(u) in AllowedUseCases
  }

  /** Upper-case spellings of an allowed use case are accepted too. */
  lemma ValidateUseCaseIgnoresCase(u: string)
    ensures ValidateUseCase(Some(u)) == ValidateUseCase(Some(Lower(u)))
  {
    LowerIdempotent(u);
  }

  // ---------------------------------------------------------------------------
  // The request as the checks see it
  // ---------------------------------------------------------------------------

  /** A JSON body as `request.get_json()` yields it: the `str()` of each value
      of an object or item of a list, any other value's `str()`, or a body
      that failed to parse. */
  datatype JsonBody = JsonItems(items: seq<string>) | JsonScalar(text: string) | JsonUnreadable

  /** The parts of a Flask request that the checks read. */
  datatype Request = Request(
    path: string,
    httpMethod: string,
    args: seq<string>,
    isJson: bool,
    json: JsonBody,
    form: seq<string>,
    consentHeader: Option<string>,
    useCaseHeader: Option<string>)

  /** The text that is scanned: the query values for a GET, else the JSON
      values, else the form values, each joined with a space. */
  function RequestData(req: Request): string {
    if req.httpMethod == "GET" then Join(" ", req.args)
    else if req.isJson then
      match req.json
      case JsonItems(items) => Join(" ", items)
      case JsonScalar(text) => text
      case JsonUnreadable => ""
    else if req.form != [] then Join(" ", req.form)
    else ""
  }

  /** The values the scanned text is made of. */
  function ScannedValues(req: Request): seq<string> {
    if req.httpMethod == "GET" then req.args
    else if req.isJson then
      match req.json
      case JsonItems(items) => items
      case JsonScalar(text) => [text]
      case JsonUnreadable => []
    else req.form
  }

  /** The scanned text is the values joined with spaces, so each of them is scanned. */
  lemma RequestDataScansValues(req: Request)
    ensures RequestData(req) == Join(" ", ScannedValues(req))
    ensures forall i :: 0 <= i < |ScannedValues(req)| ==> Contains(RequestData(req), ScannedValues(req)[i])
  {
    forall i | 0 <= i < |ScannedValues(req)| ensures Contains(RequestData(req), ScannedValues(req)[i]) {
      JoinContains(" ", ScannedValues(req), i);
    }
  }

  // ---------------------------------------------------------------------------
  // Sensitive keywords
  // ---------------------------------------------------------------------------

  /** `w` occurs at `i` with a regular-expression word boundary on each side. */
  predicate WordAt(s: string, w: string, i: int) {
    OccursAt(s, w, i) &&
    (i == 0 || !IsWordChar(s[i - 1])) &&
    (i + |w| == |s| || !IsWordChar(s[i + |w|]))
  }

  /** `re.search(r'\b' + w + r'\b', s)` finds a match. */
  predicate ContainsWord(s: string, w: string) {
    exists i | 0 <= i <= |s| - |w| :: WordAt(s, w, i)
  }

  /** The index of the first keyword, from `k` on, that occurs as a word in `text`. */
  function FirstKeywordFrom(text: string, k: nat): (r: Option<nat>)
    decreases |SensitiveKeywords| - k
    ensures r.Some? ==> k <= r.value < |SensitiveKeywords| && ContainsWord(text, SensitiveKeywords[r.value])
    ensures r.Some? ==> forall j :: k <= j < r.value ==> !ContainsWord(text, SensitiveKeywords[j])
    ensures r.None? ==> forall j :: k <= j < |SensitiveKeywords| ==> !ContainsWord(text, SensitiveKeywords[j])
  {
    if k >= |SensitiveKeywords| then None
    else if ContainsWord(text, SensitiveKeywords[k]) then Some(k)
    else FirstKeywordFrom(text, k + 1)
  }

  function KeywordReason(keyword: string): (reason: string)
    ensures reason != "Conforme"
  {
    var reason := "Détection d'un mot-clé sensible: '" + keyword + "'";
    assert reason[0] == 'D';
    reason
  }

  // ---------------------------------------------------------------------------
  // Personal data
  // ---------------------------------------------------------------------------

  /** The patterns of `REGEX_PATTERNS`, in their order. */
  datatype PiiKind = EmailPattern | PhonePattern | SsnPattern | CreditCardPattern

  const PiiOrder: seq<PiiKind> := [EmailPattern, PhonePattern, SsnPattern, CreditCardPattern]

  function PiiName(kind: PiiKind): string {
    match kind
    case EmailPattern => "email"
    case PhonePattern => "phone"
    case SsnPattern => "ssn"
    case CreditCardPattern => "credit_card"
  }

  function PiiReason(kind: PiiKind): (reason: string)
    ensures reason != "Conforme"
  {
    var reason := "Détection d'information sensible de type " + PiiName(kind);
    assert reason[0] == 'D';
    reason
  }

  /** Under `identity_verification`, e-mail addresses and phone numbers are allowed. */
  predicate PiiAllowed(useCase: string, kind: PiiKind) {
    useCase == "identity_verification" && kind in {EmailPattern, PhonePattern}
  }

  /** The first pattern, from `k` on, that matches and is not allowed.
      `piiMatch(kind, text)` says whether `re.findall` finds that pattern in the text. */
  function FirstPiiFrom(text: string, useCase: string, piiMatch: (PiiKind, string) -> bool, k: nat): (r: Option<PiiKind>)
    decreases |PiiOrder| - k
    ensures r.Some? ==> piiMatch(r.value, text) && !PiiAllowed(useCase, r.value)
    ensures r.Some? ==>
      exists j :: (k <= j < |PiiOrder| && PiiOrder[j] == r.value &&
                   forall i :: k <= i < j ==> !piiMatch(PiiOrder[i], text) || PiiAllowed(useCase, PiiOrder[i]))
    ensures r.None? ==> forall j :: k <= j < |PiiOrder| ==> !piiMatch(PiiOrder[j], text) || PiiAllowed(useCase, PiiOrder[j])
  {
    if k >= |PiiOrder| then None
    else if piiMatch(PiiOrder[k], text) && !PiiAllowed(useCase, PiiOrder[k]) then Some(PiiOrder[k])
    else FirstPiiFrom(text, useCase, piiMatch, k + 1)
  }

  /** The decision of `check_ethical_compliance`: refused exactly when a
      sensitive keyword or a personal-data pattern not allowed for the use
      case is found, and then never with the reason "Conforme". */
  function EthicalCompliance(req: Request, piiMatch: (PiiKind, string) -> bool): (r: (bool, string))
    ensures r.0 <==>
      (FirstKeywordFrom(Lower(RequestData(req)), 0).None? &&
       forall j :: 0 <= j < |PiiOrder| ==> !piiMatch(PiiOrder[j], RequestData(req)) || PiiAllowed(Lower(req.useCaseHeader.GetOr("")), PiiOrder[j]))
    ensures r.0 <==> r.1 == "Conforme"
  {
    var text := RequestData(req);
    match FirstKeywordFrom(Lower(text), 0)
    case Some(k) => (false, KeywordReason(SensitiveKeywords[k]))
    case None =>
      match FirstPiiFrom(text, Lower(req.useCaseHeader.GetOr("")), piiMatch, 0)
      case Some(kind) => (false, PiiReason(kind))
      case None => (true, "Conforme")
  }

  /** `check_ethical_compliance`: scans the keywords in order and returns at the
      first whole-word hit; only then scans the personal-data patterns, skipping
      e-mail and phone hits under `identity_verification`. */
  method CheckEthicalCompliance(req: Request, piiMatch: (PiiKind, string) -> bool) returns (ok: bool, reason: string)
    ensures (ok, reason) == EthicalCompliance(req, piiMatch)
  {
    var requestData := RequestData(req);
    var keyword := ScanKeywords(Lower(requestData));
    if keyword.Some? {
      ok, reason := false, KeywordReason(SensitiveKeywords[keyword.value]);
      return;
    }
    var pii := ScanPii(requestData, Lower(req.useCaseHeader.GetOr("")), piiMatch);
    if pii.Some? {
      ok, reason := false, PiiReason(pii.value);
      return;
    }
    ok, reason := true, "Conforme";
  }

  /** The first loop of `check_ethical_compliance`: the keywords in order, up
      to the first whole-word hit in the lower-cased text. */
  method ScanKeywords(lowered: string) returns (hit: Option<nat>)
    ensures hit == FirstKeywordFrom(lowered, 0)
  {
    var k := 0;
    while k < |SensitiveKeywords|
      invariant 0 <= k <= |SensitiveKeywords|
      invariant FirstKeywordFrom(lowered, 0) == FirstKeywordFrom(lowered, k)
    {
      if ContainsWord(lowered, SensitiveKeywords[k]) {
        return Some(k);
      }
      k := k + 1;
    }
    return None;
  }

  /** The second loop: the patterns in order, up to the first one that
      matches and that the use case does not allow. */
  method ScanPii(text: string, useCase: string, piiMatch: (PiiKind, string) -> bool) returns (hit: Option<PiiKind>)
    ensures hit == FirstPiiFrom(text, useCase, piiMatch, 0)
  {
    var p := 0;
    while p < |PiiOrder|
      invariant 0 <= p <= |PiiOrder|
      invariant FirstPiiFrom(text, useCase, piiMatch, 0) == FirstPiiFrom(text, useCase, piiMatch, p)
    {
      if piiMatch(PiiOrder[p], text) {
        if PiiAllowed(useCase, PiiOrder[p]) {
          p := p + 1;
          continue;
        }
        return Some(PiiOrder[p]);
      }
      p := p + 1;
    }
    return None;
  }

  /** A request is compliant exactly when the reason is `Conforme`. */
  lemma ComplianceReason(req: Request, piiMatch: (PiiKind, string) -> bool)
    ensures EthicalCompliance(req, piiMatch).0 <==> EthicalCompliance(req, piiMatch).1 == "Conforme"
  {
    var text := RequestData(req);
    match FirstKeywordFrom(Lower(text), 0)
    case Some(k) => assert EthicalCompliance(req, piiMatch).1 == KeywordReason(SensitiveKeywords[k]);
    case None =>
      match FirstPiiFrom(text, Lower(req.useCaseHeader.GetOr("")), piiMatch, 0)
      case Some(kind) => assert EthicalCompliance(req, piiMatch).1 == PiiReason(kind);
      case None =>
  }

  /** Any sensitive keyword in the request rejects it, with the reason of that
      keyword or of one before it in the list. */
  lemma KeywordHitRejects(req: Request, piiMatch: (PiiKind, string) -> bool, k: nat)
    requires k < |SensitiveKeywords| && ContainsWord(Lower(RequestData(req)), SensitiveKeywords[k])
    ensures !EthicalCompliance(req, piiMatch).0
    ensures exists j :: 0 <= j <= k && EthicalCompliance(req, piiMatch).1 == KeywordReason(SensitiveKeywords[j])
  {
    var r := FirstKeywordFrom(Lower(RequestData(req)), 0);
    assert r.Some?;
    assert r.value <= k;
  }

  /** The keyword scan reports the first keyword in list order. */
  lemma {:induction false} KeywordScanReportsFirst(req: Request, piiMatch: (PiiKind, string) -> bool, k: nat)
    requires k < |SensitiveKeywords|
    requires ContainsWord(Lower(RequestData(req)), SensitiveKeywords[k])
    requires forall j :: 0 <= j < k ==> !ContainsWord(Lower(RequestData(req)), SensitiveKeywords[j])
    ensures EthicalCompliance(req, piiMatch) == (false, KeywordReason(SensitiveKeywords[k]))
  {
    var r := FirstKeywordFrom(Lower(RequestData(req)), 0);
    assert r.Some?;
    assert r.value == k;
  }

  /** A keyword hit decides before any personal-data pattern is looked at. */
  lemma KeywordBeforePii(req: Request, m1: (PiiKind, string) -> bool, m2: (PiiKind, string) -> bool)
    requires FirstKeywordFrom(Lower(RequestData(req)), 0).Some?
    ensures EthicalCompliance(req, m1) == EthicalCompliance(req, m2)
    ensures !EthicalCompliance(req, m1).0
  {
  }

  /** Under `identity_verification`, e-mail and phone hits alone do not reject,
      while a social-security or card number still does. */
  lemma {:induction false} IdentityVerificationAllowsContactData(req: Request, piiMatch: (PiiKind, string) -> bool)
    requires Lower(req.useCaseHeader.GetOr("")) == "identity_verification"
    requires FirstKeywordFrom(Lower(RequestData(req)), 0).None?
    ensures !piiMatch(SsnPattern, RequestData(req)) && !piiMatch(CreditCardPattern, RequestData(req)) ==>
      EthicalCompliance(req, piiMatch) == (true, "Conforme")
    ensures piiMatch(SsnPattern, RequestData(req)) ==>
      EthicalCompliance(req, piiMatch) == (false, PiiReason(SsnPattern))
    ensures !piiMatch(SsnPattern, RequestData(req)) && piiMatch(CreditCardPattern, RequestData(req)) ==>
      EthicalCompliance(req, piiMatch) == (false, PiiReason(CreditCardPattern))
  {
    var text := RequestData(req);
    var uc := Lower(req.useCaseHeader.GetOr(""));
    var r := FirstPiiFrom(text, uc, piiMatch, 0);
    assert PiiOrder[2] == SsnPattern && PiiOrder[3] == CreditCardPattern;
    if piiMatch(SsnPattern, text) {
      assert r.Some?;
      var j :| 0 <= j < |PiiOrder| && PiiOrder[j] == r.value &&
        forall i :: 0 <= i < j ==> !piiMatch(PiiOrder[i], text) || PiiAllowed(uc, PiiOrder[i]);
      assert j == 2;
    } else if piiMatch(CreditCardPattern, text) {
      assert r.Some?;
      var j :| 0 <= j < |PiiOrder| && PiiOrder[j] == r.value &&
        forall i :: 0 <= i < j ==> !piiMatch(PiiOrder[i], text) || PiiAllowed(uc, PiiOrder[i]);
      assert j == 3;
    }
  }

  // ---------------------------------------------------------------------------
  // GDPR
  // ---------------------------------------------------------------------------

  const PurposeMessage: string := "La finalité du traitement doit être explicite et détaillée"
  const RetentionNotPositiveMessage: string := "La durée de conservation doit être positive"
  const RetentionTooLongMessage: string := "La durée de conservation ne doit pas excéder 1 an sans justification"

  /** `check_compliance_with_gdpr`: the purpose must have at least ten
      characters, and the retention must lie between 1 and 365 days; the
      purpose is checked first. */
  function CheckGdpr(purpose: Option<string>, retentionDays: int): (r: (bool, string))
    ensures r.0 <==> purpose.Some? && |purpose.value| >= 10 && 1 <= retentionDays <= 365
    ensures (purpose.None? || |purpose.value| < 10) ==> r.1 == PurposeMessage
    ensures r.0 ==> r.1 == "Conforme au RGPD"
    ensures !r.0 && purpose.Some? && |purpose.value| >= 10 ==>
      r.1 == (if retentionDays <= 0 then RetentionNotPositiveMessage else RetentionTooLongMessage)
  {
    if purpose.None? || purpose.value == "" || |purpose.value| < 10 then (false, PurposeMessage)
    else if retentionDays <= 0 then (false, RetentionNotPositiveMessage)
    else if retentionDays > 365 then (false, RetentionTooLongMessage)
    else (true, "Conforme au RGPD")
  }

  // ---------------------------------------------------------------------------
  // Privacy notice
  // ---------------------------------------------------------------------------

  const NoticeHead: string := "\n# Notice de Confidentialité - TheWatcher\n\n## Données collectées\n"
  const NoticePurposes: string := "\n\n## Finalités du traitement\n"
  const NoticeRetention: string := "\n\n## Durée de conservation\n"
  const NoticeRecipients: string := "\n\n## Destinataires des données\n"
  const NoticeRights: string :=
    "\n\n## Droits des personnes concernées\n" +
    "Vous disposez d'un droit d'accès, de rectification, d'effacement, de limitation, de portabilité et d'opposition\n" +
    "concernant vos données personnelles. Pour exercer ces droits, contactez privacy@thewatcher.example.com.\n    "

  /** `generate_privacy_notice`: the fixed sections with each list joined by
      `", "` and the retention followed by ` jours`. */
  function PrivacyNotice(dataCategories: seq<string>, purposes: seq<string>, retentionDays: int, recipients: seq<string>): (notice: string)
    ensures Contains(notice, Join(", ", dataCategories))
    ensures Contains(notice, Join(", ", purposes))
    ensures Contains(notice, IntToString(retentionDays) + " jours")
    ensures Contains(notice, Join(", ", recipients))
  {
    var dc := Join(", ", dataCategories);
    var pp := Join(", ", purposes);
    var rp := IntToString(retentionDays) + " jours";
    var rc := Join(", ", recipients);
    var s1 := NoticeHead + dc;
    var s2 := s1 + NoticePurposes + pp;
    var s3 := s2 + NoticeRetention + rp;
    var s4 := s3 + NoticeRecipients + rc;
    var notice := s4 + NoticeRights;
    ContainsSelf(dc);
    ContainsPrependLeft(NoticeHead, dc, dc);
    ContainsAppendRight(s1, NoticePurposes, dc);
    ContainsAppendRight(s1 + NoticePurposes, pp, dc);
    ContainsSelf(pp);
    ContainsPrependLeft(s1 + NoticePurposes, pp, pp);
    ContainsAppendRight(s2, NoticeRetention, dc);
    ContainsAppendRight(s2, NoticeRetention, pp);
    ContainsAppendRight(s2 + NoticeRetention, rp, dc);
    ContainsAppendRight(s2 + NoticeRetention, rp, pp);
    ContainsSelf(rp);
    ContainsPrependLeft(s2 + NoticeRetention, rp, rp);
    ContainsAppendRight(s3, NoticeRecipients, dc);
    ContainsAppendRight(s3, NoticeRecipients, pp);
    ContainsAppendRight(s3, NoticeRecipients, rp);
    ContainsAppendRight(s3 + NoticeRecipients, rc, dc);
    ContainsAppendRight(s3 + NoticeRecipients, rc, pp);
    ContainsAppendRight(s3 + NoticeRecipients, rc, rp);
    ContainsSelf(rc);
    ContainsPrependLeft(s3 + NoticeRecipients, rc, rc);
    ContainsAppendRight(s4, NoticeRights, dc);
    ContainsAppendRight(s4, NoticeRights, pp);
    ContainsAppendRight(s4, NoticeRights, rp);
    ContainsAppendRight(s4, NoticeRights, rc);
    notice
  }
}
