/** The request gate and the front-end fallback of the Flask application
    (backend/app.py): `before_request` decides, from the path, the headers
    and two settings, whether a request passes, is refused with a 403, or
    skips the checks, and whether it is written to the audit log; `serve`
    picks the static file to send. */
module App {
  import opened Wrappers
  import opened Text
  import LegalCheck
  import Routes

  type Request = LegalCheck.Request
  type PiiMatch = (LegalCheck.PiiKind, string) -> bool

  /** What `before_request` does with a request: let it through without any
      check or audit (`Skip`), refuse it with a 403 and an error body, or admit
      it, with an audit record written or not. */
  datatype Verdict = Skip | Refuse(error: string, message: string) | Admit(audited: bool)

  const ConsentError: string := "Consentement éthique requis"
  const ConsentMessage: string := "Vous devez accepter les directives éthiques pour utiliser cette API"
  const UseCaseError: string := "Cas d'usage non autorisé"
  const UseCaseMessage: string := "Le cas d'usage spécifié n'est pas autorisé"
  const ComplianceError: string := "Non-conformité éthique"

  /** Paths that are never checked nor audited. */
  predicate Exempt(path: string) {
    IsPrefix("/static", path) || IsPrefix("/api/docs", path)
  }

  /** Requests that go through the ethical checks, when they are enabled. */
  predicate Gated(path: string) {
    IsPrefix("/api/search", path)
  }

  /** The `X-Ethical-Consent` header is there and is `true` in any case. */
  predicate Consented(consent: Option<string>)
    ensures Consented(consent) ==> consent.Some? && |consent.value| == 4
  {
    consent.Some? && consent.value != "" && Lower(consent.value) == "true"
  }

  /** A checked path is never an exempt one, so the ethical checks cannot be
      skipped by the static and documentation prefixes. */
  lemma PathClasses(path: string)
    ensures Gated(path) ==> !Exempt(path)
  {
    if Gated(path) {
      assert path[1] == "/api/search"[1] && path[5] == "/api/search"[5];
      assert "/static"[1] != 'a' && "/api/docs"[5] != 's';
    }
  }

  /** Static files and the documentation are exempt; the history is neither
      exempt nor gated; a search is gated. */
  lemma PathClassExamples()
    ensures Exempt("/static/app.js") && Exempt("/api/docs/index.html") && !Gated("/api/history")
    ensures Gated("/api/search/person") && !Exempt("/api/search/person")
  {
    var search := "/api/search" + "/person";
    assert search[..11] == "/api/search";
    assert "/api/search/person" == search;
    PathClasses(search);
    var st := "/static" + "/app.js";
    assert st[..7] == "/static";
    assert "/static/app.js" == st;
    var docs := "/api/docs" + "/index.html";
    assert docs[..9] == "/api/docs";
    assert "/api/docs/index.html" == docs;
    assert "/api/history"[5] != 's';
  }

  /** `before_request`. The checks of a gated path run in order: consent,
      use case, then the compliance of the request; the first that fails
      answers. A request that passes is audited when the history is kept,
      unless it is an `OPTIONS` request. A failing audit write is logged and
      changes nothing, so it is not part of the verdict. */
  function BeforeRequest(req: Request, ethicalCheckEnabled: bool, saveSearchHistory: bool,
                         piiMatch: PiiMatch): (v: Verdict)
    ensures Exempt(req.path) <==> v == Skip
    ensures v.Refuse? ==> Gated(req.path) && ethicalCheckEnabled
    ensures v.Admit? ==> (v.audited <==> saveSearchHistory && req.httpMethod != "OPTIONS")
    ensures !Exempt(req.path) && !(Gated(req.path) && ethicalCheckEnabled) ==> v.Admit?
  {
    if Exempt(req.path) then Skip
    else if Gated(req.path) && ethicalCheckEnabled && !Consented(req.consentHeader) then
      Refuse(ConsentError, ConsentMessage)
    else if Gated(req.path) && ethicalCheckEnabled && !LegalCheck.ValidateUseCase(req.useCaseHeader) then
      Refuse(UseCaseError, UseCaseMessage)
    else if Gated(req.path) && ethicalCheckEnabled && !LegalCheck.EthicalCompliance(req, piiMatch).0 then
      Refuse(ComplianceError, LegalCheck.EthicalCompliance(req, piiMatch).1)
    else Admit(saveSearchHistory && req.httpMethod != "OPTIONS")
  }

  /** On a checked path, the refusals come in order: without consent the
      answer is the consent error whatever the use case and the request say;
      with consent, a bad use case is refused for that alone; and the
      compliance of the request decides only once both have passed, with its
      reason as the message. */
  lemma GateOrder(req: Request, saveSearchHistory: bool, piiMatch: PiiMatch)
    requires !Exempt(req.path) && Gated(req.path)
    ensures !Consented(req.consentHeader) ==>
      BeforeRequest(req, true, saveSearchHistory, piiMatch) == Refuse(ConsentError, ConsentMessage)
    ensures Consented(req.consentHeader) && !LegalCheck.ValidateUseCase(req.useCaseHeader) ==>
      BeforeRequest(req, true, saveSearchHistory, piiMatch) == Refuse(UseCaseError, UseCaseMessage)
    ensures Consented(req.consentHeader) && LegalCheck.ValidateUseCase(req.useCaseHeader) ==>
      (BeforeRequest(req, true, saveSearchHistory, piiMatch).Admit? <==> LegalCheck.EthicalCompliance(req, piiMatch).0)
    ensures BeforeRequest(req, true, saveSearchHistory, piiMatch) == Refuse(ComplianceError, LegalCheck.EthicalCompliance(req, piiMatch).1) <==>
      Consented(req.consentHeader) && LegalCheck.ValidateUseCase(req.useCaseHeader) && !LegalCheck.EthicalCompliance(req, piiMatch).0
  {
  }

  /** The application's consent test agrees with the one the search routes
      repeat: a missing header counts as the empty string, which is not `true`. */
  lemma ConsentTestsAgree(consent: Option<string>)
    ensures Consented(consent) <==> Routes.ConsentGiven(consent)
  {
    if consent.Some? && consent.value == "" {
      assert Lower("") == "";
    }
    if consent.None? {
      assert Lower("") == "";
    }
  }

  const IndexPage: string := "index.html"

  /** `serve`: the requested static file when the path is not empty and the
      file exists, otherwise the front end's `index.html`. */
  function Serve(path: string, pathExists: string -> bool): (file: string)
    ensures path != "" && pathExists(path) ==> file == path
    ensures !(path != "" && pathExists(path)) ==> file == IndexPage
    ensures file != "" && (pathExists(file) || file == IndexPage)
  {
    if path != "" && pathExists(path) then path else IndexPage
  }
}
