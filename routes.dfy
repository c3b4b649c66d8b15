/** The decision logic of the REST routes (backend/routes.py): the upload
    extension whitelist, the consent, use-case and input gates of the three
    search routes, the engine selection of the photo search, the result
    counts stored in the history, the access rule and the photo aggregation
    of the report route, and the page-size cap of the history. */
module Routes {
  import opened Wrappers
  import opened Text
  import LegalCheck
  import SocialOsint
  import DataAggregator

  type Image = DataAggregator.Image
  type ImageItem = DataAggregator.ImageItem
  type EngineResults = DataAggregator.EngineResults
  type ImageBlob = DataAggregator.ImageBlob
  type PersonData = DataAggregator.PersonData

  // ---------------------------------------------------------------------------
  // Uploads
  // ---------------------------------------------------------------------------

  const AllowedExtensions: set<string> := {"png", "jpg", "jpeg", "gif", "webp"}

  /** `allowed_file`: the name has a `.` and the lower-cased text after its
      last `.` is an allowed extension. */
  function AllowedFile(filename: string): (ok: bool)
    ensures ok ==> '.' in filename
  {
    '.' in filename && Lower(AfterLast(filename, '.')) in AllowedExtensions
  }

  /** Only the text after the last `.` decides, whatever comes before it. */
  lemma AllowedFileByExtension(stem: string, ext: string)
    requires '.' !in ext
    ensures AllowedFile(stem + "." + ext) <==> Lower(ext) in AllowedExtensions
  {
    var s := stem + "." + ext;
    assert s[|stem|] == '.';
    assert forall j :: |stem| < j < |s| ==> s[j] == ext[j - |stem| - 1];
    var r := AfterLast(s, '.');
    assert |r| == |ext|;
    assert r == s[|s| - |ext|..] == ext;
  }

  /** An upper-case extension is accepted. */
  lemma AllowedFileUpperCase()
    ensures AllowedFile("photo.PNG")
  {
    var lowered := Lower("PNG");
    assert lowered[0] == 'p' && lowered[1] == 'n' && lowered[2] == 'g';
    assert lowered == "png";
    AllowedFileByExtension("photo", "PNG");
    assert "photo" + "." + "PNG" == "photo.PNG";
  }

  /** A second extension after an allowed one is what counts. */
  lemma AllowedFileDoubleExtension()
    ensures !AllowedFile("photo.png.exe")
  {
    var ext := "exe";
    var lowered := Lower(ext);
    assert lowered[0] == 'e';
    assert forall x :: x in AllowedExtensions ==> |x| > 0 && x[0] != 'e';
    AllowedFileByExtension("photo.png", ext);
    assert "photo.png" + "." + ext == "photo.png.exe";
  }

  /** A trailing dot or no dot at all is refused. */
  lemma AllowedFileNoExtension()
    ensures !AllowedFile("photo.")
    ensures !AllowedFile("png")
  {
    AllowedFileByExtension("photo", "");
    assert "photo" + "." + "" == "photo.";
    assert "png"[0] != '.' && "png"[1] != '.' && "png"[2] != '.';
  }

  // ---------------------------------------------------------------------------
  // The gates of the search routes
  // ---------------------------------------------------------------------------

  /** An error answer: its HTTP status and its `error` text. */
  datatype Response = Response(status: int, error: string)

  const NoConsent: Response := Response(403, "Consentement éthique requis")
  const InvalidUseCase: Response := Response(403, "Cas d'usage non valide")

  /** The `X-Ethical-Consent` header, defaulting to `""`, is `true` in any case. */
  predicate ConsentGiven(header: Option<string>) {
    Lower(header.GetOr("")) == "true"
  }

  /** Only a four-letter header spelling `true` in some case gives consent;
      a missing header does not. */
  lemma ConsentGivenFacts(header: Option<string>)
    ensures ConsentGiven(header) ==> header.Some? && |header.value| == 4 && Lower(header.value) == "true"
    ensures ConsentGiven(Some("true")) && ConsentGiven(Some("TRUE")) && ConsentGiven(Some("True"))
    ensures !ConsentGiven(None) && !ConsentGiven(Some("yes")) && !ConsentGiven(Some("1"))
  {
    assert Lower("TRUE") == "true" by { var l := Lower("TRUE"); assert l[0] == 't' && l[1] == 'r' && l[2] == 'u' && l[3] == 'e'; }
    assert Lower("True") == "true" by { var l := Lower("True"); assert l[0] == 't' && l[1] == 'r' && l[2] == 'u' && l[3] == 'e'; }
    assert Lower("true") == "true" by { var l := Lower("true"); assert l[0] == 't' && l[1] == 'r' && l[2] == 'u' && l[3] == 'e'; }
    assert |Lower("yes")| == 3 && |Lower("1")| == 1 && |Lower("")| == 0;
  }

  /** The two checks every search route makes first: consent, then the use case. */
  function SearchGate(consent: Option<string>, useCase: Option<string>): (r: Option<Response>)
    ensures r == Some(NoConsent) <==> !ConsentGiven(consent)
    ensures r == Some(InvalidUseCase) <==> ConsentGiven(consent) && !LegalCheck.ValidateUseCase(useCase)
    ensures r.None? <==> ConsentGiven(consent) && LegalCheck.ValidateUseCase(useCase)
  {
    if !ConsentGiven(consent) then Some(NoConsent)
    else if !LegalCheck.ValidateUseCase(useCase) then Some(InvalidUseCase)
    else None
  }

  /** The upload check of the photo search: a file under `image`, a non-empty
      name and an allowed extension. `None` is a file without a name given. */
  function UploadCheck(file: Option<string>): (r: Option<Response>)
    ensures r.None? <==> file.Some? && AllowedFile(file.value)
    ensures r.Some? ==> r.value.status == 400
  {
    match file
    case None => Some(Response(400, "Aucune image fournie"))
    case Some(filename) =>
      if filename == "" then Some(Response(400, "Nom de fichier vide"))
      else if !AllowedFile(filename) then Some(Response(400, "Type de fichier non autorisé"))
      else None
  }

  /** The field a search needs, missing (`None`) or empty, is refused. */
  function RequiredField(value: Option<string>, error: string): (r: Option<Response>)
    ensures r.None? <==> value.Some? && value.value != ""
    ensures r.Some? ==> r.value == Response(400, error)
  {
    if value.None? || value.value == "" then Some(Response(400, error)) else None
  }

  /** What a search route answers before it searches: the gate first, then
      its own input check; `None` means the search runs. */
  function SearchEntry(consent: Option<string>, useCase: Option<string>, input: Option<Response>): (r: Option<Response>)
    ensures !ConsentGiven(consent) ==> r == Some(NoConsent)
    ensures ConsentGiven(consent) && !LegalCheck.ValidateUseCase(useCase) ==> r == Some(InvalidUseCase)
    ensures r.Some? && r.value.status != 403 ==> ConsentGiven(consent) && LegalCheck.ValidateUseCase(useCase)
    ensures r.None? <==> SearchGate(consent, useCase).None? && input.None?
  {
    if SearchGate(consent, useCase).Some? then SearchGate(consent, useCase) else input
  }

  /** The photo search refuses an upload only once consent and use case have passed. */
  lemma PhotoGateOrder(consent: Option<string>, useCase: Option<string>, file: Option<string>)
    ensures var r := SearchEntry(consent, useCase, UploadCheck(file));
      (r.Some? && r.value.status == 400 <==>
        ConsentGiven(consent) && LegalCheck.ValidateUseCase(useCase) && !(file.Some? && AllowedFile(file.value))) &&
      (r.None? <==> ConsentGiven(consent) && LegalCheck.ValidateUseCase(useCase) && file.Some? && AllowedFile(file.value))
  {
  }

  /** The person search needs a non-empty name, the username search a non-empty username. */
  function PersonSearchEntry(consent: Option<string>, useCase: Option<string>, name: Option<string>): Option<Response> {
    SearchEntry(consent, useCase, RequiredField(name, "Nom requis"))
  }

  function UsernameSearchEntry(consent: Option<string>, useCase: Option<string>, username: Option<string>): Option<Response> {
    SearchEntry(consent, useCase, RequiredField(username, "Nom d'utilisateur requis"))
  }

  /** Whatever the name, a request without consent is refused for consent. */
  lemma ConsentCheckedFirst(consent: Option<string>, useCase: Option<string>, name: Option<string>)
    requires !ConsentGiven(consent)
    ensures PersonSearchEntry(consent, useCase, name) == Some(NoConsent)
    ensures UsernameSearchEntry(consent, useCase, name) == Some(NoConsent)
  {
  }

  // ---------------------------------------------------------------------------
  // Engine selection of the photo search
  // ---------------------------------------------------------------------------

  /** The engines a comma-separated choice can name, in the order they are tried. */
  const KnownEngines: seq<string> := ["google", "google_api", "yandex", "tineye"]

  /** The candidates named in `requested`, in the order of the candidates. */
  function Chosen(candidates: seq<string>, requested: seq<string>): (chosen: seq<string>)
    ensures forall e :: e in chosen <==> e in candidates && e in requested
    ensures |chosen| <= |candidates|
  {
    if candidates == [] then []
    else
      var init := Chosen(candidates[..|candidates| - 1], requested);
      var last := candidates[|candidates| - 1];
      assert candidates == candidates[..|candidates| - 1] + [last];
      if last in requested then init + [last] else init
  }

  /** Each engine with its result, in order. */
  function Runs<R>(engines: seq<string>, run: string -> R): (rs: seq<(string, R)>)
    ensures |rs| == |engines| && forall i :: 0 <= i < |engines| ==> rs[i] == (engines[i], run(engines[i]))
  {
    if engines == [] then [] else Runs(engines[..|engines| - 1], run) + [(engines[|engines| - 1], run(engines[|engines| - 1]))]
  }

  /** One engine of the selection, the `k`-th of `engines`: run and stored
      when it was asked for. */
  method TryEngine<R>(results: seq<(string, R)>, engines: seq<string>, k: nat, requested: seq<string>,
                      run: string -> R) returns (results': seq<(string, R)>)
    requires k < |engines| && results == Runs(Chosen(engines[..k], requested), run)
    ensures results' == Runs(Chosen(engines[..k + 1], requested), run)
  {
    var done, engine := engines[..k], engines[k];
    assert engines[..k + 1] == done + [engine];
    assert (done + [engine])[..|done|] == done;
    results' := results;
    if engine in requested {
      results' := results' + [(engine, run(engine))];
      assert Chosen(done + [engine], requested) == Chosen(done, requested) + [engine];
      assert Runs(Chosen(done, requested) + [engine], run)[..|Chosen(done, requested)|] == Runs(Chosen(done, requested), run);
    }
  }

  /** The reverse search of the photo route: every engine for `all`, else
      the known engines named in the comma-separated list, in the known
      order, each with its own result. */
  method SelectEngines<R>(searchEngines: string, searchAll: seq<(string, R)>, run: string -> R)
    returns (results: seq<(string, R)>)
    ensures searchEngines == "all" ==> results == searchAll
    ensures searchEngines != "all" ==> results == Runs(Chosen(KnownEngines, Split(searchEngines, ',')), run)
  {
    if searchEngines == "all" {
      return searchAll;
    }
    results := TryEngines(KnownEngines, Split(searchEngines, ','), run);
  }

  /** The four engine checks, one after the other. */
  method TryEngines<R>(engines: seq<string>, requested: seq<string>, run: string -> R)
    returns (results: seq<(string, R)>)
    requires |engines| == 4
    ensures results == Runs(Chosen(engines, requested), run)
  {
    assert engines[..0] == [];
    results := [];
    results := TryEngine(results, engines, 0, requested, run);
    results := TryEngine(results, engines, 1, requested, run);
    results := TryEngine(results, engines, 2, requested, run);
    results := TryEngine(results, engines, 3, requested, run);
    assert engines[..4] == engines;
  }

  /** An engine has a result exactly when it is known and named as a whole
      field of the list, which is not trimmed. */
  lemma SelectedEngines<R>(searchEngines: string, run: string -> R, engine: string)
    requires searchEngines != "all"
    ensures var rs := Runs(Chosen(KnownEngines, Split(searchEngines, ',')), run);
      (exists i :: 0 <= i < |rs| && rs[i].0 == engine) <==> engine in KnownEngines && engine in Split(searchEngines, ',')
  {
    var chosen := Chosen(KnownEngines, Split(searchEngines, ','));
    var rs := Runs(chosen, run);
    if engine in chosen {
      var i :| 0 <= i < |chosen| && chosen[i] == engine;
      assert rs[i].0 == engine;
    }
  }

  // ---------------------------------------------------------------------------
  // Result counts stored in the history
  // ---------------------------------------------------------------------------

  /** `results_count` of a person search: the number of profiles over all platforms. */
  function PersonResultsCount(r: SocialOsint.PersonSearch): (n: nat)
    ensures forall i :: 0 <= i < |r.profiles| ==> |r.profiles[i].1| <= n
    ensures n == 0 <==> forall i :: 0 <= i < |r.profiles| ==> r.profiles[i].1 == []
  {
    SocialOsint.TotalProfilesBounds(r.profiles);
    SocialOsint.TotalProfiles(r.profiles)
  }

  /** `results_count` of a username search: the length of its accounts. */
  function UsernameResultsCount(r: SocialOsint.UsernameSearch): (n: nat)
    ensures r.accounts.AccountMap? ==> n == |r.accounts.sites|
    ensures r.accounts.AccountValue? ==> n == r.accounts.size
  {
    SocialOsint.AccountsLen(r.accounts)
  }

  /** It is the `total_accounts` of the search's stats. */
  lemma UsernameResultsCountIsTotal(username: string, sherlock: SocialOsint.SherlockResult)
    ensures UsernameResultsCount(SocialOsint.SearchUsername(username, sherlock)) ==
            SocialOsint.SearchUsername(username, sherlock).totalAccounts
  {
  }

  // ---------------------------------------------------------------------------
  // The report route
  // ---------------------------------------------------------------------------

  /** The stored search a report is asked for: its owner (`None` for an
      anonymous search), its type and its search term. */
  datatype SearchRecord = SearchRecord(owner: Option<string>, searchType: string, searchTerm: string)

  /** What the report route goes on to do. */
  datatype ReportKind = PersonReport | UsernameReport | PhotoReport
  datatype ReportStep = Refuse(response: Response) | BuildReport(kind: ReportKind)

  /** A logged-in identity: present and not empty. */
  predicate LoggedIn(currentUser: Option<string>) {
    currentUser.Some? && currentUser.value != ""
  }

  /** The checks of the report route, in their order: the search exists, the
      user may see it, it has stored results, and its type has a report. */
  function ReportRoute(record: Option<SearchRecord>, currentUser: Option<string>, hasResults: bool): (step: ReportStep)
    ensures record.None? <==> step == Refuse(Response(404, "Recherche non trouvée"))
    ensures step == Refuse(Response(403, "Non autorisé")) <==>
      record.Some? && LoggedIn(currentUser) && record.value.owner != currentUser
    ensures step.BuildReport? ==> record.Some? && hasResults && (!LoggedIn(currentUser) || record.value.owner == currentUser)
    ensures step.BuildReport? ==> (step.kind == PhotoReport <==> record.value.searchType == "photo")
    ensures step.BuildReport? ==> (step.kind == PersonReport <==> record.value.searchType == "person")
    ensures step.BuildReport? ==> (step.kind == UsernameReport <==> record.value.searchType == "username")
    ensures record.Some? && !(LoggedIn(currentUser) && record.value.owner != currentUser) && hasResults ==>
      (step.BuildReport? <==> record.value.searchType in {"person", "username", "photo"})
    ensures (record.Some? && !(LoggedIn(currentUser) && record.value.owner != currentUser) && hasResults &&
             record.value.searchType !in {"person", "username", "photo"}) ==>
      step == Refuse(Response(400, "Type de recherche non pris en charge pour la génération de rapport"))
  {
    if record.None? then Refuse(Response(404, "Recherche non trouvée"))
    else if LoggedIn(currentUser) && record.value.owner != currentUser then Refuse(Response(403, "Non autorisé"))
    else if !hasResults then Refuse(Response(404, "Aucun résultat trouvé pour cette recherche"))
    else if record.value.searchType == "person" then BuildReport(PersonReport)
    else if record.value.searchType == "username" then BuildReport(UsernameReport)
    else if record.value.searchType == "photo" then BuildReport(PhotoReport)
    else Refuse(Response(400, "Type de recherche non pris en charge pour la génération de rapport"))
  }

  /** A search made anonymously can be reported only to anonymous callers;
      anyone may report nothing more than what they own. */
  lemma AnonymousSearchesStayAnonymous(record: SearchRecord, currentUser: Option<string>, hasResults: bool)
    requires record.owner.None? && LoggedIn(currentUser)
    ensures ReportRoute(Some(record), currentUser, hasResults) == Refuse(Response(403, "Non autorisé"))
  {
  }

  // ---------------------------------------------------------------------------
  // Photo report aggregation
  // ---------------------------------------------------------------------------

  /** The engines whose similar images go into a photo report. */
  predicate CollectedEngine(engine: string) {
    engine == "google" || engine == "yandex"
  }

  /** An element of `similar_images` as a report image: its `url` (`""`
      when missing) and the engine as source. `image.get` fails on an
      element that is not a map, and so does the route. */
  function PhotoImage(engine: string, item: ImageItem): (img: Option<Image>)
    ensures img.None? <==> item.NonDictImage?
    ensures img.Some? ==> img.value.url == item.url.GetOr("") && img.value.source == engine && img.value.pageUrl.None?
  {
    match item
    case ImageEntry(url, _) => Some(DataAggregator.Image(url.GetOr(""), engine, None))
    case NonDictImage => None
  }

  /** The images of one engine's `similar_images`, or `None` at the first
      element that is not a map: one image per element, in order, each with
      the element's url and the engine as source. */
  function ItemImages(engine: string, items: seq<ImageItem>): (r: Option<seq<Image>>)
    ensures r.Some? <==> forall j :: 0 <= j < |items| ==> items[j].ImageEntry?
    ensures r.Some? ==>
      |r.value| == |items| &&
      forall j :: 0 <= j < |items| ==> r.value[j] == DataAggregator.Image(items[j].url.GetOr(""), engine, None)
  {
    if items == [] then Some([])
    else
      var init := items[..|items| - 1];
      assert forall j :: 0 <= j < |init| ==> init[j] == items[j];
      match (ItemImages(engine, init), PhotoImage(engine, items[|items| - 1]))
      case (Some(imgs), Some(img)) => Some(imgs + [img])
      case _ => None
  }

  /** The images one engine contributes: its similar images when it is google
      or yandex and has them, else none. */
  function EngineImages(engine: string, results: EngineResults): (r: Option<seq<Image>>)
    ensures !CollectedEngine(engine) || results.similarImages.None? ==> r == Some([])
    ensures r.None? <==> (CollectedEngine(engine) && results.similarImages.Some? &&
      exists j :: 0 <= j < |results.similarImages.value| && results.similarImages.value[j].NonDictImage?)
    ensures r.Some? ==> forall k :: 0 <= k < |r.value| ==> r.value[k].source == engine && r.value[k].pageUrl.None?
  {
    if CollectedEngine(engine) && results.similarImages.Some? then ItemImages(engine, results.similarImages.value)
    else Some([])
  }

  /** The images of all engines, in order; `None` when the route fails. A
      collected image comes from google or yandex, carries the engine as its
      source and has no page URL. */
  function PhotoImages(blob: ImageBlob): (r: Option<seq<Image>>)
    ensures r.Some? ==>
      forall k :: 0 <= k < |r.value| ==> CollectedEngine(r.value[k].source) && r.value[k].pageUrl.None?
  {
    if blob == [] then Some([])
    else
      match (PhotoImages(blob[..|blob| - 1]), EngineImages(blob[|blob| - 1].0, blob[|blob| - 1].1))
      case (Some(a), Some(b)) => Some(a + b)
      case _ => None
  }

  /** The route fails exactly when a google or yandex entry has a similar
      image that is not a map. */
  lemma {:induction false} PhotoImagesFail(blob: ImageBlob)
    ensures PhotoImages(blob).None? <==>
      exists i :: 0 <= i < |blob| && CollectedEngine(blob[i].0) && blob[i].1.similarImages.Some? &&
        exists j :: 0 <= j < |blob[i].1.similarImages.value| && blob[i].1.similarImages.value[j].NonDictImage?
  {
    if blob != [] {
      var init := blob[..|blob| - 1];
      var e := blob[|blob| - 1];
      PhotoImagesFail(init);
      assert forall i :: 0 <= i < |init| ==> init[i] == blob[i];
    }
  }

  /** Entries of the other engines change nothing. */
  lemma PhotoImagesIgnoresOthers(blob: ImageBlob, engine: string, results: EngineResults)
    requires !CollectedEngine(engine)
    ensures PhotoImages(blob + [(engine, results)]) == PhotoImages(blob)
  {
    assert (blob + [(engine, results)])[..|blob|] == blob;
    if PhotoImages(blob).Some? {
      assert PhotoImages(blob).value + [] == PhotoImages(blob).value;
    }
  }

  /** The loops of the photo branch: the similar images of each google and
      yandex entry are appended, in order. */
  method CollectPhotoImages(imageSearch: Option<ImageBlob>) returns (r: Option<seq<Image>>)
    ensures imageSearch.None? ==> r == Some([])
    ensures imageSearch.Some? ==> r == PhotoImages(imageSearch.value)
  {
    if imageSearch.None? {
      return Some([]);
    }
    var blob := imageSearch.value;
    var images: seq<Image> := [];
    for i := 0 to |blob|
      invariant PhotoImages(blob[..i]) == Some(images)
    {
      assert blob[..i + 1][..i] == blob[..i];
      var engine, results := blob[i].0, blob[i].1;
      if CollectedEngine(engine) && results.similarImages.Some? {
        var more := AppendItemImages(engine, results.similarImages.value);
        if more.None? {
          PhotoImagesNoneFrom(blob, i + 1);
          return None;
        }
        images := images + more.value;
      } else {
        assert images + [] == images;
      }
    }
    assert blob[..|blob|] == blob;
    r := Some(images);
  }

  /** The inner loop: one image per element of `similar_images`. */
  method AppendItemImages(engine: string, items: seq<ImageItem>) returns (r: Option<seq<Image>>)
    ensures r == ItemImages(engine, items)
  {
    var imgs: seq<Image> := [];
    for j := 0 to |items|
      invariant ItemImages(engine, items[..j]) == Some(imgs)
    {
      assert items[..j + 1][..j] == items[..j];
      var img := PhotoImage(engine, items[j]);
      if img.None? {
        ItemImagesNoneFrom(engine, items, j + 1);
        return None;
      }
      imgs := imgs + [img.value];
    }
    assert items[..|items|] == items;
    r := Some(imgs);
  }

  /** Once a prefix has failed, the whole list fails. */
  lemma {:induction false} ItemImagesNoneFrom(engine: string, items: seq<ImageItem>, j: nat)
    requires j <= |items| && ItemImages(engine, items[..j]).None?
    ensures ItemImages(engine, items).None?
    decreases |items| - j
  {
    if j < |items| {
      assert items[..j + 1][..j] == items[..j];
      ItemImagesNoneFrom(engine, items, j + 1);
    } else {
      assert items[..j] == items;
    }
  }

  /** Once the entries up to `i` have failed, the whole route fails. */
  lemma {:induction false} PhotoImagesNoneFrom(blob: ImageBlob, i: nat)
    requires i <= |blob| && PhotoImages(blob[..i]).None?
    ensures PhotoImages(blob).None?
    decreases |blob| - i
  {
    if i < |blob| {
      assert blob[..i + 1][..i] == blob[..i];
      PhotoImagesNoneFrom(blob, i + 1);
    } else {
      assert blob[..i] == blob;
    }
  }

  /** The data a photo report is generated from: the search term as name, the
      collected images, the single source `image_search` and a fixed
      confidence of 50. There is no update time; the report does not read it. */
  function PhotoReportData(searchTerm: string, images: seq<Image>): (p: PersonData)
    ensures p.name == searchTerm && p.images == images
    ensures p.sources == ["image_search"] && p.confidence == 50
    ensures p.socialProfiles == [] && p.emails == []
  {
    DataAggregator.PersonData(searchTerm, "", [], images, [], [], [], [], [], [], ["image_search"], 50)
  }

  // ---------------------------------------------------------------------------
  // History
  // ---------------------------------------------------------------------------

  /** The history's page size: the requested `per_page` (10 when missing or
      not an integer), at most 50. */
  function PerPage(requested: Option<int>): (n: int)
    ensures n <= 50 && n <= requested.GetOr(10)
    ensures n == 50 || n == requested.GetOr(10)
  {
    var perPage := requested.GetOr(10);
    if perPage < 50 then perPage else 50
  }
}
