/** Social-network searches (backend/modules/social_osint.py). The browser, the
    search-engine page and the Sherlock process are inputs: what the page
    showed, or how the process ended. Modelled are which result blocks become
    profiles, how the queries are composed, how `search_person` and
    `search_username` assemble their results and statistics, and the proxy
    argument handed to Sherlock. */
module SocialOsint {
  import opened Wrappers
  import opened Text
  import Config

  /** A profile record; each field is absent (`None`) or a text. The scraper
      always sets the name and the url; other producers may not. */
  datatype Profile = Profile(name: Option<string>, url: Option<string>, description: Option<string>)

  datatype Platform = LinkedIn | Facebook | Twitter | Instagram

  function PlatformKey(p: Platform): string {
    match p
    case LinkedIn => "linkedin"
    case Facebook => "facebook"
    case Twitter => "twitter"
    case Instagram => "instagram"
  }

  /** Whether a result link is a profile of the platform (and not a search,
      hashtag or post page). */
  predicate Accepts(p: Platform, url: string) {
    match p
    case LinkedIn => Contains(url, "linkedin.com/in/")
    case Facebook => Contains(url, "facebook.com/") && !Contains(url, "facebook.com/search")
    case Twitter => Contains(url, "twitter.com/") && !Contains(url, "twitter.com/search") && !Contains(url, "twitter.com/hashtag")
    case Instagram => Contains(url, "instagram.com/") && !Contains(url, "instagram.com/p/")
  }

  /** An accepted link always points into the platform's own site, and the
      search, hashtag and post pages are never accepted. */
  lemma AcceptsNamesSite(p: Platform, url: string)
    ensures Accepts(p, url) ==> Contains(url, PlatformKey(p) + ".com/")
    ensures p == Facebook && Contains(url, "facebook.com/search") ==> !Accepts(p, url)
    ensures p == Twitter && (Contains(url, "twitter.com/search") || Contains(url, "twitter.com/hashtag")) ==> !Accepts(p, url)
    ensures p == Instagram && Contains(url, "instagram.com/p/") ==> !Accepts(p, url)
  {
    if p == LinkedIn && Accepts(p, url) {
      var site: string := "linkedin.com/";
      assert "linkedin.com/in/" == site + "in/";
      ContainsPrefixPart(url, site, "in/");
      assert PlatformKey(p) + ".com/" == site;
    } else if p == Facebook {
      assert PlatformKey(p) + ".com/" == "facebook.com/";
    } else if p == Twitter {
      assert PlatformKey(p) + ".com/" == "twitter.com/";
    } else if p == Instagram {
      assert PlatformKey(p) + ".com/" == "instagram.com/";
    }
  }

  /** A profile link is accepted and a post link is refused. */
  lemma AcceptsExamples()
    ensures Accepts(LinkedIn, "https://fr.linkedin.com/in/jdoe")
    ensures Accepts(Instagram, "instagram.com/jdoe")
  {
    assert OccursAt("https://fr.linkedin.com/in/jdoe", "linkedin.com/in/", 11);
    var ig := "instagram.com/jdoe";
    assert OccursAt(ig, "instagram.com/", 0);
    assert !Contains(ig, "instagram.com/p/") by {
      assert ig[14] != "instagram.com/p/"[14];
      assert ig[1] != "instagram.com/p/"[0];
      assert ig[2] != "instagram.com/p/"[0];
    }
  }

  /** A post link is refused. */
  lemma RefusesPostExample()
    ensures !Accepts(Instagram, "https://" + "instagram.com/p/" + "x")
  {
    var a, sub, c := "https://", "instagram.com/p/", "x";
    assert (a + sub + c)[|a|..|a| + |sub|] == sub;
    assert OccursAt(a + sub + c, sub, |a|);
  }

  // ---------------------------------------------------------------------------
  // Result blocks of a search page
  // ---------------------------------------------------------------------------

  /** The link of a result block; `href` is `None` when the attribute is missing. */
  datatype Anchor = Anchor(href: Option<string>)

  /** One `.g` block of the search page: its first link, the text of its first
      `h3` and the text of its `.VwiC3b` element, each possibly absent. */
  datatype ResultBlock = ResultBlock(link: Option<Anchor>, title: Option<string>, description: Option<string>)

  /** What one block contributes: nothing, a profile, or the `KeyError` raised
      by reading a missing `href`. */
  datatype BlockStep = Skip | Keep(profile: Profile) | MissingHref

  function StepOf(p: Platform, b: ResultBlock): BlockStep {
    if b.link.None? || b.title.None? then Skip
    else match b.link.value.href
      case None => MissingHref
      case Some(u) => if Accepts(p, u) then Keep(Profile(Some(b.title.value), Some(u), b.description)) else Skip
  }

  /** The profiles kept from the blocks, in page order; `None` when some block
      with a link and a title has no `href`. */
  function KeptProfiles(p: Platform, blocks: seq<ResultBlock>): (r: Option<seq<Profile>>)
    ensures r.None? <==> exists k :: 0 <= k < |blocks| && StepOf(p, blocks[k]).MissingHref?
    ensures r.Some? ==> |r.value| <= |blocks|
    ensures r.Some? ==> forall q :: q in r.value ==> exists k :: 0 <= k < |blocks| && StepOf(p, blocks[k]) == Keep(q)
    ensures r.Some? ==> forall k :: 0 <= k < |blocks| && StepOf(p, blocks[k]).Keep? ==> StepOf(p, blocks[k]).profile in r.value
  {
    if blocks == [] then Some([])
    else
      var init := blocks[..|blocks| - 1];
      var last := blocks[|blocks| - 1];
      var prev := KeptProfiles(p, init);
      assert forall k :: 0 <= k < |init| ==> init[k] == blocks[k];
      match prev
      case None => None
      case Some(ps) =>
        match StepOf(p, last)
        case Skip => Some(ps)
        case Keep(q) => Some(ps + [q])
        case MissingHref => None
  }

  /** Every kept profile has a name, a description only where the page gave
      one, and a url the platform accepts. */
  lemma {:induction false} KeptProfilesAreProfiles(p: Platform, blocks: seq<ResultBlock>, q: Profile)
    requires KeptProfiles(p, blocks).Some? && q in KeptProfiles(p, blocks).value
    ensures q.name.Some? && q.url.Some? && Accepts(p, q.url.value)
    ensures exists k :: 0 <= k < |blocks| && blocks[k].title == q.name && blocks[k].description == q.description
  {
    var k :| 0 <= k < |blocks| && StepOf(p, blocks[k]) == Keep(q);
    assert blocks[k].title == q.name;
  }

  /** The scraping loop of the `search_*` methods. */
  method ExtractProfiles(p: Platform, blocks: seq<ResultBlock>) returns (r: Option<seq<Profile>>)
    ensures r == KeptProfiles(p, blocks)
  {
    var results: seq<Profile> := [];
    var i := 0;
    while i < |blocks|
      invariant 0 <= i <= |blocks|
      invariant KeptProfiles(p, blocks[..i]) == Some(results)
    {
      var g := blocks[i];
      assert blocks[..i + 1][..i] == blocks[..i];
      if g.link.Some? && g.title.Some? {
        if g.link.value.href.None? {
          // reading `link_elem['href']` raises, and the method returns its error
          assert blocks[..i + 1][i] == g;
          KeptProfilesMissingHref(p, blocks, i);
          return None;
        }
        var url := g.link.value.href.value;
        if Accepts(p, url) {
          results := results + [Profile(Some(g.title.value), Some(url), g.description)];
        }
      }
      i := i + 1;
    }
    assert blocks[..i] == blocks;
    r := Some(results);
  }

  /** A block without `href` makes the whole extraction fail. */
  lemma KeptProfilesMissingHref(p: Platform, blocks: seq<ResultBlock>, i: nat)
    requires i < |blocks| && StepOf(p, blocks[i]).MissingHref?
    ensures KeptProfiles(p, blocks).None?
  {
  }

  // ---------------------------------------------------------------------------
  // Per-platform searches
  // ---------------------------------------------------------------------------

  /** `query = name`, then `" " + extra` when the extra field is given and non-empty. */
  function Query(name: string, extra: Option<string>): (q: string)
    ensures IsPrefix(name, q)
    ensures q == name <==> extra.None? || extra.value == ""
    ensures q != name ==> IsSuffix(" " + extra.value, q) && |q| == |name| + 1 + |extra.value|
  {
    var query := name;
    if extra.Some? && extra.value != "" then
      assert (query + " " + extra.value)[..|name|] == name;
      query + " " + extra.value
    else query
  }

  /** How loading and waiting for the result page went. */
  datatype PageLoad = Page(blocks: seq<ResultBlock>) | PageTimeout | DriverError(message: string)

  /** A `search_*` result: `{'profiles': [...]}` or `{'error': ...}`. */
  datatype SearchResult = Profiles(profiles: seq<Profile>) | SearchError(error: string)

  const SeleniumUnavailable: string := "Selenium non disponible"
  const SearchTimeout: string := "Timeout lors de la recherche"
  /** `str(KeyError('href'))`. */
  const MissingHrefMessage: string := "'href'"

  /** `search_linkedin`, `search_facebook`, `search_twitter` and
      `search_instagram` once the page has been loaded. */
  function PlatformSearch(p: Platform, seleniumEnabled: bool, page: PageLoad): (r: SearchResult)
    ensures !seleniumEnabled ==> r == SearchError(SeleniumUnavailable)
    ensures seleniumEnabled && page.PageTimeout? ==> r == SearchError(SearchTimeout)
    ensures r.Profiles? <==> seleniumEnabled && page.Page? && KeptProfiles(p, page.blocks).Some?
    ensures r.Profiles? ==> r.profiles == KeptProfiles(p, page.blocks).value
  {
    if !seleniumEnabled then SearchError(SeleniumUnavailable)
    else match page
      case PageTimeout => SearchError(SearchTimeout)
      case DriverError(m) => SearchError(m)
      case Page(blocks) =>
        match KeptProfiles(p, blocks)
        case None => SearchError(MissingHrefMessage)
        case Some(ps) => Profiles(ps)
  }

  /** The query `search_person` passes: the company for LinkedIn, the location
      for Facebook, the bare name for Twitter and Instagram. */
  function PersonQuery(p: Platform, name: string, location: Option<string>, company: Option<string>): (q: string)
    ensures IsPrefix(name, q)
    ensures p == Twitter || p == Instagram ==> q == name
    ensures p == LinkedIn && company.Some? && company.value != "" ==> q == name + " " + company.value
    ensures p == Facebook && location.Some? && location.value != "" ==> q == name + " " + location.value
    ensures q != name ==> p == LinkedIn || p == Facebook
  {
    match p
    case LinkedIn => Query(name, company)
    case Facebook => Query(name, location)
    case Twitter => Query(name, None)
    case Instagram => Query(name, None)
  }

  /** The result of one platform's search within `search_person`; `load(p, q)`
      is what the browser showed for query `q` on platform `p`. */
  function PersonPlatformResult(p: Platform, name: string, location: Option<string>, company: Option<string>,
                                seleniumEnabled: bool, load: (Platform, string) -> PageLoad): SearchResult {
    PlatformSearch(p, seleniumEnabled, load(p, PersonQuery(p, name, location, company)))
  }

  // ---------------------------------------------------------------------------
  // search_person
  // ---------------------------------------------------------------------------

  /** A platform-keyed map of profile lists, in insertion order. */
  type ProfileMap = seq<(string, seq<Profile>)>

  function Keys(m: ProfileMap): (ks: seq<string>)
    ensures |ks| == |m| && forall i :: 0 <= i < |m| ==> ks[i] == m[i].0
  {
    if m == [] then [] else Keys(m[..|m| - 1]) + [m[|m| - 1].0]
  }

  /** `sum(len(profiles) for ...)` over the map. */
  function TotalProfiles(m: ProfileMap): (n: nat)
    ensures m == [] ==> n == 0
  {
    if m == [] then 0 else TotalProfiles(m[..|m| - 1]) + |m[|m| - 1].1|
  }

  /** The total is at least the length of every list in the map, and zero iff all are empty. */
  lemma {:induction false} TotalProfilesBounds(m: ProfileMap)
    ensures forall i :: 0 <= i < |m| ==> |m[i].1| <= TotalProfiles(m)
    ensures TotalProfiles(m) == 0 <==> forall i :: 0 <= i < |m| ==> m[i].1 == []
  {
    if m != [] {
      var init := m[..|m| - 1];
      TotalProfilesBounds(init);
      assert forall i :: 0 <= i < |init| ==> init[i] == m[i];
    }
  }

  lemma {:induction false} TotalProfilesAppend(m: ProfileMap, e: (string, seq<Profile>))
    ensures TotalProfiles(m + [e]) == TotalProfiles(m) + |e.1|
  {
    assert (m + [e])[..|m|] == m;
  }

  datatype PersonSearch = PersonSearch(
    name: string,
    location: Option<string>,
    company: Option<string>,
    profiles: ProfileMap,
    totalProfiles: nat,
    platformCount: nat)

  /** The entries the searches over `order` leave in the map: one per
      platform whose search produced profiles, in the order searched. */
  function IncludedPlatforms(order: seq<Platform>, name: string, location: Option<string>, company: Option<string>,
                             seleniumEnabled: bool, load: (Platform, string) -> PageLoad): (m: ProfileMap)
    ensures |m| <= |order|
  {
    if order == [] then []
    else
      var p := order[|order| - 1];
      var res := PersonPlatformResult(p, name, location, company, seleniumEnabled, load);
      IncludedPlatforms(order[..|order| - 1], name, location, company, seleniumEnabled, load) +
        (if res.Profiles? then [(PlatformKey(p), res.profiles)] else [])
  }

  lemma {:induction false} KeysAppend(m: ProfileMap, e: (string, seq<Profile>))
    ensures Keys(m + [e]) == Keys(m) + [e.0]
  {
    assert (m + [e])[..|m|] == m;
  }

  lemma PlatformKeyInjective(p: Platform, q: Platform)
    ensures PlatformKey(p) == PlatformKey(q) <==> p == q
  {
  }

  /** Searching one more platform adds at most its own entry. */
  lemma IncludedPlatformsStep(order: seq<Platform>, q: Platform, name: string, location: Option<string>, company: Option<string>,
                              seleniumEnabled: bool, load: (Platform, string) -> PageLoad)
    ensures var res := PersonPlatformResult(q, name, location, company, seleniumEnabled, load);
      IncludedPlatforms(order + [q], name, location, company, seleniumEnabled, load) ==
      IncludedPlatforms(order, name, location, company, seleniumEnabled, load) + (if res.Profiles? then [(PlatformKey(q), res.profiles)] else [])
  {
    assert (order + [q])[..|order|] == order;
  }

  /** A platform's key is in the map iff it was searched and its search
      produced profiles; error results leave it out. */
  lemma {:induction false} IncludedPlatformsKeys(order: seq<Platform>, name: string, location: Option<string>, company: Option<string>,
                                                 seleniumEnabled: bool, load: (Platform, string) -> PageLoad, p: Platform)
    ensures PlatformKey(p) in Keys(IncludedPlatforms(order, name, location, company, seleniumEnabled, load)) <==>
      p in order && PersonPlatformResult(p, name, location, company, seleniumEnabled, load).Profiles?
  {
    if order != [] {
      var init := order[..|order| - 1];
      var q := order[|order| - 1];
      assert order == init + [q];
      IncludedPlatformsKeys(init, name, location, company, seleniumEnabled, load, p);
      IncludedPlatformsStep(init, q, name, location, company, seleniumEnabled, load);
      PlatformKeyInjective(p, q);
      var m0 := IncludedPlatforms(init, name, location, company, seleniumEnabled, load);
      var res := PersonPlatformResult(q, name, location, company, seleniumEnabled, load);
      var m := IncludedPlatforms(order, name, location, company, seleniumEnabled, load);
      if res.Profiles? {
        KeysAppend(m0, (PlatformKey(q), res.profiles));
        assert Keys(m) == Keys(m0) + [PlatformKey(q)];
        assert PlatformKey(p) in Keys(m) <==> PlatformKey(p) in Keys(m0) || p == q;
      } else {
        assert m == m0;
      }
    }
  }

  /** Every entry holds the profiles of the search of the platform it is keyed by. */
  lemma {:induction false} IncludedPlatformsEntries(order: seq<Platform>, name: string, location: Option<string>, company: Option<string>,
                                                    seleniumEnabled: bool, load: (Platform, string) -> PageLoad, i: nat)
    requires i < |IncludedPlatforms(order, name, location, company, seleniumEnabled, load)|
    ensures var e := IncludedPlatforms(order, name, location, company, seleniumEnabled, load)[i];
      exists p :: p in order && e.0 == PlatformKey(p) &&
        PersonPlatformResult(p, name, location, company, seleniumEnabled, load) == Profiles(e.1)
  {
    var init := order[..|order| - 1];
    var q := order[|order| - 1];
    var m0 := IncludedPlatforms(init, name, location, company, seleniumEnabled, load);
    var res := PersonPlatformResult(q, name, location, company, seleniumEnabled, load);
    var m := IncludedPlatforms(order, name, location, company, seleniumEnabled, load);
    if i < |m0| {
      IncludedPlatformsEntries(init, name, location, company, seleniumEnabled, load, i);
      var p :| p in init && m0[i].0 == PlatformKey(p) &&
        PersonPlatformResult(p, name, location, company, seleniumEnabled, load) == Profiles(m0[i].1);
      assert m[i] == m0[i];
      assert p in order;
    } else {
      assert m[i] == (PlatformKey(q), res.profiles);
      assert q in order;
    }
  }

  /** The platforms in the order `search_person` searches them. */
  const PersonSearchOrder: seq<Platform> := [LinkedIn, Facebook, Twitter, Instagram]

  /** `search_person`: runs the four searches in order and stores a platform's
      profiles exactly when its search produced some. */
  method SearchPerson(name: string, location: Option<string>, company: Option<string>,
                      seleniumEnabled: bool, load: (Platform, string) -> PageLoad) returns (r: PersonSearch)
    ensures r.name == name && r.location == location && r.company == company
    ensures r.profiles == IncludedPlatforms(PersonSearchOrder, name, location, company, seleniumEnabled, load)
    ensures r.totalProfiles == TotalProfiles(r.profiles)
    ensures r.platformCount == |r.profiles| <= 4
  {
    var profiles: ProfileMap := [];
    profiles := StorePlatform(profiles, [], LinkedIn, name, location, company, seleniumEnabled, load);
    assert [] + [LinkedIn] == [LinkedIn];
    profiles := StorePlatform(profiles, [LinkedIn], Facebook, name, location, company, seleniumEnabled, load);
    assert [LinkedIn] + [Facebook] == [LinkedIn, Facebook];
    profiles := StorePlatform(profiles, [LinkedIn, Facebook], Twitter, name, location, company, seleniumEnabled, load);
    assert [LinkedIn, Facebook] + [Twitter] == [LinkedIn, Facebook, Twitter];
    profiles := StorePlatform(profiles, [LinkedIn, Facebook, Twitter], Instagram, name, location, company, seleniumEnabled, load);
    assert [LinkedIn, Facebook, Twitter] + [Instagram] == PersonSearchOrder;
    r := PersonSearch(name, location, company, profiles, TotalProfiles(profiles), |profiles|);
  }

  /** One search of `search_person`: the platform's profiles are stored
      under its key when its search produced some. */
  method StorePlatform(profiles: ProfileMap, done: seq<Platform>, q: Platform, name: string,
                       location: Option<string>, company: Option<string>,
                       seleniumEnabled: bool, load: (Platform, string) -> PageLoad) returns (profiles': ProfileMap)
    requires profiles == IncludedPlatforms(done, name, location, company, seleniumEnabled, load)
    ensures profiles' == IncludedPlatforms(done + [q], name, location, company, seleniumEnabled, load)
  {
    var res := PersonPlatformResult(q, name, location, company, seleniumEnabled, load);
    profiles' := profiles;
    if res.Profiles? {
      profiles' := profiles' + [(PlatformKey(q), res.profiles)];
    }
    IncludedPlatformsStep(done, q, name, location, company, seleniumEnabled, load);
  }

  // ---------------------------------------------------------------------------
  // Sherlock and search_username
  // ---------------------------------------------------------------------------

  /** The `--proxy` arguments appended to the Sherlock command, with the URL
      built piece by piece. */
  method SherlockProxyArgs(s: Config.Settings) returns (args: seq<string>)
    ensures !s.proxyEnabled ==> args == []
    ensures s.proxyEnabled ==> args == ["--proxy", Config.ProxyUrl(s)]
    ensures s.proxyEnabled ==> args[1] == Config.GetProxies(s)["http"]
  {
    if !s.proxyEnabled {
      return [];
    }
    var proxyUrl := s.proxyType + "://";
    if s.proxyUser != "" && s.proxyPass != "" {
      proxyUrl := proxyUrl + (s.proxyUser + ":" + s.proxyPass + "@");
    }
    assert proxyUrl == s.proxyType + "://" + Config.ProxyAuth(s);
    var hostPort := s.proxyHost + ":" + IntToString(s.proxyPort);
    assert proxyUrl + hostPort == proxyUrl + s.proxyHost + ":" + IntToString(s.proxyPort);
    proxyUrl := proxyUrl + hostPort;
    args := ["--proxy", proxyUrl];
  }

  /** The JSON file Sherlock wrote: an object keyed by site, or some other
      value with a length. */
  datatype Accounts = AccountMap(sites: seq<string>) | AccountValue(size: nat)

  function AccountsLen(a: Accounts): nat {
    match a
    case AccountMap(sites) => |sites|
    case AccountValue(n) => n
  }

  /** How running the Sherlock process went. */
  datatype SherlockRun =
    | Exited(returnCode: int, stderr: string, resultFile: Option<Accounts>)
    | ProcessTimeout
    | ProcessRaised(message: string)

  /** A `run_sherlock` result: `{'accounts': ...}` or `{'error': ...}`. */
  datatype SherlockResult = Found(accounts: Accounts) | SherlockError(error: string)

  const SherlockNotFound: string := "Sherlock non trouvé"
  const SherlockFailedPrefix: string := "Erreur lors de l'exécution de Sherlock: "
  const SherlockTimeout: string := "Timeout lors de l'exécution de Sherlock"

  /** `run_sherlock`: missing installation, failed process, missing result file. */
  function RunSherlock(installed: bool, run: SherlockRun): (r: SherlockResult)
    ensures !installed ==> r == SherlockError(SherlockNotFound)
    ensures r.Found? <==> installed && run.Exited? && run.returnCode == 0
    ensures r.Found? && run.resultFile.None? ==> r.accounts == AccountMap([])
    ensures installed && run.Exited? && run.returnCode != 0 ==> r.error == SherlockFailedPrefix + run.stderr
  {
    if !installed then SherlockError(SherlockNotFound)
    else match run
      case Exited(rc, err, file) =>
        if rc != 0 then SherlockError(SherlockFailedPrefix + err)
        else Found(file.GetOr(AccountMap([])))
      case ProcessTimeout => SherlockError(SherlockTimeout)
      case ProcessRaised(m) => SherlockError(m)
  }

  datatype UsernameSearch = UsernameSearch(username: string, accounts: Accounts, totalAccounts: nat, platforms: seq<string>)

  /** `search_username`: the accounts default to the empty map, the total is
      their length and the platform list is their keys when they form a map. */
  function SearchUsername(username: string, sherlock: SherlockResult): (r: UsernameSearch)
    ensures r.username == username
    ensures sherlock.SherlockError? ==> r.accounts == AccountMap([]) && r.totalAccounts == 0 && r.platforms == []
    ensures sherlock.Found? ==> r.accounts == sherlock.accounts
    ensures r.accounts.AccountMap? ==> r.platforms == r.accounts.sites && r.totalAccounts == |r.platforms|
    ensures r.accounts.AccountValue? ==> r.platforms == [] && r.totalAccounts == r.accounts.size
  {
    var accounts := if sherlock.Found? then sherlock.accounts else AccountMap([]);
    UsernameSearch(username, accounts, AccountsLen(accounts),
                   if accounts.AccountMap? then accounts.sites else [])
  }
}
