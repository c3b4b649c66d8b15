/** Aggregation of the data gathered about a person
    (`DataAggregator.aggregate_person_data` in backend/modules/data_aggregator.py):
    the social, image and e-mail results are folded into one record of
    profiles, images, e-mails, locations, usernames, aliases and
    organizations, and a confidence score is computed from how much was found.

    The loosely structured result maps are typed here: a key that may be
    missing is an `Option`, and each result map remembers whether it holds
    keys the aggregation does not read, because an empty map is falsy. */
module DataAggregator {
  import opened Wrappers
  import opened Text
  import SocialOsint

  type Profile = SocialOsint.Profile
  type ProfileMap = SocialOsint.ProfileMap

  // ---------------------------------------------------------------------------
  // Inputs
  // ---------------------------------------------------------------------------

  /** `social_data`: its `profiles` entry when present, and whether it has other keys. */
  datatype SocialBlob = SocialBlob(profiles: Option<ProfileMap>, otherKeys: bool)

  predicate SocialTruthy(b: SocialBlob) {
    b.profiles.Some? || b.otherKeys
  }

  /** An entry of Google Vision's `web_entities`. */
  datatype Entity = Entity(description: Option<string>, score: Option<real>)

  /** An element of `similar_images`: a map with its `url` and `page_url`
      entries when present, or anything that is not a map. */
  datatype ImageItem = ImageEntry(url: Option<string>, pageUrl: Option<string>) | NonDictImage

  /** An element of `websites`, with its `title` entry when present. */
  datatype Website = Website(title: Option<string>)

  /** The result map of one search engine. `bestGuess` is `None` when the key
      is missing or holds `None`. */
  datatype EngineResults = EngineResults(
    webEntities: Option<seq<Entity>>,
    similarImages: Option<seq<ImageItem>>,
    bestGuess: Option<string>,
    websites: Option<seq<Website>>)

  /** `image_data`: engine name to result map, in insertion order; `None` is the empty map. */
  type ImageBlob = seq<(string, EngineResults)>

  /** An element of Hunter's `emails`: a map with its `value` and
      `confidence` entries when present, or anything that is not a map. */
  datatype EmailItem = EmailEntry(value: Option<string>, confidence: Option<int>) | NonDictEmail

  /** `email_data`: its `emails` and `organization` entries when present, and
      whether it has other keys. */
  datatype EmailBlob = EmailBlob(emails: Option<seq<EmailItem>>, organization: Option<string>, otherKeys: bool)

  predicate EmailTruthy(b: EmailBlob) {
    b.emails.Some? || b.organization.Some? || b.otherKeys
  }

  // ---------------------------------------------------------------------------
  // The record being built
  // ---------------------------------------------------------------------------

  datatype Image = Image(url: string, source: string, pageUrl: Option<string>)

  datatype EmailRecord = EmailRecord(address: string, confidence: int, source: string)

  /** `aggregated_data` while it is being filled, with its four sets still sets. */
  datatype Aggregated = Aggregated(
    name: string,
    updatedAt: string,
    socialProfiles: ProfileMap,
    images: seq<Image>,
    emails: seq<EmailRecord>,
    locations: seq<string>,
    usernames: set<string>,
    aliases: set<string>,
    relatedPeople: set<string>,
    organizations: set<string>,
    sources: seq<string>)

  /** The record before any source is read; `now` is the ISO timestamp. */
  function Initial(name: string, now: string): Aggregated {
    Aggregated(name, now, [], [], [], [], {}, {}, {}, {}, [])
  }

  function OptSeq<T(!new)>(o: Option<T>): (s: seq<T>)
    ensures |s| <= 1 && (forall x :: x in s <==> o == Some(x))
  {
    if o.Some? then [o.value] else []
  }

  function OptSet<T(!new)>(o: Option<T>): (s: set<T>)
    ensures forall x :: x in s <==> o == Some(x)
  {
    if o.Some? then {o.value} else {}
  }

  const SocialSource: string := "social_media"
  const ImageSource: string := "image_search"
  const EmailSource: string := "email_search"

  // ---------------------------------------------------------------------------
  // Social profiles: merging into the platform map
  // ---------------------------------------------------------------------------

  /** The first index at or after `i` where `m` has key `k`. */
  function KeyIndexFrom(m: ProfileMap, k: string, i: nat): (r: Option<nat>)
    decreases |m| - i
    ensures r.Some? ==> i <= r.value < |m| && m[r.value].0 == k && forall j :: i <= j < r.value ==> m[j].0 != k
    ensures r.None? ==> forall j :: i <= j < |m| ==> m[j].0 != k
  {
    if i >= |m| then None else if m[i].0 == k then Some(i) else KeyIndexFrom(m, k, i + 1)
  }

  /** Where key `k` sits in `m`. */
  function KeyIndex(m: ProfileMap, k: string): (r: Option<nat>)
    ensures r.Some? ==> r.value < |m| && m[r.value].0 == k && forall j :: 0 <= j < r.value ==> m[j].0 != k
    ensures r.None? ==> forall j :: 0 <= j < |m| ==> m[j].0 != k
  {
    KeyIndexFrom(m, k, 0)
  }

  /** `m[k]`, with `[]` for a missing key. */
  function Lookup(m: ProfileMap, k: string): seq<Profile> {
    if KeyIndex(m, k).Some? then m[KeyIndex(m, k).value].1 else []
  }

  /** Two maps with the same keys at the same places find every key at the same place. */
  lemma KeyIndexSameKeys(m: ProfileMap, n: ProfileMap, k: string)
    requires |m| == |n| && forall j :: 0 <= j < |m| ==> m[j].0 == n[j].0
    ensures KeyIndex(m, k) == KeyIndex(n, k)
  {
    var a, b := KeyIndex(m, k), KeyIndex(n, k);
    if a.Some? && b.Some? {
      assert !(a.value < b.value) && !(b.value < a.value);
    }
  }

  /** A key appended to a map that lacks it sits at the end; other keys do not move. */
  lemma KeyIndexAppend(m: ProfileMap, k: string, ps: seq<Profile>, k': string)
    requires KeyIndex(m, k).None?
    ensures KeyIndex(m + [(k, ps)], k') == if k' == k then Some(|m|) else KeyIndex(m, k')
  {
    var n := m + [(k, ps)];
    var b := KeyIndex(n, k');
    if k' != k {
      assert forall j :: 0 <= j < |m| ==> n[j] == m[j];
      var a := KeyIndex(m, k');
      if a.Some? && b.Some? {
        assert !(a.value < b.value) && !(b.value < a.value);
      }
    } else {
      assert n[|m|].0 == k;
    }
  }

  /** The `social_profiles` update: `[]` is put in for a new platform, then
      the platform's list is extended. */
  function Extend(m: ProfileMap, k: string, ps: seq<Profile>): (r: ProfileMap)
    ensures |r| == |m| + (if KeyIndex(m, k).None? then 1 else 0)
  {
    match KeyIndex(m, k)
    case None => m + [(k, ps)]
    case Some(i) => m[i := (k, m[i].1 + ps)]
  }

  /** After extending, the platform's list has the new profiles at its end and
      every other platform's list is unchanged. */
  lemma ExtendLookup(m: ProfileMap, k: string, ps: seq<Profile>, k': string)
    ensures Lookup(Extend(m, k, ps), k') == if k' == k then Lookup(m, k) + ps else Lookup(m, k')
  {
    var r := Extend(m, k, ps);
    match KeyIndex(m, k)
    case None =>
      KeyIndexAppend(m, k, ps, k');
    case Some(i) =>
      KeyIndexSameKeys(m, r, k');
  }

  /** Extending keeps every key, adds the platform's, and adds no other. */
  lemma ExtendKeys(m: ProfileMap, k: string, ps: seq<Profile>, k': string)
    ensures k' in SocialOsint.Keys(Extend(m, k, ps)) <==> k' == k || k' in SocialOsint.Keys(m)
  {
    var r := Extend(m, k, ps);
    var km, kr := SocialOsint.Keys(m), SocialOsint.Keys(r);
    if KeyIndex(m, k).None? {
      assert kr[|m|] == k;
      assert forall j :: 0 <= j < |m| ==> kr[j] == km[j];
    } else {
      var i := KeyIndex(m, k).value;
      assert forall j :: 0 <= j < |m| ==> kr[j] == km[j];
    }
  }

  /** Extending adds exactly the new profiles to the total. */
  lemma {:induction false} ExtendTotal(m: ProfileMap, k: string, ps: seq<Profile>)
    ensures SocialOsint.TotalProfiles(Extend(m, k, ps)) == SocialOsint.TotalProfiles(m) + |ps|
  {
    match KeyIndex(m, k)
    case None =>
      SocialOsint.TotalProfilesAppend(m, (k, ps));
    case Some(i) =>
      TotalUpdate(m, i, (k, m[i].1 + ps));
  }

  /** Replacing one entry changes the total by the difference of the list lengths. */
  lemma {:induction false} TotalUpdate(m: ProfileMap, i: nat, e: (string, seq<Profile>))
    requires i < |m|
    ensures SocialOsint.TotalProfiles(m[i := e]) + |m[i].1| == SocialOsint.TotalProfiles(m) + |e.1|
    decreases |m|
  {
    var n := m[i := e];
    var last := |m| - 1;
    if i == last {
      assert n[..last] == m[..last];
    } else {
      assert n[..last] == m[..last][i := e];
      TotalUpdate(m[..last], i, e);
    }
  }

  // ---------------------------------------------------------------------------
  // Social profiles: usernames and locations
  // ---------------------------------------------------------------------------

  /** `url.split(marker)[1].split('/')[0].split('?')[0]`: what follows the
      first `marker`, up to the next `/`, `?` or `marker`. */
  function Handle(url: string, marker: string): string
    requires |marker| > 0 && Contains(url, marker)
  {
    SegmentAfter(url, marker, '/', '?')
  }

  const TwitterMarker: string := "twitter.com/"
  const InstagramMarker: string := "instagram.com/"

  /** The username read from a profile's URL: exactly for `twitter` and
      `instagram` profiles whose URL names the site, and then the handle
      after the site's marker. */
  function ProfileUsername(platform: string, p: Profile): (u: Option<string>)
    ensures var url := p.url.GetOr("");
      u.Some? <==> (platform == "twitter" && Contains(url, TwitterMarker)) || (platform == "instagram" && Contains(url, InstagramMarker))
    ensures u.Some? ==> platform in {"twitter", "instagram"}
    ensures u.Some? && platform == "twitter" ==> u.value == Handle(p.url.GetOr(""), TwitterMarker)
    ensures u.Some? && platform == "instagram" ==> u.value == Handle(p.url.GetOr(""), InstagramMarker)
    ensures u.Some? ==> '/' !in u.value && '?' !in u.value
  {
    var url := p.url.GetOr("");
    if platform == "twitter" && Contains(url, TwitterMarker) then Some(Handle(url, TwitterMarker))
    else if platform == "instagram" && Contains(url, InstagramMarker) then Some(Handle(url, InstagramMarker))
    else None
  }

  /** The words that announce a place in a profile description, in the order tried. */
  const LocationKeywords: seq<string> := ["à", "in", "from", "located", "based"]

  /** What the aggregation accepts as a location. */
  predicate GoodLocation(l: string) {
    2 < |l| < 30 && '.' !in l && ',' !in l
  }

  /** The text a location is read from: what follows the first `sep` up to
      the first `.`, `,` or further `sep`, stripped. */
  function LocationText(description: string, sep: string): string
    requires |sep| > 0 && Contains(description, sep)
  {
    Strip(SegmentAfter(description, sep, '.', ','))
  }

  /** The location announced by ` keyword ` in a description: the text after
      its first occurrence, cut at the first `.`, then at the first `,`, then
      stripped, and kept only when it has between 3 and 29 characters. The
      guard looks for the keyword in the description padded with spaces, but
      the split is on the description itself, so a keyword at either end
      passes the guard and yields nothing. */
  function KeywordLocation(description: string, keyword: string): (loc: Option<string>)
    ensures var sep := " " + keyword + " ";
      loc.Some? <==> Contains(description, sep) && 2 < |LocationText(description, sep)| < 30
    ensures var sep := " " + keyword + " ";
      loc.Some? ==> Contains(description, sep) && loc.value == LocationText(description, sep)
    ensures loc.Some? ==> GoodLocation(loc.value)
  {
    var sep := " " + keyword + " ";
    assert Contains(description, sep) ==> Contains(" " + description + " ", sep) by {
      if Contains(description, sep) {
        ContainsPrependLeft(" ", description, sep);
        ContainsAppendRight(" " + description, " ", sep);
      }
    }
    if Contains(" " + description + " ", sep) && Contains(description, sep) then
      var seg := SegmentAfter(description, sep, '.', ',');
      var part := Strip(seg);
      ContainedChars(seg, part);
      if 2 < |part| < 30 then Some(part) else None
    else None
  }

  /** The locations found for `keywords`, in their order. */
  function KeywordLocations(description: string, keywords: seq<string>): (locs: seq<string>)
    ensures |locs| <= |keywords|
    ensures forall i :: 0 <= i < |locs| ==> GoodLocation(locs[i])
  {
    if keywords == [] then []
    else KeywordLocations(description, keywords[..|keywords| - 1]) + OptSeq(KeywordLocation(description, keywords[|keywords| - 1]))
  }

  lemma KeywordLocationsStep(description: string, keywords: seq<string>, k: nat)
    requires k < |keywords|
    ensures KeywordLocations(description, keywords[..k + 1]) ==
      KeywordLocations(description, keywords[..k]) + OptSeq(KeywordLocation(description, keywords[k]))
  {
    assert keywords[..k + 1][..k] == keywords[..k];
  }

  /** The locations of a profile: none without a description. */
  function ProfileLocations(p: Profile): seq<string> {
    var d := p.description.GetOr("");
    if d != "" then KeywordLocations(d, LocationKeywords) else []
  }

  /** What one profile adds: its username, if any, and its locations. */
  function ProfileStep(acc: Aggregated, platform: string, p: Profile): Aggregated {
    acc.(usernames := acc.usernames + OptSet(ProfileUsername(platform, p)),
         locations := acc.locations + ProfileLocations(p))
  }

  /** The profiles of one platform, read in order. */
  function ProfilesFold(acc: Aggregated, platform: string, ps: seq<Profile>): (r: Aggregated)
    ensures r == acc.(usernames := r.usernames, locations := r.locations)
    ensures acc.usernames <= r.usernames && acc.locations <= r.locations
  {
    if ps == [] then acc
    else ProfileStep(ProfilesFold(acc, platform, ps[..|ps| - 1]), platform, ps[|ps| - 1])
  }

  /** One platform of `social_data['profiles']`: its list is merged into the
      map, then its profiles are read. */
  function PlatformStep(acc: Aggregated, platform: string, ps: seq<Profile>): Aggregated {
    ProfilesFold(acc.(socialProfiles := Extend(acc.socialProfiles, platform, ps)), platform, ps)
  }

  /** All platforms of `social_data['profiles']`, in order. */
  function SocialFold(acc: Aggregated, entries: ProfileMap): (r: Aggregated)
    ensures r == acc.(socialProfiles := r.socialProfiles, usernames := r.usernames, locations := r.locations)
    ensures acc.usernames <= r.usernames && acc.locations <= r.locations
  {
    if entries == [] then acc
    else
      var e := entries[|entries| - 1];
      PlatformStep(SocialFold(acc, entries[..|entries| - 1]), e.0, e.1)
  }

  /** The keyword loop of one description (`keywords` is `LocationKeywords`). */
  method AddDescriptionLocations(locations: seq<string>, description: string, keywords: seq<string>) returns (r: seq<string>)
    ensures r == locations + KeywordLocations(description, keywords)
  {
    r := locations;
    var k := 0;
    while k < |keywords|
      invariant 0 <= k <= |keywords|
      invariant r == locations + KeywordLocations(description, keywords[..k])
    {
      KeywordLocationsStep(description, keywords, k);
      var found := LocationAfter(description, keywords[k]);
      AppendFound(locations, KeywordLocations(description, keywords[..k]), found);
      if found.Some? {
        r := r + [found.value];
      }
      k := k + 1;
    }
    assert keywords[..k] == keywords;
  }

  /** Appending what was found, a location or none, to the list built so far. */
  lemma AppendFound(locations: seq<string>, before: seq<string>, found: Option<string>)
    ensures (if found.Some? then locations + before + [found.value] else locations + before) ==
      locations + (before + OptSeq(found))
  {
    if found.Some? {
      AppendAssoc(locations, before, [found.value]);
    } else {
      assert before + OptSeq(found) == before;
    }
  }

  /** The body of the keyword loop: the text after ` keyword `, cut at the
      first `.` and the first `,` and stripped, when its length is right. */
  method LocationAfter(description: string, keyword: string) returns (found: Option<string>)
    ensures found == KeywordLocation(description, keyword)
  {
    var sep := " " + keyword + " ";
    found := None;
    if Contains(" " + description + " ", sep) && Contains(description, sep) {
      var part := Strip(SegmentAfter(description, sep, '.', ','));
      if 2 < |part| && |part| < 30 {
        found := Some(part);
      }
    }
  }

  /** The body of the loop over one platform's profiles. */
  method AddProfileFacts(acc: Aggregated, platform: string, p: Profile) returns (r: Aggregated)
    ensures r == ProfileStep(acc, platform, p)
  {
    r := acc;
    var url := p.url.GetOr("");
    if platform == "twitter" && Contains(url, TwitterMarker) {
      r := r.(usernames := r.usernames + {Handle(url, TwitterMarker)});
    } else if platform == "instagram" && Contains(url, InstagramMarker) {
      r := r.(usernames := r.usernames + {Handle(url, InstagramMarker)});
    }
    var description := p.description.GetOr("");
    if description != "" {
      var locations := AddDescriptionLocations(r.locations, description, LocationKeywords);
      r := r.(locations := locations);
    }
  }

  /** One platform: merge its profiles into the map, then read each of them. */
  method AddPlatformProfiles(acc: Aggregated, platform: string, ps: seq<Profile>) returns (r: Aggregated)
    ensures r == PlatformStep(acc, platform, ps)
  {
    r := acc.(socialProfiles := Extend(acc.socialProfiles, platform, ps));
    ghost var start := r;
    var j := 0;
    while j < |ps|
      invariant 0 <= j <= |ps|
      invariant r == ProfilesFold(start, platform, ps[..j])
    {
      assert ps[..j + 1][..j] == ps[..j];
      r := AddProfileFacts(r, platform, ps[j]);
      j := j + 1;
    }
    assert ps[..j] == ps;
  }

  /** The loop over `social_data['profiles']`. */
  method AddSocialData(acc: Aggregated, entries: ProfileMap) returns (r: Aggregated)
    ensures r == SocialFold(acc, entries)
  {
    r := acc;
    var k := 0;
    while k < |entries|
      invariant 0 <= k <= |entries|
      invariant r == SocialFold(acc, entries[..k])
    {
      assert entries[..k + 1][..k] == entries[..k];
      r := AddPlatformProfiles(r, entries[k].0, entries[k].1);
      k := k + 1;
    }
    assert entries[..k] == entries;
  }

  // ---------------------------------------------------------------------------
  // Image results
  // ---------------------------------------------------------------------------

  const PersonWords: seq<string> := ["person", "people", "celebrity"]
  const OrganizationWords: seq<string> := ["company", "corporation", "organization"]
  const WebsiteOrganizationWords: seq<string> := ["company", "inc", "ltd", "corporation", "corp", "group"]
  const ImageEngines: set<string> := {"google", "yandex", "tineye"}
  const WebsiteEngines: set<string> := {"google", "yandex"}

  /** `any(word in text for word in words)`. */
  predicate AnyWordIn(words: seq<string>, text: string) {
    exists i :: 0 <= i < |words| && Contains(text, words[i])
  }

  /** The alias a web entity gives: its description, when it scores above 0.7,
      reads as a person and is not the subject's own name. */
  function EntityAlias(name: string, e: Entity): (a: Option<string>)
    ensures a.Some? <==> e.score.GetOr(0.0) > 0.7 && AnyWordIn(PersonWords, Lower(e.description.GetOr(""))) &&
                         Lower(e.description.GetOr("")) != Lower(name)
    ensures a.Some? ==> a.value == e.description.GetOr("")
  {
    var d := e.description.GetOr("");
    if e.score.GetOr(0.0) > 0.7 && AnyWordIn(PersonWords, Lower(d)) && Lower(d) != Lower(name) then Some(d) else None
  }

  /** The organization a web entity gives: its description, when it scores
      above 0.7, does not read as a person and reads as an organization. */
  function EntityOrganization(e: Entity): (o: Option<string>)
    ensures o.Some? <==> e.score.GetOr(0.0) > 0.7 && !AnyWordIn(PersonWords, Lower(e.description.GetOr(""))) &&
                         AnyWordIn(OrganizationWords, Lower(e.description.GetOr("")))
    ensures o.Some? ==> o.value == e.description.GetOr("")
  {
    var d := e.description.GetOr("");
    if e.score.GetOr(0.0) > 0.7 && !AnyWordIn(PersonWords, Lower(d)) && AnyWordIn(OrganizationWords, Lower(d)) then Some(d) else None
  }

  /** No entity gives both an alias and an organization. */
  lemma EntityAliasOrOrganization(name: string, e: Entity)
    ensures !(EntityAlias(name, e).Some? && EntityOrganization(e).Some?)
  {
  }

  function EntityStep(name: string, acc: Aggregated, e: Entity): Aggregated {
    acc.(aliases := acc.aliases + OptSet(EntityAlias(name, e)),
         organizations := acc.organizations + OptSet(EntityOrganization(e)))
  }

  function EntitiesFold(name: string, acc: Aggregated, es: seq<Entity>): (r: Aggregated)
    ensures r == acc.(aliases := r.aliases, organizations := r.organizations)
  {
    if es == [] then acc else EntityStep(name, EntitiesFold(name, acc, es[..|es| - 1]), es[|es| - 1])
  }

  /** The image an element of `similar_images` gives: maps with a `url` only. */
  function ImageOf(engine: string, item: ImageItem): (im: Option<Image>)
    ensures im.Some? <==> item.ImageEntry? && item.url.Some?
    ensures im.Some? ==> im.value == Image(item.url.value, engine, item.pageUrl)
  {
    if item.ImageEntry? && item.url.Some? then Some(Image(item.url.value, engine, item.pageUrl)) else None
  }

  function ImagesFold(engine: string, acc: Aggregated, items: seq<ImageItem>): (r: Aggregated)
    ensures r == acc.(images := r.images)
  {
    if items == [] then acc
    else
      var a := ImagesFold(engine, acc, items[..|items| - 1]);
      a.(images := a.images + OptSeq(ImageOf(engine, items[|items| - 1])))
  }

  /** The organization a website gives: its title, when it has one that names a company. */
  function WebsiteOrganization(w: Website): (o: Option<string>)
    ensures o.Some? <==> w.title.Some? && AnyWordIn(WebsiteOrganizationWords, Lower(w.title.value))
    ensures o.Some? ==> o == w.title
  {
    if w.title.Some? && AnyWordIn(WebsiteOrganizationWords, Lower(w.title.value)) then w.title else None
  }

  function WebsitesFold(acc: Aggregated, ws: seq<Website>): (r: Aggregated)
    ensures r == acc.(organizations := r.organizations)
  {
    if ws == [] then acc
    else
      var a := WebsitesFold(acc, ws[..|ws| - 1]);
      a.(organizations := a.organizations + OptSet(WebsiteOrganization(ws[|ws| - 1])))
  }

  /** Google's best guess, kept as an alias when it is non-empty and not the subject's name. */
  function BestGuessAlias(name: string, engine: string, res: EngineResults): (a: Option<string>)
    ensures a.Some? ==> engine == "google" && a == res.bestGuess && Lower(a.value) != Lower(name)
  {
    if engine == "google" && res.bestGuess.Some? && res.bestGuess.value != "" && Lower(res.bestGuess.value) != Lower(name)
    then res.bestGuess else None
  }

  /** The four things read from one engine's results, in the order they are read. */
  function EngineStep(name: string, acc: Aggregated, engine: string, res: EngineResults): (r: Aggregated)
    ensures r == acc.(images := r.images, aliases := r.aliases, organizations := r.organizations)
  {
    var a1 := if engine == "google_api" && res.webEntities.Some? then EntitiesFold(name, acc, res.webEntities.value) else acc;
    var a2 := if engine in ImageEngines && res.similarImages.Some? then ImagesFold(engine, a1, res.similarImages.value) else a1;
    var a3 := a2.(aliases := a2.aliases + OptSet(BestGuessAlias(name, engine, res)));
    if engine in WebsiteEngines && res.websites.Some? then WebsitesFold(a3, res.websites.value) else a3
  }

  function ImageFold(name: string, acc: Aggregated, engines: ImageBlob): (r: Aggregated)
    ensures r == acc.(images := r.images, aliases := r.aliases, organizations := r.organizations)
  {
    if engines == [] then acc
    else
      var e := engines[|engines| - 1];
      EngineStep(name, ImageFold(name, acc, engines[..|engines| - 1]), e.0, e.1)
  }

  /** The loop over `web_entities`. */
  method AddWebEntities(name: string, acc: Aggregated, es: seq<Entity>) returns (r: Aggregated)
    ensures r == EntitiesFold(name, acc, es)
  {
    r := acc;
    var j := 0;
    while j < |es|
      invariant 0 <= j <= |es|
      invariant r == EntitiesFold(name, acc, es[..j])
    {
      assert es[..j + 1][..j] == es[..j];
      var description := es[j].description.GetOr("");
      var score := es[j].score.GetOr(0.0);
      if score > 0.7 {
        if AnyWordIn(PersonWords, Lower(description)) {
          if Lower(description) != Lower(name) {
            r := r.(aliases := r.aliases + {description});
          }
        } else if AnyWordIn(OrganizationWords, Lower(description)) {
          r := r.(organizations := r.organizations + {description});
        }
      }
      j := j + 1;
    }
    assert es[..j] == es;
  }

  /** The loop over `similar_images`. */
  method AddSimilarImages(engine: string, acc: Aggregated, items: seq<ImageItem>) returns (r: Aggregated)
    ensures r == ImagesFold(engine, acc, items)
  {
    r := acc;
    var j := 0;
    while j < |items|
      invariant 0 <= j <= |items|
      invariant r == ImagesFold(engine, acc, items[..j])
    {
      assert items[..j + 1][..j] == items[..j];
      var item := items[j];
      if item.ImageEntry? && item.url.Some? {
        r := r.(images := r.images + [Image(item.url.value, engine, item.pageUrl)]);
      }
      j := j + 1;
    }
    assert items[..j] == items;
  }

  /** The loop over `websites`. */
  method AddWebsites(acc: Aggregated, ws: seq<Website>) returns (r: Aggregated)
    ensures r == WebsitesFold(acc, ws)
  {
    r := acc;
    var j := 0;
    while j < |ws|
      invariant 0 <= j <= |ws|
      invariant r == WebsitesFold(acc, ws[..j])
    {
      assert ws[..j + 1][..j] == ws[..j];
      if ws[j].title.Some? {
        var title := ws[j].title.value;
        if AnyWordIn(WebsiteOrganizationWords, Lower(title)) {
          r := r.(organizations := r.organizations + {title});
        }
      }
      j := j + 1;
    }
    assert ws[..j] == ws;
  }

  /** The body of the loop over `image_data`. */
  method AddEngineResults(name: string, acc: Aggregated, engine: string, res: EngineResults) returns (r: Aggregated)
    ensures r == EngineStep(name, acc, engine, res)
  {
    r := acc;
    if engine == "google_api" && res.webEntities.Some? {
      r := AddWebEntities(name, r, res.webEntities.value);
    }
    if engine in ImageEngines && res.similarImages.Some? {
      r := AddSimilarImages(engine, r, res.similarImages.value);
    }
    ghost var a2 := r;
    if engine == "google" && res.bestGuess.Some? {
      var bestGuess := res.bestGuess.value;
      if bestGuess != "" && Lower(bestGuess) != Lower(name) {
        r := r.(aliases := r.aliases + {bestGuess});
      }
    }
    assert r.aliases == a2.aliases + OptSet(BestGuessAlias(name, engine, res));
    if engine in WebsiteEngines && res.websites.Some? {
      r := AddWebsites(r, res.websites.value);
    }
  }

  /** The loop over `image_data`. */
  method AddImageData(name: string, acc: Aggregated, engines: ImageBlob) returns (r: Aggregated)
    ensures r == ImageFold(name, acc, engines)
  {
    r := acc;
    var k := 0;
    while k < |engines|
      invariant 0 <= k <= |engines|
      invariant r == ImageFold(name, acc, engines[..k])
    {
      assert engines[..k + 1][..k] == engines[..k];
      r := AddEngineResults(name, r, engines[k].0, engines[k].1);
      k := k + 1;
    }
    assert engines[..k] == engines;
  }

  // ---------------------------------------------------------------------------
  // E-mail results
  // ---------------------------------------------------------------------------

  const HunterSource: string := "hunter.io"

  /** The record an element of `emails` gives: maps with a `value` only; a
      missing confidence counts as 0. */
  function EmailOf(item: EmailItem): (e: Option<EmailRecord>)
    ensures e.Some? <==> item.EmailEntry? && item.value.Some?
    ensures e.Some? ==> e.value == EmailRecord(item.value.value, item.confidence.GetOr(0), HunterSource)
  {
    if item.EmailEntry? && item.value.Some? then Some(EmailRecord(item.value.value, item.confidence.GetOr(0), HunterSource)) else None
  }

  /** `address.split('@')[0]`: the local part of an address. */
  function LocalPart(address: string): (u: string)
    ensures IsPrefix(u, address) && '@' !in u
    ensures '@' in address ==> address[|u|] == '@'
  {
    ContainsChar(address, '@');
    var u := Field0(address, "@");
    ContainsChar(u, '@');
    u
  }

  function EmailsFold(acc: Aggregated, items: seq<EmailItem>): (r: Aggregated)
    ensures r == acc.(emails := r.emails, usernames := r.usernames)
    ensures acc.usernames <= r.usernames
  {
    if items == [] then acc
    else
      var a := EmailsFold(acc, items[..|items| - 1]);
      var e := EmailOf(items[|items| - 1]);
      if e.Some? then a.(emails := a.emails + [e.value], usernames := a.usernames + {LocalPart(e.value.address)})
      else a
  }

  /** The e-mails, then the organization when it is non-empty. */
  function EmailSection(acc: Aggregated, b: EmailBlob): (r: Aggregated)
    ensures r == acc.(emails := r.emails, usernames := r.usernames, organizations := r.organizations)
  {
    var a := if b.emails.Some? then EmailsFold(acc, b.emails.value) else acc;
    if b.organization.Some? && b.organization.value != "" then a.(organizations := a.organizations + {b.organization.value}) else a
  }

  /** The loop over `email_data['emails']`. */
  method AddEmails(acc: Aggregated, items: seq<EmailItem>) returns (r: Aggregated)
    ensures r == EmailsFold(acc, items)
  {
    r := acc;
    var j := 0;
    while j < |items|
      invariant 0 <= j <= |items|
      invariant r == EmailsFold(acc, items[..j])
    {
      assert items[..j + 1][..j] == items[..j];
      var item := items[j];
      if item.EmailEntry? && item.value.Some? {
        var record := EmailRecord(item.value.value, item.confidence.GetOr(0), HunterSource);
        r := r.(emails := r.emails + [record]);
        var username := Field0(item.value.value, "@");
        r := r.(usernames := r.usernames + {username});
      }
      j := j + 1;
    }
    assert items[..j] == items;
  }

  // ---------------------------------------------------------------------------
  // The whole aggregation
  // ---------------------------------------------------------------------------

  /** The record after the three sources are read: each one only when its
      result map is truthy, and each tagged in `sources` as it is read. */
  function Aggregate(name: string, now: string, social: SocialBlob, image: ImageBlob, email: EmailBlob): (r: Aggregated)
    ensures r.name == name && r.updatedAt == now && r.relatedPeople == {}
    ensures !SocialTruthy(social) ==> r.socialProfiles == [] && r.locations == []
    ensures image == [] ==> r.images == []
    ensures !EmailTruthy(email) ==> r.emails == []
  {
    var a0 := Initial(name, now);
    var a1 := if SocialTruthy(social) then SocialFold(a0.(sources := a0.sources + [SocialSource]), social.profiles.GetOr([])) else a0;
    var a2 := if image != [] then ImageFold(name, a1.(sources := a1.sources + [ImageSource]), image) else a1;
    if EmailTruthy(email) then EmailSection(a2.(sources := a2.sources + [EmailSource]), email) else a2
  }

  // ---------------------------------------------------------------------------
  // Confidence
  // ---------------------------------------------------------------------------

  function Cap(n: nat, c: nat): (m: nat)
    ensures m <= n && m <= c && (m == n || m == c)
  {
    if n <= c then n else c
  }

  /** The unrounded score in sixths of a point: 20 points for up to 5
      platforms, 15 for up to 10 images, 25 for up to 3 e-mails, 15 for up to
      3 locations, 15 for up to 5 usernames and 10 for up to 3 organizations,
      each in proportion. */
  function ConfidenceSixths(profiles: nat, images: nat, emails: nat, locations: nat, usernames: nat, organizations: nat): (s: nat)
    ensures s as real == 6.0 * (20.0 * Cap(profiles, 5) as real / 5.0 + 15.0 * Cap(images, 10) as real / 10.0 +
      25.0 * Cap(emails, 3) as real / 3.0 + 15.0 * Cap(locations, 3) as real / 3.0 +
      15.0 * Cap(usernames, 5) as real / 5.0 + 10.0 * Cap(organizations, 3) as real / 3.0)
    ensures s <= 600
  {
    24 * Cap(profiles, 5) + 9 * Cap(images, 10) + 50 * Cap(emails, 3) +
    30 * Cap(locations, 3) + 18 * Cap(usernames, 5) + 20 * Cap(organizations, 3)
  }

  /** Python's `round(n / 6)`: to the nearest integer, ties to the even one. */
  function RoundSixths(n: nat): (r: nat)
    ensures 2 * (r * 6 - n) <= 6 && 2 * (n - r * 6) <= 6
    ensures r * 6 - n == 3 || n - r * 6 == 3 ==> r % 2 == 0
  {
    var q, rem := n / 6, n % 6;
    if rem < 3 then q
    else if rem > 3 then q + 1
    else if q % 2 == 0 then q else q + 1
  }

  /** `min(round(confidence), 100)`. */
  function Confidence(profiles: nat, images: nat, emails: nat, locations: nat, usernames: nat, organizations: nat): (c: nat)
    ensures c <= 100
    ensures var s := ConfidenceSixths(profiles, images, emails, locations, usernames, organizations);
      2 * (6 * c - s) <= 6 && 2 * (s - 6 * c) <= 6
  {
    Cap(RoundSixths(ConfidenceSixths(profiles, images, emails, locations, usernames, organizations)), 100)
  }

  /** The score lies between 0 and 100, and it is 0 exactly when nothing was found. */
  lemma ConfidenceBounds(profiles: nat, images: nat, emails: nat, locations: nat, usernames: nat, organizations: nat)
    ensures Confidence(profiles, images, emails, locations, usernames, organizations) <= 100
    ensures Confidence(profiles, images, emails, locations, usernames, organizations) == 0 <==>
      profiles == 0 && images == 0 && emails == 0 && locations == 0 && usernames == 0 && organizations == 0
  {
    var n := ConfidenceSixths(profiles, images, emails, locations, usernames, organizations);
    var r := RoundSixths(n);
    if r == 0 {
      assert n <= 3;
    }
    if n > 3 {
      assert r != 0;
    }
  }

  /** Rounding never reverses the order of two values. */
  lemma RoundSixthsMonotone(n: nat, m: nat)
    requires n <= m
    ensures RoundSixths(n) <= RoundSixths(m)
  {
    var a, b := RoundSixths(n), RoundSixths(m);
  }

  /** Finding more of anything never lowers the score. */
  lemma ConfidenceMonotone(p: nat, i: nat, e: nat, l: nat, u: nat, o: nat,
                           p': nat, i': nat, e': nat, l': nat, u': nat, o': nat)
    requires p <= p' && i <= i' && e <= e' && l <= l' && u <= u' && o <= o'
    ensures Confidence(p, i, e, l, u, o) <= Confidence(p', i', e', l', u', o')
  {
    var s, s' := ConfidenceSixths(p, i, e, l, u, o), ConfidenceSixths(p', i', e', l', u', o');
    SixthsMonotone(p, i, e, l, u, o, p', i', e', l', u', o');
    RoundSixthsMonotone(s, s');
  }

  lemma SixthsMonotone(p: nat, i: nat, e: nat, l: nat, u: nat, o: nat,
                       p': nat, i': nat, e': nat, l': nat, u': nat, o': nat)
    requires p <= p' && i <= i' && e <= e' && l <= l' && u <= u' && o <= o'
    ensures ConfidenceSixths(p, i, e, l, u, o) <= ConfidenceSixths(p', i', e', l', u', o')
  {
    assert Cap(p, 5) <= Cap(p', 5) && Cap(i, 10) <= Cap(i', 10) && Cap(e, 3) <= Cap(e', 3);
    assert Cap(l, 3) <= Cap(l', 3) && Cap(u, 5) <= Cap(u', 5) && Cap(o, 3) <= Cap(o', 3);
  }

  /** The categories above their caps add nothing. */
  lemma ConfidenceFull()
    ensures Confidence(5, 10, 3, 3, 5, 3) == 100
    ensures Confidence(1, 0, 0, 0, 0, 0) == 4 && Confidence(0, 1, 0, 0, 0, 0) == 2
  {
  }

  /** The sequence of `confidence +=` steps, carried out in sixths of a point. */
  method ComputeConfidence(profiles: nat, images: nat, emails: nat, locations: nat, usernames: nat, organizations: nat)
    returns (c: nat)
    ensures c == Confidence(profiles, images, emails, locations, usernames, organizations)
  {
    var sixths: nat := 0;
    if profiles > 0 {
      sixths := sixths + 24 * Cap(profiles, 5);
    }
    assert sixths == 24 * Cap(profiles, 5);
    if images > 0 {
      sixths := sixths + 9 * Cap(images, 10);
    }
    assert sixths == 24 * Cap(profiles, 5) + 9 * Cap(images, 10);
    if emails > 0 {
      sixths := sixths + 50 * Cap(emails, 3);
    }
    assert sixths == 24 * Cap(profiles, 5) + 9 * Cap(images, 10) + 50 * Cap(emails, 3);
    if locations > 0 {
      sixths := sixths + 30 * Cap(locations, 3);
    }
    assert sixths == 24 * Cap(profiles, 5) + 9 * Cap(images, 10) + 50 * Cap(emails, 3) + 30 * Cap(locations, 3);
    if usernames > 0 {
      sixths := sixths + 18 * Cap(usernames, 5);
    }
    if organizations > 0 {
      sixths := sixths + 20 * Cap(organizations, 3);
    }
    assert sixths == ConfidenceSixths(profiles, images, emails, locations, usernames, organizations);
    c := Cap(RoundSixths(sixths), 100);
  }

  // ---------------------------------------------------------------------------
  // The returned record
  // ---------------------------------------------------------------------------

  /** The dictionary `aggregate_person_data` returns, its sets turned into lists. */
  datatype PersonData = PersonData(
    name: string,
    updatedAt: string,
    socialProfiles: ProfileMap,
    images: seq<Image>,
    emails: seq<EmailRecord>,
    locations: seq<string>,
    possibleUsernames: seq<string>,
    possibleAliases: seq<string>,
    relatedPeople: seq<string>,
    organizations: seq<string>,
    sources: seq<string>,
    confidence: nat)

  /** `xs` lists the elements of `s`, each once. */
  ghost predicate Lists(xs: seq<string>, s: set<string>) {
    |xs| == |s| && (forall x :: x in xs <==> x in s) && forall i, j :: 0 <= i < j < |xs| ==> xs[i] != xs[j]
  }

  /** `list(s)`: the elements of the set in an order the set chooses. */
  method ListOf(s: set<string>) returns (xs: seq<string>)
    ensures Lists(xs, s)
  {
    xs := [];
    var rest := s;
    while rest != {}
      invariant rest <= s && |xs| + |rest| == |s|
      invariant forall x :: x in xs <==> x in s && x !in rest
      invariant forall i, j :: 0 <= i < j < |xs| ==> xs[i] != xs[j]
      decreases |rest|
    {
      var x :| x in rest;
      xs := xs + [x];
      rest := rest - {x};
    }
  }

  /** `aggregate_person_data`: the record of everything found, with its confidence. */
  method AggregatePersonData(name: string, now: string, social: SocialBlob, image: ImageBlob, email: EmailBlob)
    returns (r: PersonData)
    ensures var a := Aggregate(name, now, social, image, email);
      r.name == name && r.updatedAt == now && r.socialProfiles == a.socialProfiles &&
      r.images == a.images && r.emails == a.emails && r.locations == a.locations && r.sources == a.sources &&
      Lists(r.possibleUsernames, a.usernames) && Lists(r.possibleAliases, a.aliases) &&
      r.relatedPeople == [] && Lists(r.organizations, a.organizations) &&
      r.confidence == Confidence(|a.socialProfiles|, |a.images|, |a.emails|, |a.locations|, |a.usernames|, |a.organizations|)
  {
    var acc := Initial(name, now);
    if SocialTruthy(social) {
      acc := acc.(sources := acc.sources + [SocialSource]);
      acc := AddSocialData(acc, social.profiles.GetOr([]));
    }
    if image != [] {
      acc := acc.(sources := acc.sources + [ImageSource]);
      acc := AddImageData(name, acc, image);
    }
    if EmailTruthy(email) {
      acc := acc.(sources := acc.sources + [EmailSource]);
      if email.emails.Some? {
        acc := AddEmails(acc, email.emails.value);
      }
      if email.organization.Some? && email.organization.value != "" {
        acc := acc.(organizations := acc.organizations + {email.organization.value});
      }
    }
    assert acc == Aggregate(name, now, social, image, email);
    var usernames := ListOf(acc.usernames);
    var aliases := ListOf(acc.aliases);
    var related := ListOf(acc.relatedPeople);
    var organizations := ListOf(acc.organizations);
    var confidence := ComputeConfidence(|acc.socialProfiles|, |acc.images|, |acc.emails|, |acc.locations|,
                                        |usernames|, |organizations|);
    r := PersonData(name, now, acc.socialProfiles, acc.images, acc.emails, acc.locations,
                    usernames, aliases, related, organizations, acc.sources, confidence);
  }

  // ---------------------------------------------------------------------------
  // What the aggregation promises
  // ---------------------------------------------------------------------------

  /** Each source tag is recorded once, in the fixed order, exactly when its
      result map is truthy, whether or not anything was found in it. */
  lemma AggregateSources(name: string, now: string, social: SocialBlob, image: ImageBlob, email: EmailBlob)
    ensures Aggregate(name, now, social, image, email).sources ==
      (if SocialTruthy(social) then [SocialSource] else []) + (if image != [] then [ImageSource] else []) +
      (if EmailTruthy(email) then [EmailSource] else [])
  {
  }

  predicate EntityAliasIn(name: string, es: seq<Entity>, x: string) {
    exists j :: 0 <= j < |es| && EntityAlias(name, es[j]) == Some(x)
  }

  predicate EntityOrganizationIn(es: seq<Entity>, x: string) {
    exists j :: 0 <= j < |es| && EntityOrganization(es[j]) == Some(x)
  }

  predicate WebsiteOrganizationIn(ws: seq<Website>, x: string) {
    exists j :: 0 <= j < |ws| && WebsiteOrganization(ws[j]) == Some(x)
  }

  lemma {:induction false} EntitiesFoldAliases(name: string, acc: Aggregated, es: seq<Entity>, x: string)
    ensures x in EntitiesFold(name, acc, es).aliases <==> x in acc.aliases || EntityAliasIn(name, es, x)
  {
    if es != [] {
      var init := es[..|es| - 1];
      EntitiesFoldAliases(name, acc, init, x);
      assert forall j :: 0 <= j < |init| ==> init[j] == es[j];
      if EntityAliasIn(name, es, x) {
        var j :| 0 <= j < |es| && EntityAlias(name, es[j]) == Some(x);
        if j < |init| { assert EntityAliasIn(name, init, x); }
      }
    }
  }

  lemma {:induction false} EntitiesFoldOrganizations(name: string, acc: Aggregated, es: seq<Entity>, x: string)
    ensures x in EntitiesFold(name, acc, es).organizations <==> x in acc.organizations || EntityOrganizationIn(es, x)
  {
    if es != [] {
      var init := es[..|es| - 1];
      EntitiesFoldOrganizations(name, acc, init, x);
      assert forall j :: 0 <= j < |init| ==> init[j] == es[j];
      if EntityOrganizationIn(es, x) {
        var j :| 0 <= j < |es| && EntityOrganization(es[j]) == Some(x);
        if j < |init| { assert EntityOrganizationIn(init, x); }
      }
    }
  }

  lemma {:induction false} WebsitesFoldMembers(acc: Aggregated, ws: seq<Website>, x: string)
    ensures x in WebsitesFold(acc, ws).organizations <==> x in acc.organizations || WebsiteOrganizationIn(ws, x)
  {
    if ws != [] {
      var init := ws[..|ws| - 1];
      WebsitesFoldMembers(acc, init, x);
      assert forall j :: 0 <= j < |init| ==> init[j] == ws[j];
      if WebsiteOrganizationIn(ws, x) {
        var j :| 0 <= j < |ws| && WebsiteOrganization(ws[j]) == Some(x);
        if j < |init| { assert WebsiteOrganizationIn(init, x); }
      }
    }
  }

  /** The aliases one engine's results give: the person-like web entities of
      `google_api` and the best guess of `google`. */
  predicate EngineAlias(name: string, engine: string, res: EngineResults, x: string) {
    (engine == "google_api" && res.webEntities.Some? && EntityAliasIn(name, res.webEntities.value, x)) ||
    BestGuessAlias(name, engine, res) == Some(x)
  }

  /** The organizations one engine's results give: the organization-like web
      entities of `google_api` and the company-like website titles of
      `google` and `yandex`. */
  predicate EngineOrganization(engine: string, res: EngineResults, x: string) {
    (engine == "google_api" && res.webEntities.Some? && EntityOrganizationIn(res.webEntities.value, x)) ||
    (engine in WebsiteEngines && res.websites.Some? && WebsiteOrganizationIn(res.websites.value, x))
  }

  lemma EngineStepAliases(name: string, acc: Aggregated, engine: string, res: EngineResults, x: string)
    ensures x in EngineStep(name, acc, engine, res).aliases <==> x in acc.aliases || EngineAlias(name, engine, res, x)
  {
    if engine == "google_api" && res.webEntities.Some? {
      EntitiesFoldAliases(name, acc, res.webEntities.value, x);
    }
  }

  lemma EngineStepOrganizations(name: string, acc: Aggregated, engine: string, res: EngineResults, x: string)
    ensures x in EngineStep(name, acc, engine, res).organizations <==> x in acc.organizations || EngineOrganization(engine, res, x)
  {
    var a1 := if engine == "google_api" && res.webEntities.Some? then EntitiesFold(name, acc, res.webEntities.value) else acc;
    if engine == "google_api" && res.webEntities.Some? {
      EntitiesFoldOrganizations(name, acc, res.webEntities.value, x);
    }
    var a2 := if engine in ImageEngines && res.similarImages.Some? then ImagesFold(engine, a1, res.similarImages.value) else a1;
    var a3 := a2.(aliases := a2.aliases + OptSet(BestGuessAlias(name, engine, res)));
    if engine in WebsiteEngines && res.websites.Some? {
      WebsitesFoldMembers(a3, res.websites.value, x);
    }
  }

  predicate EngineAliasIn(name: string, engines: ImageBlob, x: string) {
    exists k :: 0 <= k < |engines| && EngineAlias(name, engines[k].0, engines[k].1, x)
  }

  predicate EngineOrganizationIn(engines: ImageBlob, x: string) {
    exists k :: 0 <= k < |engines| && EngineOrganization(engines[k].0, engines[k].1, x)
  }

  lemma {:induction false} ImageFoldAliases(name: string, acc: Aggregated, engines: ImageBlob, x: string)
    ensures x in ImageFold(name, acc, engines).aliases <==> x in acc.aliases || EngineAliasIn(name, engines, x)
  {
    if engines != [] {
      var init := engines[..|engines| - 1];
      var e := engines[|engines| - 1];
      ImageFoldAliases(name, acc, init, x);
      EngineStepAliases(name, ImageFold(name, acc, init), e.0, e.1, x);
      EngineAliasInSnoc(name, engines, x);
    }
  }

  lemma EngineAliasInSnoc(name: string, engines: ImageBlob, x: string)
    requires engines != []
    ensures var e := engines[|engines| - 1];
      EngineAliasIn(name, engines, x) <==>
      EngineAliasIn(name, engines[..|engines| - 1], x) || EngineAlias(name, e.0, e.1, x)
  {
    var init := engines[..|engines| - 1];
    assert forall k :: 0 <= k < |init| ==> init[k] == engines[k];
    if EngineAliasIn(name, engines, x) {
      var k :| 0 <= k < |engines| && EngineAlias(name, engines[k].0, engines[k].1, x);
      if k < |init| { assert EngineAliasIn(name, init, x); }
    }
  }

  lemma {:induction false} ImageFoldOrganizations(name: string, acc: Aggregated, engines: ImageBlob, x: string)
    ensures x in ImageFold(name, acc, engines).organizations <==> x in acc.organizations || EngineOrganizationIn(engines, x)
  {
    if engines != [] {
      var init := engines[..|engines| - 1];
      var e := engines[|engines| - 1];
      ImageFoldOrganizations(name, acc, init, x);
      EngineStepOrganizations(name, ImageFold(name, acc, init), e.0, e.1, x);
      EngineOrganizationInSnoc(engines, x);
    }
  }

  lemma EngineOrganizationInSnoc(engines: ImageBlob, x: string)
    requires engines != []
    ensures var e := engines[|engines| - 1];
      EngineOrganizationIn(engines, x) <==>
      EngineOrganizationIn(engines[..|engines| - 1], x) || EngineOrganization(e.0, e.1, x)
  {
    var init := engines[..|engines| - 1];
    assert forall k :: 0 <= k < |init| ==> init[k] == engines[k];
    if EngineOrganizationIn(engines, x) {
      var k :| 0 <= k < |engines| && EngineOrganization(engines[k].0, engines[k].1, x);
      if k < |init| { assert EngineOrganizationIn(init, x); }
    }
  }

  /** The aliases are exactly what the image results give; the social and
      e-mail results give none. */
  lemma AggregateAliases(name: string, now: string, social: SocialBlob, image: ImageBlob, email: EmailBlob, x: string)
    ensures x in Aggregate(name, now, social, image, email).aliases <==> EngineAliasIn(name, image, x)
  {
    var a0 := Initial(name, now);
    var a1 := if SocialTruthy(social) then SocialFold(a0.(sources := a0.sources + [SocialSource]), social.profiles.GetOr([])) else a0;
    ImageFoldAliases(name, a1.(sources := a1.sources + [ImageSource]), image, x);
  }

  /** No alias is the subject's own name, whatever the case of its letters. */
  lemma AliasesAreNotTheName(name: string, now: string, social: SocialBlob, image: ImageBlob, email: EmailBlob, x: string)
    requires x in Aggregate(name, now, social, image, email).aliases
    ensures Lower(x) != Lower(name)
  {
    AggregateAliases(name, now, social, image, email, x);
    var k :| 0 <= k < |image| && EngineAlias(name, image[k].0, image[k].1, x);
    var res := image[k].1;
    if image[k].0 == "google_api" && res.webEntities.Some? && EntityAliasIn(name, res.webEntities.value, x) {
      var j :| 0 <= j < |res.webEntities.value| && EntityAlias(name, res.webEntities.value[j]) == Some(x);
    }
  }

  /** The organizations are exactly those the image results give and the
      e-mail result's non-empty organization. */
  lemma AggregateOrganizations(name: string, now: string, social: SocialBlob, image: ImageBlob, email: EmailBlob, x: string)
    ensures x in Aggregate(name, now, social, image, email).organizations <==>
      EngineOrganizationIn(image, x) || (EmailTruthy(email) && email.organization == Some(x) && x != "")
  {
    var a0 := Initial(name, now);
    var a1 := if SocialTruthy(social) then SocialFold(a0.(sources := a0.sources + [SocialSource]), social.profiles.GetOr([])) else a0;
    ImageFoldOrganizations(name, a1.(sources := a1.sources + [ImageSource]), image, x);
  }

  predicate ProfileUsernameIn(platform: string, ps: seq<Profile>, x: string) {
    exists j :: 0 <= j < |ps| && ProfileUsername(platform, ps[j]) == Some(x)
  }

  predicate SocialUsernameIn(entries: ProfileMap, x: string) {
    exists k :: 0 <= k < |entries| && ProfileUsernameIn(entries[k].0, entries[k].1, x)
  }

  predicate EmailUsernameIn(items: seq<EmailItem>, x: string) {
    exists j :: 0 <= j < |items| && EmailOf(items[j]).Some? && LocalPart(EmailOf(items[j]).value.address) == x
  }

  /** The values `f` yields on `xs`, where it yields one. */
  function Yields<T>(f: T -> Option<string>, xs: seq<T>): set<string> {
    if xs == [] then {}
    else Yields(f, xs[..|xs| - 1]) + OptSet(f(xs[|xs| - 1]))
  }

  lemma {:induction false} YieldsMembers<T>(f: T -> Option<string>, xs: seq<T>, x: string)
    ensures x in Yields(f, xs) <==> exists j :: 0 <= j < |xs| && f(xs[j]) == Some(x)
  {
    if xs != [] {
      var init, last := xs[..|xs| - 1], xs[|xs| - 1];
      YieldsMembers(f, init, x);
      if exists j :: 0 <= j < |init| && f(init[j]) == Some(x) {
        var j :| 0 <= j < |init| && f(init[j]) == Some(x);
        assert xs[j] == init[j];
      }
      if exists j :: 0 <= j < |xs| && f(xs[j]) == Some(x) {
        var j :| 0 <= j < |xs| && f(xs[j]) == Some(x);
        if j < |init| {
          assert init[j] == xs[j];
        } else {
          assert xs[j] == last;
        }
      }
    }
  }

  /** The usernames read from the profiles of one platform. */
  function PlatformUsernames(platform: string, ps: seq<Profile>): set<string> {
    Yields(p => ProfileUsername(platform, p), ps)
  }

  lemma PlatformUsernamesMembers(platform: string, ps: seq<Profile>, x: string)
    ensures x in PlatformUsernames(platform, ps) <==> ProfileUsernameIn(platform, ps, x)
  {
    var f := p => ProfileUsername(platform, p);
    YieldsMembers(f, ps, x);
    if ProfileUsernameIn(platform, ps, x) {
      var j :| 0 <= j < |ps| && ProfileUsername(platform, ps[j]) == Some(x);
      assert f(ps[j]) == Some(x);
    }
  }

  lemma {:induction false} ProfilesFoldUsernameSet(acc: Aggregated, platform: string, ps: seq<Profile>)
    ensures ProfilesFold(acc, platform, ps).usernames == acc.usernames + PlatformUsernames(platform, ps)
  {
    if ps != [] {
      ProfilesFoldUsernameSet(acc, platform, ps[..|ps| - 1]);
    }
  }

  lemma ProfilesFoldUsernames(acc: Aggregated, platform: string, ps: seq<Profile>, x: string)
    ensures x in ProfilesFold(acc, platform, ps).usernames <==> x in acc.usernames || ProfileUsernameIn(platform, ps, x)
  {
    ProfilesFoldUsernameSet(acc, platform, ps);
    PlatformUsernamesMembers(platform, ps, x);
  }

  /** The union of `g` over `xs`. */
  function UnionOf<T>(g: T -> set<string>, xs: seq<T>): set<string> {
    if xs == [] then {}
    else UnionOf(g, xs[..|xs| - 1]) + g(xs[|xs| - 1])
  }

  lemma {:induction false} UnionOfMembers<T>(g: T -> set<string>, xs: seq<T>, x: string)
    ensures x in UnionOf(g, xs) <==> exists k :: 0 <= k < |xs| && x in g(xs[k])
  {
    if xs != [] {
      var init, last := xs[..|xs| - 1], xs[|xs| - 1];
      UnionOfMembers(g, init, x);
      if exists k :: 0 <= k < |init| && x in g(init[k]) {
        var k :| 0 <= k < |init| && x in g(init[k]);
        assert xs[k] == init[k];
      }
      if exists k :: 0 <= k < |xs| && x in g(xs[k]) {
        var k :| 0 <= k < |xs| && x in g(xs[k]);
        if k < |init| {
          assert init[k] == xs[k];
        } else {
          assert xs[k] == last;
        }
      }
    }
  }

  /** The usernames read from every platform of a profile map. */
  function SocialUsernames(entries: ProfileMap): set<string> {
    UnionOf((e: (string, seq<Profile>)) => PlatformUsernames(e.0, e.1), entries)
  }

  lemma {:induction false} SocialFoldUsernameSet(acc: Aggregated, entries: ProfileMap)
    ensures SocialFold(acc, entries).usernames == acc.usernames + SocialUsernames(entries)
  {
    if entries != [] {
      var init := entries[..|entries| - 1];
      var e := entries[|entries| - 1];
      var a := SocialFold(acc, init);
      SocialFoldUsernameSet(acc, init);
      ProfilesFoldUsernameSet(a.(socialProfiles := Extend(a.socialProfiles, e.0, e.1)), e.0, e.1);
    }
  }

  lemma SocialFoldUsernames(acc: Aggregated, entries: ProfileMap, x: string)
    ensures x in SocialFold(acc, entries).usernames <==> x in acc.usernames || SocialUsernameIn(entries, x)
  {
    var g := (e: (string, seq<Profile>)) => PlatformUsernames(e.0, e.1);
    SocialFoldUsernameSet(acc, entries);
    UnionOfMembers(g, entries, x);
    if SocialUsernameIn(entries, x) {
      var k :| 0 <= k < |entries| && ProfileUsernameIn(entries[k].0, entries[k].1, x);
      PlatformUsernamesMembers(entries[k].0, entries[k].1, x);
      assert x in g(entries[k]);
    }
    if x in SocialUsernames(entries) {
      var k :| 0 <= k < |entries| && x in g(entries[k]);
      PlatformUsernamesMembers(entries[k].0, entries[k].1, x);
    }
  }

  lemma {:induction false} EmailsFoldUsernames(acc: Aggregated, items: seq<EmailItem>, x: string)
    ensures x in EmailsFold(acc, items).usernames <==> x in acc.usernames || EmailUsernameIn(items, x)
  {
    if items != [] {
      var init := items[..|items| - 1];
      EmailsFoldUsernames(acc, init, x);
      assert forall j :: 0 <= j < |init| ==> init[j] == items[j];
      if EmailUsernameIn(items, x) {
        var j :| 0 <= j < |items| && EmailOf(items[j]).Some? && LocalPart(EmailOf(items[j]).value.address) == x;
        if j < |init| { assert EmailUsernameIn(init, x); }
      }
    }
  }

  /** The usernames are exactly the handles read from Twitter and Instagram
      profile URLs and the local parts of the e-mail addresses, each once. */
  lemma AggregateUsernames(name: string, now: string, social: SocialBlob, image: ImageBlob, email: EmailBlob, x: string)
    ensures x in Aggregate(name, now, social, image, email).usernames <==>
      (SocialTruthy(social) && SocialUsernameIn(social.profiles.GetOr([]), x)) ||
      (EmailTruthy(email) && email.emails.Some? && EmailUsernameIn(email.emails.value, x))
  {
    var a0 := Initial(name, now);
    if SocialTruthy(social) {
      SocialFoldUsernames(a0.(sources := a0.sources + [SocialSource]), social.profiles.GetOr([]), x);
    }
    var a1 := if SocialTruthy(social) then SocialFold(a0.(sources := a0.sources + [SocialSource]), social.profiles.GetOr([])) else a0;
    var a2 := if image != [] then ImageFold(name, a1.(sources := a1.sources + [ImageSource]), image) else a1;
    if EmailTruthy(email) && email.emails.Some? {
      EmailsFoldUsernames(a2.(sources := a2.sources + [EmailSource]), email.emails.value, x);
    }
  }

  ghost predicate AllGoodLocations(ls: seq<string>) {
    forall i :: 0 <= i < |ls| ==> GoodLocation(ls[i])
  }

  lemma {:induction false} ProfilesFoldLocations(acc: Aggregated, platform: string, ps: seq<Profile>)
    requires AllGoodLocations(acc.locations)
    ensures AllGoodLocations(ProfilesFold(acc, platform, ps).locations)
  {
    if ps != [] {
      ProfilesFoldLocations(acc, platform, ps[..|ps| - 1]);
    }
  }

  lemma {:induction false} SocialFoldLocations(acc: Aggregated, entries: ProfileMap)
    requires AllGoodLocations(acc.locations)
    ensures AllGoodLocations(SocialFold(acc, entries).locations)
  {
    if entries != [] {
      var e := entries[|entries| - 1];
      var a := SocialFold(acc, entries[..|entries| - 1]);
      SocialFoldLocations(acc, entries[..|entries| - 1]);
      ProfilesFoldLocations(a.(socialProfiles := Extend(a.socialProfiles, e.0, e.1)), e.0, e.1);
    }
  }

  /** The locations of a platform's profiles, profile after profile. */
  function PlatformLocations(ps: seq<Profile>): seq<string> {
    if ps == [] then [] else PlatformLocations(ps[..|ps| - 1]) + ProfileLocations(ps[|ps| - 1])
  }

  /** The locations of every platform's profiles, platform after platform. */
  function SocialLocations(entries: ProfileMap): seq<string> {
    if entries == [] then [] else SocialLocations(entries[..|entries| - 1]) + PlatformLocations(entries[|entries| - 1].1)
  }

  /** Reading a platform's profiles appends their locations in order. */
  lemma {:induction false} ProfilesFoldLocationOrder(acc: Aggregated, platform: string, ps: seq<Profile>)
    ensures ProfilesFold(acc, platform, ps).locations == acc.locations + PlatformLocations(ps)
  {
    if ps != [] {
      var init, p := ps[..|ps| - 1], ps[|ps| - 1];
      var a := ProfilesFold(acc, platform, init);
      ProfilesFoldLocationOrder(acc, platform, init);
      AppendAssoc(acc.locations, PlatformLocations(init), ProfileLocations(p));
    }
  }

  lemma {:induction false} SocialFoldLocationOrder(acc: Aggregated, entries: ProfileMap)
    ensures SocialFold(acc, entries).locations == acc.locations + SocialLocations(entries)
  {
    if entries != [] {
      var init := entries[..|entries| - 1];
      var e := entries[|entries| - 1];
      var a := SocialFold(acc, init);
      var b := a.(socialProfiles := Extend(a.socialProfiles, e.0, e.1));
      SocialFoldLocationOrder(acc, init);
      ProfilesFoldLocationOrder(b, e.0, e.1);
      AppendAssoc(acc.locations, SocialLocations(init), PlatformLocations(e.1));
    }
  }

  /** The locations are those of the social profiles' descriptions, platform
      by platform and profile by profile, duplicates kept; every one has 3 to
      29 characters and holds no `.` and no `,`. */
  lemma AggregateLocations(name: string, now: string, social: SocialBlob, image: ImageBlob, email: EmailBlob)
    ensures Aggregate(name, now, social, image, email).locations ==
      if SocialTruthy(social) then SocialLocations(social.profiles.GetOr([])) else []
    ensures AllGoodLocations(Aggregate(name, now, social, image, email).locations)
  {
    var a0 := Initial(name, now);
    if SocialTruthy(social) {
      SocialFoldLocations(a0.(sources := a0.sources + [SocialSource]), social.profiles.GetOr([]));
      SocialFoldLocationOrder(a0.(sources := a0.sources + [SocialSource]), social.profiles.GetOr([]));
    }
  }

  ghost predicate DistinctKeys(m: ProfileMap) {
    forall i, j :: 0 <= i < j < |m| ==> m[i].0 != m[j].0
  }

  lemma ExtendDistinct(m: ProfileMap, k: string, ps: seq<Profile>)
    requires DistinctKeys(m)
    ensures DistinctKeys(Extend(m, k, ps))
  {
  }

  lemma {:induction false} SocialFoldProfiles(acc: Aggregated, entries: ProfileMap, k: string)
    requires DistinctKeys(acc.socialProfiles)
    ensures var m := SocialFold(acc, entries).socialProfiles;
      DistinctKeys(m) &&
      (k in SocialOsint.Keys(m) <==> k in SocialOsint.Keys(acc.socialProfiles) || k in SocialOsint.Keys(entries)) &&
      SocialOsint.TotalProfiles(m) == SocialOsint.TotalProfiles(acc.socialProfiles) + SocialOsint.TotalProfiles(entries)
  {
    if entries != [] {
      var init := entries[..|entries| - 1];
      var e := entries[|entries| - 1];
      var a := SocialFold(acc, init);
      SocialFoldProfiles(acc, init, k);
      ExtendDistinct(a.socialProfiles, e.0, e.1);
      ExtendKeys(a.socialProfiles, e.0, e.1, k);
      ExtendTotal(a.socialProfiles, e.0, e.1);
      assert entries == init + [e];
      SocialOsint.KeysAppend(init, e);
      SocialOsint.TotalProfilesAppend(init, e);
    }
  }

  /** The platform map holds each platform of the social results once, with
      all their profiles, and nothing else; a platform whose list is empty
      still has its entry. */
  lemma AggregateProfiles(name: string, now: string, social: SocialBlob, image: ImageBlob, email: EmailBlob, k: string)
    ensures var m := Aggregate(name, now, social, image, email).socialProfiles;
      var entries := if SocialTruthy(social) then social.profiles.GetOr([]) else [];
      DistinctKeys(m) && (k in SocialOsint.Keys(m) <==> k in SocialOsint.Keys(entries)) &&
      SocialOsint.TotalProfiles(m) == SocialOsint.TotalProfiles(entries)
  {
    var a0 := Initial(name, now);
    if SocialTruthy(social) {
      SocialFoldProfiles(a0.(sources := a0.sources + [SocialSource]), social.profiles.GetOr([]), k);
    }
  }

  ghost predicate EmailsRecorded(acc: Aggregated) {
    forall i :: 0 <= i < |acc.emails| ==> acc.emails[i].source == HunterSource && LocalPart(acc.emails[i].address) in acc.usernames
  }

  lemma {:induction false} EmailsFoldRecorded(acc: Aggregated, items: seq<EmailItem>)
    requires EmailsRecorded(acc)
    ensures EmailsRecorded(EmailsFold(acc, items))
    ensures |EmailsFold(acc, items).emails| <= |acc.emails| + |items|
  {
    if items != [] {
      EmailsFoldRecorded(acc, items[..|items| - 1]);
    }
  }

  /** Every e-mail comes from Hunter, at most one per element of `emails`,
      and its local part is among the usernames. */
  lemma AggregateEmails(name: string, now: string, social: SocialBlob, image: ImageBlob, email: EmailBlob)
    ensures var a := Aggregate(name, now, social, image, email);
      EmailsRecorded(a) && |a.emails| <= (if EmailTruthy(email) && email.emails.Some? then |email.emails.value| else 0)
  {
    var a0 := Initial(name, now);
    var a1 := if SocialTruthy(social) then SocialFold(a0.(sources := a0.sources + [SocialSource]), social.profiles.GetOr([])) else a0;
    var a2 := if image != [] then ImageFold(name, a1.(sources := a1.sources + [ImageSource]), image) else a1;
    if EmailTruthy(email) && email.emails.Some? {
      EmailsFoldRecorded(a2.(sources := a2.sources + [EmailSource]), email.emails.value);
    }
  }

  ghost predicate ImagesFromEngines(images: seq<Image>) {
    forall i :: 0 <= i < |images| ==> images[i].source in ImageEngines
  }

  lemma {:induction false} ImagesFoldSources(engine: string, acc: Aggregated, items: seq<ImageItem>)
    requires ImagesFromEngines(acc.images) && engine in ImageEngines
    ensures ImagesFromEngines(ImagesFold(engine, acc, items).images)
  {
    if items != [] {
      ImagesFoldSources(engine, acc, items[..|items| - 1]);
    }
  }

  lemma {:induction false} ImageFoldSources(name: string, acc: Aggregated, engines: ImageBlob)
    requires ImagesFromEngines(acc.images)
    ensures ImagesFromEngines(ImageFold(name, acc, engines).images)
  {
    if engines != [] {
      var e := engines[|engines| - 1];
      var acc' := ImageFold(name, acc, engines[..|engines| - 1]);
      ImageFoldSources(name, acc, engines[..|engines| - 1]);
      var a1 := if e.0 == "google_api" && e.1.webEntities.Some? then EntitiesFold(name, acc', e.1.webEntities.value) else acc';
      if e.0 in ImageEngines && e.1.similarImages.Some? {
        ImagesFoldSources(e.0, a1, e.1.similarImages.value);
      }
    }
  }

  /** Every image comes from `google`, `yandex` or `tineye`. */
  lemma AggregateImages(name: string, now: string, social: SocialBlob, image: ImageBlob, email: EmailBlob)
    ensures ImagesFromEngines(Aggregate(name, now, social, image, email).images)
  {
    var a0 := Initial(name, now);
    var a1 := if SocialTruthy(social) then SocialFold(a0.(sources := a0.sources + [SocialSource]), social.profiles.GetOr([])) else a0;
    if image != [] {
      ImageFoldSources(name, a1.(sources := a1.sources + [ImageSource]), image);
    }
  }

  // ---------------------------------------------------------------------------
  // Examples
  // ---------------------------------------------------------------------------

  const ExampleTwitterUrl: string := "https://" + TwitterMarker + "johndoe?lang=en"

  lemma TwitterMarkerFound()
    ensures Contains(ExampleTwitterUrl, TwitterMarker)
    ensures After(ExampleTwitterUrl, TwitterMarker) == "johndoe?lang=en"
  {
    var url := ExampleTwitterUrl;
    assert OccursAt(url, TwitterMarker, 8) by {
      assert url[8..20] == TwitterMarker;
    }
    TwitterMarkerAbsentBefore();
    FindFirst(url, TwitterMarker, 8);
    assert url[20..] == "johndoe?lang=en";
  }

  lemma TwitterMarkerAbsentBefore()
    ensures forall j :: 0 <= j < 8 ==> !OccursAt(ExampleTwitterUrl, TwitterMarker, j)
  {
    forall j | 0 <= j < 8 ensures !OccursAt(ExampleTwitterUrl, TwitterMarker, j) {
      if j == 1 || j == 2 {
        MismatchAt(ExampleTwitterUrl, TwitterMarker, j, 1);
      } else {
        MismatchAt(ExampleTwitterUrl, TwitterMarker, j, 0);
      }
    }
  }

  lemma JohndoeStops()
    ensures forall j :: 0 <= j < 7 ==> !OccursAt("johndoe?lang=en", TwitterMarker, j)
    ensures forall j :: 0 <= j < 7 ==> "johndoe"[j] != '/' && "johndoe"[j] != '?'
    ensures IsPrefix("johndoe", "johndoe?lang=en") && "johndoe?lang=en"[7] == '?'
  {
    forall j | 0 <= j < 7 ensures !OccursAt("johndoe?lang=en", TwitterMarker, j) {
      MismatchAt("johndoe?lang=en", TwitterMarker, j, 0);
    }
  }

  lemma TwitterSegment(url: string)
    requires url == ExampleTwitterUrl
    ensures Contains(url, TwitterMarker)
    ensures SegmentAfter(url, TwitterMarker, '/', '?') == "johndoe"
  {
    TwitterMarkerFound();
    JohndoeStops();
    SegmentAfterUnique(url, TwitterMarker, '/', '?', "johndoe");
  }

  /** A Twitter URL with a query string gives the bare handle. */
  lemma TwitterHandleExample()
    ensures ProfileUsername("twitter", SocialOsint.Profile(None, Some(ExampleTwitterUrl), None)) == Some("johndoe")
  {
    TwitterSegment(ExampleTwitterUrl);
  }

  const ExampleDescription: string := "Developer based in Paris, France"

  lemma InFound()
    ensures Contains(ExampleDescription, " in ")
    ensures After(ExampleDescription, " in ") == "Paris, France"
  {
    var d := ExampleDescription;
    assert d == "Developer based" + " in " + "Paris, France";
    assert OccursAt(d, " in ", 15) by {
      assert d[15..19] == " in ";
    }
    InAbsentBefore();
    FindFirst(d, " in ", 15);
    assert d[19..] == "Paris, France";
  }

  lemma InAbsentBefore()
    ensures forall j :: 0 <= j < 15 ==> !OccursAt(ExampleDescription, " in ", j)
  {
    forall j | 0 <= j < 15 ensures !OccursAt(ExampleDescription, " in ", j) {
      if j == 9 {
        MismatchAt(ExampleDescription, " in ", j, 1);
      } else {
        MismatchAt(ExampleDescription, " in ", j, 0);
      }
    }
  }

  lemma ParisStops()
    ensures forall j :: 0 <= j < 5 ==> !OccursAt("Paris, France", " in ", j)
    ensures forall j :: 0 <= j < 5 ==> "Paris"[j] != '.' && "Paris"[j] != ','
    ensures IsPrefix("Paris", "Paris, France") && "Paris, France"[5] == ','
  {
    forall j | 0 <= j < 5 ensures !OccursAt("Paris, France", " in ", j) {
      MismatchAt("Paris, France", " in ", j, 0);
    }
  }

  lemma InParisSegment(d: string)
    requires d == ExampleDescription
    ensures Contains(d, " in ")
    ensures SegmentAfter(d, " in ", '.', ',') == "Paris"
  {
    InFound();
    ParisStops();
    SegmentAfterUnique(d, " in ", '.', ',', "Paris");
  }

  lemma InParisFound(d: string)
    requires d == ExampleDescription
    ensures Contains(d, " in ")
    ensures LocationText(d, " in ") == "Paris"
  {
    InParisSegment(d);
    StripUnchanged("Paris");
  }

  lemma BasedFound()
    ensures Contains(ExampleDescription, " based ")
    ensures After(ExampleDescription, " based ") == "in Paris, France"
  {
    var d := ExampleDescription;
    assert d == "Developer" + " based " + "in Paris, France";
    assert OccursAt(d, " based ", 9) by {
      assert d[9..16] == " based ";
    }
    BasedAbsentBefore();
    FindFirst(d, " based ", 9);
    assert d[16..] == "in Paris, France";
  }

  lemma BasedAbsentBefore()
    ensures forall j :: 0 <= j < 9 ==> !OccursAt(ExampleDescription, " based ", j)
  {
    forall j | 0 <= j < 9 ensures !OccursAt(ExampleDescription, " based ", j) {
      MismatchAt(ExampleDescription, " based ", j, 0);
    }
  }

  lemma InParisStops()
    ensures forall j :: 0 <= j < 8 ==> !OccursAt("in Paris, France", " based ", j)
    ensures forall j :: 0 <= j < 8 ==> "in Paris"[j] != '.' && "in Paris"[j] != ','
    ensures IsPrefix("in Paris", "in Paris, France") && "in Paris, France"[8] == ','
  {
    forall j | 0 <= j < 8 ensures !OccursAt("in Paris, France", " based ", j) {
      if j == 2 {
        MismatchAt("in Paris, France", " based ", j, 1);
      } else {
        MismatchAt("in Paris, France", " based ", j, 0);
      }
    }
  }

  lemma BasedInParisSegment(d: string)
    requires d == ExampleDescription
    ensures Contains(d, " based ")
    ensures SegmentAfter(d, " based ", '.', ',') == "in Paris"
  {
    BasedFound();
    InParisStops();
    SegmentAfterUnique(d, " based ", '.', ',', "in Paris");
  }

  lemma BasedInParisFound(d: string)
    requires d == ExampleDescription
    ensures Contains(d, " based ")
    ensures LocationText(d, " based ") == "in Paris"
  {
    BasedInParisSegment(d);
    StripUnchanged("in Paris");
  }

  /** A keyword holding a character the description lacks announces nothing. */
  lemma KeywordAbsent(description: string, keyword: string, c: char)
    requires c in keyword && c !in description
    ensures KeywordLocation(description, keyword) == None
  {
    if Contains(description, " " + keyword + " ") {
      assert c in " " + keyword + " ";
      ContainedChars(description, " " + keyword + " ");
    }
  }

  /** A keyword neither starting the description nor starting any of its
      words after the first is not found in it. */
  lemma ExampleKeywordAbsent(d: string, keyword: string)
    requires d == ExampleDescription
    requires |keyword| > 0
    requires keyword[0] != 'b' && keyword[0] != 'i' && keyword[0] != 'P' && keyword[0] != 'F'
    requires keyword[0] != ' ' && keyword[0] != 'D'
    ensures KeywordLocation(d, keyword) == None
  {
    var sep := " " + keyword + " ";
    assert sep[0] == ' ' && sep[1] == keyword[0];
    forall j | 0 <= j <= |d| - |sep| ensures !OccursAt(d, sep, j) {
      if j == 9 || j == 15 || j == 18 || j == 25 {
        MismatchAt(d, sep, j, 1);
      } else {
        assert d[j] != ' ' by {
          if j < 9 {} else if j < 15 {} else if j < 18 {} else if j < 25 {}
        }
        MismatchAt(d, sep, j, 0);
      }
    }
  }

  lemma InParisExample(d: string)
    requires d == ExampleDescription
    ensures KeywordLocation(d, "in") == Some("Paris")
  {
    var sep := " " + "in" + " ";
    assert sep == " in ";
    InParisFound(d);
    assert Contains(d, sep);
  }

  lemma BasedInParisExample(d: string)
    requires d == ExampleDescription
    ensures KeywordLocation(d, "based") == Some("in Paris")
  {
    var sep := " " + "based" + " ";
    assert sep == " based ";
    BasedInParisFound(d);
    assert Contains(d, sep);
  }

  lemma ExampleKeywordResults(d: string)
    requires d == ExampleDescription
    ensures KeywordLocation(d, "à") == None
    ensures KeywordLocation(d, "in") == Some("Paris")
    ensures KeywordLocation(d, "from") == None
    ensures KeywordLocation(d, "located") == None
    ensures KeywordLocation(d, "based") == Some("in Paris")
  {
    KeywordAbsent(d, "à", 'à');
    InParisExample(d);
    ExampleKeywordAbsent(d, "from");
    ExampleKeywordAbsent(d, "located");
    BasedInParisExample(d);
  }

  /** One more keyword whose answer is known. */
  lemma KeywordLocationsExtend(description: string, ks: seq<string>, k: nat, acc: seq<string>, o: Option<string>)
    requires k < |ks| && KeywordLocations(description, ks[..k]) == acc && KeywordLocation(description, ks[k]) == o
    ensures KeywordLocations(description, ks[..k + 1]) == acc + OptSeq(o)
  {
    KeywordLocationsStep(description, ks, k);
  }

  /** The last keyword, whose answer is known, completes the list. */
  lemma KeywordLocationsLast(description: string, ks: seq<string>, acc: seq<string>, o: Option<string>)
    requires |ks| > 0 && KeywordLocations(description, ks[..|ks| - 1]) == acc
    requires KeywordLocation(description, ks[|ks| - 1]) == o
    ensures KeywordLocations(description, ks) == acc + OptSeq(o)
  {
  }

  /** The first three keywords give the place after ` in `. */
  lemma ExampleFirstThree(d: string)
    requires d == ExampleDescription
    ensures KeywordLocations(d, LocationKeywords[..3]) == ["Paris"]
  {
    var ks := LocationKeywords;
    assert ks[0] == "à" && ks[1] == "in" && ks[2] == "from";
    KeywordAbsent(d, "à", 'à');
    InParisExample(d);
    ExampleKeywordAbsent(d, "from");
    assert ks[..0] == [];
    KeywordLocationsExtend(d, ks, 0, [], None);
    KeywordLocationsExtend(d, ks, 1, [], Some("Paris"));
    KeywordLocationsExtend(d, ks, 2, ["Paris"], None);
  }

  /** Both `in` and `based` announce a place here, so the description gives
      two locations, in keyword order: the text after ` in ` up to the comma,
      then the text after ` based ` up to the comma. */
  lemma DescriptionLocationsExample(d: string)
    requires d == ExampleDescription
    ensures KeywordLocations(d, LocationKeywords) == ["Paris", "in Paris"]
  {
    var ks := LocationKeywords;
    assert ks[3] == "located" && ks[4] == "based";
    ExampleFirstThree(d);
    ExampleKeywordAbsent(d, "located");
    BasedInParisExample(d);
    KeywordLocationsExtend(d, ks, 3, ["Paris"], None);
    KeywordLocationsLast(d, ks, ["Paris"], Some("in Paris"));
  }
}
