/** The HTML report of `DataAggregator.generate_report` and its helpers
    `_generate_emails_html` and `_generate_images_html`
    (backend/modules/data_aggregator.py). The page is modelled by its
    variable parts; the e-mail and image sections, the graph section, the
    information lines, the colour rules and the file name are modelled to the
    character. */
module Report {
  import opened Wrappers
  import opened Text
  import DataAggregator

  type PersonData = DataAggregator.PersonData
  type ProfileMap = DataAggregator.ProfileMap
  type EmailRecord = DataAggregator.EmailRecord
  type Image = DataAggregator.Image

  /** What ends `y` ends `x + y`. */
  lemma SuffixOfAppend(t: string, x: string, y: string)
    requires IsSuffix(t, y)
    ensures IsSuffix(t, x + y)
  {
    assert (x + y)[|x + y| - |t|..] == y[|y| - |t|..];
  }

  /** A string whose `k`-th character from the end differs from that of `t` does not end with `t`. */
  lemma NotSuffixOfAppend(t: string, x: string, y: string, k: nat)
    requires 1 <= k <= |t| && k <= |y| && y[|y| - k] != t[|t| - k]
    ensures !IsSuffix(t, x + y)
  {
    var s := x + y;
    assert s[|s| - k] == y[|y| - k];
    assert |t| <= |s| ==> s[|s| - |t|..][|t| - k] == s[|s| - k];
  }

  // ---------------------------------------------------------------------------
  // Blocks rendered one after the other
  // ---------------------------------------------------------------------------

  /** The blocks of the elements of `xs`, one after the other, in order. */
  function Concat<T>(block: T -> string, xs: seq<T>): string {
    if xs == [] then "" else Concat(block, xs[..|xs| - 1]) + block(xs[|xs| - 1])
  }

  lemma ConcatSnoc<T>(block: T -> string, xs: seq<T>, x: T)
    ensures Concat(block, xs + [x]) == Concat(block, xs) + block(x)
  {
    assert (xs + [x])[..|xs|] == xs;
  }

  lemma {:induction false} ConcatAppend<T>(block: T -> string, a: seq<T>, b: seq<T>)
    ensures Concat(block, a + b) == Concat(block, a) + Concat(block, b)
  {
    if b == [] {
      assert a + b == a;
    } else {
      var b' := b[..|b| - 1];
      assert (a + b)[..|a + b| - 1] == a + b';
      ConcatAppend(block, a, b');
      AppendAssoc(Concat(block, a), Concat(block, b'), block(b[|b| - 1]));
    }
  }

  /** A sequence is its part before `i`, its `i`-th element and its part after. */
  lemma SplitAt<T>(xs: seq<T>, i: nat)
    requires i < |xs|
    ensures (xs[..i] + [xs[i]]) + xs[i + 1..] == xs
  {
    assert forall k :: 0 <= k < |xs| ==> ((xs[..i] + [xs[i]]) + xs[i + 1..])[k] == xs[k];
  }

  /** Every element is rendered, in its place: its block comes after those of
      the elements before it and before those of the elements after it. */
  lemma ConcatAt<T>(block: T -> string, xs: seq<T>, i: nat)
    requires i < |xs|
    ensures Concat(block, xs) == Concat(block, xs[..i]) + block(xs[i]) + Concat(block, xs[i + 1..])
  {
    var a, x, b := xs[..i], xs[i], xs[i + 1..];
    SplitAt(xs, i);
    ConcatSnoc(block, a, x);
    ConcatAppend(block, a + [x], b);
  }

  /** The two loops of the report: `html += block(x)` for each `x`, in order,
      after `start`. */
  method AppendBlocks<T>(start: string, xs: seq<T>, block: T -> string) returns (html: string)
    ensures html == start + Concat(block, xs)
  {
    html := start;
    for i := 0 to |xs|
      invariant html == start + Concat(block, xs[..i])
    {
      ConcatSnoc(block, xs[..i], xs[i]);
      assert xs[..i + 1] == xs[..i] + [xs[i]];
      AppendAssoc(start, Concat(block, xs[..i]), block(xs[i]));
      html := html + block(xs[i]);
    }
    assert xs[..|xs|] == xs;
  }

  // ---------------------------------------------------------------------------
  // File name
  // ---------------------------------------------------------------------------

  /** A character of the safe name: alphanumerics are kept, anything else becomes `_`. */
  function SafeChar(c: char): char {
    if IsAlnum(c) then c else '_'
  }

  /** `safe_name`: the person's name with every non-alphanumeric character replaced by `_`. */
  function SafeName(name: string): (safe: string)
    ensures |safe| == |name|
    ensures forall i :: 0 <= i < |safe| ==> IsAlnum(safe[i]) || safe[i] == '_'
    ensures forall i :: 0 <= i < |safe| ==> (IsAlnum(name[i]) ==> safe[i] == name[i]) && (!IsAlnum(name[i]) ==> safe[i] == '_')
  {
    if name == [] then [] else SafeName(name[..|name| - 1]) + [SafeChar(name[|name| - 1])]
  }

  /** A safe name is its own safe name. */
  lemma SafeNameIdempotent(name: string)
    ensures SafeName(SafeName(name)) == SafeName(name)
  {
    var s := SafeName(name);
    var ss := SafeName(s);
    assert forall i :: 0 <= i < |s| ==> ss[i] == s[i];
  }

  /** `os.path.join(directory, file)` for a relative file name. */
  function PathJoin(directory: string, file: string): (path: string)
    ensures IsPrefix(directory, path) && IsSuffix(file, path)
    ensures |path| == |directory| + |file| <==> directory == [] || directory[|directory| - 1] == '/'
    ensures |path| != |directory| + |file| ==> |path| == |directory| + |file| + 1 && path[|directory|] == '/'
  {
    if directory == [] || directory[|directory| - 1] == '/' then directory + file else directory + "/" + file
  }

  /** The report's file: `<safe name>_<timestamp>.html` in the reports directory. */
  function ReportFile(reportsDir: string, name: string, timestamp: string): (file: string)
    ensures IsPrefix(reportsDir, file) && IsSuffix(".html", file)
  {
    var base := SafeName(name) + "_" + timestamp + ".html";
    var file := PathJoin(reportsDir, base);
    assert file[|file| - 5..] == base[|base| - 5..];
    file
  }

  /** With a timestamp without `/` (as `%Y%m%d_%H%M%S` is), the report's file
      lies directly in the reports directory, whatever the person's name is:
      it ends with its base name, which holds no `/`, and a `/` comes right
      before it. */
  lemma ReportFileInDirectory(reportsDir: string, name: string, timestamp: string)
    requires '/' !in timestamp
    ensures var base := SafeName(name) + "_" + timestamp + ".html";
      var file := ReportFile(reportsDir, name, timestamp);
      IsSuffix(base, file) && '/' !in base &&
      (reportsDir != "" ==> |base| < |file| && file[|file| - |base| - 1] == '/')
  {
    var base := SafeName(name) + "_" + timestamp + ".html";
    var file := ReportFile(reportsDir, name, timestamp);
    BaseNameHasNoSlash(name, timestamp);
    assert file == PathJoin(reportsDir, base);
    if reportsDir != "" && |file| == |reportsDir| + |base| {
      assert file[|reportsDir| - 1] == reportsDir[|reportsDir| - 1];
    }
  }

  lemma BaseNameHasNoSlash(name: string, timestamp: string)
    requires '/' !in timestamp
    ensures '/' !in SafeName(name) + "_" + timestamp + ".html"
  {
    var safe := SafeName(name);
    var base := safe + "_" + timestamp + ".html";
    forall i | 0 <= i < |base| ensures base[i] != '/' {
      if i < |safe| {
        assert base[i] == safe[i];
      } else if i > |safe| && i <= |safe| + |timestamp| {
        assert base[i] == timestamp[i - |safe| - 1];
      }
    }
  }

  // ---------------------------------------------------------------------------
  // Colours
  // ---------------------------------------------------------------------------

  /** The three badge colours. */
  datatype Badge = Green | Orange | Red

  function Hex(b: Badge): string {
    match b
    case Green => "#4CAF50"
    case Orange => "#FF9800"
    case Red => "#F44336"
  }

  /** Green above `high`, orange above `mid`, red otherwise. */
  function BadgeColor(value: int, high: int, mid: int): (b: Badge)
    ensures b == Green <==> value > high
    ensures b == Orange <==> !(value > high) && value > mid
    ensures b == Red <==> !(value > high) && !(value > mid)
  {
    if value > high then Green else if value > mid then Orange else Red
  }

  /** The colour of the report's confidence badge. */
  function ConfidenceColor(confidence: int): Badge {
    BadgeColor(confidence, 70, 40)
  }

  /** The colour of an e-mail's confidence badge. */
  function EmailColor(confidence: int): Badge {
    BadgeColor(confidence, 80, 50)
  }

  function Rank(b: Badge): nat {
    match b
    case Green => 2
    case Orange => 1
    case Red => 0
  }

  /** A higher value never gets a worse colour, when `mid <= high`. */
  lemma BadgeColorMonotone(a: int, b: int, high: int, mid: int)
    requires a <= b && mid <= high
    ensures Rank(BadgeColor(a, high, mid)) <= Rank(BadgeColor(b, high, mid))
  {
  }

  /** An e-mail badge is green only where the report badge would be green. */
  lemma EmailColorStricter(c: int)
    ensures EmailColor(c) == Green ==> ConfidenceColor(c) == Green
    ensures ConfidenceColor(c) == Red ==> EmailColor(c) == Red
  {
  }

  // ---------------------------------------------------------------------------
  // The e-mail section
  // ---------------------------------------------------------------------------

  const NoEmails: string := "<p>Aucune adresse email trouvée.</p>"

  const EmailOpen: string := "<div class=\"email\">\n                <p>\n                    <strong>"
  const EmailAfterAddress: string := "</strong>\n                    <span style=\"float:right; background-color:"
  const EmailAfterColor: string := "; color:white; padding:2px 5px; border-radius:3px; font-size:0.8em;\">\n                        "
  const EmailAfterConfidence: string := "%\n                    </span>\n                </p>\n                <p><small>Source: "
  const EmailClose: string := "</small></p>\n            </div>"

  /** The block of one e-mail: its address, its badge and its source. */
  function EmailBlock(e: EmailRecord): string {
    EmailOpen + e.address + EmailAfterAddress + Hex(EmailColor(e.confidence)) + EmailAfterColor +
    IntToString(e.confidence) + EmailAfterConfidence + e.source + EmailClose
  }

  function EmailsSection(emails: seq<EmailRecord>): string {
    if emails == [] then NoEmails else Concat(EmailBlock, emails)
  }

  /** `_generate_emails_html`. */
  method EmailsHtml(emails: seq<EmailRecord>) returns (html: string)
    ensures html == EmailsSection(emails)
  {
    if emails == [] {
      return NoEmails;
    }
    html := AppendBlocks("", emails, EmailBlock);
    assert "" + Concat(EmailBlock, emails) == Concat(EmailBlock, emails);
  }

  /** Every e-mail is rendered, in order: the section is the blocks before
      it, its own block, and the blocks after it. */
  lemma EmailRendered(emails: seq<EmailRecord>, i: nat)
    requires i < |emails|
    ensures EmailsSection(emails) ==
      Concat(EmailBlock, emails[..i]) + EmailBlock(emails[i]) + Concat(EmailBlock, emails[i + 1..])
  {
    ConcatAt(EmailBlock, emails, i);
  }

  // ---------------------------------------------------------------------------
  // The image section
  // ---------------------------------------------------------------------------

  const NoImages: string := "<p>Aucune image trouvée.</p>"
  const GalleryOpen: string := "<div style='display:flex; flex-wrap:wrap; gap:10px;'>"
  const GalleryClose: string := "</div>"
  const ImageOpen: string := "<div style=\"width:150px; margin-bottom:10px;\">\n                <a href=\""
  const ImageAfterHref: string := "\" target=\"_blank\">\n                    <img src=\""
  const ImageAfterSrc: string := "\" alt=\"Image\" style=\"max-width:100%; max-height:150px; object-fit:contain;\">\n                </a>\n                <p><small>Source: "
  const ImageClose: string := "</small></p>\n            </div>"

  /** How many images are rendered at most. */
  const ShownImages: nat := 12

  const NoteOpen: string := "<p><em>+ "
  const NoteClose: string := " autres images non affichées</em></p>"

  /** The block of one image: linked to its URL, with its source. */
  function ImageBlock(img: Image): string {
    ImageOpen + img.url + ImageAfterHref + img.url + ImageAfterSrc + img.source + ImageClose
  }

  /** The note on the images not shown; nothing when all are shown. */
  function OverflowNote(count: nat): string {
    if count > ShownImages then NoteOpen + IntToString(count - ShownImages) + NoteClose else ""
  }

  function Shown(images: seq<Image>): (shown: seq<Image>)
    ensures |shown| <= ShownImages && shown <= images
    ensures |images| <= ShownImages ==> shown == images
  {
    if |images| <= ShownImages then images else images[..ShownImages]
  }

  function ImagesSection(images: seq<Image>): string {
    if images == [] then NoImages
    else GalleryOpen + Concat(ImageBlock, Shown(images)) + GalleryClose + OverflowNote(|images|)
  }

  /** `_generate_images_html`. */
  method ImagesHtml(images: seq<Image>) returns (html: string)
    ensures html == ImagesSection(images)
  {
    if images == [] {
      return NoImages;
    }
    var shown := if |images| <= ShownImages then images else images[..ShownImages];
    html := AppendBlocks(GalleryOpen, shown, ImageBlock);
    html := html + GalleryClose;
    if |images| > ShownImages {
      html := html + OverflowNote(|images|);
    } else {
      assert html + OverflowNote(|images|) == html;
    }
  }

  /** Every shown image is rendered, in order. */
  lemma ImageRendered(images: seq<Image>, i: nat)
    requires i < |images| && i < ShownImages
    ensures var shown := Shown(images);
      ImagesSection(images) == GalleryOpen + (Concat(ImageBlock, shown[..i]) + ImageBlock(images[i]) +
        Concat(ImageBlock, shown[i + 1..])) + GalleryClose + OverflowNote(|images|)
  {
    ConcatAt(ImageBlock, Shown(images), i);
  }

  /** Images after the twelfth change nothing but the count in the note. */
  lemma ImagesAfterTwelfthIgnored(a: seq<Image>, b: seq<Image>)
    requires |a| == |b| && |a| > 0
    requires a[..if |a| <= ShownImages then |a| else ShownImages] == b[..if |b| <= ShownImages then |b| else ShownImages]
    ensures ImagesSection(a) == ImagesSection(b)
  {
    if |a| <= ShownImages {
      assert a == a[..|a|] && b == b[..|b|];
    }
  }

  /** The note is there exactly when there are more than twelve images, and
      it gives how many were left out. */
  lemma OverflowNoteIff(images: seq<Image>)
    ensures IsSuffix("</em></p>", ImagesSection(images)) <==> |images| > ShownImages
    ensures |images| > ShownImages ==> IsSuffix(NoteOpen + IntToString(|images| - ShownImages) + NoteClose, ImagesSection(images))
  {
    var tail := "</em></p>";
    if images == [] {
      assert NoImages[|NoImages| - 5] == '.';
      NotSuffixOfAppend(tail, "", NoImages, 5);
      assert "" + NoImages == NoImages;
    } else if |images| <= ShownImages {
      var body := GalleryOpen + Concat(ImageBlock, Shown(images));
      assert OverflowNote(|images|) == "";
      assert ImagesSection(images) == body + GalleryClose + "";
      assert body + GalleryClose + "" == body + GalleryClose;
      NotSuffixOfAppend(tail, body, GalleryClose, 2);
    } else {
      var body := GalleryOpen + Concat(ImageBlock, Shown(images)) + GalleryClose;
      var note := NoteOpen + IntToString(|images| - ShownImages) + NoteClose;
      assert ImagesSection(images) == body + note;
      assert IsSuffix(note, note);
      SuffixOfAppend(note, body, note);
      assert IsSuffix(tail, NoteClose);
      SuffixOfAppend(tail, NoteOpen + IntToString(|images| - ShownImages), NoteClose);
      SuffixOfAppend(tail, body, note);
    }
  }


  // ---------------------------------------------------------------------------
  // The page
  // ---------------------------------------------------------------------------

  /** One line of the person's details; nothing when the list is empty. */
  function InfoLine(title: string, values: seq<string>): (line: string)
    ensures line == "" <==> values == []
  {
    if values == [] then "" else "<p><strong>" + title + "</strong> " + Join(", ", values) + "</p>"
  }

  /** The lines on aliases, usernames, locations and organizations, in order. */
  function InfoLines(p: PersonData): seq<string> {
    [InfoLine("Alias possibles:", p.possibleAliases),
     InfoLine("Noms d'utilisateur possibles:", p.possibleUsernames),
     InfoLine("Localisations:", p.locations),
     InfoLine("Organisations:", p.organizations)]
  }

  const GraphOpen: string := "<section class=\"section\">\n            <h2>Graphe de relations</h2>\n            <div class=\"network-graph\">\n                <img src=\"data:image/png;base64,"
  const GraphClose: string := "\" alt=\"Graphe de relations\" style=\"max-width:100%;\">\n            </div>\n        </section>"

  /** The graph section around the base64 text of the picture. */
  function GraphSection(graphData: string): string {
    GraphOpen + graphData + GraphClose
  }

  /** The variable parts of the report page. The person's social profiles are
      carried as they are; their rendering is not modelled. */
  datatype ReportPage = ReportPage(
    name: string,
    confidence: int,
    confidenceColor: Badge,
    infoLines: seq<string>,
    socialProfiles: ProfileMap,
    emailsHtml: string,
    imagesHtml: string,
    graphSection: Option<string>,
    generatedAt: string)

  /** What `generate_report` returns: the page and the file it was written
      to, or an error page and no file. */
  datatype ReportOutcome = Written(page: ReportPage, file: string) | Failed(errorHtml: string)

  function ErrorPage(message: string): string {
    "<html><body><h1>Erreur</h1><p>" + message + "</p></body></html>"
  }

  /** The message of the `NameError` raised at the unimported `base64`. */
  const Base64Missing: string := "name 'base64' is not defined"

  /** The inputs `generate_report` gets from outside: whether a graph is
      wanted, the base64 text of the drawn graph (`None` when drawing it
      failed), the two clock readings and the outcome of writing the file. */
  datatype ReportInputs = ReportInputs(
    includeGraph: bool,
    graph: Option<string>,
    reportsDir: string,
    fileTimestamp: string,
    displayTimestamp: string,
    write: Outcome<string>)

  /** The page with a given graph section. */
  function Page(p: PersonData, inputs: ReportInputs, graphSection: Option<string>): ReportPage {
    ReportPage(p.name, p.confidence, ConfidenceColor(p.confidence), InfoLines(p), p.socialProfiles,
               EmailsSection(p.emails), ImagesSection(p.images), graphSection, inputs.displayTimestamp)
  }

  /** The page written to its file, or the error page when writing fails. */
  function Write(p: PersonData, inputs: ReportInputs, page: ReportPage): ReportOutcome {
    match inputs.write
    case Fail(message) => Failed(ErrorPage(message))
    case Pass => Written(page, ReportFile(inputs.reportsDir, p.name, inputs.fileTimestamp))
  }

  /** The page shows the person's record: the name, the confidence and its
      badge, the four information lines, the social profiles, the e-mail and
      image sections, and the display time. */
  predicate ShowsPerson(page: ReportPage, p: PersonData, generatedAt: string) {
    page.name == p.name && page.confidence == p.confidence &&
    page.confidenceColor == ConfidenceColor(p.confidence) && page.infoLines == InfoLines(p) &&
    page.socialProfiles == p.socialProfiles && page.emailsHtml == EmailsSection(p.emails) &&
    page.imagesHtml == ImagesSection(p.images) && page.generatedAt == generatedAt
  }

  /** `generate_report` as written: once a graph has been drawn, encoding it
      reaches `base64`, which the module never imports, so the `NameError` is
      caught and the error page returned. */
  function ReportAsWritten(p: PersonData, inputs: ReportInputs): (r: ReportOutcome)
    ensures r.Written? <==> inputs.write.Pass? && !(inputs.includeGraph && inputs.graph.Some?)
    ensures r.Written? ==> r.page.graphSection.None? && r.file == ReportFile(inputs.reportsDir, p.name, inputs.fileTimestamp)
    ensures r.Written? ==> ShowsPerson(r.page, p, inputs.displayTimestamp)
    ensures inputs.includeGraph && inputs.graph.Some? ==> r == Failed(ErrorPage(Base64Missing))
  {
    if inputs.includeGraph && inputs.graph.Some? then Failed(ErrorPage(Base64Missing))
    else Write(p, inputs, Page(p, inputs, None))
  }

  /** With a graph asked for and drawn, the report as written is never
      produced: the result is the error page, and no file is written. */
  lemma ReportAsWrittenLosesGraph(p: PersonData, inputs: ReportInputs)
    ensures inputs.includeGraph && inputs.graph.Some? ==>
      ReportAsWritten(p, inputs) == Failed(ErrorPage(Base64Missing))
    ensures ReportAsWritten(p, inputs).Written? ==> ReportAsWritten(p, inputs).page.graphSection.None?
  {
  }

  /** `generate_report` as intended, with the graph encoded: the graph section
      is there when a graph was asked for and drawn. */
  function ReportCorrected(p: PersonData, inputs: ReportInputs): (r: ReportOutcome)
    ensures r.Written? <==> inputs.write.Pass?
    ensures r.Written? ==> r.file == ReportFile(inputs.reportsDir, p.name, inputs.fileTimestamp)
    ensures r.Written? ==> ShowsPerson(r.page, p, inputs.displayTimestamp)
    ensures r.Written? ==>
      (r.page.graphSection.Some? <==> inputs.includeGraph && inputs.graph.Some? && inputs.graph.value != "")
    ensures r.Written? && r.page.graphSection.Some? ==> r.page.graphSection.value == GraphSection(inputs.graph.value)
    ensures r.Failed? ==> r.errorHtml == ErrorPage(inputs.write.error)
  {
    var graphData := if inputs.includeGraph && inputs.graph.Some? then inputs.graph.value else "";
    var section := if graphData != "" then Some(GraphSection(graphData)) else None;
    Write(p, inputs, Page(p, inputs, section))
  }

  /** Every e-mail's block occurs in the e-mail section. */
  lemma EmailBlocksShown(emails: seq<EmailRecord>)
    ensures forall i :: 0 <= i < |emails| ==> Contains(EmailsSection(emails), EmailBlock(emails[i]))
  {
    forall i | 0 <= i < |emails| ensures Contains(EmailsSection(emails), EmailBlock(emails[i])) {
      EmailRendered(emails, i);
      ConcatContainsBlock(EmailBlock, emails, i);
    }
  }

  /** The block of each of the first twelve images occurs in the image section. */
  lemma ImageBlocksShown(images: seq<Image>)
    ensures forall i :: 0 <= i < |images| && i < ShownImages ==> Contains(ImagesSection(images), ImageBlock(images[i]))
  {
    forall i | 0 <= i < |images| && i < ShownImages ensures Contains(ImagesSection(images), ImageBlock(images[i])) {
      ImageBlockShown(images, i);
    }
  }

  lemma ImageBlockShown(images: seq<Image>, i: nat)
    requires i < |images| && i < ShownImages
    ensures Contains(ImagesSection(images), ImageBlock(images[i]))
  {
    var shown := Shown(images);
    assert shown[i] == images[i];
    var b, c := ImageBlock(images[i]), Concat(ImageBlock, shown);
    ConcatContainsBlock(ImageBlock, shown, i);
    ContainsPrependLeft(GalleryOpen, c, b);
    ContainsAppendRight(GalleryOpen + c, GalleryClose, b);
    ContainsAppendRight(GalleryOpen + c + GalleryClose, OverflowNote(|images|), b);
  }

  /** Each element's block occurs in the concatenation of the blocks. */
  lemma ConcatContainsBlock<T>(block: T -> string, xs: seq<T>, i: nat)
    requires i < |xs|
    ensures Contains(Concat(block, xs), block(xs[i]))
  {
    ConcatAt(block, xs, i);
    BlockContained(Concat(block, xs[..i]), block(xs[i]), Concat(block, xs[i + 1..]));
  }

  /** An information line is there exactly for each non-empty list. */
  lemma InfoLinesShown(p: PersonData)
    ensures var lines := InfoLines(p);
      |lines| == 4 &&
      (lines[0] == "" <==> p.possibleAliases == []) && (lines[1] == "" <==> p.possibleUsernames == []) &&
      (lines[2] == "" <==> p.locations == []) && (lines[3] == "" <==> p.organizations == [])
  {
  }

  /** A page that shows a person holds every e-mail's block, every shown
      image's block, the overflow note exactly when more than twelve images
      were found, and an information line exactly for each non-empty list. */
  lemma ShownPageContents(page: ReportPage, p: PersonData, generatedAt: string)
    requires ShowsPerson(page, p, generatedAt)
    ensures forall i :: 0 <= i < |p.emails| ==> Contains(page.emailsHtml, EmailBlock(p.emails[i]))
    ensures forall i :: 0 <= i < |p.images| && i < ShownImages ==> Contains(page.imagesHtml, ImageBlock(p.images[i]))
    ensures IsSuffix("</em></p>", page.imagesHtml) <==> |p.images| > ShownImages
    ensures page.infoLines == InfoLines(p)
  {
    EmailBlocksShown(p.emails);
    ImageBlocksShown(p.images);
    OverflowNoteIff(p.images);
  }

  /** A block between two texts occurs in their concatenation. */
  lemma BlockContained(before: string, block: string, after: string)
    ensures Contains(before + block + after, block)
  {
    var s := before + block + after;
    assert s[|before|..|before| + |block|] == block;
    assert OccursAt(s, block, |before|);
  }

  /** The two agree whenever no graph is involved. */
  lemma ReportsAgreeWithoutGraph(p: PersonData, inputs: ReportInputs)
    requires !(inputs.includeGraph && inputs.graph.Some?)
    ensures ReportAsWritten(p, inputs) == ReportCorrected(p, inputs)
  {
  }

  /** A person with a drawn graph and a writable reports directory: the
      corrected report is written with its graph, the report as written is the
      error page. */
  lemma Base64Counterexample()
    ensures var p := DataAggregator.PersonData("Ada", "t", [], [], [], [], [], [], [], [], [], 0);
      var inputs := ReportInputs(true, Some("iVBORw0KGgo="), "reports", "20240101_120000", "01/01/2024", Pass);
      ReportAsWritten(p, inputs) == Failed(ErrorPage(Base64Missing)) &&
      ReportCorrected(p, inputs).Written? && ReportCorrected(p, inputs).page.graphSection.Some?
  {
  }
}
