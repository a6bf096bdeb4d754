/**
 * The pure part of the tax-update monitor: deciding whether a news item is about
 * taxes, classifying it, completing a relative link, and the loops of the RSS and
 * the news-page paths that keep and classify the tax-related items. Fetching and
 * parsing are not modelled: the loops receive items already extracted.
 */
module UpdateMonitor {
  import opened Wrappers

  // ---------------------------------------------------------------------------
  // Strings

  /** Lower-casing, for ASCII letters only. */
  function LowerChar(c: char): char {
    if 'A' <= c <= 'Z' then (c as int + 32) as char else c
  }

  function Lower(s: string): (r: string)
    ensures |r| == |s| && forall i :: 0 <= i < |s| ==> r[i] == LowerChar(s[i])
  {
    seq(|s|, i requires 0 <= i < |s| => LowerChar(s[i]))
  }

  /** `s` holds no ASCII capital letter. */
  predicate NoUpper(s: string) {
    forall i :: 0 <= i < |s| ==> !('A' <= s[i] <= 'Z')
  }

  /**
   * Lower-casing leaves no capital letter, changes exactly the texts that have one,
   * and so does nothing the second time.
   */
  lemma LowerNormalises(s: string)
    ensures NoUpper(Lower(s))
    ensures Lower(s) == s <==> NoUpper(s)
    ensures Lower(Lower(s)) == Lower(s)
  {
    if Lower(s) == s {
      forall i | 0 <= i < |s| ensures !('A' <= s[i] <= 'Z') {
        assert Lower(s)[i] == LowerChar(s[i]);
      }
    }
  }

  /** `w` occurs in `s` starting at index `i`. */
  predicate OccursAt(s: string, w: string, i: int) {
    0 <= i && i + |w| <= |s| && s[i..i + |w|] == w
  }

  /** Python's `w in s` for strings: `w` is a substring of `s`. */
  predicate Contains(s: string, w: string) {
    exists i | 0 <= i <= |s| - |w| :: OccursAt(s, w, i)
  }

  predicate StartsWith(s: string, prefix: string) {
    |prefix| <= |s| && s[..|prefix|] == prefix
  }

  /** Some word of `words` occurs in `text` (`any(word in text for word in words)`). */
  predicate AnyOccurs(words: seq<string>, text: string) {
    exists w | w in words :: Contains(text, w)
  }

  /** The text the monitor searches: title and description joined by a space, lower-cased. */
  function Content(title: string, description: string): string {
    Lower(title + " " + description)
  }

  // ---------------------------------------------------------------------------
  // Keywords and classification

  const TaxKeywords: seq<string> := [
    "steuer", "einkommensteuer", "lohnsteuer", "umsatzsteuer",
    "grundfreibetrag", "steuersatz", "steuertarif",
    "solidaritätszuschlag", "kirchensteuer",
    "sozialversicherung", "krankenversicherung", "rentenversicherung",
    "beitragsbemessungsgrenze", "tax", "income tax"
  ]

  /** The keywords left once those containing another keyword are dropped. */
  const EssentialTaxKeywords: seq<string> := [
    "steuer", "grundfreibetrag", "solidaritätszuschlag", "sozialversicherung",
    "krankenversicherung", "rentenversicherung", "beitragsbemessungsgrenze", "tax"
  ]

  /** `_is_tax_related`: some keyword occurs in the joined, lower-cased text; the essential ones decide. */
  predicate IsTaxRelated(title: string, description: string)
    ensures IsTaxRelated(title, description) <==> AnyOccurs(EssentialTaxKeywords, Content(title, description))
  {
    EssentialKeywordsSuffice(Content(title, description));
    AnyOccurs(TaxKeywords, Content(title, description))
  }

  datatype UpdateType = TaxRate | Allowance | SocialSecurity | TaxLaw | General {
    /** The label the monitor stores. */
    function Label(): string {
      match this
      case TaxRate => "tax_rate"
      case Allowance => "allowance"
      case SocialSecurity => "social_security"
      case TaxLaw => "tax_law"
      case General => "general"
    }
  }

  const TaxRateWords: seq<string> := ["steuersatz", "tarif", "tax rate"]
  const AllowanceWords: seq<string> := ["grundfreibetrag", "freibetrag", "allowance"]
  const SocialSecurityWords: seq<string> := ["sozialversicherung", "social security", "beitrag"]
  const TaxLawWords: seq<string> := ["gesetz", "law", "reform"]

  /**
   * The first word group, in the order tax rate, allowance, social security, tax law,
   * that occurs in the content decides the type; with none of them it is general.
   */
  function ClassifyUpdate(title: string, description: string): (t: UpdateType)
    ensures var text := Content(title, description);
      && (t == TaxRate <==> AnyOccurs(TaxRateWords, text))
      && (t == Allowance <==> !AnyOccurs(TaxRateWords, text) && AnyOccurs(AllowanceWords, text))
      && (t == SocialSecurity <==>
            !AnyOccurs(TaxRateWords, text) && !AnyOccurs(AllowanceWords, text)
            && AnyOccurs(SocialSecurityWords, text))
      && (t == TaxLaw <==>
            !AnyOccurs(TaxRateWords, text) && !AnyOccurs(AllowanceWords, text)
            && !AnyOccurs(SocialSecurityWords, text) && AnyOccurs(TaxLawWords, text))
      && (t == General <==> !AnyOccurs(TaxRateWords + AllowanceWords + SocialSecurityWords + TaxLawWords, text))
  {
    var text := Content(title, description);
    if AnyOccurs(TaxRateWords, text) then TaxRate
    else if AnyOccurs(AllowanceWords, text) then Allowance
    else if AnyOccurs(SocialSecurityWords, text) then SocialSecurity
    else if AnyOccurs(TaxLawWords, text) then TaxLaw
    else General
  }

  /** The five labels are distinct, so a label names exactly one type. */
  lemma LabelsDistinct(a: UpdateType, b: UpdateType)
    ensures a.Label() == b.Label() <==> a == b
  {
  }

  // ---------------------------------------------------------------------------
  // Substrings

  /** An occurrence inside an occurrence is an occurrence. */
  lemma ContainsTransitive(s: string, m: string, w: string)
    requires Contains(s, m) && Contains(m, w)
    ensures Contains(s, w)
  {
    var i :| 0 <= i <= |s| - |m| && OccursAt(s, m, i);
    var j :| 0 <= j <= |m| - |w| && OccursAt(m, w, j);
    forall k | 0 <= k < |w| ensures s[i + j + k] == w[k] {
      assert s[i + j + k] == s[i..i + |m|][j + k];
      assert m[j + k] == m[j..j + |w|][k];
    }
    assert s[i + j..i + j + |w|] == w;
    assert OccursAt(s, w, i + j);
  }

  /** What occurs in one part of a concatenation occurs in the whole. */
  lemma ContainsInConcat(a: string, b: string, w: string)
    ensures Contains(a, w) ==> Contains(a + b, w)
    ensures Contains(b, w) ==> Contains(a + b, w)
  {
    if Contains(a, w) {
      var i :| 0 <= i <= |a| - |w| && OccursAt(a, w, i);
      assert (a + b)[i..i + |w|] == a[i..i + |w|];
      assert OccursAt(a + b, w, i);
    }
    if Contains(b, w) {
      var i :| 0 <= i <= |b| - |w| && OccursAt(b, w, i);
      assert (a + b)[|a| + i..|a| + i + |w|] == b[i..i + |w|];
      assert OccursAt(a + b, w, |a| + i);
    }
  }

  lemma LowerConcat(a: string, b: string)
    ensures Lower(a + b) == Lower(a) + Lower(b)
  {
    assert forall i :: 0 <= i < |a + b| ==> Lower(a + b)[i] == (Lower(a) + Lower(b))[i];
  }

  /**
   * Dropping every keyword that contains another keyword ("steuer" lies in six of
   * them, "tax" in "income tax") does not change which texts are tax-related.
   */
  lemma EssentialKeywordsSuffice(text: string)
    ensures AnyOccurs(TaxKeywords, text) <==> AnyOccurs(EssentialTaxKeywords, text)
  {
    if AnyOccurs(TaxKeywords, text) {
      var w :| w in TaxKeywords && Contains(text, w);
      var inner := EssentialInside(w);
      ContainsTransitive(text, w, inner);
    }
    if AnyOccurs(EssentialTaxKeywords, text) {
      var w :| w in EssentialTaxKeywords && Contains(text, w);
      assert w in TaxKeywords;
    }
  }

  /** Every keyword contains an essential one: itself, "steuer", or "tax" for "income tax". */
  lemma EssentialInside(w: string) returns (inner: string)
    requires w in TaxKeywords
    ensures inner in EssentialTaxKeywords && Contains(w, inner)
  {
    if w in EssentialTaxKeywords {
      inner := w;
      assert OccursAt(w, w, 0);
    } else if w == "income tax" {
      inner := "tax";
      assert OccursAt(w, inner, 7);
    } else {
      inner := "steuer";
      if w == "einkommensteuer" {
        assert OccursAt(w, inner, 9);
      } else if w == "lohnsteuer" {
        assert OccursAt(w, inner, 4);
      } else if w == "umsatzsteuer" {
        assert OccursAt(w, inner, 6);
      } else if w == "steuersatz" || w == "steuertarif" {
        assert OccursAt(w, inner, 0);
      } else {
        assert w == "kirchensteuer";
        assert OccursAt(w, inner, 7);
      }
    }
  }

  /** A keyword in the title alone, or in the description alone, makes the item tax-related. */
  lemma KeywordInEitherPart(title: string, description: string, w: string)
    requires w in TaxKeywords
    requires Contains(Lower(title), w) || Contains(Lower(description), w)
    ensures IsTaxRelated(title, description)
  {
    LowerConcat(title, " " + description);
    LowerConcat(" ", description);
    assert title + " " + description == title + (" " + description);
    ContainsInConcat(Lower(" "), Lower(description), w);
    ContainsInConcat(Lower(title), Lower(" ") + Lower(description), w);
  }

  /** Every keyword is written in lower case. */
  lemma KeywordsAreLowerCase(w: string)
    requires w in TaxKeywords
    ensures NoUpper(w)
  {
  }

  /**
   * Because the keywords are lower case and the text is lowered, a keyword in any
   * capitalisation ("STEUER", "Income Tax") in the title makes the item tax-related.
   */
  lemma KeywordMatchesAnyCase(title: string, description: string, u: string, i: int)
    requires OccursAt(title, u, i) && Lower(u) in TaxKeywords
    ensures IsTaxRelated(title, description)
  {
    var w := Lower(u);
    var low := Lower(title);
    forall k | 0 <= k < |w| ensures low[i + k] == w[k] {
      assert title[i + k] == u[k];
    }
    assert low[i..i + |w|] == w;
    assert OccursAt(low, w, i);
    KeywordInEitherPart(title, description, w);
  }

  /**
   * The search runs over the joined text, so a phrase split between title and
   * description still counts: "Neuer Tax" / "Rate 2025" is a tax-rate update
   * although neither part contains "tax rate"; upper case is ignored.
   */
  lemma PhraseAcrossTitleAndDescription()
    ensures ClassifyUpdate("Neuer Tax", "Rate 2025") == TaxRate
    ensures !Contains(Lower("Neuer Tax"), "tax rate") && !Contains(Lower("Rate 2025"), "tax rate")
  {
    JoinedTextHasTaxRate();
    NoTaxRateIn("Neuer Tax");
    NoTaxRateIn("Rate 2025");
  }

  lemma JoinedTextHasTaxRate()
    ensures AnyOccurs(TaxRateWords, Content("Neuer Tax", "Rate 2025"))
  {
    var title, description := "Neuer Tax", "Rate 2025";
    var text := Content(title, description);
    var joined := title + " " + description;
    forall i | 6 <= i < 14 ensures text[i] == "tax rate"[i - 6] {
      assert text[i] == LowerChar(joined[i]);
      if i < 9 {
        assert joined[i] == title[i];
      } else if i > 9 {
        assert joined[i] == description[i - 10];
      }
    }
    assert text[6..14] == "tax rate";
    assert OccursAt(text, "tax rate", 6);
    assert Contains(text, "tax rate");
    assert TaxRateWords[2] == "tax rate";
    assert "tax rate" in TaxRateWords;
  }

  /** A nine-letter text whose first two letters are not "t" has no room for "tax rate". */
  lemma NoTaxRateIn(part: string)
    requires |part| == 9 && LowerChar(part[0]) != 't' && LowerChar(part[1]) != 't'
    ensures !Contains(Lower(part), "tax rate")
  {
    var low := Lower(part);
    assert low[0] == LowerChar(part[0]) != 't';
    assert low[1] == LowerChar(part[1]) != 't';
    forall i | 0 <= i <= |low| - |"tax rate"| ensures !OccursAt(low, "tax rate", i) {
      assert low[i] != 't';
    }
  }

  // ---------------------------------------------------------------------------
  // Relative links

  /** Index of the last occurrence of `c` in `s`, or -1 when there is none. */
  function LastIndexOf(s: string, c: char): (k: int)
    ensures -1 <= k < |s|
    ensures k == -1 <==> c !in s
    ensures k >= 0 ==> s[k] == c && c !in s[k + 1..]
  {
    if s == [] then -1
    else if s[|s| - 1] == c then |s| - 1
    else
      var k := LastIndexOf(s[..|s| - 1], c);
      assert s == s[..|s| - 1] + [s[|s| - 1]];
      k
  }

  /** Python's `s.rsplit('/', 1)[0]`: everything before the last slash, or all of `s` without one. */
  function BeforeLastSlash(s: string): (r: string)
    ensures StartsWith(s, r)
    ensures r == s <==> '/' !in s
    ensures r != s ==> s[|r|] == '/' && '/' !in s[|r| + 1..]
  {
    var k := LastIndexOf(s, '/');
    if k == -1 then s else s[..k]
  }

  /**
   * A non-empty link that does not start with "http" is completed with the news
   * page's address up to its last slash; any other link stays as it is.
   */
  function ResolveLink(newsUrl: string, link: string): (r: string)
    ensures |link| <= |r| && r[|r| - |link|..] == link
    ensures link == "" || StartsWith(link, "http") ==> r == link
    ensures link != "" && !StartsWith(link, "http") ==>
      r == BeforeLastSlash(newsUrl) + "/" + link && StartsWith(newsUrl, BeforeLastSlash(newsUrl))
  {
    if link != "" && !StartsWith(link, "http") then BeforeLastSlash(newsUrl) + "/" + link
    else link
  }

  /** On a page whose address starts with "http" before its last slash, completing a link twice is completing it once. */
  lemma ResolveLinkIdempotent(newsUrl: string, link: string)
    requires StartsWith(BeforeLastSlash(newsUrl), "http")
    ensures ResolveLink(newsUrl, ResolveLink(newsUrl, link)) == ResolveLink(newsUrl, link)
  {
    var r := ResolveLink(newsUrl, link);
    if r != link {
      var base := BeforeLastSlash(newsUrl);
      assert r[..4] == base[..4];
    }
  }

  /**
   * A relative link on the page `dir + "/" + page` resolves next to that page,
   * for instance "meldung.html" on ".../eportal/aktuelles" to ".../eportal/meldung.html".
   */
  lemma RelativeLinkBesidePage(dir: string, page: string, link: string)
    requires '/' !in page
    requires link != "" && !StartsWith(link, "http")
    ensures ResolveLink(dir + "/" + page, link) == dir + "/" + link
  {
    var url := dir + "/" + page;
    var k := LastIndexOf(url, '/');
    assert url[|dir|] == '/';
    assert url[|dir| + 1..] == page;
    assert url[..|dir|] == dir;
  }

  // ---------------------------------------------------------------------------
  // The filter-and-classify loops

  /** One `<item>` of an RSS feed, its fields already extracted ("" when missing). */
  datatype FeedItem = FeedItem(title: string, link: string, pubDate: string, description: string)

  /** One news-page article: heading text, raw `href` and summary ("" when missing). */
  datatype Article = Article(title: string, href: string, description: string)

  /** A detected update as the monitor reports it (the detection time is not modelled). */
  datatype TaxUpdate = TaxUpdate(
    title: string, description: string, sourceUrl: string, sourceName: string,
    sourceKey: string, updateType: UpdateType, pubDate: Option<string>)

  /** What each path knows about an item before the tax-relatedness test. */
  datatype Candidate = Candidate(title: string, description: string, link: string, pubDate: Option<string>)

  function FromFeedItem(item: FeedItem): Candidate {
    Candidate(item.title, item.description, item.link, Some(item.pubDate))
  }

  function FromArticle(newsUrl: string, a: Article): Candidate {
    Candidate(a.title, a.description, ResolveLink(newsUrl, a.href), None)
  }

  function MakeUpdate(c: Candidate, sourceKey: string, sourceName: string): TaxUpdate {
    TaxUpdate(c.title, c.description, c.link, sourceName, sourceKey,
              ClassifyUpdate(c.title, c.description), c.pubDate)
  }

  /** The updates a path reports for its candidates, in order: the tax-related ones, classified. */
  function Collect(cs: seq<Candidate>, sourceKey: string, sourceName: string): (us: seq<TaxUpdate>)
    ensures |us| <= |cs|
    ensures forall u :: u in us ==>
      && IsTaxRelated(u.title, u.description)
      && u.updateType == ClassifyUpdate(u.title, u.description)
      && u.sourceKey == sourceKey && u.sourceName == sourceName
  {
    if cs == [] then []
    else
      var rest := Collect(cs[..|cs| - 1], sourceKey, sourceName);
      var c := cs[|cs| - 1];
      if IsTaxRelated(c.title, c.description) then rest + [MakeUpdate(c, sourceKey, sourceName)] else rest
  }

  /**
   * Every reported update is tax-related, carries its classification and the
   * source, and every tax-related candidate is reported.
   */
  lemma {:induction false} CollectSoundAndComplete(cs: seq<Candidate>, sourceKey: string, sourceName: string)
    ensures var us := Collect(cs, sourceKey, sourceName);
      && |us| <= |cs|
      && (forall u :: u in us ==>
            && IsTaxRelated(u.title, u.description)
            && u.updateType == ClassifyUpdate(u.title, u.description)
            && u.sourceKey == sourceKey && u.sourceName == sourceName
            && exists c :: c in cs && u == MakeUpdate(c, sourceKey, sourceName))
      && (forall c :: c in cs && IsTaxRelated(c.title, c.description) ==>
            MakeUpdate(c, sourceKey, sourceName) in us)
  {
    if cs != [] {
      var init := cs[..|cs| - 1];
      CollectSoundAndComplete(init, sourceKey, sourceName);
      assert cs == init + [cs[|cs| - 1]];
      forall c | c in cs && IsTaxRelated(c.title, c.description)
        ensures MakeUpdate(c, sourceKey, sourceName) in Collect(cs, sourceKey, sourceName)
      {
        if c != cs[|cs| - 1] { assert c in init; }
      }
    }
  }

  /** The loop over an RSS feed's items. */
  method CheckRssItems(items: seq<FeedItem>, sourceKey: string, sourceName: string)
    returns (updates: seq<TaxUpdate>)
    ensures updates == Collect(seq(|items|, i requires 0 <= i < |items| => FromFeedItem(items[i])),
                               sourceKey, sourceName)
  {
    var cs := seq(|items|, i requires 0 <= i < |items| => FromFeedItem(items[i]));
    updates := [];
    var n := 0;
    while n < |items|
      invariant 0 <= n <= |items|
      invariant updates == Collect(cs[..n], sourceKey, sourceName)
    {
      var item := items[n];
      if IsTaxRelated(item.title, item.description) {
        var updateType := ClassifyUpdate(item.title, item.description);
        updates := updates + [TaxUpdate(item.title, item.description, item.link, sourceName,
                                        sourceKey, updateType, Some(item.pubDate))];
      }
      assert cs[..n + 1][..n] == cs[..n];
      n := n + 1;
    }
    assert cs[..n] == cs;
  }

  /** The loop over a news page's articles; relative links are completed first. */
  method ScrapeArticles(newsUrl: string, articles: seq<Article>, sourceKey: string, sourceName: string)
    returns (updates: seq<TaxUpdate>)
    ensures updates == Collect(seq(|articles|, i requires 0 <= i < |articles| => FromArticle(newsUrl, articles[i])),
                               sourceKey, sourceName)
  {
    var cs := seq(|articles|, i requires 0 <= i < |articles| => FromArticle(newsUrl, articles[i]));
    updates := [];
    var n := 0;
    while n < |articles|
      invariant 0 <= n <= |articles|
      invariant updates == Collect(cs[..n], sourceKey, sourceName)
    {
      var article := articles[n];
      var link := article.href;
      if link != "" && !StartsWith(link, "http") {
        link := BeforeLastSlash(newsUrl) + "/" + link;
      }
      assert link == ResolveLink(newsUrl, article.href);
      assert cs[n] == Candidate(article.title, article.description, link, None);
      if IsTaxRelated(article.title, article.description) {
        var updateType := ClassifyUpdate(article.title, article.description);
        updates := updates + [TaxUpdate(article.title, article.description, link, sourceName,
                                        sourceKey, updateType, None)];
      }
      assert cs[..n + 1][..n] == cs[..n];
      n := n + 1;
    }
    assert cs[..n] == cs;
  }
}
