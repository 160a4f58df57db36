/**
 * The backend's text post-processing: the title `generate_title` makes of a
 * model's answer, and the page text `scrape_url` keeps after HTML parsing.
 */
module BackendText {
  import opened Wrappers
  import opened Joining
  import opened PyStrings
  import opened BackendTypes
  import JsValues

  // ------------------------------------------------------------------ titles

  const TitleInstruction: string :=
    "Generate a very " + "short, descriptive " + "title (3-4 words " + "max) for this " +
    "conversation. Only " + "return the title, " + "nothing else. Be " + "concise and " +
    "specific."

  const FallbackTitle: string := "New Chat"

  /** The two messages sent to the model: the instruction, then the first 150 characters of the content. */
  function TitleMessages(content: string): seq<Message>
  {
    [Message("system", Some(TitleInstruction)),
     Message("user", Some("Generate a short " + "title for this " + "content: " + Take(content, 150) + "..."))]
  }

  /** The model's answer stripped, with every `"` and `'` removed. */
  function Unquoted(raw: string): (r: string)
    ensures '"' !in r && '\'' !in r
  {
    RemoveChar(RemoveChar(Strip(raw), '"'), '\'')
  }

  /** At most the first four words of the unquoted answer. */
  function TitleWords(raw: string): (r: seq<string>)
    ensures |r| <= 4
    ensures forall w :: w in r ==> IsWord(w) && '"' !in w && '\'' !in w
  {
    var ws := Split(Unquoted(raw));
    var r := Take(ws, 4);
    assert forall w, c :: w in r && c in w ==> c in Unquoted(raw);
    r
  }

  /** The kept words joined by single spaces, before the length cap. */
  function JoinedTitle(raw: string): string
  {
    JoinWith(TitleWords(raw), " ")
  }

  /**
   * The title `generate_title` returns for the model's answer `raw`: free of
   * quotes, at most four words and at most 30 characters. When the joined
   * words fit in 30 characters they are the title; otherwise the title is
   * their first 27 characters and `"..."`.
   */
  function CleanTitle(raw: string): (r: string)
    ensures '"' !in r && '\'' !in r
    ensures |r| <= 30
    ensures |Split(r)| <= 4
    ensures SingleSpaced(r)
    ensures |JoinedTitle(raw)| <= 30 ==> Split(r) == TitleWords(raw)
    ensures |JoinedTitle(raw)| > 30 ==> |r| == 30 && r == JoinedTitle(raw)[..27] + "..."
  {
    CappedTitleShape(TitleWords(raw));
    CapTitle(JoinedTitle(raw))
  }

  /** The length cap of `generate_title` applied to words joined by single spaces. */
  function CapTitle(joined: string): string
  {
    if |joined| > 30 then joined[..27] + "..." else joined
  }

  lemma CappedTitleShape(ws: seq<string>)
    requires forall w :: w in ws ==> IsWord(w) && '"' !in w && '\'' !in w
    ensures var r := CapTitle(JoinWith(ws, " "));
      '"' !in r && '\'' !in r && |Split(r)| <= |ws| && SingleSpaced(r) &&
      (|JoinWith(ws, " ")| <= 30 ==> Split(r) == ws)
  {
    var joined := JoinWith(ws, " ");
    JoinOfWordsIsSingleSpaced(ws);
    TitleHasNoQuotes(ws);
    if |joined| > 30 {
      var r := joined[..27] + "...";
      SingleSpacedCut(joined, 27);
      CutTitleWordCount(joined, ws);
      assert forall c :: c in r ==> c in joined || c == '.';
    } else {
      SplitOfJoin(ws);
    }
  }

  lemma TitleHasNoQuotes(ws: seq<string>)
    requires forall w :: w in ws ==> '"' !in w && '\'' !in w
    ensures '"' !in JoinWith(ws, " ") && '\'' !in JoinWith(ws, " ")
  {
    forall c | c in JoinWith(ws, " ") ensures c != '"' && c != '\'' {
      JoinWithChars(ws, " ", c);
      if c !in " " {
        var i :| 0 <= i < |ws| && c in ws[i];
        assert ws[i] in ws;
      }
    }
  }

  /** Cutting the joined words after 27 characters leaves no more words than were joined. */
  lemma CutTitleWordCount(joined: string, ws: seq<string>)
    requires joined == JoinWith(ws, " ") && |joined| > 30
    requires forall w :: w in ws ==> IsWord(w)
    requires SingleSpaced(joined) && SingleSpaced(joined[..27] + "...")
    ensures |Split(joined[..27] + "...")| <= |ws|
  {
    var r := joined[..27] + "...";
    SplitOfJoin(ws);
    WordCountOfSingleSpaced(joined);
    WordCountOfSingleSpaced(r);
    SpaceCountAppend(joined[..27], "...");
    SpaceCountOfPrefix(joined, 27);
  }

  /** A text already in the shape of a title is its own cleaned title. */
  lemma CleanTitleKeepsClean(s: string)
    requires '"' !in s && '\'' !in s && SingleSpaced(s) && |Split(s)| <= 4 && |s| <= 30
    ensures CleanTitle(s) == s
  {
    UnquotedOfClean(s);
    JoinOfSplitSingleSpaced(s);
    assert JoinedTitle(s) == s;
  }

  lemma UnquotedOfClean(s: string)
    requires '"' !in s && '\'' !in s && SingleSpaced(s)
    ensures Unquoted(s) == s
  {
    StripOfSingleSpaced(s);
    RemoveAbsentChar(s, '"');
    RemoveAbsentChar(s, '\'');
  }

  /** At most four quote-free words whose join fits in 30 characters are their own cleaned title. */
  lemma JoinedWordsAreClean(ws: seq<string>)
    requires forall w :: w in ws ==> IsWord(w) && '"' !in w && '\'' !in w
    requires |ws| <= 4 && |JoinWith(ws, " ")| <= 30
    ensures CleanTitle(JoinWith(ws, " ")) == JoinWith(ws, " ")
  {
    var s := JoinWith(ws, " ");
    JoinOfWordsIsSingleSpaced(ws);
    SplitOfJoin(ws);
    TitleHasNoQuotes(ws);
    CleanTitleKeepsClean(s);
  }

  /** Cleaning a cleaned title changes nothing. */
  lemma CleanTitleIdempotent(raw: string)
    ensures CleanTitle(CleanTitle(raw)) == CleanTitle(raw)
  {
    CleanTitleKeepsClean(CleanTitle(raw));
  }

  /** The fallback title is itself a clean title. */
  lemma FallbackTitleIsClean()
    ensures CleanTitle(FallbackTitle) == FallbackTitle
  {
    var ws := ["New", "Chat"];
    assert IsWord(ws[0]) && IsWord(ws[1]);
    assert forall w :: w in ws ==> IsWord(w) && '"' !in w && '\'' !in w;
    assert FallbackTitle == JoinWith(ws, " ");
    JoinedWordsAreClean(ws);
  }

  /**
   * `generate_title`: ask the model chosen by name, clean its answer, and fall
   * back to `"New Chat"` when the call raises.
   */
  function GenerateTitle(content: string, model: string, ask: (Service, seq<Message>) -> Fallible<string>): (title: string)
    ensures '"' !in title && '\'' !in title && |title| <= 30 && |Split(title)| <= 4
    ensures ask(ServiceFor(model), TitleMessages(content)).Raised? ==> title == FallbackTitle
    ensures ask(ServiceFor(model), TitleMessages(content)).Returned? ==>
              title == CleanTitle(ask(ServiceFor(model), TitleMessages(content)).value)
  {
    match ask(ServiceFor(model), TitleMessages(content))
    case Returned(answer) => CleanTitle(answer)
    case Raised(_) =>
      FallbackTitleIsClean();
      assert CleanTitle(FallbackTitle) == FallbackTitle;
      FallbackTitle
  }

  // ---------------------------------------------------------- scraped pages

  /** `[x.strip() for x in ls]`. */
  function StripEach(ls: seq<string>): (r: seq<string>)
    ensures |r| == |ls| && forall i :: 0 <= i < |ls| ==> r[i] == Strip(ls[i])
  {
    seq(|ls|, i requires 0 <= i < |ls| => Strip(ls[i]))
  }

  /** Stripping each of a non-empty list: the first stripped, then the rest each stripped. */
  lemma StripEachOfRest(ls: seq<string>)
    requires ls != []
    ensures StripEach(ls)[0] == Strip(ls[0]) && StripEach(ls)[1..] == StripEach(ls[1..])
  {
    var a, b := StripEach(ls)[1..], StripEach(ls[1..]);
    forall i | 0 <= i < |a| ensures a[i] == b[i] {
      assert ls[1..][i] == ls[i + 1];
    }
  }

  /** `[p for line in lines for p in line.split("  ")]`. */
  function Phrases(lines: seq<string>): seq<string>
  {
    if lines == [] then [] else SplitOnDoubleSpace(lines[0]) + Phrases(lines[1..])
  }

  /** `[x for x in ls if x]`. */
  function NonEmpty(ls: seq<string>): (r: seq<string>)
    ensures forall x :: x in r ==> x != [] && x in ls
  {
    if ls == [] then []
    else if ls[0] == [] then NonEmpty(ls[1..])
    else [ls[0]] + NonEmpty(ls[1..])
  }

  /** The non-empty stripped phrases of the stripped lines of a page's text. */
  function Chunks(text: string): seq<string>
  {
    NonEmpty(StripEach(Phrases(StripEach(SplitLines(text)))))
  }

  /** The cleaned page text of `scrape_url` (lines 395-397), before the length cap. */
  function CleanPageText(text: string): string
  {
    JoinWith(Chunks(text), " ")
  }

  predicate NoLineBreak(s: string)
  {
    forall ch :: ch in s ==> !IsLineBreak(ch)
  }

  /** A chunk: not empty, no whitespace at either end, no two neighbouring spaces, no line boundary. */
  predicate IsChunk(c: string)
  {
    c != [] && !IsSpace(c[0]) && !IsSpace(c[|c| - 1]) && NoDoubleSpace(c) && NoLineBreak(c)
  }

  lemma {:induction false} PhrasesShape(lines: seq<string>)
    requires forall l :: l in lines ==> NoLineBreak(l)
    ensures forall p :: p in Phrases(lines) ==> NoDoubleSpace(p) && NoLineBreak(p)
  {
    if lines != [] {
      assert lines[0] in lines;
      assert forall l :: l in lines[1..] ==> l in lines;
      PhrasesShape(lines[1..]);
      SplitOnDoubleSpacePieces(lines[0]);
      SplitOnDoubleSpaceSlices(lines[0]);
      forall p | p in SplitOnDoubleSpace(lines[0]) ensures NoLineBreak(p) {
        SliceChars(p, lines[0]);
      }
    }
  }

  lemma StrippedLinesHaveNoBreaks(text: string)
    ensures forall l :: l in StripEach(SplitLines(text)) ==> NoLineBreak(l)
  {
    var lines := SplitLines(text);
    forall l | l in StripEach(lines) ensures NoLineBreak(l) {
      var i :| 0 <= i < |lines| && l == StripEach(lines)[i];
      assert lines[i] in lines;
      StripIsSlice(lines[i]);
      SliceChars(l, lines[i]);
    }
  }

  /** A phrase without double spaces or line boundaries strips to a chunk, unless to nothing. */
  lemma StrippedPhraseIsChunk(p: string)
    requires NoDoubleSpace(p) && NoLineBreak(p) && Strip(p) != []
    ensures IsChunk(Strip(p))
  {
    StripIsSlice(p);
    SliceChars(Strip(p), p);
  }

  /** The non-empty stripped phrases are chunks. */
  lemma KeptPhrasesAreChunks(ps: seq<string>)
    requires forall p :: p in ps ==> NoDoubleSpace(p) && NoLineBreak(p)
    ensures forall c :: c in NonEmpty(StripEach(ps)) ==> IsChunk(c)
  {
    var stripped := StripEach(ps);
    forall c | c in NonEmpty(stripped) ensures IsChunk(c) {
      var i :| 0 <= i < |stripped| && stripped[i] == c;
      assert ps[i] in ps;
      StrippedPhraseIsChunk(ps[i]);
    }
  }

  /** Every chunk of a page's text has the shape of a chunk. */
  lemma ChunksShape(text: string)
    ensures forall c :: c in Chunks(text) ==> IsChunk(c)
  {
    var lines := StripEach(SplitLines(text));
    StrippedLinesHaveNoBreaks(text);
    PhrasesShape(lines);
    KeptPhrasesAreChunks(Phrases(lines));
  }

  /**
   * The cleaned page text has no line boundary, no two neighbouring spaces
   * and no whitespace at either end.
   */
  lemma CleanPageTextShape(text: string)
    ensures NoLineBreak(CleanPageText(text))
    ensures NoDoubleSpace(CleanPageText(text))
    ensures var r := CleanPageText(text); r == [] || (!IsSpace(r[0]) && !IsSpace(r[|r| - 1]))
  {
    ChunksShape(text);
    JoinOfChunksHasNoBreak(Chunks(text));
    JoinOfChunksHasNoDoubleSpace(Chunks(text));
    JoinOfChunksEnds(Chunks(text));
  }

  lemma JoinOfChunksHasNoBreak(chunks: seq<string>)
    requires forall c :: c in chunks ==> IsChunk(c)
    ensures NoLineBreak(JoinWith(chunks, " "))
  {
    forall ch | ch in JoinWith(chunks, " ") ensures !IsLineBreak(ch) {
      JoinWithChars(chunks, " ", ch);
      if ch !in " " {
        var i :| 0 <= i < |chunks| && ch in chunks[i];
        assert chunks[i] in chunks;
      }
    }
  }

  lemma JoinOfChunksHasNoDoubleSpace(chunks: seq<string>)
    requires forall c :: c in chunks ==> IsChunk(c)
    ensures NoDoubleSpace(JoinWith(chunks, " "))
  {
    forall c | c in chunks
      ensures c != [] && PairsOk(c, NotTwoSpaces) && NotTwoSpaces(c[|c| - 1], ' ') && NotTwoSpaces(' ', c[0])
    {
      NoDoubleSpacePairs(c);
    }
    JoinKeepsPairs(chunks, ' ', NotTwoSpaces);
    NoDoubleSpacePairs(JoinWith(chunks, " "));
  }

  lemma JoinOfChunksEnds(chunks: seq<string>)
    requires forall c :: c in chunks ==> IsChunk(c)
    ensures var r := JoinWith(chunks, " "); r == [] || (!IsSpace(r[0]) && !IsSpace(r[|r| - 1]))
  {
    if chunks != [] {
      assert forall i :: 0 <= i < |chunks| ==> chunks[i] in chunks;
      JoinEnds(chunks, " ");
      assert chunks[0] in chunks && chunks[|chunks| - 1] in chunks;
    }
  }

  lemma {:induction false} NonSpaceOfStripEach(ls: seq<string>)
    ensures NonSpace(Concat(StripEach(ls))) == NonSpace(Concat(ls))
  {
    if ls != [] {
      NonSpaceOfStripEach(ls[1..]);
      StripEachOfRest(ls);
      NonSpaceOfStrip(ls[0]);
      NonSpaceAppend(Strip(ls[0]), Concat(StripEach(ls[1..])));
      NonSpaceAppend(ls[0], Concat(ls[1..]));
    }
  }

  lemma {:induction false} ConcatOfNonEmpty(ls: seq<string>)
    ensures Concat(NonEmpty(ls)) == Concat(ls)
  {
    if ls != [] {
      ConcatOfNonEmpty(ls[1..]);
    }
  }

  lemma {:induction false} NonSpaceOfPhrases(lines: seq<string>)
    ensures NonSpace(Concat(Phrases(lines))) == NonSpace(Concat(lines))
  {
    if lines != [] {
      var first := SplitOnDoubleSpace(lines[0]);
      NonSpaceOfPhrases(lines[1..]);
      ConcatAppend(first, Phrases(lines[1..]));
      NonSpaceAppend(Concat(first), Concat(Phrases(lines[1..])));
      NonSpaceAppend(lines[0], Concat(lines[1..]));
      NonSpaceOfJoin(first, "  ");
      SplitOnDoubleSpaceJoin(lines[0]);
    }
  }

  /** Cleaning changes whitespace only: the other characters of the page text all stay, in order. */
  lemma CleanPageTextKeepsContent(text: string)
    ensures NonSpace(CleanPageText(text)) == NonSpace(text)
  {
    var lines := StripEach(SplitLines(text));
    var phrases := StripEach(Phrases(lines));
    NonSpaceOfJoin(Chunks(text), " ");
    ConcatOfNonEmpty(phrases);
    NonSpaceOfStripEach(Phrases(lines));
    NonSpaceOfPhrases(lines);
    NonSpaceOfStripEach(SplitLines(text));
    NonSpaceOfSplitLines(text);
  }

  /** A page of nothing but whitespace cleans to the empty text, and only such a page does. */
  lemma CleanPageTextEmpty(text: string)
    ensures CleanPageText(text) == [] <==> NonSpace(text) == []
  {
    CleanPageTextKeepsContent(text);
    CleanPageTextShape(text);
    var r := CleanPageText(text);
    if r != [] {
      assert NonSpace(r) == [r[0]] + NonSpace(r[1..]);
    }
  }

  /** Line 399-400: more than 5000 characters are cut to 5000 and `"..."` is appended. */
  function CapPageText(clean: string): (r: string)
    ensures |r| <= 5003
    ensures |clean| <= 5000 ==> r == clean
    ensures |clean| > 5000 ==> |r| == 5003 && r[..5000] == clean[..5000] && r[5000..] == "..."
  {
    if |clean| > 5000 then clean[..5000] + "..." else clean
  }

  /** What BeautifulSoup yields for a fetched page: the `<title>` text if there is one, and the page text. */
  datatype Page = Page(titleTag: Option<string>, text: string)

  datatype Scraped = Scraped(url: string, title: string, content: string)

  const UrlRequired: HttpError := HttpError(400, "URL is required")

  /** `str()` of the 400 raised for a missing URL. */
  lemma UrlRequiredText()
    ensures ErrorText(UrlRequired) == "400: " + "URL is required"
  {
    assert JsValues.NatToDecimal(400) == "400";
  }

  /**
   * `scrape_url`. A missing or empty `url` raises a 400, which the handler's
   * own `except` turns into a 500; a failing fetch is a 500 too; otherwise the
   * content is the title line, a blank line and the capped cleaned text.
   */
  function ScrapeUrl(url: Option<string>, fetch: string -> Fallible<Page>): (r: Answer<Scraped>)
    ensures url == None || url == Some("") ==> r.Failed?
    ensures r.Failed? ==> r.error.status == 500 && "Failed to scrape URL: " <= r.error.detail
    ensures url.Some? && url.value != "" && fetch(url.value).Raised? ==>
              r == Failed(HttpError(500, "Failed to scrape URL: " + fetch(url.value).message))
    ensures r.Ok? ==> url == Some(r.body.url) && fetch(r.body.url).Returned?
    ensures r.Ok? && fetch(r.body.url).Returned? ==>
              r.body.content == "Title: " + r.body.title + "\n\n" + CapPageText(CleanPageText(fetch(r.body.url).value.text))
    ensures r.Ok? && fetch(r.body.url).Returned? ==> r.body.title == (match fetch(r.body.url).value.titleTag case Some(t) => t case None => "")
  {
    match url
    case None => Failed(HttpError(500, "Failed to scrape URL: " + ErrorText(UrlRequired)))
    case Some(u) =>
      if u == "" then Failed(HttpError(500, "Failed to scrape URL: " + ErrorText(UrlRequired)))
      else
        match fetch(u)
        case Raised(e) => Failed(HttpError(500, "Failed to scrape URL: " + e))
        case Returned(page) =>
          var title := match page.titleTag case Some(t) => t case None => "";
          Ok(Scraped(u, title, "Title: " + title + "\n\n" + CapPageText(CleanPageText(page.text))))
  }

  /**
   * Lines 375-376 and 410-411: a request without a URL gets a 500 whose
   * detail carries the text of the 400 raised inside the handler.
   */
  lemma ScrapeUrlWithoutUrl(url: Option<string>, fetch: string -> Fallible<Page>)
    requires url == None || url == Some("")
    ensures ScrapeUrl(url, fetch) == Failed(HttpError(500, "Failed to scrape URL: " + "400: " + "URL is required"))
  {
    UrlRequiredText();
  }
}
