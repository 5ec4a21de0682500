/**
 * The shapes of src/types/index.ts and its three validators, as zod applies them:
 * every check of an object runs, the failures are collected as messages in schema
 * order, and `.trim()` replaces the string by its trimmed form before `min`/`max`.
 * JavaScript numbers are `real` (no NaN or infinities); URL and e-mail validity are
 * the library's and are parameters here.
 */
module StoryTypes {
  import opened Wrappers
  import opened Strings

  datatype Plan = Plan(id: string, name: string, price: int, monthlyStoryLimit: int)

  datatype StoryPage = StoryPage(pageNumber: real, text: string, imagePrompt: string, imageUrl: Option<string>)

  datatype NewStoryData = NewStoryData(
    title: string,
    author: string,
    coverImage: string,
    pages: seq<StoryPage>,
    ageGroup: string,
    theme: string,
    readingLevel: string,
    userId: string)

  /**
   * A stored story document: the validated fields of a new story except its pages,
   * plus the server timestamp `createdAt` in milliseconds (absent while pending).
   */
  datatype StoryDoc = StoryDoc(
    title: string,
    author: string,
    coverImage: string,
    ageGroup: string,
    theme: string,
    readingLevel: string,
    userId: string,
    createdAt: Option<int>)

  /** A `Story` as the list view holds it: the document id next to the document's fields. */
  datatype Story = Story(id: string, doc: StoryDoc)

  /** The input of the text-generation call; `pageCount` is optional and defaults to 12. */
  datatype GenerateStoryInput = GenerateStoryInput(
    prompt: string,
    ageGroup: string,
    theme: string,
    pageCount: Option<real>,
    userId: string)

  datatype AuthCredential = AuthCredential(email: string, password: string)

  const DefaultPageCount: real := 12.0

  // ---------------------------------------------------------------------------
  // GenerateStoryInputSchema

  /** The messages GenerateStoryInputSchema reports, in field order. */
  function GenerateStoryInputIssues(input: GenerateStoryInput): (r: seq<string>)
  {
    var count := input.pageCount.GetOr(DefaultPageCount);
    (if |input.prompt| < 10 then ["Prompt must be at least 10 characters."] else [])
    + (if count < 4.0 then ["Number must be greater than or equal to 4"] else [])
    + (if count > 12.0 then ["Number must be less than or equal to 12"] else [])
  }

  /** Parsing fills in the default page count; it succeeds when there is no issue. */
  function ParseGenerateStoryInput(input: GenerateStoryInput): (r: Result<GenerateStoryInput, seq<string>>)
    ensures r.Ok? <==> |input.prompt| >= 10 && 4.0 <= input.pageCount.GetOr(12.0) <= 12.0
    ensures r.Ok? ==> r.value.pageCount == Some(input.pageCount.GetOr(12.0))
    ensures r.Ok? ==> r.value.(pageCount := input.pageCount) == input
    ensures r.Err? ==> r.error != []
  {
    var issues := GenerateStoryInputIssues(input);
    if issues == [] then Ok(input.(pageCount := Some(input.pageCount.GetOr(DefaultPageCount))))
    else Err(issues)
  }

  /** The schema has no `.int()`: a fractional page count inside 4..12 is accepted. */
  lemma FractionalPageCountAccepted(prompt: string, ageGroup: string, theme: string, userId: string)
    requires |prompt| >= 10
    ensures ParseGenerateStoryInput(GenerateStoryInput(prompt, ageGroup, theme, Some(4.5), userId)).Ok?
  {
  }

  // ---------------------------------------------------------------------------
  // AuthCredentialSchema

  function CredentialIssues(c: AuthCredential, isEmail: string -> bool): (r: seq<string>)
    ensures r == [] <==> isEmail(c.email) && |c.password| >= 6
  {
    (if isEmail(c.email) then [] else ["Please enter a valid email."])
    + (if |c.password| >= 6 then [] else ["Password must be at least 6 characters."])
  }

  // ---------------------------------------------------------------------------
  // NewStoryDataSchema

  /** `z.string().trim().min(lo).max(hi)`: the messages for the trimmed string. */
  function TrimmedLengthIssues(s: string, lo: nat, hi: nat, tooShort: string, tooLong: string): (r: seq<string>)
    requires lo <= hi
    ensures r == [] <==> lo <= |Trim(s)| <= hi
    ensures |r| <= 1
  {
    var t := Trim(s);
    if |t| < lo then [tooShort] else if |t| > hi then [tooLong] else []
  }

  // zod's default messages for the checks that carry no message of their own
  const AtLeastOne := "String must contain at least 1 character(s)"
  const AtMost100 := "String must contain at most 100 character(s)"
  const AtMost1000 := "String must contain at most 1000 character(s)"
  const AtMost3000 := "String must contain at most 3000 character(s)"

  predicate IsInteger(x: real)
  {
    x.Floor as real == x
  }

  /** The messages the page schema reports for one page. */
  function PageIssues(p: StoryPage, isUrl: string -> bool): (r: seq<string>)
  {
    (if IsInteger(p.pageNumber) then [] else ["Expected integer, received float"])
    + TrimmedLengthIssues(p.text, 1, 3000, AtLeastOne, AtMost3000)
    + TrimmedLengthIssues(p.imagePrompt, 1, 1000, AtLeastOne, AtMost1000)
    + (if p.imageUrl.None? || isUrl(p.imageUrl.value) then [] else ["Invalid url"])
  }

  /** The messages of every page, first page first. */
  function PagesIssues(pages: seq<StoryPage>, isUrl: string -> bool): (r: seq<string>)
    ensures |r| == 0 <==> forall i :: 0 <= i < |pages| ==> ValidPage(pages[i], isUrl)
  {
    if pages == [] then []
    else
      PageIssuesSpec(pages[0], isUrl);
      var rest := PagesIssues(pages[1..], isUrl);
      assert forall i :: 1 <= i < |pages| ==> pages[i] == pages[1..][i - 1];
      PageIssues(pages[0], isUrl) + rest
  }

  /** All messages NewStoryDataSchema reports, in field order. */
  function NewStoryDataIssues(d: NewStoryData, isUrl: string -> bool): (r: seq<string>)
  {
    TrimmedLengthIssues(d.title, 1, 150, "Title is required.", "Title is too long.")
    + TrimmedLengthIssues(d.author, 1, 100, AtLeastOne, AtMost100)
    + (if isUrl(d.coverImage) then [] else ["Invalid cover image URL."])
    + (if |d.pages| < 1 then ["A story must have at least one page."] else [])
    + (if |d.pages| > 12 then ["A story can have at most 12 pages."] else [])
    + PagesIssues(d.pages, isUrl)
  }

  /** What a valid page is, stated field by field. */
  predicate ValidPage(p: StoryPage, isUrl: string -> bool)
  {
    && IsInteger(p.pageNumber)
    && 1 <= |Trim(p.text)| <= 3000
    && 1 <= |Trim(p.imagePrompt)| <= 1000
    && (p.imageUrl.Some? ==> isUrl(p.imageUrl.value))
  }

  /** What valid story data is, stated field by field. */
  predicate ValidNewStoryData(d: NewStoryData, isUrl: string -> bool)
  {
    && 1 <= |Trim(d.title)| <= 150
    && 1 <= |Trim(d.author)| <= 100
    && isUrl(d.coverImage)
    && 1 <= |d.pages| <= 12
    && forall i :: 0 <= i < |d.pages| ==> ValidPage(d.pages[i], isUrl)
  }

  function TrimmedPage(p: StoryPage): (r: StoryPage)
  {
    p.(text := Trim(p.text), imagePrompt := Trim(p.imagePrompt))
  }

  /** The parsed value: the trimmed title, author and page strings, everything else as given. */
  function Normalized(d: NewStoryData): (r: NewStoryData)
  {
    d.(title := Trim(d.title), author := Trim(d.author), pages := seq(|d.pages|, i requires 0 <= i < |d.pages| => TrimmedPage(d.pages[i])))
  }

  lemma PageIssuesSpec(p: StoryPage, isUrl: string -> bool)
    ensures |PageIssues(p, isUrl)| == 0 <==> ValidPage(p, isUrl)
  {
  }

  /** `NewStoryDataSchema.parse`: the normalized data, or the collected messages. */
  function ParseNewStoryData(d: NewStoryData, isUrl: string -> bool): (r: Result<NewStoryData, seq<string>>)
    ensures r.Ok? <==> ValidNewStoryData(d, isUrl)
    ensures r.Ok? ==> r.value == Normalized(d)
    ensures r.Err? ==> r.error != [] && r.error == NewStoryDataIssues(d, isUrl)
  {
    var issues := NewStoryDataIssues(d, isUrl);
    if issues == [] then Ok(Normalized(d)) else Err(issues)
  }

  /** The parsed pages keep their number, order and image and hold the trimmed strings. */
  lemma ParsedPages(d: NewStoryData, isUrl: string -> bool, i: nat)
    requires ParseNewStoryData(d, isUrl).Ok?
    requires i < |d.pages|
    ensures var v := ParseNewStoryData(d, isUrl).value;
      && |v.pages| == |d.pages|
      && v.pages[i].pageNumber == d.pages[i].pageNumber
      && v.pages[i].imageUrl == d.pages[i].imageUrl
      && v.pages[i].text == Trim(d.pages[i].text)
      && v.pages[i].imagePrompt == Trim(d.pages[i].imagePrompt)
      && 1 <= |v.pages[i].text| <= 3000
      && 1 <= |v.pages[i].imagePrompt| <= 1000
  {
  }

  /** Page numbers are checked to be integers only: the schema accepts repeated numbers. */
  lemma DuplicatePageNumbersAccepted(p: StoryPage, d: NewStoryData, isUrl: string -> bool)
    requires ValidPage(p, isUrl)
    requires d.pages == [p, p]
    requires 1 <= |Trim(d.title)| <= 150 && 1 <= |Trim(d.author)| <= 100 && isUrl(d.coverImage)
    ensures ParseNewStoryData(d, isUrl).Ok?
  {
  }

  /** Parsing is idempotent: the parsed value parses to itself. */
  lemma ParseNewStoryDataIdempotent(d: NewStoryData, isUrl: string -> bool)
    requires ParseNewStoryData(d, isUrl).Ok?
    ensures ParseNewStoryData(ParseNewStoryData(d, isUrl).value, isUrl) == ParseNewStoryData(d, isUrl)
  {
    var v := Normalized(d);
    TrimIdempotent(d.title);
    TrimIdempotent(d.author);
    forall i | 0 <= i < |v.pages| ensures ValidPage(v.pages[i], isUrl) && TrimmedPage(v.pages[i]) == v.pages[i] {
      TrimIdempotent(d.pages[i].text);
      TrimIdempotent(d.pages[i].imagePrompt);
    }
    assert ValidNewStoryData(v, isUrl);
    assert Normalized(v).pages == v.pages;
  }
}
