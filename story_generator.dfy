/**
 * src/components/story-generator.tsx: the dialog that drafts a story. It checks
 * the subscription record, debits the monthly counter, asks for the text and then
 * for four illustrations, and on save uploads the illustrations, assembles the
 * pages and hands the result to `saveStory`. The AI flows, the random cover pick,
 * the upload service and the database are parameters.
 */
module StoryGenerator {
  import opened Wrappers
  import opened Strings
  import opened StoryTypes
  import opened UserDocs
  import opened AuthContext
  import opened Storage
  import opened FlippingBook
  import opened StoryStore

  // ---------------------------------------------------------------------------
  // Generation gate and quota (lines 72, 249)
  // ---------------------------------------------------------------------------

  /** Generation is allowed only for a subscribed record whose counter is below its limit. */
  predicate CanGenerate(s: Subscription)
  {
    s.status == Subscribed && s.storiesGeneratedThisMonth < s.monthlyStoryLimit
  }

  /** `storiesLeft`, the number shown to the user. */
  function StoriesLeft(s: Subscription): (r: int)
    ensures r > 0 <==> s.storiesGeneratedThisMonth < s.monthlyStoryLimit
    ensures s.status == Subscribed ==> (CanGenerate(s) <==> r > 0)
    ensures s == Canonical ==> r == 0
  {
    s.monthlyStoryLimit - s.storiesGeneratedThisMonth
  }

  /** The gate, read off the user's document: an active subscription with stories left. */
  lemma GateOnDocument(doc: Option<UserDoc>, now: int)
    ensures CanGenerate(DeriveSubscription(doc, now)) <==>
      && doc.Some?
      && doc.value.subscriptionStatus == Some("subscribed")
      && doc.value.subscriptionEndDate.Some?
      && doc.value.subscriptionEndDate.value > now
      && doc.value.storiesGeneratedThisMonth.GetOr(0) < doc.value.monthlyStoryLimit.GetOr(0)
  {
  }

  /**
   * After a verified payment, and before its end date, exactly `limit` generations
   * pass the gate: after `k` debits the gate is open if and only if `k < limit`.
   */
  lemma QuotaAfterActivation(d: Option<UserDoc>, w: SubscriptionWrite, k: nat, now: int)
    requires now < w.subscriptionEndDate
    ensures CanGenerate(DeriveSubscription(Some(IncrementedTimes(Merged(d, w), k)), now)) <==> k < w.monthlyStoryLimit
  {
    var m := Merged(d, w);
    IncrementedTimesKeepsOthers(m, k);
    var after := IncrementedTimes(m, k);
    assert after.subscriptionStatus == m.subscriptionStatus;
    assert after.subscriptionEndDate == m.subscriptionEndDate;
    assert after.monthlyStoryLimit == m.monthlyStoryLimit;
    GateOnDocument(Some(after), now);
  }

  // ---------------------------------------------------------------------------
  // Illustration slots (lines 92-114)
  // ---------------------------------------------------------------------------

  /** The page indices that get an illustration. */
  predicate IsDesignated(i: int)
  {
    i == 0 || i == 3 || i == 6 || i == 9
  }

  /**
   * The slot array once every image request has settled: one entry per page, the
   * image at a designated index whose request resolved, and null everywhere else.
   */
  predicate Settled(slots: seq<Option<string>>, n: nat, images: nat -> Option<string>)
  {
    && |slots| == n
    && forall i :: 0 <= i < n ==> slots[i] == (if IsDesignated(i) then images(i) else None)
  }

  /**
   * The slot array is reset to `n` nulls; each designated page issues one image
   * request, whose answer (`images(i)`, `None` when it fails) is copied into its own
   * slot only. The requests are taken one after the other.
   */
  method Illustrate(n: nat, images: nat -> Option<string>) returns (slots: seq<Option<string>>, requests: seq<nat>)
    ensures Settled(slots, n, images)
    ensures forall i: nat :: i in requests <==> i < n && IsDesignated(i)
  {
    slots := seq(n, _ => None);
    requests := [];
    for i := 0 to n
      invariant |slots| == n
      invariant forall j :: 0 <= j < i ==> slots[j] == (if IsDesignated(j) then images(j) else None)
      invariant forall j :: i <= j < n ==> slots[j].None?
      invariant forall j: nat :: j in requests <==> j < i && IsDesignated(j)
    {
      if IsDesignated(i) {
        requests := requests + [i];
        var answer := images(i);
        if answer.Some? {
          slots := slots[i := answer];
        }
      }
    }
  }

  /** How one page's answer reaches the array: it never touches another page's slot. */
  lemma SlotsAreIndependent(slots1: seq<Option<string>>, slots2: seq<Option<string>>, n: nat,
                            images1: nat -> Option<string>, images2: nat -> Option<string>, j: nat)
    requires Settled(slots1, n, images1) && Settled(slots2, n, images2)
    requires forall i: nat :: i != j ==> images1(i) == images2(i)
    ensures forall i :: 0 <= i < n && i != j ==> slots1[i] == slots2[i]
    ensures !IsDesignated(j) ==> slots1 == slots2
  {
    assert forall i :: 0 <= i < n && i != j ==> slots1[i] == slots2[i];
  }

  // ---------------------------------------------------------------------------
  // Save gate (lines 134-145)
  // ---------------------------------------------------------------------------

  /** The entries at designated indices, in order, from index `k` on. */
  function RequiredFrom(urls: seq<Option<string>>, k: nat): seq<Option<string>>
    decreases |urls| - k
  {
    if k >= |urls| then []
    else (if IsDesignated(k) then [urls[k]] else []) + RequiredFrom(urls, k + 1)
  }

  /** `requiredImages`: the slot entries whose index is designated. */
  function RequiredImages(urls: seq<Option<string>>): seq<Option<string>>
  {
    RequiredFrom(urls, 0)
  }

  /** `allImagesGenerated`: every required entry is non-null and there are exactly four. */
  predicate AllImagesGenerated(urls: seq<Option<string>>)
  {
    && (forall i :: 0 <= i < |RequiredImages(urls)| ==> RequiredImages(urls)[i].Some?)
    && |RequiredImages(urls)| == 4
  }

  /** The number of designated indices below `m`. */
  function DesignatedBelow(m: int): (c: nat)
  {
    (if m > 0 then 1 else 0) + (if m > 3 then 1 else 0) + (if m > 6 then 1 else 0) + (if m > 9 then 1 else 0)
  }

  lemma {:induction false} RequiredFromLength(urls: seq<Option<string>>, k: nat)
    requires k <= |urls|
    ensures |RequiredFrom(urls, k)| == DesignatedBelow(|urls|) - DesignatedBelow(k)
    decreases |urls| - k
  {
    if k < |urls| {
      RequiredFromLength(urls, k + 1);
    }
  }

  lemma {:induction false} RequiredFromBeyondNine(urls: seq<Option<string>>, k: nat)
    requires k >= 10
    ensures RequiredFrom(urls, k) == []
    decreases |urls| - k
  {
    if k < |urls| {
      RequiredFromBeyondNine(urls, k + 1);
    }
  }

  /**
   * Saving is allowed exactly when there are at least ten slots and the slots at
   * 0, 3, 6 and 9 are all filled.
   */
  lemma AllImagesGeneratedIff(urls: seq<Option<string>>)
    ensures AllImagesGenerated(urls) <==>
      |urls| >= 10 && urls[0].Some? && urls[3].Some? && urls[6].Some? && urls[9].Some?
  {
    RequiredFromLength(urls, 0);
    if |urls| >= 10 {
      RequiredFromBeyondNine(urls, 10);
      assert RequiredFrom(urls, 9) == [urls[9]];
      assert RequiredFrom(urls, 6) == [urls[6]] + RequiredFrom(urls, 7);
      assert RequiredFrom(urls, 7) == RequiredFrom(urls, 9);
      assert RequiredFrom(urls, 3) == [urls[3]] + RequiredFrom(urls, 4);
      assert RequiredFrom(urls, 4) == RequiredFrom(urls, 6);
      assert RequiredFrom(urls, 0) == [urls[0]] + RequiredFrom(urls, 1);
      assert RequiredFrom(urls, 1) == RequiredFrom(urls, 3);
      var r := RequiredImages(urls);
      assert r == [urls[0], urls[3], urls[6], urls[9]];
      assert (forall i :: 0 <= i < |r| ==> r[i].Some?) <==>
        urls[0].Some? && urls[3].Some? && urls[6].Some? && urls[9].Some? by {
        assert r[0] == urls[0] && r[1] == urls[3] && r[2] == urls[6] && r[3] == urls[9];
      }
    }
  }

  /** A freshly generated twelve-page draft can be saved once its four images resolved. */
  lemma TwelvePageDraftSaveable(slots: seq<Option<string>>, images: nat -> Option<string>)
    requires Settled(slots, 12, images)
    ensures AllImagesGenerated(slots) <==> images(0).Some? && images(3).Some? && images(6).Some? && images(9).Some?
  {
    AllImagesGeneratedIff(slots);
  }

  // ---------------------------------------------------------------------------
  // Uploads, cover and pages (lines 155-191)
  // ---------------------------------------------------------------------------

  const DataImagePrefix := "data:image"

  /** Only a designated slot holding a data URI is uploaded. */
  predicate NeedsUpload(i: int, url: Option<string>)
  {
    IsDesignated(i) && url.Some? && StartsWith(url.value, DataImagePrefix)
  }

  /**
   * `uploadImage(url, uid)` for the signed-in user, as the dialog calls it for the
   * slot at index `i`: the download URL or the message it throws.
   */
  datatype Uploader = Uploader(upload: (nat, string) -> Result<string, string>)

  /**
   * The uploader of src/lib/storage.ts: `ready` says whether Storage is initialised,
   * `objectId(i)` is the name `uuidv4()` draws for slot `i`, `transfer` the service call.
   */
  function StorageUploader(ready: bool, userId: string, objectId: nat -> string,
                           transfer: (string, string, string) -> Option<string>): (up: Uploader)
    ensures forall i: nat, url :: up.upload(i, url) == UploadImage(ready, url, userId, objectId(i), transfer)
  {
    Uploader((i: nat, url: string) => UploadImage(ready, url, userId, objectId(i), transfer))
  }

  /**
   * `Promise.all` over the slots from index `k` on: the uploaded URL where the slot
   * needs an upload and null elsewhere, or the error of the first upload that fails.
   */
  function UploadFrom(urls: seq<Option<string>>, k: nat, up: Uploader): (r: Result<seq<Option<string>>, string>)
    requires k <= |urls|
    decreases |urls| - k
    ensures r.Ok? <==>
      forall j :: k <= j < |urls| && NeedsUpload(j, urls[j]) ==> up.upload(j, urls[j].value).Ok?
    ensures r.Ok? ==> |r.value| == |urls| - k
    ensures r.Ok? ==> forall j :: k <= j < |urls| ==>
      r.value[j - k] == (if NeedsUpload(j, urls[j]) then Some(up.upload(j, urls[j].value).value) else None)
    ensures r.Err? ==> exists j :: k <= j < |urls| && NeedsUpload(j, urls[j])
                                   && up.upload(j, urls[j].value) == Err(r.error)
  {
    if k == |urls| then Ok([])
    else
      var rest := UploadFrom(urls, k + 1, up);
      if NeedsUpload(k, urls[k]) then
        match up.upload(k, urls[k].value)
        case Err(e) => Err(e)
        case Ok(u) => if rest.Ok? then Ok([Some(u)] + rest.value) else rest
      else if rest.Ok? then Ok([None] + rest.value) else rest
  }

  /** The uploaded URLs, one entry per slot, or the message of the failed upload. */
  function Uploads(urls: seq<Option<string>>, up: Uploader): Result<seq<Option<string>>, string>
  {
    UploadFrom(urls, 0, up)
  }

  /** `coverImages`: the non-null uploaded URLs, in order. */
  function Present(xs: seq<Option<string>>): (r: seq<string>)
    ensures forall s :: s in r <==> Some(s) in xs
  {
    if xs == [] then []
    else (if xs[0].Some? then [xs[0].value] else []) + Present(xs[1..])
  }

  /**
   * `filter` keeps order and multiplicity: the URLs of two runs of slots are those of the
   * first run followed by those of the second, and one slot gives its own URL or nothing.
   */
  lemma {:induction false} PresentAppend(a: seq<Option<string>>, b: seq<Option<string>>)
    ensures Present(a + b) == Present(a) + Present(b)
    ensures Present([None]) == [] && forall s :: Present([Some(s)]) == [s]
  {
    assert Present([None]) == [] + Present([]);
    forall s ensures Present([Some(s)]) == [s] {
      assert Present([Some(s)]) == [s] + Present([]);
    }
    if a != [] {
      assert (a + b)[0] == a[0];
      assert (a + b)[1..] == a[1..] + b;
      PresentAppend(a[1..], b);
    } else {
      assert a + b == b;
    }
  }

  const Placeholder := "https://placehold.co/600x400.png"

  /** A value of `Math.random()` scaled by a positive count stays below the count. */
  lemma ScaledBelow(pick: real, n: nat)
    requires 0.0 <= pick < 1.0 && n > 0
    ensures 0.0 <= pick * n as real < n as real
  {
    assert (1.0 - pick) * n as real > 0.0;
  }

  /** The floor of a value in [0, n) is an index below n. */
  lemma FloorBelow(x: real, n: nat)
    requires 0.0 <= x < n as real
    ensures 0 <= x.Floor < n
  {
    var k := x.Floor;
    assert k as real <= x < k as real + 1.0;
    assert k as real < n as real;
  }

  /**
   * The cover: the uploaded URL at `floor(pick * count)` where `pick` is the value of
   * `Math.random()`, or the placeholder when nothing was uploaded.
   */
  function ChooseCover(uploaded: seq<Option<string>>, pick: real): (r: string)
    requires 0.0 <= pick < 1.0
    ensures (forall i :: 0 <= i < |uploaded| ==> uploaded[i].None?) ==> r == Placeholder
    ensures (exists i :: 0 <= i < |uploaded| && uploaded[i].Some?) ==> Some(r) in uploaded
  {
    var covers := Present(uploaded);
    if |covers| > 0 then
      ScaledBelow(pick, |covers|);
      FloorBelow(pick * |covers| as real, |covers|);
      assert Some(covers[0]) in uploaded;
      covers[(pick * |covers| as real).Floor]
    else
      Placeholder
  }

  /** A page of the draft as the text flow returns it. */
  datatype DraftPage = DraftPage(text: string, imagePrompt: string)

  /** `GenerateStoryOutput`. */
  datatype Draft = Draft(title: string, pages: seq<DraftPage>)

  /** Whether the uploaded entry is a non-empty URL, the truthiness test of line 176. */
  predicate HasUrl(uploaded: seq<Option<string>>, i: int)
  {
    0 <= i < |uploaded| && uploaded[i].Some? && uploaded[i].value != ""
  }

  /**
   * The pages handed to `saveStory`: the draft's pages in order, numbered by their
   * index, with an image exactly where an upload produced a URL.
   */
  function AssemblePages(pages: seq<DraftPage>, uploaded: seq<Option<string>>): (r: seq<StoryPage>)
    ensures |r| == |pages|
    ensures forall i :: 0 <= i < |r| ==>
      && r[i].pageNumber == i as real && IsInteger(r[i].pageNumber)
      && r[i].text == pages[i].text && r[i].imagePrompt == pages[i].imagePrompt
      && (r[i].imageUrl.Some? <==> HasUrl(uploaded, i))
      && (r[i].imageUrl.Some? ==> r[i].imageUrl == uploaded[i])
  {
    seq(|pages|, i requires 0 <= i < |pages| =>
      StoryPage(i as real, pages[i].text, pages[i].imagePrompt, if HasUrl(uploaded, i) then uploaded[i] else None))
  }

  const DefaultAuthor := "AI Storyteller"
  const DraftReadingLevel := "Intermediate"

  /** The story data of lines 182-191. */
  function StoryData(draft: Draft, pages: seq<StoryPage>, cover: string, ageGroup: string, theme: string,
                     user: User): (d: NewStoryData)
    ensures d.userId == user.uid && d.title == draft.title && d.pages == pages && d.coverImage == cover
    ensures d.author == (if user.email.Some? && user.email.value != "" then user.email.value else DefaultAuthor)
    ensures d.author != "" && d.readingLevel == DraftReadingLevel
    ensures d.ageGroup == ageGroup && d.theme == theme
  {
    var author := if user.email.Some? && user.email.value != "" then user.email.value else DefaultAuthor;
    NewStoryData(draft.title, author, cover, pages, ageGroup, theme, DraftReadingLevel, user.uid)
  }

  /** What the dialog submits for `draft` and its slots, or the message of the failed upload. */
  function Submission(draft: Draft, slots: seq<Option<string>>, up: Uploader, pick: real,
                      user: User, ageGroup: string, theme: string): Result<NewStoryData, string>
    requires 0.0 <= pick < 1.0
  {
    match Uploads(slots, up)
    case Err(e) => Err(e)
    case Ok(uploaded) =>
      Ok(StoryData(draft, AssemblePages(draft.pages, uploaded), ChooseCover(uploaded, pick), ageGroup, theme, user))
  }

  /**
   * A submitted page has an image only at a designated index whose slot held a
   * data URI, and that image is the URL its upload returned.
   */
  lemma SubmittedImagesAreUploads(draft: Draft, slots: seq<Option<string>>, up: Uploader, pick: real,
                                  user: User, ageGroup: string, theme: string, i: int)
    requires 0.0 <= pick < 1.0
    requires Submission(draft, slots, up, pick, user, ageGroup, theme).Ok?
    requires 0 <= i < |draft.pages|
    ensures var p := Submission(draft, slots, up, pick, user, ageGroup, theme).value.pages[i];
      p.imageUrl.Some? ==>
        && i < |slots| && IsDesignated(i) && NeedsUpload(i, slots[i])
        && up.upload(i, slots[i].value) == Ok(p.imageUrl.value)
  {
    var uploaded := Uploads(slots, up).value;
    var p := AssemblePages(draft.pages, uploaded)[i];
    if p.imageUrl.Some? {
      assert HasUrl(uploaded, i);
      assert uploaded[i - 0] == (if NeedsUpload(i, slots[i]) then Some(up.upload(i, slots[i].value).value) else None);
    }
  }

  /** An upload that fails stops the save, with the message of a failed upload. */
  lemma FailedUploadStopsSave(draft: Draft, slots: seq<Option<string>>, up: Uploader, pick: real,
                              user: User, ageGroup: string, theme: string)
    requires 0.0 <= pick < 1.0
    ensures Submission(draft, slots, up, pick, user, ageGroup, theme).Err? <==>
      exists j :: 0 <= j < |slots| && NeedsUpload(j, slots[j]) && up.upload(j, slots[j].value).Err?
    ensures Submission(draft, slots, up, pick, user, ageGroup, theme).Err? ==>
      exists j :: 0 <= j < |slots| && NeedsUpload(j, slots[j])
                  && up.upload(j, slots[j].value) == Err(Submission(draft, slots, up, pick, user, ageGroup, theme).error)
  {
    var r := Uploads(slots, up);
    if r.Err? {
      var j :| 0 <= j < |slots| && NeedsUpload(j, slots[j]) && up.upload(j, slots[j].value) == Err(r.error);
    }
  }

  /** With Storage not initialised, a draft holding a data URI at a designated slot cannot be saved. */
  lemma UninitializedStorageStopsSave(draft: Draft, slots: seq<Option<string>>, objectId: nat -> string,
                                      transfer: (string, string, string) -> Option<string>, pick: real,
                                      user: User, ageGroup: string, theme: string, j: nat)
    requires 0.0 <= pick < 1.0
    requires j < |slots| && NeedsUpload(j, slots[j])
    ensures Submission(draft, slots, StorageUploader(false, user.uid, objectId, transfer), pick, user, ageGroup, theme)
            == Err(NotInitialized)
  {
    var up := StorageUploader(false, user.uid, objectId, transfer);
    assert up.upload(j, slots[j].value).Err?;
    FailedUploadStopsSave(draft, slots, up, pick, user, ageGroup, theme);
  }

  /** The dialog always submits under the signed-in user's id, so `saveStory` never sees a mismatch. */
  lemma SubmissionNeverMismatches(draft: Draft, slots: seq<Option<string>>, up: Uploader, pick: real,
                                  user: User, ageGroup: string, theme: string, available: bool, isUrl: string -> bool)
    requires 0.0 <= pick < 1.0
    requires Submission(draft, slots, up, pick, user, ageGroup, theme).Ok?
    ensures SaveRefusal(available, Submission(draft, slots, up, pick, user, ageGroup, theme).value, user.uid, isUrl)
            != Some(UserMismatch)
  {
  }

  // ---------------------------------------------------------------------------
  // Book sheets (lines 296-329)
  // ---------------------------------------------------------------------------

  /** What a face of a sheet shows: the title, a page of the draft, or "The End". */
  datatype Face = TitleFace(title: string) | PageFace(index: nat) | EndFace

  /** The `k`-th sheet after the cover: pages `2k+1` and `2k+2`. */
  function PagePair(k: int): Sheet<Face>
    requires k >= 0
  {
    Sheet(PageFace(2 * k + 1), Some(PageFace(2 * k + 2)))
  }

  /** The number of sheets the loop at lines 310-318 pushes for `n` pages. */
  function PairCount(n: nat): nat
  {
    if n >= 1 then (n - 1) / 2 else 0
  }

  function Cover(title: string): Sheet<Face>
  {
    Sheet(TitleFace(title), Some(PageFace(0)))
  }

  const BackCover: Sheet<Face> := Sheet(EndFace, None)

  /** The sheets the dialog lays out, as written: cover, page pairs, back cover. */
  function DraftSheets(title: string, n: nat): seq<Sheet<Face>>
  {
    [Cover(title)] + seq(PairCount(n), k requires k >= 0 => PagePair(k)) + [BackCover]
  }

  /**
   * The corrected layout: as above, plus a sheet for the last page when it has no
   * partner, as the stored-story view (src/app/story/[id]/story-view.tsx:117-127) does.
   */
  function BookSheets(title: string, n: nat): seq<Sheet<Face>>
  {
    [Cover(title)] + seq(PairCount(n), k requires k >= 0 => PagePair(k))
    + (if n > 1 && (n - 1) % 2 != 0 then [Sheet(PageFace(n - 1), None)] else [])
    + [BackCover]
  }

  predicate Holds(s: Sheet<Face>, p: nat)
  {
    s.front == PageFace(p) || s.back == Some(PageFace(p))
  }

  /** Whether page `p` appears on some sheet. */
  predicate Shows(sheets: seq<Sheet<Face>>, p: nat)
  {
    exists k :: 0 <= k < |sheets| && Holds(sheets[k], p)
  }

  /** As written: floor((n-1)/2)+2 sheets, and for an even page count the last page is on none. */
  lemma DraftSheetsDropLastPage(title: string, n: nat)
    requires n >= 2 && n % 2 == 0
    ensures |DraftSheets(title, n)| == (n - 1) / 2 + 2
    ensures !Shows(DraftSheets(title, n), n - 1)
  {
    var sheets := DraftSheets(title, n);
    forall k | 0 <= k < |sheets| ensures !Holds(sheets[k], n - 1) {
      if 1 <= k < |sheets| - 1 {
        assert sheets[k] == PagePair(k - 1);
      }
    }
  }

  /** The draft the dialog always asks for has twelve pages, and its page 11 is never shown. */
  lemma TwelvePageDraftHidesPageEleven(title: string)
    ensures !Shows(DraftSheets(title, 12), 11)
    ensures Shows(BookSheets(title, 12), 11)
  {
    DraftSheetsDropLastPage(title, 12);
    BookSheetsShowEveryPage(title, 12);
  }

  /** The corrected layout shows every page of the draft, and no page beyond it. */
  lemma BookSheetsShowEveryPage(title: string, n: nat)
    ensures forall p: nat :: p < n ==> Shows(BookSheets(title, n), p)
    ensures n >= 1 ==> forall k, p: nat :: 0 <= k < |BookSheets(title, n)| && Holds(BookSheets(title, n)[k], p) ==> p < n
  {
    var sheets := BookSheets(title, n);
    var c := PairCount(n);
    forall p: nat | p < n ensures Shows(sheets, p) {
      if p == 0 {
        assert Holds(sheets[0], p);
      } else if p % 2 == 1 && p < n - 1 {
        assert sheets[(p - 1) / 2 + 1] == PagePair((p - 1) / 2);
        assert Holds(sheets[(p - 1) / 2 + 1], p);
      } else if p % 2 == 0 {
        assert sheets[(p - 2) / 2 + 1] == PagePair((p - 2) / 2);
        assert Holds(sheets[(p - 2) / 2 + 1], p);
      } else {
        assert sheets[c + 1] == Sheet(PageFace(n - 1), None);
        assert Holds(sheets[c + 1], p);
      }
    }
    if n >= 1 {
      forall k, p: nat | 0 <= k < |sheets| && Holds(sheets[k], p) ensures p < n {
        if 1 <= k <= c {
          assert sheets[k] == PagePair(k - 1);
        }
      }
    }
  }

  /** The sheet list built with `push` (corrected layout). */
  method BuildSheets(title: string, n: nat) returns (sheets: seq<Sheet<Face>>)
    ensures sheets == BookSheets(title, n)
  {
    sheets := [Cover(title)];
    var i := 1;
    while i < n - 1
      invariant i >= 1 && i % 2 == 1
      invariant i == 1 || i - 2 < n - 1
      invariant sheets == [Cover(title)] + seq((i - 1) / 2, k requires k >= 0 => PagePair(k))
    {
      sheets := sheets + [Sheet(PageFace(i), Some(PageFace(i + 1)))];
      assert PagePair((i - 1) / 2) == Sheet(PageFace(i), Some(PageFace(i + 1)));
      i := i + 2;
    }
    assert (i - 1) / 2 == PairCount(n);
    if n > 1 && (n - 1) % 2 != 0 {
      sheets := sheets + [Sheet(PageFace(n - 1), None)];
    }
    sheets := sheets + [BackCover];
  }

  // ---------------------------------------------------------------------------
  // The dialog's state
  // ---------------------------------------------------------------------------

  /** The toast a generation attempt ends with (or none, for `Generated`). */
  datatype GenerateOutcome = NotAuthenticated | SubscriptionRequired | GenerationFailed | Generated

  /** Why a save that got past the readiness gate failed. */
  datatype SaveFailure = UploadError(message: string) | Refused(error: StoreError) | MissingId

  /** The description of the "Error Saving Story" toast. */
  function FailureMessage(f: SaveFailure): string
  {
    match f
    case UploadError(m) => m
    case Refused(e) => Message(e)
    case MissingId => "Failed to save story and retrieve ID."
  }

  /** The toast a save attempt ends with. */
  datatype SaveOutcome = NothingToSave | IllustrationsNotReady | SaveFailed(failure: SaveFailure) | Saved(id: string)

  class Generator {
    var isOpen: bool
    var isLoading: bool
    var isGeneratingImages: bool
    var imageUrls: seq<Option<string>>
    var isSaving: bool
    var saved: bool
    var savedStoryId: Option<string>
    var generatedStory: Option<Draft>

    constructor ()
      ensures !isOpen && !isLoading && !isGeneratingImages && imageUrls == []
      ensures !isSaving && !saved && savedStoryId.None? && generatedStory.None?
    {
      isOpen := false;
      isLoading := false;
      isGeneratingImages := false;
      imageUrls := [];
      isSaving := false;
      saved := false;
      savedStoryId := None;
      generatedStory := None;
    }

    /** The state reset at lines 82-85, before the debit. */
    method StartGenerating()
      modifies this`isLoading, this`generatedStory, this`imageUrls, this`isGeneratingImages
      ensures isLoading && generatedStory.None? && imageUrls == [] && isGeneratingImages
    {
      isLoading := true;
      generatedStory := None;
      imageUrls := [];
      isGeneratingImages := true;
    }

    /**
     * `generateInitialStory` (lines 62-128). `text` is the text flow's answer and
     * `images(i)` the image flow's answer for page `i`; `textCalled` says whether the
     * text flow was asked at all.
     */
    method GenerateInitialStory(auth: AuthProvider, users: UserStore, text: Result<Draft, string>,
                                images: nat -> Option<string>)
      returns (o: GenerateOutcome, textCalled: bool)
      modifies this, users
      ensures auth.user.None? ==>
        o == NotAuthenticated && !textCalled && unchanged(this) && users.docs == old(users.docs)
      ensures auth.user.Some? && !CanGenerate(auth.subscription) ==>
        && o == SubscriptionRequired && !textCalled && !isOpen && users.docs == old(users.docs)
        && generatedStory == old(generatedStory) && imageUrls == old(imageUrls)
        && isLoading == old(isLoading) && isGeneratingImages == old(isGeneratingImages)
      ensures auth.user.Some? && CanGenerate(auth.subscription) ==>
        var uid := auth.user.value.uid;
        && users.docs == (if auth.configured && uid in old(users.docs)
                          then old(users.docs)[uid := Incremented(old(users.docs)[uid])]
                          else old(users.docs))
        && textCalled == (!auth.configured || uid in old(users.docs))
        && (o == Generated <==> textCalled && text.Ok?)
        && (o == Generated ==> generatedStory == Some(text.value) && Settled(imageUrls, |text.value.pages|, images))
        && (o != Generated ==> o == GenerationFailed && generatedStory.None? && imageUrls == [])
        && !isLoading && !isGeneratingImages && isOpen == old(isOpen)
      ensures saved == old(saved) && savedStoryId == old(savedStoryId) && isSaving == old(isSaving)
    {
      textCalled := false;
      if auth.user.None? {
        return NotAuthenticated, false;
      }
      if !CanGenerate(auth.subscription) {
        isOpen := false;
        return SubscriptionRequired, false;
      }
      StartGenerating();
      var debit := auth.IncrementStoryCount(users);
      if debit == UpdateFailed {
        o := GenerationFailed;
      } else {
        textCalled := true;
        match text
        case Err(_) =>
          o := GenerationFailed;
        case Ok(draft) =>
          generatedStory := Some(draft);
          var slots, _ := Illustrate(|draft.pages|, images);
          imageUrls := slots;
          o := Generated;
      }
      isLoading := false;
      isGeneratingImages := false;
    }

    /**
     * `handleSave` (lines 131-218) for the signed-in `user`. `up` is the upload call,
     * `pick` the value of `Math.random()`, `ageGroup` and `theme` the form's fields, and
     * `save` the server action `saveStory(data, uid)` as the client receives its answer
     * (the server side is `StoryStore.StoryDb.SaveStory`).
     */
    method HandleSave(user: Option<User>, up: Uploader, pick: real, ageGroup: string, theme: string,
                      save: (NewStoryData, string) -> SaveResult)
      returns (o: SaveOutcome)
      requires 0.0 <= pick < 1.0
      modifies this`isSaving, this`saved, this`savedStoryId
      ensures generatedStory.None? || user.None? ==> o == NothingToSave && unchanged(this)
      ensures generatedStory.Some? && user.Some? && !AllImagesGenerated(imageUrls) ==>
        o == IllustrationsNotReady && unchanged(this)
      ensures generatedStory.Some? && user.Some? && AllImagesGenerated(imageUrls) ==>
        var s := Submission(generatedStory.value, imageUrls, up, pick, user.value, ageGroup, theme);
        && !isSaving
        && (s.Err? ==> o == SaveFailed(UploadError(s.error)))
        && (s.Ok? ==>
              var answer := save(s.value, user.value.uid);
              && (answer.error.Some? ==> o == SaveFailed(Refused(answer.error.value)))
              && (answer.error.None? && (answer.data.None? || answer.data.value == "") ==> o == SaveFailed(MissingId))
              && (answer.error.None? && answer.data.Some? && answer.data.value != "" ==> o == Saved(answer.data.value)))
      ensures o.Saved? ==> o.id != ""
      ensures saved == (old(saved) || o.Saved?)
      ensures savedStoryId == (if o.Saved? then Some(o.id) else old(savedStoryId))
    {
      if generatedStory.None? || user.None? {
        return NothingToSave;
      }
      if !AllImagesGenerated(imageUrls) {
        return IllustrationsNotReady;
      }
      isSaving := true;
      var s := Submission(generatedStory.value, imageUrls, up, pick, user.value, ageGroup, theme);
      if s.Err? {
        o := SaveFailed(UploadError(s.error));
      } else {
        var answer := save(s.value, user.value.uid);
        if answer.error.Some? {
          o := SaveFailed(Refused(answer.error.value));
        } else if answer.data.None? || answer.data.value == "" {
          // `!result.data`: a missing id and an empty one are both falsy.
          o := SaveFailed(MissingId);
        } else {
          saved := true;
          savedStoryId := answer.data;
          o := Saved(answer.data.value);
        }
      }
      isSaving := false;
    }

    /** `handleOpenChange(open)` (lines 220-234): closing discards the draft. */
    method HandleOpenChange(open: bool)
      modifies this
      ensures isOpen == open
      ensures !open ==> generatedStory.None? && imageUrls == [] && !isLoading && !isGeneratingImages
                        && !saved && savedStoryId.None?
      ensures open ==> generatedStory == old(generatedStory) && imageUrls == old(imageUrls)
                       && isLoading == old(isLoading) && isGeneratingImages == old(isGeneratingImages)
                       && saved == old(saved) && savedStoryId == old(savedStoryId)
      ensures isSaving == old(isSaving)
    {
      isOpen := open;
      if !open {
        generatedStory := None;
        imageUrls := [];
        isLoading := false;
        isGeneratingImages := false;
        saved := false;
        savedStoryId := None;
      }
    }

    /** `handleGenerateAnother` (lines 236-243). */
    method HandleGenerateAnother()
      modifies this
      ensures generatedStory.None? && imageUrls == [] && !isGeneratingImages && !saved && savedStoryId.None?
      ensures isOpen == old(isOpen) && isLoading == old(isLoading) && isSaving == old(isSaving)
    {
      generatedStory := None;
      imageUrls := [];
      isGeneratingImages := false;
      saved := false;
      savedStoryId := None;
    }
  }
}
