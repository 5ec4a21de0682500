/**
 * src/app/actions.ts: the two server actions over the stories collection. A story
 * document holds the validated fields except the pages, which live in the story's
 * `pages` child collection. Firestore is a map from story id to document and a map
 * from story id to the multiset of that story's page documents (their order is not
 * kept). A write that throws is a `fault` parameter naming the step that fails.
 */
module StoryStore {
  import opened Wrappers
  import opened Strings
  import opened StoryTypes

  /** The errors the two actions report; `Message` is the text they return. */
  datatype StoreError =
    | DatabaseUnavailable
    | InvalidStoryData(messages: seq<string>)
    | UserMismatch
    | UnexpectedSaveError
    | InvalidInput
    | NotOwner
    | UnexpectedDeleteError

  function Message(e: StoreError): string
  {
    match e
    case DatabaseUnavailable => "Database service is not available."
    case InvalidStoryData(messages) => "Invalid story data provided: " + Join(messages, ", ")
    case UserMismatch => "Authorization error: User ID mismatch."
    case UnexpectedSaveError => "An unexpected error occurred while saving the story."
    case InvalidInput => "Invalid input: storyId and userId are required."
    case NotOwner => "You are not authorized to delete this story."
    case UnexpectedDeleteError => "An unexpected error occurred while deleting the story."
  }

  /** `{ data, error }` of `saveStory`. */
  datatype SaveResult = SaveResult(data: Option<string>, error: Option<StoreError>)

  /** `{ success, error }` of `deleteStory`. */
  datatype DeleteResult = DeleteResult(success: bool, error: Option<StoreError>)

  /** The write of `saveStory` that throws, if any. */
  datatype SaveFault = SaveOk | AddFails | CommitFails

  /**
   * The step of `deleteStory` that throws, if any: reading the story, reading its
   * `pages` collection, committing the delete batch, or deleting the story document.
   */
  datatype DeleteFault = DeleteOk | ReadFails | PagesReadFails | BatchFails | ParentDeleteFails

  /**
   * The refusal `saveStory` returns before any write: the database is missing, the
   * data fails the schema (with the schema's messages), or the validated owner is not
   * the caller; `None` when the story is to be written.
   */
  function SaveRefusal(available: bool, d: NewStoryData, userId: string, isUrl: string -> bool): (r: Option<StoreError>)
    ensures r.None? <==> available && ValidNewStoryData(d, isUrl) && d.userId == userId
    ensures !available ==> r == Some(DatabaseUnavailable)
    ensures available && !ValidNewStoryData(d, isUrl) ==>
              r == Some(InvalidStoryData(NewStoryDataIssues(d, isUrl)))
    ensures available && ValidNewStoryData(d, isUrl) && d.userId != userId ==> r == Some(UserMismatch)
  {
    if !available then Some(DatabaseUnavailable)
    else
      match ParseNewStoryData(d, isUrl)
      case Err(messages) => Some(InvalidStoryData(messages))
      case Ok(v) => if v.userId != userId then Some(UserMismatch) else None
  }

  /** The story document `add` creates: the validated fields but the pages, and `createdAt`. */
  function StoredDoc(v: NewStoryData, now: int): StoryDoc
  {
    StoryDoc(v.title, v.author, v.coverImage, v.ageGroup, v.theme, v.readingLevel, v.userId, Some(now))
  }

  /**
   * The answer `deleteStory` gives without deleting anything, from the stored document
   * it reads (`None` when the story does not exist); `None` when it goes on to delete.
   */
  function DeleteRefusal(available: bool, storyId: string, userId: string, stored: Option<StoryDoc>): (r: Option<DeleteResult>)
    ensures r.None? <==> available && storyId != "" && userId != "" && stored.Some? && stored.value.userId == userId
    ensures r.Some? && r.value.success <==> available && storyId != "" && userId != "" && stored.None?
    ensures r.Some? && r.value.success ==> r.value.error.None?
    ensures r.Some? && !r.value.success ==> r.value.error.Some?
    ensures available && storyId != "" && userId != "" && stored.Some? && stored.value.userId != userId ==>
              r == Some(DeleteResult(false, Some(NotOwner)))
  {
    if !available then Some(DeleteResult(false, Some(DatabaseUnavailable)))
    else if storyId == "" || userId == "" then Some(DeleteResult(false, Some(InvalidInput)))
    else if stored.None? then Some(DeleteResult(true, None))
    else if stored.value.userId != userId then Some(DeleteResult(false, Some(NotOwner)))
    else None
  }

  /** A story that is already gone is deleted successfully, however often it is asked. */
  lemma DeletingMissingStorySucceeds(storyId: string, userId: string)
    requires storyId != "" && userId != ""
    ensures DeleteRefusal(true, storyId, userId, None) == Some(DeleteResult(true, None))
  {
  }

  /** The check order: the database, then the arguments, then existence, then ownership. */
  lemma DeleteCheckOrder(available: bool, storyId: string, userId: string, stored: Option<StoryDoc>)
    ensures !available ==> DeleteRefusal(available, storyId, userId, stored) == Some(DeleteResult(false, Some(DatabaseUnavailable)))
    ensures available && (storyId == "" || userId == "") ==>
              DeleteRefusal(available, storyId, userId, stored) == Some(DeleteResult(false, Some(InvalidInput)))
  {
  }

  /** The pages stored under a story id; an absent collection has none. */
  function ChildPages(pages: map<string, multiset<StoryPage>>, id: string): multiset<StoryPage>
  {
    if id in pages then pages[id] else multiset{}
  }

  /** Emptying one story's `pages` collection leaves every other story's as it was. */
  lemma ClearChildPages(pages: map<string, multiset<StoryPage>>, storyId: string)
    ensures ChildPages(pages[storyId := multiset{}], storyId) == multiset{}
    ensures forall id :: id != storyId ==> ChildPages(pages[storyId := multiset{}], id) == ChildPages(pages, id)
    ensures storyId in pages ==> pages[storyId := multiset{}].Keys == pages.Keys
  {
  }

  /**
   * An auto-generated id: longer than every id in use, which is all the model needs of
   * it; the store only asks for lengths of at least 1, so its ids are never empty.
   */
  function AutoId(length: nat): (id: string)
    ensures |id| == length
    ensures length >= 1 ==> id != ""
  {
    seq(length, _ => 'x')
  }

  /** A story the store saved has a non-empty id, so its owner can go on to delete it. */
  lemma SavedStoryIsDeletable(length: nat, userId: string, doc: StoryDoc)
    requires length >= 1 && userId != "" && doc.userId == userId
    ensures DeleteRefusal(true, AutoId(length), userId, Some(doc)).None?
  {
  }

  class StoryDb {
    /** Whether `adminDb` was initialised. */
    const available: bool
    var stories: map<string, StoryDoc>
    var pages: map<string, multiset<StoryPage>>
    var idLength: nat

    ghost predicate Valid()
      reads this
    {
      && idLength >= 1
      && (forall id :: id in stories ==> |id| < idLength)
      && (forall id :: id in pages ==> |id| < idLength)
    }

    constructor (available: bool)
      ensures this.available == available
      ensures stories == map[] && pages == map[]
      ensures Valid()
    {
      this.available := available;
      stories := map[];
      pages := map[];
      idLength := 1;
    }

    /** `collection("stories").add(doc)`: the document under a fresh auto-generated id. */
    method Add(doc: StoryDoc) returns (id: string)
      requires Valid()
      modifies this
      ensures Valid()
      ensures id == AutoId(old(idLength)) && id != "" && id !in old(stories) && id !in old(pages)
      ensures stories == old(stories)[id := doc] && pages == old(pages)
    {
      id := AutoId(idLength);
      idLength := idLength + 1;
      stories := stories[id := doc];
    }

    /** `batch.commit()` of a batch setting new page documents in the collection of `id`. */
    method CommitSets(id: string, batch: multiset<StoryPage>)
      requires Valid() && id in stories
      modifies this`pages
      ensures Valid()
      ensures pages == old(pages)[id := ChildPages(old(pages), id) + batch]
    {
      pages := pages[id := ChildPages(pages, id) + batch];
    }

    /**
     * The writes of `saveStory` for validated data `v`: `add` creates the story
     * document under a fresh id, then one batch sets a page document per page.
     */
    method Write(v: NewStoryData, now: int, fault: SaveFault) returns (r: SaveResult)
      requires Valid() && fault != AddFails
      modifies this
      ensures Valid()
      ensures AutoId(old(idLength)) != "" && AutoId(old(idLength)) !in old(stories)
      ensures stories == old(stories)[AutoId(old(idLength)) := StoredDoc(v, now)]
      ensures fault == SaveOk ==> r == SaveResult(Some(AutoId(old(idLength))), None)
                                  && pages == old(pages)[AutoId(old(idLength)) := multiset(v.pages)]
      ensures fault == CommitFails ==> r == SaveResult(None, Some(UnexpectedSaveError)) && pages == old(pages)
    {
      var id := Add(StoredDoc(v, now));
      var batch := SetBatch(v.pages);
      if fault == CommitFails {
        return SaveResult(None, Some(UnexpectedSaveError));
      }
      assert ChildPages(pages, id) + batch == multiset(v.pages);
      CommitSets(id, batch);
      return SaveResult(Some(id), None);
    }

    /**
     * `saveStory`: the checks of `SaveRefusal`, each returning before any write, then
     * the writes for the validated data; the id is returned once both have happened.
     */
    method SaveStory(d: NewStoryData, userId: string, now: int, isUrl: string -> bool, fault: SaveFault)
      returns (r: SaveResult)
      requires Valid()
      modifies this
      ensures Valid()
      ensures SaveRefusal(available, d, userId, isUrl).Some? ==>
                && r == SaveResult(None, SaveRefusal(available, d, userId, isUrl))
                && stories == old(stories) && pages == old(pages)
      ensures SaveRefusal(available, d, userId, isUrl).None? && fault == AddFails ==>
                && r == SaveResult(None, Some(UnexpectedSaveError))
                && stories == old(stories) && pages == old(pages)
      ensures SaveRefusal(available, d, userId, isUrl).None? && fault != AddFails ==>
                var id := AutoId(old(idLength));
                var v := ParseNewStoryData(d, isUrl).value;
                && id != "" && id !in old(stories)
                && stories == old(stories)[id := StoredDoc(v, now)]
                && (fault == SaveOk ==> r == SaveResult(Some(id), None)
                                        && pages == old(pages)[id := multiset(v.pages)])
                && (fault == CommitFails ==> r == SaveResult(None, Some(UnexpectedSaveError)) && pages == old(pages))
    {
      var refusal := SaveRefusal(available, d, userId, isUrl);
      if refusal.Some? {
        return SaveResult(None, refusal);
      }
      if fault == AddFails {
        return SaveResult(None, Some(UnexpectedSaveError));
      }
      r := Write(ParseNewStoryData(d, isUrl).value, now, fault);
    }

    /**
     * `deleteStory`: after the checks, one batch deletes every page document the
     * story's `pages` collection holds (only when it holds any), then the story
     * document is deleted.
     */
    method DeleteStory(storyId: string, userId: string, fault: DeleteFault) returns (r: DeleteResult)
      requires Valid()
      modifies this
      ensures Valid()
      ensures !available || storyId == "" || userId == "" ==>
                && r == DeleteRefusal(available, storyId, userId, None).value
                && stories == old(stories) && pages == old(pages)
      ensures available && storyId != "" && userId != "" && fault == ReadFails ==>
                && r == DeleteResult(false, Some(UnexpectedDeleteError))
                && stories == old(stories) && pages == old(pages)
      ensures available && storyId != "" && userId != "" && fault != ReadFails &&
              DeleteRefusal(available, storyId, userId, Lookup(old(stories), storyId)).Some? ==>
                && r == DeleteRefusal(available, storyId, userId, Lookup(old(stories), storyId)).value
                && stories == old(stories) && pages == old(pages)
      ensures available && storyId != "" && userId != "" && fault != ReadFails &&
              DeleteRefusal(available, storyId, userId, Lookup(old(stories), storyId)).None? ==>
                var batched := ChildPages(old(pages), storyId) != multiset{};
                && (fault == PagesReadFails ==>
                      r == DeleteResult(false, Some(UnexpectedDeleteError)) && stories == old(stories) && pages == old(pages))
                && (fault == BatchFails && batched ==>
                      r == DeleteResult(false, Some(UnexpectedDeleteError)) && stories == old(stories) && pages == old(pages))
                && (fault == ParentDeleteFails ==>
                      r == DeleteResult(false, Some(UnexpectedDeleteError)) && stories == old(stories)
                      && ChildPages(pages, storyId) == multiset{}
                      && forall id :: id != storyId ==> ChildPages(pages, id) == ChildPages(old(pages), id))
                && (fault == DeleteOk || (fault == BatchFails && !batched) ==>
                      r == DeleteResult(true, None) && stories == old(stories) - {storyId}
                      && ChildPages(pages, storyId) == multiset{}
                      && forall id :: id != storyId ==> ChildPages(pages, id) == ChildPages(old(pages), id))
    {
      if !available || storyId == "" || userId == "" {
        return DeleteRefusal(available, storyId, userId, None).value;
      }
      if fault == ReadFails {
        return DeleteResult(false, Some(UnexpectedDeleteError));
      }
      var refusal := DeleteRefusal(available, storyId, userId, Lookup(stories, storyId));
      if refusal.Some? {
        return refusal.value;
      }
      r := DeleteChildrenThenStory(storyId, fault);
    }

    /**
     * The writes `deleteStory` makes once its checks pass: read the story's `pages`
     * collection, commit one batch deleting every page in it (only when it has any),
     * then delete the story document.
     */
    method DeleteChildrenThenStory(storyId: string, fault: DeleteFault) returns (r: DeleteResult)
      requires Valid() && fault != ReadFails
      modifies this
      ensures Valid()
      ensures var batched := ChildPages(old(pages), storyId) != multiset{};
                && (fault == PagesReadFails ==>
                      r == DeleteResult(false, Some(UnexpectedDeleteError)) && stories == old(stories) && pages == old(pages))
                && (fault == BatchFails && batched ==>
                      r == DeleteResult(false, Some(UnexpectedDeleteError)) && stories == old(stories) && pages == old(pages))
                && (fault == ParentDeleteFails ==>
                      r == DeleteResult(false, Some(UnexpectedDeleteError)) && stories == old(stories)
                      && ChildPages(pages, storyId) == multiset{}
                      && forall id :: id != storyId ==> ChildPages(pages, id) == ChildPages(old(pages), id))
                && (fault == DeleteOk || (fault == BatchFails && !batched) ==>
                      r == DeleteResult(true, None) && stories == old(stories) - {storyId}
                      && ChildPages(pages, storyId) == multiset{}
                      && forall id :: id != storyId ==> ChildPages(pages, id) == ChildPages(old(pages), id))
    {
      if fault == PagesReadFails {
        return DeleteResult(false, Some(UnexpectedDeleteError));
      }
      var snapshot := ChildPages(pages, storyId);
      if snapshot != multiset{} {
        var batch := DeleteBatch(snapshot);
        if fault == BatchFails {
          return DeleteResult(false, Some(UnexpectedDeleteError));
        }
        assert snapshot - batch == multiset{};
        ClearChildPages(pages, storyId);
        pages := pages[storyId := snapshot - batch];
      }
      if fault == ParentDeleteFails {
        return DeleteResult(false, Some(UnexpectedDeleteError));
      }
      stories := stories - {storyId};
      return DeleteResult(true, None);
    }
  }

  /** `pages.forEach(page => batch.set(pagesCollectionRef.doc(), page))`: one set per page. */
  method SetBatch(pages: seq<StoryPage>) returns (batch: multiset<StoryPage>)
    ensures batch == multiset(pages)
  {
    batch := multiset{};
    for i := 0 to |pages|
      invariant batch == multiset(pages[..i])
    {
      assert pages[..i + 1] == pages[..i] + [pages[i]];
      batch := batch + multiset{pages[i]};
    }
    assert pages[..|pages|] == pages;
  }

  /** `pagesSnapshot.docs.forEach(doc => batch.delete(doc.ref))`: one delete per page document. */
  method DeleteBatch(snapshot: multiset<StoryPage>) returns (batch: multiset<StoryPage>)
    ensures batch == snapshot
  {
    batch := multiset{};
    var rest := snapshot;
    while rest != multiset{}
      invariant batch + rest == snapshot
      decreases |rest|
    {
      var p :| p in rest;
      batch := batch + multiset{p};
      rest := rest - multiset{p};
    }
  }
}
