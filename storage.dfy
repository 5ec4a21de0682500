/**
 * src/lib/storage.ts: the data-URI match and the object path of `uploadImage`.
 * The storage service itself is the `transfer` parameter: given the object path,
 * the content type and the base64 payload it yields the download URL, or nothing
 * when the upload fails. `objectId` stands for the fresh `uuidv4()`.
 */
module Storage {
  import opened Wrappers
  import opened Strings

  datatype DataUri = DataUri(contentType: string, data: string)

  predicate NoLineTerminator(s: string)
  {
    forall i :: 0 <= i < |s| ==> !IsLineTerminator(s[i])
  }

  predicate IsWord(s: string)
  {
    |s| >= 1 && forall i :: 0 <= i < |s| ==> IsWordChar(s[i])
  }

  /** The length of the longest prefix of `s` made of `\w` characters. */
  function WordRun(s: string): (n: nat)
    ensures n <= |s|
    ensures forall i :: 0 <= i < n ==> IsWordChar(s[i])
    ensures n == |s| || !IsWordChar(s[n])
  {
    if s == [] || !IsWordChar(s[0]) then 0 else 1 + WordRun(s[1..])
  }

  /**
   * `s.match(/^data:(image\/\w+);base64,(.*)$/)`. Since `;` is not a word character,
   * the `\w+` group can only end at the first non-word character after "data:image/".
   */
  function ParseDataUri(s: string): (r: Option<DataUri>)
  {
    if !StartsWith(s, "data:image/") then None
    else
      var rest := s[11..];
      var n := WordRun(rest);
      if n == 0 || !StartsWith(rest[n..], ";base64,") then None
      else
        var data := rest[n..][8..];
        if NoLineTerminator(data) then Some(DataUri("image/" + rest[..n], data)) else None
  }

  /** Parsing inverts building: "data:" + ct + ";base64," + d gives back (ct, d). */
  lemma ParseRoundTrip(word: string, data: string)
    requires IsWord(word) && NoLineTerminator(data)
    ensures ParseDataUri("data:image/" + word + ";base64," + data) == Some(DataUri("image/" + word, data))
  {
    var s := "data:image/" + word + ";base64," + data;
    assert s[..11] == "data:image/";
    var rest := s[11..];
    assert rest == word + ";base64," + data;
    WordRunOfWordThenSemicolon(word, ";base64," + data);
    assert rest[..|word|] == word;
    assert rest[|word|..] == ";base64," + data;
    assert (";base64," + data)[..8] == ";base64,";
    assert (";base64," + data)[8..] == data;
  }

  lemma WordRunOfWordThenSemicolon(word: string, tail: string)
    requires IsWord(word) && tail != [] && tail[0] == ';'
    ensures WordRun(word + tail) == |word|
  {
    if |word| > 1 {
      assert (word + tail)[1..] == word[1..] + tail;
      WordRunOfWordThenSemicolon(word[1..], tail);
    } else {
      assert (word + tail)[1..] == tail;
    }
  }

  /** Whatever parses has exactly that shape, so parsing and building are inverse. */
  lemma ParseSound(s: string)
    requires ParseDataUri(s).Some?
    ensures var u := ParseDataUri(s).value;
      && s == "data:" + u.contentType + ";base64," + u.data
      && StartsWith(u.contentType, "image/") && IsWord(u.contentType[6..])
      && NoLineTerminator(u.data)
  {
    var rest := s[11..];
    var n := WordRun(rest);
    var u := ParseDataUri(s).value;
    assert u.contentType[6..] == rest[..n];
    assert s == s[..11] + rest[..n] + rest[n..][..8] + rest[n..][8..];
  }

  /** A content type with a non-word character, such as `image/svg+xml`, is rejected. */
  lemma SvgRejected(data: string)
    ensures ParseDataUri("data:image/svg+xml;base64," + data).None?
  {
    var s := "data:image/svg+xml;base64," + data;
    var rest := s[11..];
    assert rest[..3] == "svg" && rest[3] == '+';
    assert WordRun(rest[3..]) == 0;
    assert WordRun(rest[2..]) == 1;
    assert WordRun(rest[1..]) == 2;
    assert WordRun(rest) == 3;
    assert rest[3..][..8] != ";base64,";
  }

  /** `stories/${userId}/${uuid}`. */
  function ObjectPath(userId: string, objectId: string): (p: string)
    ensures StartsWith(p, "stories/" + userId + "/")
  {
    var p := "stories/" + userId + "/" + objectId;
    assert p[..|"stories/" + userId + "/"|] == "stories/" + userId + "/";
    p
  }

  predicate NoSlash(s: string)
  {
    forall i :: 0 <= i < |s| ==> s[i] != '/'
  }

  /** Paths of different users never meet: the path determines the user and the object id. */
  lemma ObjectPathInjective(u1: string, id1: string, u2: string, id2: string)
    requires NoSlash(u1) && NoSlash(u2)
    requires ObjectPath(u1, id1) == ObjectPath(u2, id2)
    ensures u1 == u2 && id1 == id2
  {
    var p := ObjectPath(u1, id1);
    assert p == "stories/" + u1 + "/" + id1;
    assert p == "stories/" + u2 + "/" + id2;
    if |u1| < |u2| {
      SlashAt(u1, id1, u2, id2);
      assert false;
    } else if |u2| < |u1| {
      SlashAt(u2, id2, u1, id1);
      assert false;
    }
    assert u1 == p[8..8 + |u1|] == u2;
    assert id1 == p[9 + |u1|..] == id2;
  }

  /** The separator after the shorter user id falls inside the longer one. */
  lemma SlashAt(u1: string, id1: string, u2: string, id2: string)
    requires |u1| < |u2|
    requires ObjectPath(u1, id1) == ObjectPath(u2, id2)
    ensures u2[|u1|] == '/'
  {
    var p := ObjectPath(u1, id1);
    assert p[8 + |u1|] == ("stories/" + u1 + "/" + id1)[8 + |u1|] == '/';
    assert p[8 + |u1|] == ("stories/" + u2 + "/" + id2)[8 + |u1|] == u2[|u1|];
  }

  const NotInitialized := "Firebase Storage is not initialized."
  const InvalidFormat := "Invalid base64 string format."
  const UploadFailed := "Could not upload image."

  /** `uploadImage(base64, userId)`: the download URL, or the message it throws. */
  function UploadImage(ready: bool, base64: string, userId: string, objectId: string,
                       transfer: (string, string, string) -> Option<string>): (r: Result<string, string>)
    ensures !ready ==> r == Err(NotInitialized)
    ensures ready && ParseDataUri(base64).None? ==> r == Err(InvalidFormat)
    ensures r.Ok? <==>
              && ready && ParseDataUri(base64).Some?
              && transfer(ObjectPath(userId, objectId), ParseDataUri(base64).value.contentType,
                                 ParseDataUri(base64).value.data).Some?
    ensures r.Ok? ==> Some(r.value) == transfer(ObjectPath(userId, objectId), ParseDataUri(base64).value.contentType,
                                                ParseDataUri(base64).value.data)
    ensures ready && ParseDataUri(base64).Some? && r.Err? ==> r.error == UploadFailed
    ensures r.Err? ==> r.error in {NotInitialized, InvalidFormat, UploadFailed}
  {
    if !ready then Err(NotInitialized)
    else
      match ParseDataUri(base64)
      case None => Err(InvalidFormat)
      case Some(u) =>
        match transfer(ObjectPath(userId, objectId), u.contentType, u.data)
        case None => Err(UploadFailed)
        case Some(url) => Ok(url)
  }

  /** A string that does not parse is never handed to the storage service. */
  lemma RejectedUploadTouchesNothing(ready: bool, base64: string, userId: string, objectId: string,
                                     t1: (string, string, string) -> Option<string>,
                                     t2: (string, string, string) -> Option<string>)
    requires !ready || ParseDataUri(base64).None?
    ensures UploadImage(ready, base64, userId, objectId, t1) == UploadImage(ready, base64, userId, objectId, t2)
  {
  }
}
