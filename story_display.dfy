/**
 * src/components/story-display.tsx: the page text is split on punctuation and
 * whitespace, keeping each delimiter as its own segment, and every segment is
 * shown either verbatim or as a word with a definition popover.
 */
module StoryDisplay {
  import opened Strings

  /** The class `[,."?!]`. */
  predicate IsPunct(c: char)
  {
    c == ',' || c == '.' || c == '"' || c == '?' || c == '!'
  }

  /** The class `[,."?!\s]` of the split's capture group. */
  predicate IsDelimiter(c: char)
  {
    IsPunct(c) || IsJsWhitespace(c)
  }

  predicate NoDelimiter(s: string)
  {
    forall i :: 0 <= i < |s| ==> !IsDelimiter(s[i])
  }

  /**
   * `content.split(/([,."?!\s])/)`: the runs between delimiters, with every delimiter
   * kept as a one-character segment between them.
   */
  function Split(s: string): (r: seq<string>)
    ensures |r| >= 1
  {
    if s == [] then [""]
    else
      var tail := Split(s[1..]);
      if IsDelimiter(s[0]) then ["", [s[0]]] + tail
      else [[s[0]] + tail[0]] + tail[1..]
  }

  function Concat(segments: seq<string>): (r: string)
  {
    if segments == [] then "" else segments[0] + Concat(segments[1..])
  }

  function CountDelimiters(s: string): (n: nat)
  {
    if s == [] then 0 else (if IsDelimiter(s[0]) then 1 else 0) + CountDelimiters(s[1..])
  }

  /** Joining the segments gives back the content: the capture group loses nothing. */
  lemma {:induction false} SplitConcat(s: string)
    ensures Concat(Split(s)) == s
  {
    if s != [] {
      SplitConcat(s[1..]);
      var tail := Split(s[1..]);
      if IsDelimiter(s[0]) {
        assert (["", [s[0]]] + tail)[1..] == [[s[0]]] + tail;
        assert ([[s[0]]] + tail)[1..] == tail;
      } else {
        assert Concat(tail) == tail[0] + Concat(tail[1..]);
        assert ([[s[0]] + tail[0]] + tail[1..])[1..] == tail[1..];
      }
    }
  }

  /** `k` delimiters give `2k + 1` segments. */
  lemma {:induction false} SplitLength(s: string)
    ensures |Split(s)| == 2 * CountDelimiters(s) + 1
  {
    if s != [] {
      SplitLength(s[1..]);
    }
  }

  /** Segments at odd positions are single delimiters. */
  predicate OddSegmentsAreDelimiters(r: seq<string>)
  {
    forall i :: 0 <= i < |r| && i % 2 == 1 ==> |r[i]| == 1 && IsDelimiter(r[i][0])
  }

  /** Segments at even positions are runs without a delimiter. */
  predicate EvenSegmentsAreRuns(r: seq<string>)
  {
    forall i :: 0 <= i < |r| && i % 2 == 0 ==> NoDelimiter(r[i])
  }

  /**
   * The segments alternate: even positions hold delimiter-free runs, odd positions a
   * single delimiter.
   */
  lemma {:induction false} SplitShape(s: string)
    ensures OddSegmentsAreDelimiters(Split(s))
    ensures EvenSegmentsAreRuns(Split(s))
  {
    if s != [] {
      SplitShape(s[1..]);
      var tail := Split(s[1..]);
      if IsDelimiter(s[0]) {
        ShiftByTwo(s[0], tail);
      } else {
        ExtendFirst(s[0], tail);
      }
    }
  }

  lemma ShiftByTwo(c: char, tail: seq<string>)
    requires IsDelimiter(c)
    requires OddSegmentsAreDelimiters(tail) && EvenSegmentsAreRuns(tail)
    ensures OddSegmentsAreDelimiters(["", [c]] + tail) && EvenSegmentsAreRuns(["", [c]] + tail)
  {
    var r := ["", [c]] + tail;
    assert forall i :: 2 <= i < |r| ==> r[i] == tail[i - 2];
  }

  lemma ExtendFirst(c: char, tail: seq<string>)
    requires !IsDelimiter(c) && |tail| >= 1
    requires OddSegmentsAreDelimiters(tail) && EvenSegmentsAreRuns(tail)
    ensures OddSegmentsAreDelimiters([[c] + tail[0]] + tail[1..])
    ensures EvenSegmentsAreRuns([[c] + tail[0]] + tail[1..])
  {
    var r := [[c] + tail[0]] + tail[1..];
    assert forall i :: 1 <= i < |r| ==> r[i] == tail[i];
    assert NoDelimiter(tail[0]);
    assert NoDelimiter(r[0]) by {
      forall i | 0 <= i < |r[0]| ensures !IsDelimiter(r[0][i]) {
        if i > 0 { assert r[0][i] == tail[0][i - 1]; }
      }
    }
  }

  /** How a segment is shown. */
  datatype Rendered = Verbatim(text: string) | WordPopover(word: string, context: string, shown: string)

  predicate ContainsPunct(s: string)
  {
    exists i :: 0 <= i < |s| && IsPunct(s[i])
  }

  /** A segment whose trimmed form is empty or contains punctuation is shown as it is. */
  function Classify(segment: string, content: string): (r: Rendered)
    ensures r.WordPopover? <==> |Trim(segment)| > 0 && !ContainsPunct(Trim(segment))
    ensures r.WordPopover? ==> r.word == Trim(segment) && r.context == content && r.shown == segment
    ensures r.Verbatim? ==> r.text == segment
  {
    var t := Trim(segment);
    if |t| == 0 || ContainsPunct(t) then Verbatim(segment) else WordPopover(t, content, segment)
  }

  /** The rendered segments of a page's text, in order. */
  function Render(content: string): (r: seq<Rendered>)
    ensures |r| == |Split(content)|
    ensures forall i :: 0 <= i < |r| ==> r[i] == Classify(Split(content)[i], content)
  {
    var segments := Split(content);
    seq(|segments|, i requires 0 <= i < |segments| => Classify(segments[i], content))
  }

  /**
   * Put together: exactly the non-empty runs between delimiters get a popover, each
   * with the run itself as its word and the whole text as its context.
   */
  lemma PopoverExactlyOnWords(content: string, i: nat)
    requires i < |Split(content)|
    ensures Render(content)[i].WordPopover? <==> i % 2 == 0 && Split(content)[i] != ""
    ensures Render(content)[i].WordPopover? ==>
              Render(content)[i] == WordPopover(Split(content)[i], content, Split(content)[i])
  {
    SplitShape(content);
    var seg := Split(content)[i];
    if i % 2 == 0 {
      TrimNoWhitespace(seg);
      assert !ContainsPunct(seg);
    } else {
      if IsJsWhitespace(seg[0]) {
        TrimAllWhitespace(seg);
      } else {
        TrimNoWhitespace(seg);
        assert IsPunct(seg[0]);
      }
    }
  }
}
