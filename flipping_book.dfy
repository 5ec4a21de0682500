/**
 * src/components/flipping-book.tsx: a book of sheets with a page cursor, the
 * rotation and stacking order of every sheet, and the label under the book.
 */
module FlippingBook {
  import opened Wrappers
  import opened Strings

  /** A `BookSheet`: a front face and an optional back face. */
  datatype Sheet<T> = Sheet(front: T, back: Option<T>)

  /** The cursor after `handleNextPage`: it moves only while below the sheet count. */
  function NextIndex(current: nat, total: nat): (r: nat)
    ensures current < total ==> r == current + 1
    ensures current >= total ==> r == current
  {
    if current < total then current + 1 else current
  }

  /** The cursor after `handlePrevPage`: it moves only while above zero. */
  function PrevIndex(current: nat): (r: nat)
    ensures current > 0 ==> r == current - 1
    ensures current == 0 ==> r == 0
  {
    if current > 0 then current - 1 else current
  }

  /** The previous-page button is disabled exactly on the cover. */
  predicate PrevDisabled(current: nat)
  {
    current == 0
  }

  /** The next-page button is disabled from the back cover on. */
  predicate NextDisabled(current: nat, total: nat)
  {
    current >= total
  }

  /** A disabled button is exactly a button whose handler would change nothing. */
  lemma DisabledIffNoOp(current: nat, total: nat)
    ensures PrevDisabled(current) <==> PrevIndex(current) == current
    ensures NextDisabled(current, total) <==> NextIndex(current, total) == current
  {
  }

  /** Both moves keep the cursor within `0..total`. */
  lemma MovesStayInRange(current: nat, total: nat)
    requires current <= total
    ensures NextIndex(current, total) <= total
    ensures PrevIndex(current) <= total
  {
  }

  /** A successful move is undone by the opposite move. */
  lemma MovesAreInverse(current: nat, total: nat)
    ensures current < total ==> PrevIndex(NextIndex(current, total)) == current
    ensures 0 < current <= total ==> NextIndex(PrevIndex(current), total) == current
  {
  }

  /** Sheet `index` is turned over (rotated by -180 degrees) when the cursor is past it. */
  predicate IsFlipped(index: nat, current: nat)
  {
    index < current
  }

  /** The stacking order of sheet `index` in a book of `total` sheets. */
  function ZIndex(index: nat, current: nat, total: nat): (z: int)
    requires index < total
    ensures 1 <= z <= total
  {
    if IsFlipped(index, current) then index + 1 else total - index
  }

  /**
   * Of two turned sheets the later lies on top; of two unturned sheets the earlier lies
   * on top, so the visible faces are the last turned sheet's back and the first unturned
   * sheet's front.
   */
  lemma StackingOrder(i: nat, j: nat, current: nat, total: nat)
    requires i < j < total
    ensures IsFlipped(j, current) ==> IsFlipped(i, current) && ZIndex(i, current, total) < ZIndex(j, current, total)
    ensures !IsFlipped(i, current) ==> !IsFlipped(j, current) && ZIndex(i, current, total) > ZIndex(j, current, total)
  {
  }

  /** The first page number shown on sheet spread `current` (1-based, two pages per sheet). */
  function FirstPageNumber(current: nat): (n: int)
    ensures current >= 1 ==> n >= 1 && n % 2 == 1
  {
    (current - 1) * 2 + 1
  }

  /** "Page n" when the current sheet has no back face or is the last sheet before the back cover. */
  predicate SinglePage<T>(current: nat, sheets: seq<Sheet<T>>)
  {
    (current < |sheets| && sheets[current].back.None?) || current == |sheets| - 1
  }

  /** `getPageLabel`. */
  function PageLabel<T>(current: nat, sheets: seq<Sheet<T>>): (r: string)
    ensures r == "Cover" <==> current == 0
    ensures r == "Back Cover" <==> current != 0 && current == |sheets|
    ensures current != 0 && current != |sheets| && SinglePage(current, sheets) ==>
              r == "Page " + Decimal(FirstPageNumber(current) as nat)
    ensures current != 0 && current != |sheets| && !SinglePage(current, sheets) ==>
              r == "Pages " + Decimal(FirstPageNumber(current) as nat) + "-" + Decimal(FirstPageNumber(current) as nat + 1)
  {
    if current == 0 then "Cover"
    else if current == |sheets| then "Back Cover"
    else
      var n := FirstPageNumber(current) as nat;
      var r := if SinglePage(current, sheets) then "Page " + Decimal(n)
               else "Pages " + Decimal(n) + "-" + Decimal(n + 1);
      assert r[0] == 'P';
      r
  }

  /** The book component: its sheets and the page cursor. */
  class Book<T> {
    const sheets: seq<Sheet<T>>
    var currentPage: nat

    ghost predicate Valid()
      reads this
    {
      currentPage <= |sheets|
    }

    /** A book opens on its cover. */
    constructor (sheets: seq<Sheet<T>>)
      ensures this.sheets == sheets
      ensures currentPage == 0
      ensures Valid()
    {
      this.sheets := sheets;
      currentPage := 0;
    }

    method HandleNextPage()
      requires Valid()
      modifies this
      ensures Valid()
      ensures currentPage == NextIndex(old(currentPage), |sheets|)
    {
      if currentPage < |sheets| {
        currentPage := currentPage + 1;
      }
    }

    method HandlePrevPage()
      requires Valid()
      modifies this
      ensures Valid()
      ensures currentPage == PrevIndex(old(currentPage))
    {
      if currentPage > 0 {
        currentPage := currentPage - 1;
      }
    }
  }
}
