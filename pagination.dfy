/**
 * Splitting a work's text into HUD pages (src/reader/pagination.ts).
 * The text is normalised by turning CR-LF pairs into LF and trimming; an
 * empty result becomes a single placeholder page, anything else is cut into
 * consecutive chunks of at most MAX_CHARS_PER_PAGE code points.
 */
module Pagination {
  import opened Text

  const MAX_CHARS_PER_PAGE: nat := 2000

  /** The placeholder page ("no text") shown for an empty work. */
  const NO_CONTENT: string := "本文がありません"

  /** The text that pagination actually splits. A bare CR is kept. */
  function NormalizeForPaging(content: string): string {
    Trim(ReplaceCrlf(content))
  }

  /** `chars.slice(i, i + 2000)` for i = 0, 2000, 4000, ... */
  function Chunks(chars: string): seq<string>
    decreases |chars|
  {
    if chars == [] then []
    else
      var n := if |chars| < MAX_CHARS_PER_PAGE then |chars| else MAX_CHARS_PER_PAGE;
      [chars[..n]] + Chunks(chars[n..])
  }

  /** The pages `paginateWorkText` returns, as a function of its input. */
  function PagesOf(content: string): seq<string> {
    var normalized := NormalizeForPaging(content);
    if normalized == [] then [NO_CONTENT] else Chunks(normalized)
  }

  /** All pages laid end to end. */
  function Concat(pages: seq<string>): string {
    if pages == [] then [] else pages[0] + Concat(pages[1..])
  }

  /** Ceiling of a / b. */
  function CeilDiv(a: nat, b: nat): nat
    requires b > 0
  {
    (a + b - 1) / b
  }

  /** Chunking loses and reorders nothing. */
  lemma {:induction false} ChunksConcat(chars: string)
    ensures Concat(Chunks(chars)) == chars
    decreases |chars|
  {
    if chars != [] {
      var n := if |chars| < MAX_CHARS_PER_PAGE then |chars| else MAX_CHARS_PER_PAGE;
      ChunksConcat(chars[n..]);
      assert Chunks(chars)[1..] == Chunks(chars[n..]);
      assert chars[..n] + chars[n..] == chars;
    }
  }

  /** Every chunk holds 1..2000 code points and all but the last exactly 2000. */
  lemma {:induction false} ChunksSizes(chars: string)
    ensures forall j :: 0 <= j < |Chunks(chars)| ==> 1 <= |Chunks(chars)[j]| <= MAX_CHARS_PER_PAGE
    ensures forall j :: 0 <= j < |Chunks(chars)| - 1 ==> |Chunks(chars)[j]| == MAX_CHARS_PER_PAGE
    decreases |chars|
  {
    if chars != [] {
      var n := if |chars| < MAX_CHARS_PER_PAGE then |chars| else MAX_CHARS_PER_PAGE;
      ChunksSizes(chars[n..]);
      var c := Chunks(chars);
      assert c[1..] == Chunks(chars[n..]);
      forall j | 0 <= j < |c| ensures 1 <= |c[j]| <= MAX_CHARS_PER_PAGE {
        if j > 0 { assert c[j] == c[1..][j - 1]; }
      }
      forall j | 0 <= j < |c| - 1 ensures |c[j]| == MAX_CHARS_PER_PAGE {
        if j > 0 { assert c[j] == c[1..][j - 1]; }
        else { assert chars[n..] != []; }
      }
    }
  }

  /** The number of chunks is ceil(|chars| / MAX_CHARS_PER_PAGE). */
  lemma {:induction false} ChunksCount(chars: string)
    ensures |Chunks(chars)| == CeilDiv(|chars|, MAX_CHARS_PER_PAGE)
    decreases |chars|
  {
    if |chars| >= MAX_CHARS_PER_PAGE {
      ChunksCount(chars[MAX_CHARS_PER_PAGE..]);
    }
  }

  /** What pagination promises about its result. */
  lemma PagesOfProperties(content: string)
    ensures |PagesOf(content)| >= 1
    ensures NormalizeForPaging(content) == [] ==> PagesOf(content) == [NO_CONTENT]
    ensures NormalizeForPaging(content) != [] ==>
      && Concat(PagesOf(content)) == NormalizeForPaging(content)
      && |PagesOf(content)| == CeilDiv(|NormalizeForPaging(content)|, MAX_CHARS_PER_PAGE)
    ensures forall j :: 0 <= j < |PagesOf(content)| ==> 1 <= |PagesOf(content)[j]| <= MAX_CHARS_PER_PAGE
    ensures forall j :: 0 <= j < |PagesOf(content)| - 1 ==> |PagesOf(content)[j]| == MAX_CHARS_PER_PAGE
  {
    var normalized := NormalizeForPaging(content);
    if normalized != [] {
      ChunksConcat(normalized);
      ChunksCount(normalized);
      ChunksSizes(normalized);
    }
  }

  /** The part of `s` from index `i` on, empty once `i` runs past the end. */
  function Suffix(s: string, i: nat): string {
    if i < |s| then s[i..] else []
  }

  /** One turn of the pagination loop takes the next chunk off the suffix. */
  lemma ChunksStep(s: string, i: nat)
    requires i < |s|
    ensures var end := if i + MAX_CHARS_PER_PAGE < |s| then i + MAX_CHARS_PER_PAGE else |s|;
      Chunks(Suffix(s, i))
        == [s[i..end]] + Chunks(Suffix(s, i + MAX_CHARS_PER_PAGE))
  {
    var end := if i + MAX_CHARS_PER_PAGE < |s| then i + MAX_CHARS_PER_PAGE else |s|;
    var rest := s[i..];
    assert rest[..end - i] == s[i..end];
    assert rest[end - i..] == Suffix(s, i + MAX_CHARS_PER_PAGE);
  }

  /** paginateWorkText: the loop over i = 0, 2000, 4000, ... */
  method PaginateWorkText(content: string) returns (pages: seq<string>)
    ensures pages == PagesOf(content)
  {
    var normalized := Trim(ReplaceCrlf(content));
    if |normalized| == 0 {
      return [NO_CONTENT];
    }
    pages := [];
    var i := 0;
    while i < |normalized|
      invariant 0 <= i
      invariant pages + Chunks(Suffix(normalized, i)) == Chunks(normalized)
      decreases |normalized| - i
    {
      var end := if i + MAX_CHARS_PER_PAGE < |normalized| then i + MAX_CHARS_PER_PAGE else |normalized|;
      ChunksStep(normalized, i);
      ConcatAssoc(pages, [normalized[i..end]], Chunks(Suffix(normalized, i + MAX_CHARS_PER_PAGE)));
      pages := pages + [normalized[i..end]];
      i := i + MAX_CHARS_PER_PAGE;
    }
  }

  /** getWorkPageCount: at least one page, ceil(L / 2000) for a non-empty
      normalised text of length L. */
  function GetWorkPageCount(content: string): (n: nat)
    ensures n >= 1
    ensures n == |PagesOf(content)|
    ensures NormalizeForPaging(content) != [] ==>
      n == CeilDiv(|NormalizeForPaging(content)|, MAX_CHARS_PER_PAGE)
  {
    PagesOfProperties(content);
    |PagesOf(content)|
  }
}
