/** Cutting text to a number of UTF-8 bytes, and reading it page by page. */
module Paging {
  import opened Unicode

  const PAGE_BYTES := 16 * 1024

  datatype Option<T> = None | Some(value: T)

  /** How many leading scalar values fit into `cap` bytes. */
  function Fit(cs: seq<Scalar>, cap: nat): (n: nat)
    ensures n <= |cs|
  {
    if cs == [] || |Bytes(cs[0])| > cap then 0 else 1 + Fit(cs[1..], cap - |Bytes(cs[0])|)
  }

  /** Exactly the prefixes up to `Fit` fit. */
  lemma {:induction false} FitIsLongest(cs: seq<Scalar>, cap: nat, j: nat)
    requires j <= |cs|
    ensures |Utf8(cs[..j])| <= cap <==> j <= Fit(cs, cap)
  {
    if j > 0 {
      assert cs[..j][0] == cs[0] && cs[..j][1..] == cs[1..][..j - 1];
      if |Bytes(cs[0])| <= cap { FitIsLongest(cs[1..], cap - |Bytes(cs[0])|, j - 1); }
    }
  }

  /** Walking back from the cap over continuation bytes stops at the end of the last scalar value
      that fits. */
  lemma {:induction false} LastLead(cs: seq<Scalar>, cap: nat, end: nat)
    requires end <= cap < |Utf8(cs)|
    requires forall q | end < q <= cap :: IsContinuation(Utf8(cs)[q])
    requires end == 0 || !IsContinuation(Utf8(cs)[end])
    ensures end == |Utf8(cs[..Fit(cs, cap)])|
  {
    var bs := Utf8(cs);
    var first := Bytes(cs[0]);
    var rest := Utf8(cs[1..]);
    var n := |first|;
    assert bs == first + rest;
    if n > cap {
      if end > 0 { assert false; }
    } else {
      assert bs[n] == rest[0] && rest[0] == Bytes(cs[1])[0];
      assert end >= n;
      forall q | end - n < q <= cap - n ensures IsContinuation(rest[q]) {
        assert rest[q] == bs[q + n];
      }
      assert end > n ==> rest[end - n] == bs[end];
      LastLead(cs[1..], cap - n, end - n);
      var f := Fit(cs[1..], cap - n);
      assert cs[..1 + f][0] == cs[0] && cs[..1 + f][1..] == cs[1..][..f];
    }
  }

  lemma PrefixBytes(cs: seq<Scalar>, j: nat)
    requires j <= |cs|
    ensures |Utf8(cs[..j])| <= |Utf8(cs)| && Utf8(cs)[..|Utf8(cs[..j])|] == Utf8(cs[..j])
  {
    Utf8Concat(cs[..j], cs[j..]);
    assert cs[..j] + cs[j..] == cs;
  }

  /** The text itself if it fits, else its longest prefix of whole scalar values that does. */
  function Truncated(text: seq<Unit>, cap: nat): seq<Unit> {
    var cs := Scalars(text);
    if |Utf8(cs)| <= cap then text else Utf16(cs[..Fit(cs, cap)])
  }

  /** For well-formed text both cases are the same. */
  lemma TruncatedWellFormed(cs: seq<Scalar>, cap: nat)
    ensures Truncated(Utf16(cs), cap) == Utf16(cs[..Fit(cs, cap)])
  {
    Utf16RoundTrip(cs);
    FitIsLongest(cs, cap, |cs|);
    assert cs[..|cs|] == cs;
  }

  method TruncateBytes(text: seq<Unit>, cap: nat) returns (cut: seq<Unit>)
    ensures cut == Truncated(text, cap)
    ensures |Utf8(Scalars(text))| <= cap ==> cut == text
  {
    ghost var cs := Scalars(text);
    var bytes := Utf8(Scalars(text));
    if |bytes| <= cap { return text; }
    var end: nat := cap;
    while end > 0 && IsContinuation(bytes[end])
      invariant end <= cap < |bytes|
      invariant forall q | end < q <= cap :: IsContinuation(bytes[q])
    {
      end := end - 1;
    }
    LastLead(cs, cap, end);
    PrefixBytes(cs, Fit(cs, cap));
    Utf8RoundTrip(cs[..Fit(cs, cap)]);
    cut := Utf16(Decoded(bytes[..end]));
  }

  // ---------- pages ----------

  /** The offsets that start a scalar value of the text. */
  predicate IsBoundary(cs: seq<Scalar>, i: nat, offset: nat) {
    i <= |cs| && offset == |Utf16(cs[..i])|
  }

  lemma SliceAt(cs: seq<Scalar>, i: nat)
    requires i <= |cs|
    ensures |Utf16(cs[..i])| <= |Utf16(cs)|
    ensures Utf16(cs)[..|Utf16(cs[..i])|] == Utf16(cs[..i])
    ensures Utf16(cs)[|Utf16(cs[..i])|..] == Utf16(cs[i..])
  {
    Utf16Concat(cs[..i], cs[i..]);
    assert cs[..i] + cs[i..] == cs;
  }

  /** One evidence page; no page is the error of an offset past the end.  `cs` and `i` are what
      an offset on a boundary of well-formed text stands for. */
  method EvidencePage(text: seq<Unit>, offset: nat, ghost cs: seq<Scalar>, ghost i: nat)
    returns (page: Option<seq<Unit>>, next: Option<nat>)
    ensures page.None? <==> offset > |text|
    ensures page.Some? && next.None? ==> offset + |page.value| >= |text|
    ensures page.Some? ==> page.value == Truncated(text[offset..], PAGE_BYTES)
    ensures page.Some? && text == Utf16(cs) && IsBoundary(cs, i, offset) ==>
              var n := Fit(cs[i..], PAGE_BYTES);
              && page.value == Utf16(cs[i..][..n])
              && next == (if i + n < |cs| then Some(|Utf16(cs[..i + n])|) else None)
  {
    if offset > |text| { return None, None; }
    var cut := TruncateBytes(text[offset..], PAGE_BYTES);
    page, next := Some(cut), if offset + |cut| < |text| then Some(offset + |cut|) else None;
    if text == Utf16(cs) && IsBoundary(cs, i, offset) { PageAt(cs, i); }
  }

  lemma PrefixContinued(cs: seq<Scalar>, i: nat, n: nat)
    requires i + n <= |cs|
    ensures Utf16(cs[..i]) + Utf16(cs[i..][..n]) == Utf16(cs[..i + n])
  {
    Utf16Concat(cs[..i], cs[i..][..n]);
    assert cs[i..][..n] == cs[i..i + n];
    assert cs[..i] + cs[i..i + n] == cs[..i + n];
  }

  lemma PageAt(cs: seq<Scalar>, i: nat)
    requires i <= |cs|
    ensures var n := Fit(cs[i..], PAGE_BYTES);
            var offset := |Utf16(cs[..i])|;
            && offset <= |Utf16(cs)|
            && Truncated(Utf16(cs)[offset..], PAGE_BYTES) == Utf16(cs[i..][..n])
            && |Utf16(cs[..i + n])| == offset + |Utf16(cs[i..][..n])|
            && (i + n < |cs| <==> |Utf16(cs[..i + n])| < |Utf16(cs)|)
  {
    var n := Fit(cs[i..], PAGE_BYTES);
    SliceAt(cs, i);
    TruncatedWellFormed(cs[i..], PAGE_BYTES);
    PrefixContinued(cs, i, n);
    PrefixEnds(cs, i + n);
  }

  lemma PrefixEnds(cs: seq<Scalar>, k: nat)
    requires k <= |cs|
    ensures k < |cs| <==> |Utf16(cs[..k])| < |Utf16(cs)|
    ensures |Utf16(cs[..k])| <= |Utf16(cs)|
  {
    SliceAt(cs, k);
    if k < |cs| { Utf16Grows(cs[k..]); } else { assert cs[..k] == cs; }
  }

  lemma Utf16Grows(cs: seq<Scalar>)
    requires cs != []
    ensures |Utf16(cs)| > 0
  {}

  lemma PageFits(cs: seq<Scalar>)
    ensures |Utf8(Scalars(Utf16(cs[..Fit(cs, PAGE_BYTES)])))| <= PAGE_BYTES
  {
    Utf16RoundTrip(cs[..Fit(cs, PAGE_BYTES)]);
    FitIsLongest(cs, PAGE_BYTES, Fit(cs, PAGE_BYTES));
  }

  lemma FirstFits(cs: seq<Scalar>)
    requires cs != []
    ensures Fit(cs, PAGE_BYTES) > 0
  {}

  /** The page that starts at the scalar value `i`: it fits, continues what was read before, and
      is empty only at the end of the text. */
  lemma PageStep(cs: seq<Scalar>, i: nat)
    requires i <= |cs|
    ensures var n := Fit(cs[i..], PAGE_BYTES);
            var page := Utf16(cs[i..][..n]);
            && |Utf8(Scalars(page))| <= PAGE_BYTES
            && Utf16(cs[..i]) + page == Utf16(cs[..i + n])
            && (i < |cs| ==> n > 0)
            && |Utf16(cs[..i + n])| <= |Utf16(cs)|
  {
    var rest := cs[i..];
    var n := Fit(rest, PAGE_BYTES);
    if rest != [] { FirstFits(rest); }
    PageFits(rest);
    PrefixContinued(cs, i, n);
    PrefixEnds(cs, i + n);
  }

  /** A page with its offset leads from the scalar value `i` to `j`. */
  ghost predicate Continues(cs: seq<Scalar>, i: nat, j: nat, page: seq<Unit>, next: Option<nat>) {
    && i <= j <= |cs| && Utf16(cs[..j]) == Utf16(cs[..i]) + page
    && |Utf8(Scalars(page))| <= PAGE_BYTES
    && match next
       case None => j == |cs|
       case Some(offset) => i < j && IsBoundary(cs, j, offset) && offset <= |Utf16(cs)|
  }

  lemma PageContinues(cs: seq<Scalar>, i: nat, page: seq<Unit>, next: Option<nat>)
    requires i <= |cs|
    requires var n := Fit(cs[i..], PAGE_BYTES);
             && page == Utf16(cs[i..][..n])
             && next == (if i + n < |cs| then Some(|Utf16(cs[..i + n])|) else None)
    ensures Continues(cs, i, i + Fit(cs[i..], PAGE_BYTES), page, next)
  {
    PageStep(cs, i);
  }

  method NextPage(text: seq<Unit>, offset: nat, ghost cs: seq<Scalar>, ghost i: nat)
    returns (page: seq<Unit>, next: Option<nat>, ghost j: nat)
    requires text == Utf16(cs) && IsBoundary(cs, i, offset) && offset <= |text|
    ensures Continues(cs, i, j, page, next)
  {
    var found;
    found, next := EvidencePage(text, offset, cs, i);
    page, j := found.value, i + Fit(cs[i..], PAGE_BYTES);
    PageContinues(cs, i, page, next);
  }

  /** Following `nextOffset` from zero ends, every page fits into the page size, and the pages
      together are the text. */
  method ReadAllPages(text: seq<Unit>, ghost cs: seq<Scalar>) returns (read: seq<Unit>, pages: seq<seq<Unit>>)
    requires text == Utf16(cs)
    ensures read == text == Joined(pages)
    ensures forall k | 0 <= k < |pages| :: |Utf8(Scalars(pages[k]))| <= PAGE_BYTES
  {
    var offset: nat := 0;
    ghost var i: nat := 0;
    read, pages := [], [];
    assert cs[..0] == [];
    while true
      invariant IsBoundary(cs, i, offset) && offset <= |text| && read == Utf16(cs[..i]) == Joined(pages)
      invariant forall k | 0 <= k < |pages| :: |Utf8(Scalars(pages[k]))| <= PAGE_BYTES
      decreases |cs| - i
    {
      var page, next;
      page, next, i := NextPage(text, offset, cs, i);
      read := read + page;
      JoinedMore(pages, page);
      pages := pages + [page];
      if next.None? {
        assert cs[..i] == cs;
        return;
      }
      offset := next.value;
    }
  }

  function Joined(pages: seq<seq<Unit>>): seq<Unit> {
    if pages == [] then [] else Joined(pages[..|pages| - 1]) + pages[|pages| - 1]
  }

  lemma JoinedMore(pages: seq<seq<Unit>>, page: seq<Unit>)
    ensures Joined(pages + [page]) == Joined(pages) + page
  {
    assert (pages + [page])[..|pages|] == pages;
  }
}
