/**
 * Reading GitLab's pagination headers (X-Total, X-Per-Page, X-Total-Pages,
 * X-Page) into a PaginationInfo record, with strconv.Atoi as the parser.
 */
module Pagination {
  import opened Wrappers
  import opened Text
  import opened Types

  const MinInt64 := -0x8000_0000_0000_0000
  const MaxInt64 := 0x7FFF_FFFF_FFFF_FFFF

  predicate InInt64(n: int) {
    MinInt64 <= n <= MaxInt64
  }

  /**
   * strconv.Atoi on a 64-bit platform: an optional '+' or '-', then one or
   * more decimal digits; a value outside the int64 range is an error.
   */
  function Atoi(s: string): (r: Option<int>)
    ensures r.Some? ==> InInt64(r.value)
    ensures s == [] || s == "+" || s == "-" ==> r.None?
  {
    var signed := |s| > 0 && (s[0] == '+' || s[0] == '-');
    var digits := if signed then s[1..] else s;
    if digits == [] || !AllDigits(digits) then None
    else
      var magnitude: int := DigitsValue(digits);
      var v: int := if signed && s[0] == '-' then -magnitude else magnitude;
      if InInt64(v) then Some(v) else None
  }

  /** Atoi reads back every int64 that fmt's %d writes. */
  lemma AtoiItoa(n: int)
    requires InInt64(n)
    ensures Atoi(Itoa(n)) == Some(n)
  {
    if n < 0 {
      NatDigitsRoundTrip(-n);
      AtoiOfNegated(NatDigits(-n));
    } else {
      NatDigitsRoundTrip(n);
      AtoiOfDigits(NatDigits(n));
    }
  }

  lemma AtoiOfDigits(d: string)
    requires d != [] && AllDigits(d) && InInt64(DigitsValue(d))
    ensures Atoi(d) == Some(DigitsValue(d))
  {
    assert IsDigit(d[0]);
  }

  lemma AtoiOfNegated(d: string)
    requires d != [] && AllDigits(d) && InInt64(-(DigitsValue(d) as int))
    ensures Atoi("-" + d) == Some(-(DigitsValue(d) as int))
  {
    var s := "-" + d;
    assert s[0] == '-' && s[1..] == d;
  }

  /** Atoi fails on any text holding a character other than a digit after the sign. */
  lemma AtoiRejectsNonDigit(s: string, k: int)
    requires 0 < k < |s| && !IsDigit(s[k])
    ensures Atoi(s) == None
  {
    if |s| > 0 && (s[0] == '+' || s[0] == '-') {
      assert s[1..][k - 1] == s[k];
    }
  }

  /**
   * Response headers: canonical header name to its values. http.Header.Get
   * gives the first value, or "" when the header is absent.
   */
  type Header = map<string, seq<string>>

  function HeaderGet(h: Header, key: string): string {
    if key in h && |h[key]| > 0 then h[key][0] else ""
  }

  /** One pagination field: the parsed header value, or 0 when the header is absent, empty or not an integer. */
  function HeaderInt(h: Header, key: string): (r: int)
    ensures HeaderGet(h, key) == "" ==> r == 0
    ensures Atoi(HeaderGet(h, key)).Some? ==> r == Atoi(HeaderGet(h, key)).value
    ensures Atoi(HeaderGet(h, key)).None? ==> r == 0
  {
    var text := HeaderGet(h, key);
    if text == "" then 0
    else match Atoi(text)
      case Some(n) => n
      case None => 0
  }

  /** The pagination record each field of which comes from its own header. */
  function PaginationOf(h: Header): PaginationInfo {
    PaginationInfo(HeaderInt(h, "X-Total"), HeaderInt(h, "X-Per-Page"),
                   HeaderInt(h, "X-Total-Pages"), HeaderInt(h, "X-Page"))
  }

  /** extractPaginationInfo: starts from all zeros and fills each field whose header parses. */
  method ExtractPaginationInfo(h: Header) returns (info: PaginationInfo)
    ensures info == PaginationOf(h)
  {
    info := NoPagination;
    var totalText := HeaderGet(h, "X-Total");
    if totalText != "" {
      var total := Atoi(totalText);
      if total.Some? {
        info := info.(total := total.value);
      }
    }
    var perPageText := HeaderGet(h, "X-Per-Page");
    if perPageText != "" {
      var perPage := Atoi(perPageText);
      if perPage.Some? {
        info := info.(perPage := perPage.value);
      }
    }
    var totalPagesText := HeaderGet(h, "X-Total-Pages");
    if totalPagesText != "" {
      var totalPages := Atoi(totalPagesText);
      if totalPages.Some? {
        info := info.(totalPages := totalPages.value);
      }
    }
    var pageText := HeaderGet(h, "X-Page");
    if pageText != "" {
      var page := Atoi(pageText);
      if page.Some? {
        info := info.(currentPage := page.value);
      }
    }
  }

  /** The headers a server would send to report info. */
  function HeadersOf(info: PaginationInfo): Header {
    map["X-Total" := [Itoa(info.total)], "X-Per-Page" := [Itoa(info.perPage)],
        "X-Total-Pages" := [Itoa(info.totalPages)], "X-Page" := [Itoa(info.currentPage)]]
  }

  lemma ItoaNotEmpty(n: int)
    ensures Itoa(n) != ""
  {
    ItoaHead(n);
  }

  /** Reporting any int64 pagination values and reading the headers back gives the same values. */
  lemma PaginationRoundTrip(info: PaginationInfo)
    requires InInt64(info.total) && InInt64(info.perPage)
    requires InInt64(info.totalPages) && InInt64(info.currentPage)
    ensures PaginationOf(HeadersOf(info)) == info
  {
    var h := HeadersOf(info);
    assert HeaderGet(h, "X-Total") == Itoa(info.total);
    assert HeaderGet(h, "X-Per-Page") == Itoa(info.perPage);
    assert HeaderGet(h, "X-Total-Pages") == Itoa(info.totalPages);
    assert HeaderGet(h, "X-Page") == Itoa(info.currentPage);
    AtoiItoa(info.total);
    AtoiItoa(info.perPage);
    AtoiItoa(info.totalPages);
    AtoiItoa(info.currentPage);
  }

  /** A response without pagination headers reports nothing. */
  lemma NoHeadersNoPagination(h: Header)
    requires "X-Total" !in h && "X-Per-Page" !in h && "X-Total-Pages" !in h && "X-Page" !in h
    ensures PaginationOf(h) == NoPagination
  {
  }

  /** The fields are independent: changing one other header leaves the total alone, and likewise for each field. */
  lemma FieldsIndependent(h: Header, key: string, values: seq<string>)
    ensures key != "X-Total" ==> PaginationOf(h[key := values]).total == PaginationOf(h).total
    ensures key != "X-Per-Page" ==> PaginationOf(h[key := values]).perPage == PaginationOf(h).perPage
    ensures key != "X-Total-Pages" ==> PaginationOf(h[key := values]).totalPages == PaginationOf(h).totalPages
    ensures key != "X-Page" ==> PaginationOf(h[key := values]).currentPage == PaginationOf(h).currentPage
  {
    var h' := h[key := values];
    assert key != "X-Total" ==> HeaderGet(h', "X-Total") == HeaderGet(h, "X-Total");
    assert key != "X-Per-Page" ==> HeaderGet(h', "X-Per-Page") == HeaderGet(h, "X-Per-Page");
    assert key != "X-Total-Pages" ==> HeaderGet(h', "X-Total-Pages") == HeaderGet(h, "X-Total-Pages");
    assert key != "X-Page" ==> HeaderGet(h', "X-Page") == HeaderGet(h, "X-Page");
  }
}
