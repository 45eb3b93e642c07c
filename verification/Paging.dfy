/** Paginated listing: page tokens are decimal skip counts, and a page is read off a sorted cursor. */
module Paging {
  import opened Options

  const MAX_INT64: int := 0x7FFF_FFFF_FFFF_FFFF

  function DigitChar(d: nat): char
    requires d < 10
  {
    '0' + d as char
  }

  predicate IsDigit(c: char) {
    '0' <= c <= '9'
  }

  function FormatNat(n: nat): string {
    if n < 10 then [DigitChar(n)] else FormatNat(n / 10) + [DigitChar(n % 10)]
  }

  function FormatInt(n: int): string {
    if n < 0 then "-" + FormatNat(-n) else FormatNat(n)
  }

  function ParseNat(s: string): Option<nat> {
    if s == [] || !IsDigit(s[|s| - 1]) then None
    else
      var d: nat := s[|s| - 1] as nat - '0' as nat;
      if |s| == 1 then Some(d)
      else
        var high := ParseNat(s[..|s| - 1]);
        if high.None? then None else Some(high.value * 10 + d)
  }

  /** An optional sign and decimal digits, within 64 bits. */
  function ParseInt(s: string): Option<int> {
    var signed := s != [] && (s[0] == '-' || s[0] == '+');
    var n := ParseNat(if signed then s[1..] else s);
    if n.None? then None
    else
      var v := if signed && s[0] == '-' then 0 - n.value else n.value;
      if -MAX_INT64 - 1 <= v <= MAX_INT64 then Some(v) else None
  }

  lemma {:induction false} FormatNatParses(n: nat)
    ensures var s := FormatNat(n); s != [] && IsDigit(s[0]) && ParseNat(s) == Some(n)
    decreases n
  {
    if n >= 10 {
      FormatNatParses(n / 10);
      assert FormatNat(n)[..|FormatNat(n)| - 1] == FormatNat(n / 10);
    }
  }

  /** What is printed is read back, for every 64-bit integer. */
  lemma TokenRoundTrip(n: int)
    requires -MAX_INT64 - 1 <= n <= MAX_INT64
    ensures ParseInt(FormatInt(n)) == Some(n) && FormatInt(n) != ""
  {
    FormatNatParses(if n < 0 then -n else n);
    if n < 0 {
      assert FormatInt(n)[1..] == FormatNat(-n);
    }
  }

  function NormalizeLimit(limit: int): (n: nat)
    ensures 1 <= n <= 200
    ensures 1 <= limit <= 200 ==> n == limit
    ensures (limit <= 0 ==> n == 50) && (limit > 200 ==> n == 200)
  {
    if limit <= 0 then 50 else if limit > 200 then 200 else limit
  }

  function ParsePageToken(token: string): Option<nat> {
    if token == "" then Some(0)
    else
      match ParseInt(token)
      case None => None
      case Some(skip) => if skip < 0 then None else Some(skip)
  }

  /** A printed number is a valid token if and only if it is not negative and fits in 64 bits. */
  lemma TokensExactly(n: int)
    ensures ParsePageToken(FormatInt(n)) == if 0 <= n <= 0x7FFF_FFFF_FFFF_FFFF then Some(n) else None
  {
    FormatNatParses(if n < 0 then -n else n);
    if n < 0 {
      assert FormatInt(n)[1..] == FormatNat(-n);
    }
  }

  datatype Page<T> = Page(items: seq<T>, next: string) | InvalidToken

  function Least(a: int, b: int): int {
    if a < b then a else b
  }

  /** What a find with skip and limit yields. */
  function Cursor<T>(sorted: seq<T>, skip: nat, limit: nat): seq<T> {
    if skip >= |sorted| then [] else sorted[skip..Least(skip + limit, |sorted|)]
  }

  /**
   * Reads one document more than the page holds, to see whether there is a next page. `sorted` are the
   * matching documents in the listing's order.
   */
  method FindPage<T>(sorted: seq<T>, requested: int, token: string) returns (page: Page<T>)
    ensures page.InvalidToken? <==> ParsePageToken(token).None?
    ensures page.Page? ==>
              var skip, limit := ParsePageToken(token).value, NormalizeLimit(requested);
              && page.items == Cursor(sorted, skip, limit)
              && page.next == if skip + limit < |sorted| then FormatInt(skip + limit) else ""
  {
    var limit := NormalizeLimit(requested);
    var start := ParsePageToken(token);
    if start.None? {
      return InvalidToken;
    }
    var skip := start.value;
    var cursor := Cursor(sorted, skip, limit + 1);
    var items := [];
    var scanned := 0;
    for i := 0 to |cursor|
      invariant scanned == i <= limit
      invariant items == cursor[..i]
    {
      scanned := scanned + 1;
      if scanned > limit {
        assert i == limit && |cursor| == limit + 1 && skip + limit < |sorted|;
        assert cursor == sorted[skip..skip + limit + 1];
        assert items == sorted[skip..skip + limit] == Cursor(sorted, skip, limit);
        return Page(items, FormatInt(skip + limit));
      }
      items := items + [cursor[i]];
    }
    assert cursor[..|cursor|] == cursor && skip + limit >= |sorted|;
    assert cursor == Cursor(sorted, skip, limit);
    page := Page(items, "");
  }

  /**
   * Following the tokens over an unchanged collection yields every document once, in order, whatever
   * page size is asked for, with no more fetches than there are pages.
   */
  method ListAll<T>(sorted: seq<T>, requested: int) returns (all: Option<seq<T>>, fetches: nat)
    requires |sorted| <= MAX_INT64
    ensures all == Some(sorted)
    ensures var limit := NormalizeLimit(requested);
            |sorted| <= fetches * limit && (fetches == 1 || (fetches - 1) * limit < |sorted|)
  {
    hide FormatInt, ParseInt;
    var out := [];
    var token := "";
    ghost var limit, skip := NormalizeLimit(requested), 0;
    fetches := 0;
    while true
      invariant ParsePageToken(token) == Some(skip)
      invariant skip == fetches * limit && (fetches == 0 || skip < |sorted|)
      invariant out == sorted[..skip]
      decreases |sorted| - skip
    {
      var page := FindPage(sorted, requested, token);
      if page.InvalidToken? {
        return None, fetches;
      }
      out := out + page.items;
      fetches := fetches + 1;
      assert fetches * limit == skip + limit && (fetches - 1) * limit == skip;
      if skip + limit < |sorted| {
        TokenRoundTrip(skip + limit);
      }
      if page.next == "" {
        assert skip + limit >= |sorted|;
        assert out == sorted;
        return Some(out), fetches;
      }
      token := page.next;
      skip := skip + limit;
    }
  }
}
