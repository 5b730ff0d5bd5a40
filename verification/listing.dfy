/** Query-string handling shared by the listing endpoints (products, users and
    orders): page/limit defaults, the `-field` sort rule, the comma-separated
    category filter, and the page window with its metadata. */
module Listing {
  import opened Common

  const DEFAULT_PAGE: int := 1
  const DEFAULT_LIMIT: int := 10

  /** `parseInt(raw) || fallback`. `raw` is what `parseInt` extracted from the
      query string: None when the parameter is absent or not a number (NaN).
      NaN and 0 are both falsy, so both fall back. */
  function PageParam(raw: Option<int>, fallback: int): (n: int)
    ensures raw.Some? && raw.value != 0 ==> n == raw.value
    ensures raw.None? || raw.value == 0 ==> n == fallback
    ensures fallback != 0 ==> n != 0
  {
    if raw.Some? && raw.value != 0 then raw.value else fallback
  }

  /** A Mongo sort specification `{ key: direction }`. */
  datatype SortOption = SortOption(key: string, direction: int)

  /** `s.replace(c, "")` with a string pattern: only the FIRST occurrence goes. */
  function RemoveFirst(s: string, c: char): (r: string)
    ensures c !in s ==> r == s
    ensures c in s ==> |r| == |s| - 1
  {
    if |s| == 0 then s
    else if s[0] == c then s[1..]
    else [s[0]] + RemoveFirst(s[1..], c)
  }

  /** The position of the first occurrence of `c` in `s`. */
  function FirstIndex(s: string, c: char): (i: nat)
    requires c in s
    ensures i < |s| && s[i] == c && c !in s[..i]
  {
    if s[0] == c then 0
    else
      var j := FirstIndex(s[1..], c);
      assert s[..j + 1] == [s[0]] + s[1..][..j];
      j + 1
  }

  /** The character removed is the first occurrence, and nothing else moves. */
  lemma {:induction false} RemoveFirstIsFirst(s: string, c: char)
    requires c in s
    ensures var i := FirstIndex(s, c); RemoveFirst(s, c) == s[..i] + s[i + 1..]
  {
    if s[0] != c {
      var t := s[1..];
      RemoveFirstIsFirst(t, c);
      var j := FirstIndex(t, c);
      assert FirstIndex(s, c) == j + 1;
      calc {
        RemoveFirst(s, c);
        [s[0]] + RemoveFirst(t, c);
        [s[0]] + (t[..j] + t[j + 1..]);
        { assert s[..j + 1] == [s[0]] + t[..j]; assert s[j + 2..] == t[j + 1..]; }
        s[..j + 1] + s[j + 2..];
      }
    }
  }

  /** Text before the first occurrence is left alone. */
  lemma {:induction false} RemoveFirstAfter(u: string, v: string, c: char)
    requires c !in u
    ensures RemoveFirst(u + v, c) == u + RemoveFirst(v, c)
  {
    if |u| == 0 {
      assert u + v == v;
    } else {
      assert (u + v)[1..] == u[1..] + v;
      assert c !in u[1..] by { assert forall k | 0 <= k < |u[1..]| :: u[1..][k] == u[k + 1]; }
      RemoveFirstAfter(u[1..], v, c);
      assert [u[0]] + (u[1..] + RemoveFirst(v, c)) == u + RemoveFirst(v, c);
    }
  }

  /** The sort query parameter: absent means newest first; otherwise the
      direction is descending iff the string starts with `-`, and the key is
      the string with its first `-` removed. */
  function ParseSort(sort: string): (o: SortOption)
    ensures sort == "" ==> o == SortOption("createdAt", -1)
    ensures sort != "" ==> (o.direction == -1 <==> sort[0] == '-')
    ensures o.direction == 1 || o.direction == -1
  {
    if sort == "" then SortOption("createdAt", -1)
    else SortOption(RemoveFirst(sort, '-'), if sort[0] == '-' then -1 else 1)
  }

  /** How a client writes a sort option: `key` or `-key`. */
  function SortParam(o: SortOption): string {
    if o.direction == -1 then "-" + o.key else o.key
  }

  /** Parsing what a client writes gives back the option, for any key without a dash. */
  lemma SortParamRoundTrip(o: SortOption)
    requires o.key != "" && '-' !in o.key
    requires o.direction == 1 || o.direction == -1
    ensures ParseSort(SortParam(o)) == o
  {
    if o.direction == -1 {
      assert ("-" + o.key)[1..] == o.key;
    }
  }

  /** The dash need not be leading: `price-x` sorts ascending on key `pricex`. */
  lemma SortDashInsideKey()
    ensures ParseSort("price-x") == SortOption("pricex", 1)
  {
    var u, v := "price", "-x";
    assert u + v == "price-x";
    assert '-' !in u;
    RemoveFirstAfter(u, v, '-');
    assert RemoveFirst(v, '-') == "x" by { assert v[1..] == "x"; }
    assert u + "x" == "pricex";
  }

  /** The pieces with `t` appended to the last one. */
  function ExtendLast(parts: seq<string>, t: string): (r: seq<string>)
    requires |parts| >= 1
    ensures |r| == |parts| && r[..|r| - 1] == parts[..|parts| - 1] && r[|r| - 1] == parts[|parts| - 1] + t
  {
    parts[..|parts| - 1] + [parts[|parts| - 1] + t]
  }

  lemma ExtendLastTwice(parts: seq<string>, a: string, b: string)
    requires |parts| >= 1
    ensures ExtendLast(ExtendLast(parts, a), b) == ExtendLast(parts, a + b)
  {
    assert parts[|parts| - 1] + a + b == parts[|parts| - 1] + (a + b);
  }

  lemma ExtendLastEmpty(parts: seq<string>)
    requires |parts| >= 1
    ensures ExtendLast(parts, "") == parts
  {
    assert parts[|parts| - 1] + "" == parts[|parts| - 1];
    assert parts[..|parts| - 1] + [parts[|parts| - 1]] == parts;
  }

  /** `s.split(sep)`: the pieces between separators, always at least one. */
  function Split(s: string, sep: char): (parts: seq<string>)
    ensures |parts| >= 1
    decreases |s|
  {
    if |s| == 0 then [""]
    else
      var p := Split(s[..|s| - 1], sep);
      var c := s[|s| - 1];
      if c == sep then p + [""] else ExtendLast(p, [c])
  }

  /** One unfolding of `Split` on a string extended by one character. */
  lemma SplitSnoc(s: string, c: char, sep: char)
    ensures Split(s + [c], sep) == if c == sep then Split(s, sep) + [""] else ExtendLast(Split(s, sep), [c])
  {
    assert (s + [c])[..|s|] == s;
  }

  /** `parts.join(sep)`. */
  function Join(parts: seq<string>, sep: char): string
    requires |parts| >= 1
    decreases |parts|
  {
    if |parts| == 1 then parts[0]
    else Join(parts[..|parts| - 1], sep) + [sep] + parts[|parts| - 1]
  }

  lemma {:induction false} JoinExtendLast(parts: seq<string>, sep: char, t: string)
    requires |parts| >= 1
    ensures Join(ExtendLast(parts, t), sep) == Join(parts, sep) + t
  {
    var m := |parts|;
    var q := ExtendLast(parts, t);
    if m > 1 {
      assert q[..m - 1] == parts[..m - 1];
    }
  }

  /** Splitting and joining back gives the original string. */
  lemma {:induction false} JoinSplit(s: string, sep: char)
    ensures Join(Split(s, sep), sep) == s
    decreases |s|
  {
    if |s| > 0 {
      var init, c := s[..|s| - 1], s[|s| - 1];
      assert init + [c] == s;
      var p := Split(init, sep);
      JoinSplit(init, sep);
      SplitSnoc(init, c, sep);
      if c == sep {
        assert (p + [""])[..|p|] == p;
      } else {
        JoinExtendLast(p, sep, [c]);
      }
    }
  }

  /** No piece contains the separator. */
  lemma {:induction false} SplitPartsHaveNoSeparator(s: string, sep: char)
    ensures forall i | 0 <= i < |Split(s, sep)| :: sep !in Split(s, sep)[i]
    decreases |s|
  {
    if |s| > 0 {
      SplitPartsHaveNoSeparator(s[..|s| - 1], sep);
    }
  }

  /** Appending a run without separators extends the last piece. */
  lemma {:induction false} SplitAppendPiece(x: string, y: string, sep: char)
    requires sep !in y
    ensures Split(x + y, sep) == ExtendLast(Split(x, sep), y)
    decreases |y|
  {
    if |y| == 0 {
      assert x + y == x;
      ExtendLastEmpty(Split(x, sep));
    } else {
      var y', c := y[..|y| - 1], y[|y| - 1];
      assert y' + [c] == y;
      assert c != sep by { assert c in y; }
      assert sep !in y' by { assert forall k | 0 <= k < |y'| :: y'[k] == y[k]; }
      SplitAppendPiece(x, y', sep);
      assert x + y == (x + y') + [c];
      SplitSnoc(x + y', c, sep);
      ExtendLastTwice(Split(x, sep), y', [c]);
    }
  }

  /** One more piece: if splitting the joined pieces gives them back, it still
      does after appending a piece without separators. */
  lemma SplitJoinStep(init: seq<string>, last: string, sep: char)
    requires |init| >= 1 && Split(Join(init, sep), sep) == init
    requires sep !in last
    ensures Split(Join(init + [last], sep), sep) == init + [last]
  {
    var parts := init + [last];
    assert parts[..|init|] == init;
    var x := Join(init, sep) + [sep];
    assert Join(parts, sep) == x + last;
    SplitSnoc(Join(init, sep), sep, sep);
    SplitAppendPiece(x, last, sep);
    assert (init + [""])[..|init|] == init;
    assert "" + last == last;
  }

  /** Joining pieces that contain no separator and splitting again gives the pieces back. */
  lemma {:induction false} SplitJoin(parts: seq<string>, sep: char)
    requires |parts| >= 1
    requires forall i | 0 <= i < |parts| :: sep !in parts[i]
    ensures Split(Join(parts, sep), sep) == parts
    decreases |parts|
  {
    var m := |parts|;
    if m == 1 {
      SplitAppendPiece("", parts[0], sep);
      assert "" + parts[0] == parts[0];
      assert ExtendLast([""], parts[0]) == parts;
    } else {
      var init, last := parts[..m - 1], parts[m - 1];
      assert init + [last] == parts;
      SplitJoin(init, sep);
      SplitJoinStep(init, last, sep);
    }
  }

  /** The `category` query parameter: absent or empty means no filter, otherwise
      a product matches when its category is one of the comma-separated names. */
  function CategoryFilter(category: string): (f: Option<seq<string>>)
    ensures f.None? <==> category == ""
    ensures f.Some? ==> |f.value| >= 1
    ensures f.Some? ==> Join(f.value, ',') == category
    ensures f.Some? ==> forall i | 0 <= i < |f.value| :: ',' !in f.value[i]
  {
    if category == "" then None
    else
      JoinSplit(category, ',');
      SplitPartsHaveNoSeparator(category, ',');
      Some(Split(category, ','))
  }

  /** `Math.ceil(total / limit)`. */
  function TotalPages(total: nat, limit: int): (n: int)
    requires limit != 0
    ensures limit > 0 ==> 0 <= n && (n - 1) * limit < total <= n * limit
    ensures limit < 0 ==> n <= 0 && n * limit <= total < (n - 1) * limit
  {
    if limit > 0 then
      var n := (total + limit - 1) / limit;
      assert total + limit - 1 == n * limit + (total + limit - 1) % limit;
      n
    else
      var q := total / -limit;
      assert total == q * -limit + total % -limit;
      -q
  }

  /** `.skip((page - 1) * limit).limit(limit)`: the store rejects a negative
      skip, and a negative limit returns at most |limit| documents. */
  function Window<T>(xs: seq<T>, page: int, limit: int): (r: Result<seq<T>, ApiError>)
    requires limit != 0
    ensures r.Failure? <==> (page - 1) * limit < 0
    ensures r.Failure? ==> r.error.status == 500
    ensures r.Success? ==> |r.value| <= if limit < 0 then -limit else limit
    ensures r.Success? ==> forall j | 0 <= j < |r.value| ::
      (page - 1) * limit + j < |xs| && r.value[j] == xs[(page - 1) * limit + j]
  {
    var skip := (page - 1) * limit;
    if skip < 0 then Failure(ApiError(500, "skip value must be non-negative"))
    else
      var n := if limit < 0 then -limit else limit;
      var lo := if skip < |xs| then skip else |xs|;
      var hi := if skip + n < |xs| then skip + n else |xs|;
      Success(xs[lo..hi])
  }

  lemma MulLess(a: int, b: int, c: int)
    requires c > 0 && a * c < b * c
    ensures a < b
  {
    assert b * c - a * c == (b - a) * c;
  }

  lemma MulAtLeast(a: int, b: int, c: int)
    requires c > 0 && a >= b
    ensures a * c >= b * c
  {
    assert a * c - b * c == (a - b) * c;
  }

  /** Division by a positive limit, as Dafny's `/` and `%` give it. */
  lemma DivMod(i: int, limit: int)
    requires limit > 0 && i >= 0
    ensures i == (i / limit) * limit + i % limit && 0 <= i % limit < limit && i / limit >= 0
  {
  }

  /** With a positive limit, every record shows up on page `i / limit + 1`
      at position `i % limit`, and that page is within `totalPages`. */
  lemma WindowFindsEveryRecord<T>(xs: seq<T>, limit: int, i: int)
    requires limit > 0 && 0 <= i < |xs|
    ensures var p := i / limit + 1;
      && 1 <= p <= TotalPages(|xs|, limit)
      && Window(xs, p, limit).Success?
      && i % limit < |Window(xs, p, limit).value|
      && Window(xs, p, limit).value[i % limit] == xs[i]
  {
    var q, r := i / limit, i % limit;
    DivMod(i, limit);
    var n := TotalPages(|xs|, limit);
    MulLess(q, n, limit);
    var skip := (q + 1 - 1) * limit;
    assert skip == q * limit;
    var w := Window(xs, q + 1, limit);
    assert w.Success? && |w.value| == (if skip + limit < |xs| then skip + limit else |xs|) - skip;
  }

  /** Pages after the last one are empty. */
  lemma PastLastPageIsEmpty<T>(xs: seq<T>, limit: int, page: int)
    requires limit > 0 && page > TotalPages(|xs|, limit)
    ensures Window(xs, page, limit) == Success([])
  {
    var n := TotalPages(|xs|, limit);
    MulAtLeast(page - 1, n, limit);
    assert (page - 1) * limit >= |xs|;
    assert xs[|xs|..|xs|] == [];
  }

  datatype PageMeta = PageMeta(total: nat, page: int, limit: int, totalPages: int)

  datatype Listing<T> = Listing(meta: PageMeta, data: seq<T>)

  /** The paginated response of a listing endpoint: `matches` are the records
      the filter selects (counted by `countDocuments`), `arranged` the same
      records in the order the store sorts them. */
  function Paginate<T>(matches: seq<T>, arranged: seq<T>, rawPage: Option<int>, rawLimit: Option<int>)
    : (r: Result<Listing<T>, ApiError>)
    ensures var page, limit := PageParam(rawPage, DEFAULT_PAGE), PageParam(rawLimit, DEFAULT_LIMIT);
      && (r.Success? <==> (page - 1) * limit >= 0)
      && (r.Success? ==> r.value.meta == PageMeta(|matches|, page, limit, TotalPages(|matches|, limit)))
      && (r.Success? ==> Window(arranged, page, limit) == Success(r.value.data))
  {
    var page, limit := PageParam(rawPage, DEFAULT_PAGE), PageParam(rawLimit, DEFAULT_LIMIT);
    match Window(arranged, page, limit)
    case Failure(e) => Failure(e)
    case Success(data) =>
      Success(Listing(PageMeta(|matches|, page, limit, TotalPages(|matches|, limit)), data))
  }

  /** Every listed record is one of the arranged records. */
  lemma PaginateListsArranged<T>(matches: seq<T>, arranged: seq<T>, rawPage: Option<int>, rawLimit: Option<int>)
    ensures var r := Paginate(matches, arranged, rawPage, rawLimit);
      r.Success? ==> forall j | 0 <= j < |r.value.data| :: r.value.data[j] in arranged
  {
  }

  /** When the store's sort only rearranges the matched records, every listed
      record is one of the matches. */
  lemma PaginateListsMatches<T>(matches: seq<T>, arranged: seq<T>, rawPage: Option<int>, rawLimit: Option<int>)
    ensures var r := Paginate(matches, arranged, rawPage, rawLimit);
      r.Success? && multiset(arranged) == multiset(matches) ==>
        forall j | 0 <= j < |r.value.data| :: r.value.data[j] in matches
  {
    var r := Paginate(matches, arranged, rawPage, rawLimit);
    if r.Success? && multiset(arranged) == multiset(matches) {
      PaginateListsArranged(matches, arranged, rawPage, rawLimit);
      forall j | 0 <= j < |r.value.data| ensures r.value.data[j] in matches {
        assert r.value.data[j] in multiset(arranged);
      }
    }
  }

  /** With no page or limit given, the first ten records are listed. */
  lemma DefaultPageIsFirstTen<T>(matches: seq<T>, arranged: seq<T>)
    ensures var r := Paginate(matches, arranged, None, None);
      && r.Success?
      && r.value.meta.page == 1 && r.value.meta.limit == 10
      && r.value.data == arranged[..if |arranged| < 10 then |arranged| else 10]
  {
  }
}
