/**
 * The client's list request: the query options become URL parameters, one
 * per set option in a fixed order, numbers as decimal numerals. On the
 * server the parameters are read back by name and the page and limit by
 * `Number`. The round trip is proved: the server sees the page, limit,
 * filters and sort the client asked for.
 */
module QueryParams {
  import opened Common
  import opened Strings
  import opened TrackTypes
  import opened TrackQuery

  /** The client's query options: every one optional. */
  datatype QueryOptions = QueryOptions(
    page: Option<int>,
    limit: Option<int>,
    title: Option<string>,
    artist: Option<string>,
    album: Option<string>,
    sortBy: Option<SortByField>,
    sortOrder: Option<SortOrder>)

  const NoOptions := QueryOptions(None, None, None, None, None, None, None)

  /** The seven parameter names the client may send. */
  datatype Param = PageParam | LimitParam | TitleParam | ArtistParam | AlbumParam | SortByParam | SortOrderParam

  /** The name as it appears in the URL. */
  function Key(p: Param): string {
    match p
    case PageParam => "page"
    case LimitParam => "limit"
    case TitleParam => "title"
    case ArtistParam => "artist"
    case AlbumParam => "album"
    case SortByParam => "sortBy"
    case SortOrderParam => "sortOrder"
  }

  /** URL parameters: name and value pairs in the order appended. */
  type Params = seq<(Param, string)>

  /** The order the client appends them in. */
  const ParamOrder: seq<Param> := [PageParam, LimitParam, TitleParam, ArtistParam, AlbumParam, SortByParam, SortOrderParam]

  /** A name's position in that order. */
  function Rank(p: Param): (n: nat)
    ensures n < 7 && ParamOrder[n] == p
  {
    match p
    case PageParam => 0
    case LimitParam => 1
    case TitleParam => 2
    case ArtistParam => 3
    case AlbumParam => 4
    case SortByParam => 5
    case SortOrderParam => 6
  }

  lemma RankOfParamOrder(n: nat)
    requires n < 7
    ensures Rank(ParamOrder[n]) == n
  {
  }

  /** `String(n)` for any integer. */
  function NumberString(n: int): string {
    if n < 0 then "-" + DecimalString(-n) else DecimalString(n)
  }

  /**
   * `Number(s)` where it yields an integer: an optional minus sign and then
   * decimal digits. Everything else, including a missing value, is taken as
   * `NaN` (`None`), which the server treats like zero.
   */
  function NumberOf(raw: Option<string>): (n: Option<int>)
    ensures raw.Some? && IsDigits(raw.value) ==> n == Some(DecimalValue(raw.value))
  {
    if raw.None? then None
    else if IsDigits(raw.value) then Some(DecimalValue(raw.value))
    else if |raw.value| > 1 && raw.value[0] == '-' && IsDigits(raw.value[1..]) then Some(-(DecimalValue(raw.value[1..]) as int))
    else None
  }

  /** Reading back a printed integer gives the integer. */
  lemma NumberRoundTrip(n: int)
    ensures NumberOf(Some(NumberString(n))) == Some(n)
  {
    if n < 0 {
      var s := NumberString(n);
      assert s[1..] == DecimalString(-n);
      assert !IsDigits(s) by { assert !IsDigit(s[0]); }
      DecimalRoundTrip(-n);
    } else {
      DecimalRoundTrip(n);
    }
  }

  /** The value of the first parameter with that name, as `URLSearchParams.get` returns it. */
  function Lookup(ps: Params, key: Param): (v: Option<string>)
    ensures v.Some? ==> (key, v.value) in ps
    ensures v.None? ==> forall i :: 0 <= i < |ps| ==> ps[i].0 != key
  {
    if ps == [] then None
    else if ps[0].0 == key then Some(ps[0].1)
    else Lookup(ps[1..], key)
  }

  /** A value found is that of the first parameter with the name. */
  lemma {:induction false} LookupIsFirst(ps: Params, key: Param) returns (i: nat)
    requires Lookup(ps, key).Some?
    ensures i < |ps| && ps[i] == (key, Lookup(ps, key).value)
    ensures forall j :: 0 <= j < i ==> ps[j].0 != key
  {
    if ps[0].0 == key {
      i := 0;
    } else {
      var k := LookupIsFirst(ps[1..], key);
      i := k + 1;
    }
  }

  lemma {:induction false} LookupAppend(ps: Params, k: Param, v: string, key: Param)
    ensures Lookup(ps + [(k, v)], key) ==
      if Lookup(ps, key).Some? then Lookup(ps, key) else if k == key then Some(v) else None
  {
    if ps != [] {
      assert (ps + [(k, v)])[1..] == ps[1..] + [(k, v)];
      LookupAppend(ps[1..], k, v, key);
    }
  }

  /** The value the client sends for a parameter: only options that are set and truthy are sent. */
  function Emitted(o: QueryOptions, key: Param): Option<string> {
    match key
    case PageParam => if o.page.Some? && o.page.value != 0 then Some(NumberString(o.page.value)) else None
    case LimitParam => if o.limit.Some? && o.limit.value != 0 then Some(NumberString(o.limit.value)) else None
    case TitleParam => KeepTruthy(o.title)
    case ArtistParam => KeepTruthy(o.artist)
    case AlbumParam => KeepTruthy(o.album)
    case SortByParam => if o.sortBy.Some? then Some(SortByName(o.sortBy.value)) else None
    case SortOrderParam => if o.sortOrder.Some? then Some(SortOrderName(o.sortOrder.value)) else None
  }

  /** Names occur at most once and in the fixed order. */
  predicate Ordered(ps: Params) {
    forall i, j :: 0 <= i < j < |ps| ==> Rank(ps[i].0) < Rank(ps[j].0)
  }

  /**
   * `ps` carries the options whose names come before position `n` of the
   * fixed order, and no other parameter.
   */
  ghost predicate EncodesUpTo(ps: Params, o: QueryOptions, n: nat) {
    && Ordered(ps)
    && (forall i :: 0 <= i < |ps| ==> Rank(ps[i].0) < n)
    && (forall key :: Lookup(ps, key) == if Rank(key) < n then Emitted(o, key) else None)
  }

  /** `ps` carries exactly the options that are set. */
  ghost predicate Encodes(ps: Params, o: QueryOptions) {
    EncodesUpTo(ps, o, 7)
  }

  /** The parameters for the first `n` names of the fixed order: each one whose option is sent, in turn. */
  function Expected(o: QueryOptions, n: nat): Params
    requires n <= 7
  {
    if n == 0 then []
    else
      var prev := Expected(o, n - 1);
      match Emitted(o, ParamOrder[n - 1])
      case Some(v) => prev + [(ParamOrder[n - 1], v)]
      case None => prev
  }

  /** Appending a name ranked after every name present keeps the names in order. */
  lemma AppendKeepsOrder(ps: Params, key: Param, v: string, n: nat)
    requires Ordered(ps) && (forall i :: 0 <= i < |ps| ==> Rank(ps[i].0) < n) && Rank(key) == n
    ensures Ordered(ps + [(key, v)])
    ensures forall i :: 0 <= i < |ps + [(key, v)]| ==> Rank((ps + [(key, v)])[i].0) < n + 1
  {
    var qs := ps + [(key, v)];
    forall i, j | 0 <= i < j < |qs|
      ensures Rank(qs[i].0) < Rank(qs[j].0)
    {
      assert qs[i] == ps[i];
      if j < |ps| {
        assert qs[j] == ps[j];
      }
    }
  }

  /** Appending the value for the name at position `n` extends what the parameters carry to that name. */
  lemma AppendExtendsLookup(ps: Params, o: QueryOptions, key: Param, v: string, n: nat)
    requires forall k :: Lookup(ps, k) == if Rank(k) < n then Emitted(o, k) else None
    requires Rank(key) == n && Emitted(o, key) == Some(v)
    ensures forall k :: Lookup(ps + [(key, v)], k) == if Rank(k) < n + 1 then Emitted(o, k) else None
  {
    forall k
      ensures Lookup(ps + [(key, v)], k) == if Rank(k) < n + 1 then Emitted(o, k) else None
    {
      LookupAppend(ps, key, v, k);
    }
  }

  /** Skipping an option that is not sent extends what the parameters carry to that name. */
  lemma SkipExtendsLookup(ps: Params, o: QueryOptions, key: Param, n: nat)
    requires forall k :: Lookup(ps, k) == if Rank(k) < n then Emitted(o, k) else None
    requires Rank(key) == n && Emitted(o, key).None?
    ensures forall k :: Lookup(ps, k) == if Rank(k) < n + 1 then Emitted(o, k) else None
  {
  }

  lemma {:induction false} ExpectedEncodes(o: QueryOptions, n: nat)
    requires n <= 7
    ensures EncodesUpTo(Expected(o, n), o, n)
  {
    if n > 0 {
      ExpectedEncodes(o, n - 1);
      var prev := Expected(o, n - 1);
      var key := ParamOrder[n - 1];
      RankOfParamOrder(n - 1);
      if Emitted(o, key).Some? {
        var v := Emitted(o, key).value;
        assert Expected(o, n) == prev + [(key, v)];
        AppendKeepsOrder(prev, key, v, n - 1);
        AppendExtendsLookup(prev, o, key, v, n - 1);
      } else {
        assert Expected(o, n) == prev;
        SkipExtendsLookup(prev, o, key, n - 1);
      }
    }
  }

  /** With no option set, nothing is sent. */
  lemma {:induction false} NoOptionsNoParams(n: nat)
    requires n <= 7
    ensures Expected(NoOptions, n) == []
  {
    if n > 0 {
      NoOptionsNoParams(n - 1);
    }
  }

  /** One more name of the fixed order: its parameter is appended when its option is sent. */
  lemma ExpectedNext(o: QueryOptions, n: nat, key: Param, prev: Params, next: Params)
    requires n < 7 && key == ParamOrder[n] && prev == Expected(o, n)
    requires next == if Emitted(o, key).Some? then prev + [(key, Emitted(o, key).value)] else prev
    ensures next == Expected(o, n + 1)
  {
  }

  /** The page and the page size, each when set and non-zero. */
  method AppendPaging(o: QueryOptions, ps: Params) returns (qs: Params)
    requires ps == Expected(o, 0)
    ensures qs == Expected(o, 2)
  {
    qs := ps;
    ghost var prev := qs;
    if o.page.Some? && o.page.value != 0 {
      qs := qs + [(PageParam, NumberString(o.page.value))];
    }
    ExpectedNext(o, 0, PageParam, prev, qs);
    prev := qs;
    if o.limit.Some? && o.limit.value != 0 {
      qs := qs + [(LimitParam, NumberString(o.limit.value))];
    }
    ExpectedNext(o, 1, LimitParam, prev, qs);
  }

  /** The three filter strings, each when non-empty. */
  method AppendFilters(o: QueryOptions, ps: Params) returns (qs: Params)
    requires ps == Expected(o, 2)
    ensures qs == Expected(o, 5)
  {
    qs := ps;
    ghost var prev := qs;
    if Truthy(o.title) {
      qs := qs + [(TitleParam, o.title.value)];
    }
    ExpectedNext(o, 2, TitleParam, prev, qs);
    prev := qs;
    if Truthy(o.artist) {
      qs := qs + [(ArtistParam, o.artist.value)];
    }
    ExpectedNext(o, 3, ArtistParam, prev, qs);
    prev := qs;
    if Truthy(o.album) {
      qs := qs + [(AlbumParam, o.album.value)];
    }
    ExpectedNext(o, 4, AlbumParam, prev, qs);
  }

  /** The sort field and direction, each when set. */
  method AppendSort(o: QueryOptions, ps: Params) returns (qs: Params)
    requires ps == Expected(o, 5)
    ensures qs == Expected(o, 7)
  {
    qs := ps;
    ghost var prev := qs;
    if o.sortBy.Some? {
      qs := qs + [(SortByParam, SortByName(o.sortBy.value))];
    }
    ExpectedNext(o, 5, SortByParam, prev, qs);
    prev := qs;
    if o.sortOrder.Some? {
      qs := qs + [(SortOrderParam, SortOrderName(o.sortOrder.value))];
    }
    ExpectedNext(o, 6, SortOrderParam, prev, qs);
  }

  /** The options become parameters: each set option once, in the fixed order. */
  method BuildParams(o: QueryOptions) returns (ps: Params)
    ensures ps == Expected(o, 7)
    ensures Encodes(ps, o)
    ensures o == NoOptions ==> ps == []
  {
    ps := [];
    ps := AppendPaging(o, ps);
    ps := AppendFilters(o, ps);
    ps := AppendSort(o, ps);
    ExpectedEncodes(o, 7);
    NoOptionsNoParams(7);
  }

  /** The query values the server reads from the parameters. */
  function ReceivedRequest(ps: Params): ListRequest {
    ListRequest(
      NumberOf(Lookup(ps, PageParam)),
      NumberOf(Lookup(ps, LimitParam)),
      Lookup(ps, TitleParam),
      Lookup(ps, ArtistParam),
      Lookup(ps, AlbumParam),
      Lookup(ps, SortByParam),
      Lookup(ps, SortOrderParam))
  }

  /** A page or limit the client sets is read back by the server as that number. */
  lemma NumberParamRoundTrip(ps: Params, o: QueryOptions, p: Param, n: Option<int>)
    requires Encodes(ps, o)
    requires p == PageParam || p == LimitParam
    requires n == (if p == PageParam then o.page else o.limit)
    ensures NumberOf(Lookup(ps, p)) == if n.Some? && n.value != 0 then n else None
  {
    assert Lookup(ps, p) == Emitted(o, p);
    if n.Some? && n.value != 0 {
      NumberRoundTrip(n.value);
    }
  }

  /** The filter the server builds is the client's non-empty filter strings. */
  lemma FilterRoundTrip(ps: Params, o: QueryOptions)
    requires Encodes(ps, o)
    ensures BuildFilter(ReceivedRequest(ps)) == Filter(KeepTruthy(o.title), KeepTruthy(o.artist), KeepTruthy(o.album))
  {
    assert Lookup(ps, TitleParam) == Emitted(o, TitleParam);
    assert Lookup(ps, ArtistParam) == Emitted(o, ArtistParam);
    assert Lookup(ps, AlbumParam) == Emitted(o, AlbumParam);
  }

  /** A sort-field name reads back as that field. */
  lemma SortByNameReadsBack(f: SortByField)
    ensures SortByName(f) != "" && ParseSortBy(SortByName(f)) == Some(f)
  {
  }

  /** Only the ascending order is sent as "asc". */
  lemma SortOrderNameIsAsc(so: Option<SortOrder>)
    ensures (so.Some? && SortOrderName(so.value) == "asc") <==> so == Some(Asc)
  {
  }

  /** The server sorts by the client's field and direction, by creation time and descending when unset. */
  lemma SortRoundTrip(ps: Params, o: QueryOptions)
    requires Encodes(ps, o)
    ensures SpecOf(ReceivedRequest(ps)) ==
      SortSpec(OnField(if o.sortBy.Some? then o.sortBy.value else CreatedAt), o.sortOrder == Some(Asc))
  {
    var r := ReceivedRequest(ps);
    assert r.sortBy == Emitted(o, SortByParam);
    assert r.sortOrder == Emitted(o, SortOrderParam);
    if o.sortBy.Some? {
      SortByNameReadsBack(o.sortBy.value);
    }
    SortOrderNameIsAsc(o.sortOrder);
  }

  /**
   * The round trip: the server pages, filters and sorts as the client's
   * options say, with its own defaults where an option is not set.
   */
  lemma RoundTrip(o: QueryOptions, ps: Params)
    requires Encodes(ps, o)
    ensures PageOf(ReceivedRequest(ps)) == if o.page.Some? && o.page.value != 0 then o.page.value else DefaultPage
    ensures LimitOf(ReceivedRequest(ps)) == if o.limit.Some? && o.limit.value != 0 then o.limit.value else DefaultLimit
    ensures BuildFilter(ReceivedRequest(ps)) == Filter(KeepTruthy(o.title), KeepTruthy(o.artist), KeepTruthy(o.album))
    ensures SpecOf(ReceivedRequest(ps)) ==
      SortSpec(OnField(if o.sortBy.Some? then o.sortBy.value else CreatedAt), o.sortOrder == Some(Asc))
  {
    NumberParamRoundTrip(ps, o, PageParam, o.page);
    NumberParamRoundTrip(ps, o, LimitParam, o.limit);
    FilterRoundTrip(ps, o);
    SortRoundTrip(ps, o);
  }

  /** What the client builds, the server receives as asked. */
  method BuildParamsRoundTrip(o: QueryOptions) returns (r: ListRequest)
    ensures PageOf(r) == if o.page.Some? && o.page.value != 0 then o.page.value else DefaultPage
    ensures LimitOf(r) == if o.limit.Some? && o.limit.value != 0 then o.limit.value else DefaultLimit
    ensures BuildFilter(r) == Filter(KeepTruthy(o.title), KeepTruthy(o.artist), KeepTruthy(o.album))
    ensures SpecOf(r) == SortSpec(OnField(if o.sortBy.Some? then o.sortBy.value else CreatedAt), o.sortOrder == Some(Asc))
  {
    var ps := BuildParams(o);
    RoundTrip(o, ps);
    r := ReceivedRequest(ps);
  }
}
