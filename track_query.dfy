/**
 * The list endpoint: from the query values it coerces the page and page size,
 * builds the case-insensitive per-field filter, counts the matches, sorts
 * them, cuts out the requested page and wraps it in the pagination envelope.
 * The document store is the sequence of records in its natural order.
 */
module TrackQuery {
  import opened Common
  import opened Strings
  import opened TrackTypes

  const DefaultPage: int := 1
  const DefaultLimit: int := 10

  /**
   * The query values as the endpoint sees them. `page` and `limit` are the
   * numeric value of the raw string: `None` when it is missing or not a number.
   */
  datatype ListRequest = ListRequest(
    page: Option<int>,
    limit: Option<int>,
    title: Option<string>,
    artist: Option<string>,
    album: Option<string>,
    sortBy: Option<string>,
    sortOrder: Option<string>)

  const EmptyRequest := ListRequest(None, None, None, None, None, None, None)

  predicate NonNegative(n: Option<int>) {
    n.None? || n.value >= 0
  }

  /** The requests this model covers: no negative page or limit. */
  predicate Admissible(r: ListRequest) {
    NonNegative(r.page) && NonNegative(r.limit)
  }

  /** `Number(raw) || fallback`: zero and not-a-number are falsy. */
  function OrDefault(raw: Option<int>, fallback: int): int {
    if raw.Some? && raw.value != 0 then raw.value else fallback
  }

  function PageOf(r: ListRequest): int {
    OrDefault(r.page, DefaultPage)
  }

  function LimitOf(r: ListRequest): int {
    OrDefault(r.limit, DefaultLimit)
  }

  /** Missing, zero or non-numeric values fall back to page 1 and size 10; any other value is used as given. */
  lemma Coercion(r: ListRequest)
    requires Admissible(r)
    ensures PageOf(r) >= 1 && LimitOf(r) >= 1
    ensures r.page.None? || r.page == Some(0) ==> PageOf(r) == 1
    ensures r.page.Some? && r.page.value != 0 ==> PageOf(r) == r.page.value
    ensures r.limit.None? || r.limit == Some(0) ==> LimitOf(r) == 10
    ensures r.limit.Some? && r.limit.value != 0 ==> LimitOf(r) == r.limit.value
  {
  }

  // ---------------------------------------------------------------------
  // Filtering

  /** The filter: one optional case-insensitive substring per field, combined with AND. */
  datatype Filter = Filter(title: Option<string>, artist: Option<string>, album: Option<string>)

  /** A condition is added for a field only when its query value is non-empty. */
  function BuildFilter(r: ListRequest): (f: Filter)
    ensures f.title.Some? <==> Truthy(r.title)
    ensures f.artist.Some? <==> Truthy(r.artist)
    ensures f.album.Some? <==> Truthy(r.album)
    ensures f.title.Some? ==> f.title == r.title
    ensures f.artist.Some? ==> f.artist == r.artist
    ensures f.album.Some? ==> f.album == r.album
  {
    Filter(KeepTruthy(r.title), KeepTruthy(r.artist), KeepTruthy(r.album))
  }

  /** An absent condition imposes nothing; a present one asks for a case-insensitive substring. */
  predicate FieldMatches(value: string, cond: Option<string>) {
    cond.None? || ContainsIgnoreCase(value, cond.value)
  }

  predicate Matches(t: Track, f: Filter) {
    FieldMatches(t.title, f.title) && FieldMatches(t.artist, f.artist) && FieldMatches(t.album, f.album)
  }

  /** The records that match, in store order; each matching record is kept as often as it occurs. */
  function Select(s: seq<Track>, f: Filter): (r: seq<Track>)
    ensures |r| <= |s|
    ensures forall t :: t in r ==> Matches(t, f)
    ensures forall t :: multiset(r)[t] == if Matches(t, f) then multiset(s)[t] else 0
  {
    if s == [] then []
    else
      assert s == [s[0]] + s[1..];
      (if Matches(s[0], f) then [s[0]] else []) + Select(s[1..], f)
  }

  /** A record is selected exactly when it is in the store and matches. */
  lemma SelectMembership(s: seq<Track>, f: Filter, t: Track)
    ensures t in Select(s, f) <==> t in s && Matches(t, f)
  {
    assert t in Select(s, f) <==> multiset(Select(s, f))[t] > 0;
    assert t in s <==> multiset(s)[t] > 0;
  }

  /** A query value written in capitals. */
  function UpperOption(v: Option<string>): (u: Option<string>)
    ensures u.Some? <==> v.Some?
    ensures Truthy(u) <==> Truthy(v)
  {
    if v.Some? then Some(Upper(v.value)) else None
  }

  /** The filter is case-insensitive: conditions written in capitals match the same records. */
  lemma MatchesIgnoresCase(t: Track, f: Filter)
    ensures Matches(t, Filter(UpperOption(f.title), UpperOption(f.artist), UpperOption(f.album))) <==> Matches(t, f)
  {
    if f.title.Some? { PatternCaseIrrelevant(t.title, f.title.value); }
    if f.artist.Some? { PatternCaseIrrelevant(t.artist, f.artist.value); }
    if f.album.Some? { PatternCaseIrrelevant(t.album, f.album.value); }
  }

  /** Two filters that accept the same records select the same records. */
  lemma {:induction false} SelectSameMatches(s: seq<Track>, f: Filter, g: Filter)
    requires forall t :: Matches(t, f) <==> Matches(t, g)
    ensures Select(s, f) == Select(s, g)
  {
    if s != [] {
      SelectSameMatches(s[1..], f, g);
    }
  }

  /** A request whose filter strings are written in capitals selects the same records, in the same order. */
  lemma RequestFilterIgnoresCase(store: seq<Track>, r: ListRequest)
    ensures var shouted := r.(title := UpperOption(r.title), artist := UpperOption(r.artist), album := UpperOption(r.album));
      Select(store, BuildFilter(shouted)) == Select(store, BuildFilter(r))
  {
    var shouted := r.(title := UpperOption(r.title), artist := UpperOption(r.artist), album := UpperOption(r.album));
    var f := BuildFilter(r);
    assert BuildFilter(shouted) == Filter(UpperOption(f.title), UpperOption(f.artist), UpperOption(f.album));
    forall t
      ensures Matches(t, BuildFilter(shouted)) <==> Matches(t, f)
    {
      MatchesIgnoresCase(t, f);
    }
    SelectSameMatches(store, BuildFilter(shouted), f);
  }

  /** With no condition on any field every record is selected, in store order. */
  lemma {:induction false} NoFilterSelectsAll(s: seq<Track>)
    ensures Select(s, Filter(None, None, None)) == s
  {
    if s != [] {
      NoFilterSelectsAll(s[1..]);
      assert s == [s[0]] + s[1..];
    }
  }

  // ---------------------------------------------------------------------
  // Sorting

  /** A record's sort key; `Absent` when the requested name is a path no record has. */
  datatype SortKey = Absent | Text(s: string) | Time(t: int)

  /**
   * What a sort name selects: one of the five record fields, the document
   * id `_id` (which every record has), or a path no record has, under which
   * all records tie.
   */
  datatype SortTarget = OnField(field: SortByField) | OnId | OnNothing

  /** The sort: by `target`, ascending or descending. */
  datatype SortSpec = SortSpec(target: SortTarget, ascending: bool)

  /** The document id's path name. */
  const IdPath := "_id"

  /** How a sort name given in the query is read. */
  function TargetOf(name: string): (t: SortTarget)
    ensures t.OnField? <==> ParseSortBy(name).Some?
    ensures t.OnField? ==> SortByName(t.field) == name
    ensures t.OnId? <==> name == IdPath
  {
    if name == IdPath then OnId
    else match ParseSortBy(name)
      case Some(f) => OnField(f)
      case None => OnNothing
  }

  /** `sortBy` defaults to `createdAt`; only `sortOrder == "asc"` sorts ascending. */
  function SpecOf(r: ListRequest): (spec: SortSpec)
    ensures !Truthy(r.sortBy) ==> spec.target == OnField(CreatedAt)
    ensures Truthy(r.sortBy) ==> spec.target == TargetOf(r.sortBy.value)
    ensures spec.ascending <==> r.sortOrder == Some("asc")
  {
    SortSpec(if Truthy(r.sortBy) then TargetOf(r.sortBy.value) else OnField(CreatedAt), r.sortOrder == Some("asc"))
  }

  /** The value a record is sorted on; ids compare as their strings. */
  function KeyOf(t: Track, target: SortTarget): SortKey {
    match target
    case OnNothing => Absent
    case OnId => Text(t.id)
    case OnField(Title) => Text(t.title)
    case OnField(Artist) => Text(t.artist)
    case OnField(Album) => Text(t.album)
    case OnField(CreatedAt) => Time(t.createdAt)
    case OnField(UpdatedAt) => Time(t.updatedAt)
  }

  /** Key order: strings in code-point order, times numerically; kinds never mix within one field. */
  predicate KeyLe(a: SortKey, b: SortKey) {
    match (a, b)
    case (Absent, _) => true
    case (Text(x), Text(y)) => LexLe(x, y)
    case (Text(_), Time(_)) => true
    case (Time(x), Time(y)) => x <= y
    case (_, _) => false
  }

  lemma KeyLeTotal(a: SortKey, b: SortKey)
    ensures KeyLe(a, b) || KeyLe(b, a)
  {
    if a.Text? && b.Text? {
      LexLeTotal(a.s, b.s);
    }
  }

  /** `x` may come before `y` in the requested direction. */
  predicate InOrder(x: Track, y: Track, spec: SortSpec) {
    if spec.ascending then KeyLe(KeyOf(x, spec.target), KeyOf(y, spec.target))
    else KeyLe(KeyOf(y, spec.target), KeyOf(x, spec.target))
  }

  lemma InOrderTotal(x: Track, y: Track, spec: SortSpec)
    ensures InOrder(x, y, spec) || InOrder(y, x, spec)
  {
    KeyLeTotal(KeyOf(x, spec.target), KeyOf(y, spec.target));
  }

  /** Every adjacent pair is in the requested order. */
  predicate SortedBy(s: seq<Track>, spec: SortSpec) {
    forall i :: 0 <= i < |s| - 1 ==> InOrder(s[i], s[i + 1], spec)
  }

  /** A record that may precede the head of a sorted sequence can be put in front of it. */
  lemma SortedCons(x: Track, s: seq<Track>, spec: SortSpec)
    requires SortedBy(s, spec) && (s == [] || InOrder(x, s[0], spec))
    ensures SortedBy([x] + s, spec)
  {
    var r := [x] + s;
    forall i | 0 <= i < |r| - 1
      ensures InOrder(r[i], r[i + 1], spec)
    {
      if i > 0 {
        assert r[i] == s[i - 1] && r[i + 1] == s[i];
      }
    }
  }

  /** Inserts `x` before the first record it may precede, so it goes ahead of records with an equal key. */
  function Insert(x: Track, s: seq<Track>, spec: SortSpec): (r: seq<Track>)
    requires SortedBy(s, spec)
    ensures SortedBy(r, spec)
    ensures multiset(r) == multiset(s) + multiset{x}
    ensures |r| == |s| + 1 && (r[0] == x || (s != [] && r[0] == s[0]))
  {
    if s == [] || InOrder(x, s[0], spec) then
      SortedCons(x, s, spec);
      [x] + s
    else
      InOrderTotal(x, s[0], spec);
      assert s == [s[0]] + s[1..];
      var tail := s[1..];
      assert SortedBy(tail, spec) by {
        forall i | 0 <= i < |tail| - 1
          ensures InOrder(tail[i], tail[i + 1], spec)
        {
          assert tail[i] == s[i + 1] && tail[i + 1] == s[i + 2];
        }
      }
      var rest := Insert(x, tail, spec);
      assert InOrder(s[0], rest[0], spec);
      SortedCons(s[0], rest, spec);
      [s[0]] + rest
  }

  /**
   * Sorting by insertion. It is stable, so records with equal keys keep
   * their store order: the tie-break this model fixes.
   */
  function Sort(s: seq<Track>, spec: SortSpec): (r: seq<Track>)
    ensures SortedBy(r, spec)
    ensures multiset(r) == multiset(s)
  {
    if s == [] then []
    else
      assert s == [s[0]] + s[1..];
      Insert(s[0], Sort(s[1..], spec), spec)
  }

  // ---------------------------------------------------------------------
  // Paging

  function Min(a: int, b: int): int {
    if a <= b then a else b
  }

  /** `Math.ceil(n / d)`: the fewest pages of size `d` that hold `n` items. */
  function CeilDiv(n: nat, d: int): (q: nat)
    requires d >= 1
    ensures q == 0 <==> n == 0
  {
    var q := (n + d - 1) / d;
    assert q * d <= n + d - 1 < q * d + d;
    q
  }

  /** `CeilDiv(n, d)` is the ceiling of `n / d`: the fewest pages of `d` that hold `n` items. */
  lemma CeilDivIsCeiling(n: nat, d: int)
    requires d >= 1
    ensures CeilDiv(n, d) * d >= n
    ensures CeilDiv(n, d) > 0 ==> (CeilDiv(n, d) - 1) * d < n
  {
    var q := (n + d - 1) / d;
    assert q * d <= n + d - 1 < q * d + d;
  }

  /** `skip(skip).limit(limit)`: at most `limit` records starting at position `skip`. */
  function Window(s: seq<Track>, skip: nat, limit: nat): (r: seq<Track>)
    ensures |r| == if skip >= |s| then 0 else Min(limit, |s| - skip)
    ensures forall i :: 0 <= i < |r| ==> r[i] == s[skip + i]
    ensures forall t :: t in r ==> t in s
  {
    if skip >= |s| then [] else s[skip..Min(skip + limit, |s|)]
  }

  /** A window of a sorted sequence is sorted. */
  lemma WindowSorted(s: seq<Track>, skip: nat, limit: nat, spec: SortSpec)
    requires SortedBy(s, spec)
    ensures SortedBy(Window(s, skip, limit), spec)
  {
  }

  /** The records matching the request's filter, sorted as it asks. */
  function SortedMatches(store: seq<Track>, r: ListRequest): seq<Track> {
    Sort(Select(store, BuildFilter(r)), SpecOf(r))
  }

  /** `(page - 1) * limit`: how many records come before the page. */
  function Skip(page: int, limit: int): (n: nat)
    requires page >= 1 && limit >= 1
  {
    MulNonNegative(page - 1, limit);
    (page - 1) * limit
  }

  lemma MulNonNegative(a: nat, b: nat)
    ensures a * b >= 0
  {
  }

  /** The requested page of the sorted matches: position `(page - 1) * limit` onwards, at most `limit` records. */
  function PageData(store: seq<Track>, r: ListRequest): seq<Track>
    requires Admissible(r)
  {
    Window(SortedMatches(store, r), Skip(PageOf(r), LimitOf(r)), LimitOf(r))
  }

  /** The page holds only matching records of the store. */
  lemma PageDataMatches(store: seq<Track>, r: ListRequest)
    requires Admissible(r)
    ensures forall t :: t in PageData(store, r) ==> t in store && Matches(t, BuildFilter(r))
  {
    SortedMatchesMatch(store, r);
    var w := Window(SortedMatches(store, r), Skip(PageOf(r), LimitOf(r)), LimitOf(r));
    assert PageData(store, r) == w;
  }

  /** The page is in the requested order. */
  lemma PageDataSorted(store: seq<Track>, r: ListRequest)
    requires Admissible(r)
    ensures SortedBy(PageData(store, r), SpecOf(r))
  {
    var w := Window(SortedMatches(store, r), Skip(PageOf(r), LimitOf(r)), LimitOf(r));
    WindowSorted(SortedMatches(store, r), Skip(PageOf(r), LimitOf(r)), LimitOf(r), SpecOf(r));
    assert PageData(store, r) == w;
  }

  /** Every sorted match is a matching record of the store. */
  lemma SortedMatchesMatch(store: seq<Track>, r: ListRequest)
    ensures forall t :: t in SortedMatches(store, r) ==> t in store && Matches(t, BuildFilter(r))
  {
    var sorted := SortedMatches(store, r);
    forall t | t in sorted
      ensures t in store && Matches(t, BuildFilter(r))
    {
      assert multiset(sorted)[t] > 0;
      SelectMembership(store, BuildFilter(r), t);
    }
  }

  /** The list endpoint's envelope for `r` over `store`. */
  function ListTracks(store: seq<Track>, r: ListRequest): (env: PaginatedTracks)
    requires Admissible(r)
    ensures env.pagination.currentPage == PageOf(r) >= 1
    ensures env.pagination.pageSize == LimitOf(r) >= 1
    ensures env.pagination.totalItems == |Select(store, BuildFilter(r))|
    ensures env.pagination.totalPages == CeilDiv(env.pagination.totalItems, LimitOf(r))
    ensures |env.data| <= LimitOf(r)
  {
    var totalItems := |Select(store, BuildFilter(r))|;
    PaginatedTracks(PageData(store, r), Pagination(PageOf(r), CeilDiv(totalItems, LimitOf(r)), totalItems, LimitOf(r)))
  }

  /** The page holds only records of the store that match the filter. */
  lemma ListedTracksMatch(store: seq<Track>, r: ListRequest)
    requires Admissible(r)
    ensures forall t :: t in ListTracks(store, r).data ==> t in store && Matches(t, BuildFilter(r))
  {
    PageDataMatches(store, r);
  }

  /** The page is in the requested order. */
  lemma ListedTracksSorted(store: seq<Track>, r: ListRequest)
    requires Admissible(r)
    ensures SortedBy(ListTracks(store, r).data, SpecOf(r))
  {
    PageDataSorted(store, r);
  }

  // ---------------------------------------------------------------------
  // Properties of the envelope

  lemma MulMonotone(a: int, b: int, d: nat)
    requires a >= b
    ensures a * d >= b * d
  {
    MulNonNegative(a - b, d);
    assert a * d == b * d + (a - b) * d;
  }

  /** Sorting keeps every match, so there are as many sorted matches as counted items. */
  lemma SortedMatchesCount(store: seq<Track>, r: ListRequest)
    ensures |SortedMatches(store, r)| == |Select(store, BuildFilter(r))|
  {
    var m := Select(store, BuildFilter(r));
    assert |multiset(SortedMatches(store, r))| == |multiset(m)|;
  }

  /** The page is the window of the sorted matches that starts after `skip` of them. */
  lemma PageDataIsWindow(store: seq<Track>, r: ListRequest)
    requires Admissible(r)
    ensures var sorted := SortedMatches(store, r);
            var skip := Skip(PageOf(r), LimitOf(r));
            && |PageData(store, r)| == (if skip >= |sorted| then 0 else Min(LimitOf(r), |sorted| - skip))
            && forall i :: 0 <= i < |PageData(store, r)| ==> PageData(store, r)[i] == sorted[skip + i]
  {
  }

  /** `data` is exactly positions `[skip, skip + limit)` of the sorted matches, with `skip = (page - 1) * limit`. */
  lemma DataIsSliceOfSortedMatches(store: seq<Track>, r: ListRequest)
    requires Admissible(r)
    ensures var env := ListTracks(store, r);
            var sorted := SortedMatches(store, r);
            var skip := Skip(PageOf(r), LimitOf(r));
            && |sorted| == env.pagination.totalItems
            && |env.data| == (if skip >= |sorted| then 0 else Min(LimitOf(r), |sorted| - skip))
            && forall i :: 0 <= i < |env.data| ==> env.data[i] == sorted[skip + i]
  {
    SortedMatchesCount(store, r);
    PageDataIsWindow(store, r);
    assert ListTracks(store, r).data == PageData(store, r);
  }

  /** A page past the last one is empty, though the envelope still echoes it. */
  lemma PastLastPageIsEmpty(store: seq<Track>, r: ListRequest)
    requires Admissible(r)
    requires PageOf(r) > ListTracks(store, r).pagination.totalPages
    ensures ListTracks(store, r).data == []
    ensures ListTracks(store, r).pagination.currentPage == PageOf(r)
  {
    SkipPastLastPage(|Select(store, BuildFilter(r))|, LimitOf(r), PageOf(r));
    assert ListTracks(store, r).data == PageData(store, r);
  }

  lemma SkipPastLastPage(n: nat, d: int, p: int)
    requires d >= 1 && p >= 1 && p > CeilDiv(n, d)
    ensures Skip(p, d) >= n
  {
    CeilDivIsCeiling(n, d);
    MulMonotone(p - 1, CeilDiv(n, d), d);
  }

  /** Pages 1 to `CeilDiv(n, d)` start inside the `n` items, and all but the last end inside them. */
  lemma SkipInRange(n: nat, d: int, p: int)
    requires d >= 1 && 1 <= p <= CeilDiv(n, d)
    ensures Skip(p, d) < n
    ensures p < CeilDiv(n, d) ==> Skip(p, d) + d <= n
  {
    var q := CeilDiv(n, d);
    CeilDivIsCeiling(n, d);
    MulMonotone(q - 1, p - 1, d);
    if p < q {
      MulMonotone(q - 1, p, d);
      assert (p - 1) * d + d == p * d;
    }
  }

  /** Every page from 1 to `totalPages` holds at least one record, and all but the last are full. */
  lemma InRangePageIsNonEmpty(store: seq<Track>, r: ListRequest)
    requires Admissible(r)
    requires 1 <= PageOf(r) <= ListTracks(store, r).pagination.totalPages
    ensures |ListTracks(store, r).data| > 0
    ensures PageOf(r) < ListTracks(store, r).pagination.totalPages ==> |ListTracks(store, r).data| == LimitOf(r)
  {
    DataIsSliceOfSortedMatches(store, r);
    SkipInRange(ListTracks(store, r).pagination.totalItems, LimitOf(r), PageOf(r));
  }

  /** Nothing matches exactly when there are no pages; then the page is empty. */
  lemma NoMatchesNoPages(store: seq<Track>, r: ListRequest)
    requires Admissible(r)
    ensures ListTracks(store, r).pagination.totalItems == 0 <==> ListTracks(store, r).pagination.totalPages == 0
    ensures ListTracks(store, r).pagination.totalItems == 0 ==> ListTracks(store, r).data == []
  {
  }

  /** Position `i` lies on page `i / d + 1`. */
  lemma PositionOnPage(i: nat, d: int) returns (p: int)
    requires d >= 1
    ensures p >= 1 && Skip(p, d) <= i < Skip(p, d) + d
  {
    p := i / d + 1;
    assert i == (i / d) * d + i % d;
  }

  /** A matching record of the store has a position among the sorted matches. */
  lemma PositionInSortedMatches(store: seq<Track>, r: ListRequest, t: Track) returns (i: nat)
    requires t in store && Matches(t, BuildFilter(r))
    ensures i < |SortedMatches(store, r)| && SortedMatches(store, r)[i] == t
  {
    SelectMembership(store, BuildFilter(r), t);
    assert multiset(Select(store, BuildFilter(r)))[t] > 0;
    assert multiset(SortedMatches(store, r))[t] > 0;
    i :| 0 <= i < |SortedMatches(store, r)| && SortedMatches(store, r)[i] == t;
  }

  /** Asking for another page changes neither the matches, their order nor the page size. */
  lemma OtherPage(store: seq<Track>, r: ListRequest, p: int)
    requires Admissible(r) && p >= 1
    ensures Admissible(r.(page := Some(p)))
    ensures PageOf(r.(page := Some(p))) == p && LimitOf(r.(page := Some(p))) == LimitOf(r)
    ensures BuildFilter(r.(page := Some(p))) == BuildFilter(r)
    ensures SortedMatches(store, r.(page := Some(p))) == SortedMatches(store, r)
  {
    assert SpecOf(r.(page := Some(p))) == SpecOf(r);
  }

  /** A position in `[skip, skip + limit)` is on the window. */
  lemma InWindow(s: seq<Track>, skip: nat, limit: nat, i: nat)
    requires skip <= i < skip + limit && i < |s|
    ensures s[i] in Window(s, skip, limit)
  {
    assert Window(s, skip, limit)[i - skip] == s[i];
  }

  /** Every matching record in the store is on some page between 1 and `totalPages`. */
  lemma EveryMatchIsOnSomePage(store: seq<Track>, r: ListRequest, t: Track)
    requires Admissible(r)
    requires t in store && Matches(t, BuildFilter(r))
    ensures exists p: int :: 1 <= p <= ListTracks(store, r).pagination.totalPages
                        && t in ListTracks(store, r.(page := Some(p))).data
  {
    var d := LimitOf(r);
    var sorted := SortedMatches(store, r);
    SortedMatchesCount(store, r);
    var i := PositionInSortedMatches(store, r, t);
    var p := PositionOnPage(i, d);
    assert p <= CeilDiv(|sorted|, d) by {
      if p > CeilDiv(|sorted|, d) {
        SkipPastLastPage(|sorted|, d, p);
      }
    }
    OtherPage(store, r, p);
    InWindow(sorted, Skip(p, d), d, i);
    assert t in ListTracks(store, r.(page := Some(p))).data;
  }

  // ---------------------------------------------------------------------
  // Worked examples

  /** A lower-case artist filter finds an artist written with capitals. */
  lemma LowerCaseFilterMatchesCapitalised(t: Track)
    requires t.artist == "The Prodigy"
    ensures Matches(t, BuildFilter(EmptyRequest.(artist := Some("prodigy"))))
  {
    assert OccursAt(Lower("The Prodigy"), Lower("prodigy"), 4);
  }

  /** Two records already in order stay as they are. */
  lemma SortOrderedPair(a: Track, b: Track, spec: SortSpec)
    requires InOrder(a, b, spec)
    ensures Sort([a, b], spec) == [a, b]
  {
    assert [a, b][1..] == [b] && [b][1..] == [];
    assert Sort([b], spec) == [b];
  }

  /** A record that may precede neither of two ordered records goes behind both. */
  lemma InsertBehindPair(c: Track, a: Track, b: Track, spec: SortSpec)
    requires InOrder(a, b, spec) && !InOrder(c, a, spec) && !InOrder(c, b, spec)
    ensures Insert(c, [a, b], spec) == [a, b, c]
  {
    assert [a, b][1..] == [b] && [b][1..] == [];
    assert Insert(c, [b], spec) == [b, c];
  }

  /** Insertion sort moves a first record that belongs last behind two ordered ones. */
  lemma SortMovesFirstToBack(a: Track, b: Track, c: Track, spec: SortSpec)
    requires InOrder(a, b, spec) && !InOrder(c, a, spec) && !InOrder(c, b, spec)
    ensures Sort([c, a, b], spec) == [a, b, c]
  {
    assert [c, a, b][1..] == [a, b];
    SortOrderedPair(a, b, spec);
    InsertBehindPair(c, a, b, spec);
  }

  /** Sorting C, A, B by title ascending gives A, B, C. */
  lemma SortThreeTitles(a: Track, b: Track, c: Track)
    requires a.title == "A" && b.title == "B" && c.title == "C"
    ensures Sort([c, a, b], SortSpec(OnField(Title), true)) == [a, b, c]
  {
    var spec := SortSpec(OnField(Title), true);
    assert LexLe("A", "B") && !LexLe("C", "A") && !LexLe("C", "B");
    SortMovesFirstToBack(a, b, c, spec);
  }

  /** Under a path no record has, every record ties, so the stable sort keeps store order. */
  lemma {:induction false} NoTargetKeepsStoreOrder(s: seq<Track>, ascending: bool)
    ensures Sort(s, SortSpec(OnNothing, ascending)) == s
  {
    if s != [] {
      var spec := SortSpec(OnNothing, ascending);
      var tail := s[1..];
      NoTargetKeepsStoreOrder(tail, ascending);
      assert Sort(s, spec) == Insert(s[0], Sort(tail, spec), spec);
      assert tail == [] || InOrder(s[0], tail[0], spec);
      assert Insert(s[0], tail, spec) == [s[0]] + tail;
      assert s == [s[0]] + tail;
    }
  }

  /** `sortBy=_id` sorts by document id: ids "b" then "a" come back as "a", "b". */
  lemma SortByIdOrdersIds(a: Track, b: Track)
    requires a.id == "a" && b.id == "b"
    ensures SpecOf(EmptyRequest.(sortBy := Some("_id"), sortOrder := Some("asc"))) == SortSpec(OnId, true)
    ensures Sort([b, a], SortSpec(OnId, true)) == [a, b]
  {
    var spec := SortSpec(OnId, true);
    assert LexLe("a", "b") && !LexLe("b", "a");
    assert [b, a][1..] == [a] && [a][1..] == [];
    assert Sort([a], spec) == [a];
    assert Insert(b, [a], spec) == [a, b];
  }

  const TitleAscPage1Size2 := EmptyRequest.(page := Some(1), limit := Some(2), sortBy := Some("title"), sortOrder := Some("asc"))

  lemma ExampleSortedMatches(a: Track, b: Track, c: Track)
    requires a.title == "A" && b.title == "B" && c.title == "C"
    ensures Select([c, a, b], BuildFilter(TitleAscPage1Size2)) == [c, a, b]
    ensures SortedMatches([c, a, b], TitleAscPage1Size2) == [a, b, c]
  {
    assert BuildFilter(TitleAscPage1Size2) == Filter(None, None, None);
    NoFilterSelectsAll([c, a, b]);
    assert SpecOf(TitleAscPage1Size2) == SortSpec(OnField(Title), true);
    SortThreeTitles(a, b, c);
  }

  /** The first two of the sorted example. */
  lemma ExampleFirstPage(a: Track, b: Track, c: Track)
    requires a.title == "A" && b.title == "B" && c.title == "C"
    ensures PageData([c, a, b], TitleAscPage1Size2) == [a, b]
  {
    var r := TitleAscPage1Size2;
    ExampleSortedMatches(a, b, c);
    assert PageOf(r) == 1 && LimitOf(r) == 2;
    assert Skip(1, 2) == 0;
    assert Window([a, b, c], 0, 2) == [a, b];
  }

  /** Three tracks titled C, A, B; page 1 of size 2 by title ascending is A, B of 3 items on 2 pages. */
  lemma FirstPageByTitle(a: Track, b: Track, c: Track)
    requires a.title == "A" && b.title == "B" && c.title == "C"
    ensures ListTracks([c, a, b], TitleAscPage1Size2).data == [a, b]
    ensures ListTracks([c, a, b], TitleAscPage1Size2).pagination == Pagination(1, 2, 3, 2)
  {
    var r := TitleAscPage1Size2;
    ExampleSortedMatches(a, b, c);
    ExampleFirstPage(a, b, c);
    assert PageOf(r) == 1 && LimitOf(r) == 2;
    assert CeilDiv(3, 2) == 2;
  }
}
