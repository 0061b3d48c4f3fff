/** Review sync against remapping. A sync reads the mapping once, then pages through
    Google with no lock held; a remap may commit between any two of its statements. */
module ReviewSync {
  import opened Common

  type Gid = string
  type Time = int
  type Rating = r: int | 1 <= r <= 5 witness 1

  /** One review of a page. `google_review_id`, and what may be unusable, as parsed. */
  datatype Review = Review(id: string, reviewer: Option<string>, rating: Option<Rating>, text: Option<string>, created: Option<Time>)

  /** A stored row; `source` records which Google location it was read from. */
  datatype Stored = Stored(reviewer: Option<string>, rating: Rating, text: Option<string>, created: Time, fetched: Time, source: Gid)

  type Table = map<string, Stored>

  predicate Usable(r: Review) {
    r.rating.Some? && r.created.Some? && |r.id| <= 255
  }

  function Shorten(name: Option<string>): Option<string> {
    if name.None? || name.value == "" then None
    else Some(if |name.value| <= 255 then name.value else name.value[..255])
  }

  function RowOf(r: Review, now: Time, source: Gid): Stored
    requires Usable(r)
  {
    Stored(Shorten(r.reviewer), r.rating.value, r.text, r.created.value, now, source)
  }

  /** The reference: upsert the usable reviews one statement at a time. */
  function UpsertEach(table: Table, reviews: seq<Review>, now: Time, source: Gid): Table
    decreases |reviews|
  {
    if reviews == [] then table
    else
      UpsertEach(if Usable(reviews[0]) then table[reviews[0].id := RowOf(reviews[0], now, source)] else table,
                 reviews[1..], now, source)
  }

  /** The page's rows as the loop's dictionary holds them: one per id. */
  function Collapse(reviews: seq<Review>, now: Time, source: Gid): Table
    decreases |reviews|
  {
    if reviews == [] then map[]
    else
      var last := reviews[|reviews| - 1];
      var before := Collapse(reviews[..|reviews| - 1], now, source);
      if Usable(last) then before[last.id := RowOf(last, now, source)] else before
  }

  lemma {:induction false} UpsertEachSplits(table: Table, reviews: seq<Review>, now: Time, source: Gid)
    requires reviews != []
    ensures var last := reviews[|reviews| - 1];
            var before := UpsertEach(table, reviews[..|reviews| - 1], now, source);
            UpsertEach(table, reviews, now, source) == if Usable(last) then before[last.id := RowOf(last, now, source)] else before
    decreases |reviews|
  {
    if |reviews| > 1 {
      var first := if Usable(reviews[0]) then table[reviews[0].id := RowOf(reviews[0], now, source)] else table;
      UpsertEachSplits(first, reviews[1..], now, source);
      assert reviews[1..][..|reviews| - 2] == reviews[..|reviews| - 1][1..];
      assert reviews[1..][|reviews| - 2] == reviews[|reviews| - 1];
    }
  }

  /** One page's collapsed bulk upsert is the same as upserting its usable reviews
      one by one, the last of an id winning. */
  lemma {:induction false} BulkIsOneByOne(table: Table, reviews: seq<Review>, now: Time, source: Gid)
    ensures table + Collapse(reviews, now, source) == UpsertEach(table, reviews, now, source)
    decreases |reviews|
  {
    if reviews != [] {
      BulkIsOneByOne(table, reviews[..|reviews| - 1], now, source);
      UpsertEachSplits(table, reviews, now, source);
    }
  }

  lemma {:induction false} UpsertEachKeepsSource(table: Table, reviews: seq<Review>, now: Time, source: Gid)
    requires forall id :: id in table ==> table[id].source == source
    ensures forall id :: id in UpsertEach(table, reviews, now, source) ==> UpsertEach(table, reviews, now, source)[id].source == source
    decreases |reviews|
  {
    if reviews != [] {
      UpsertEachKeepsSource(if Usable(reviews[0]) then table[reviews[0].id := RowOf(reviews[0], now, source)] else table,
                            reviews[1..], now, source);
    }
  }

  // --- the mapping row and its reviews ---

  /** A counter and the Google location it was read from. */
  datatype Counter = Counter(value: int, source: Gid)

  datatype Mapping = Mapping(gid: Gid, average: Option<Counter>, count: Option<Counter>, syncedAt: Option<Time>, reviews: Table)

  /** A remap to another Google location forgets the old one's reviews and counters. */
  function Remap(m: Mapping, gid: Gid): Mapping {
    if m.gid == gid then m else Mapping(gid, None, None, None, map[])
  }

  /** One page's write: false when the mapping points elsewhere by now. */
  function UpsertPage(m: Mapping, reviews: seq<Review>, expected: Gid, now: Time): (Mapping, bool) {
    var rows := Collapse(reviews, now, expected);
    if rows == map[] then (m, true)
    else if m.gid != expected then (m, false)
    else (m.(reviews := UpsertEach(m.reviews, reviews, now, expected)), true)
  }

  function FinishSync(m: Mapping, expected: Gid, average: Option<int>, count: Option<int>, now: Time): Mapping {
    if m.gid != expected then m
    else
      m.(average := if average.Some? then Some(Counter(average.value, expected)) else None,
         count := if count.Some? then Some(Counter(count.value, expected)) else None,
         syncedAt := Some(now))
  }

  // --- a whole sync, run alone ---

  datatype Page = Page(reviews: seq<Review>, average: Option<int>, count: Option<int>, next: Option<string>)

  /** One list_reviews call. A list of answers that ends early is a transient error. */
  datatype Answer = Got(page: Page) | RateLimited | Rejected

  /** Where the page loop is: its token, the tokens seen, the first page's counters. */
  datatype Cursor = Cursor(token: Option<string>, seen: set<string>, average: Option<int>, count: Option<int>)

  predicate IsLast(page: Page) { page.next.None? || page.next.value == "" }

  function After(c: Cursor, page: Page): Cursor
    requires !IsLast(page)
  {
    Cursor(page.next, c.seen + {page.next.value},
           if c.token.None? then page.average else c.average, if c.token.None? then page.count else c.count)
  }

  /** sync_location_reviews from one cursor on; the flag says that Google rate-limited it. */
  function SyncFrom(m: Mapping, c: Cursor, answers: seq<Answer>, now: Time): (Mapping, bool)
    decreases |answers|
  {
    if answers == [] || answers[0].Rejected? then (m, false)
    else if answers[0].RateLimited? then (m, true)
    else
      var page := answers[0].page;
      var m1 := UpsertPage(m, page.reviews, m.gid, now).0;
      if IsLast(page) then
        (FinishSync(m1, m.gid, if c.token.None? then page.average else c.average, if c.token.None? then page.count else c.count, now), false)
      else if page.next.value in c.seen then (m1, false)
      else SyncFrom(m1, After(c, page), answers[1..], now)
  }

  /** The row and its reviews, updated in place. */
  class MappingStore {
    var row: Mapping

    constructor (m: Mapping)
      ensures row == m
    {
      row := m;
    }

    method WriteMapping(gid: Gid)
      modifies this
      ensures row == Remap(old(row), gid)
    {
      if row.gid != gid {
        row := row.(reviews := map[]);
        row := row.(average := None, count := None, syncedAt := None);
      }
      row := row.(gid := gid);
    }

    /** _upsert_reviews: the loop fills a dictionary, one statement writes it. */
    method UpsertReviews(reviews: seq<Review>, expected: Gid, now: Time) returns (current: bool)
      modifies this
      ensures (row, current) == UpsertPage(old(row), reviews, expected, now)
    {
      var rows: Table := map[];
      for i := 0 to |reviews|
        invariant rows == Collapse(reviews[..i], now, expected)
      {
        var r := reviews[i];
        assert reviews[..i + 1][..i] == reviews[..i];
        if r.rating.None? || r.created.None? || |r.id| > 255 { continue; }
        rows := rows[r.id := Stored(Shorten(r.reviewer), r.rating.value, r.text, r.created.value, now, expected)];
      }
      assert reviews[..|reviews|] == reviews;
      if rows == map[] { return true; }
      if row.gid != expected { return false; }
      BulkIsOneByOne(row.reviews, reviews, now, expected);
      row := row.(reviews := row.reviews + rows);
      return true;
    }

    method SyncLocationReviews(answers: seq<Answer>, now: Time) returns (limited: bool)
      modifies this
      ensures (row, limited) == SyncFrom(old(row), Cursor(None, {}, None, None), answers, now)
    {
      var gid := row.gid;
      var token: Option<string>, seen: set<string>, average: Option<int>, count: Option<int> := None, {}, None, None;
      for i := 0 to |answers|
        invariant row.gid == gid
        invariant SyncFrom(old(row), Cursor(None, {}, None, None), answers, now)
               == SyncFrom(row, Cursor(token, seen, average, count), answers[i..], now)
      {
        assert answers[i..][0] == answers[i] && answers[i..][1..] == answers[i + 1..];
        if answers[i].RateLimited? { return true; }
        if answers[i].Rejected? { return false; }
        var page := answers[i].page;
        var current := UpsertReviews(page.reviews, gid, now);
        if !current { return false; }
        if token.None? { average, count := page.average, page.count; }
        token := page.next;
        if token.None? || token.value == "" {
          FinishCounters(gid, average, count, now);
          return false;
        }
        if token.value in seen { return false; }
        seen := seen + {token.value};
      }
      return false;
    }

    method FinishCounters(expected: Gid, average: Option<int>, count: Option<int>, now: Time)
      modifies this
      ensures row == FinishSync(old(row), expected, average, count, now)
    {
      if row.gid == expected {
        row := row.(average := if average.Some? then Some(Counter(average.value, expected)) else None);
        row := row.(count := if count.Some? then Some(Counter(count.value, expected)) else None);
        row := row.(syncedAt := Some(now));
      }
    }
  }

  // --- what a complete sync leaves ---

  /** Google paged through to the end, never repeating a token. */
  predicate Complete(pages: seq<Page>, seen: set<string>)
    decreases |pages|
  {
    pages != [] &&
    if IsLast(pages[0]) then |pages| == 1
    else pages[0].next.value !in seen && Complete(pages[1..], seen + {pages[0].next.value})
  }

  function Answers(pages: seq<Page>): seq<Answer> {
    if pages == [] then [] else [Got(pages[0])] + Answers(pages[1..])
  }

  function AllReviews(pages: seq<Page>): seq<Review> {
    if pages == [] then [] else pages[0].reviews + AllReviews(pages[1..])
  }

  lemma {:induction false} UpsertEachJoins(table: Table, a: seq<Review>, b: seq<Review>, now: Time, source: Gid)
    ensures UpsertEach(table, a + b, now, source) == UpsertEach(UpsertEach(table, a, now, source), b, now, source)
    decreases |a|
  {
    if a == [] {
      assert a + b == b;
    } else {
      assert (a + b)[1..] == a[1..] + b;
      UpsertEachJoins(if Usable(a[0]) then table[a[0].id := RowOf(a[0], now, source)] else table, a[1..], b, now, source);
    }
  }

  lemma NothingToWrite(table: Table, reviews: seq<Review>, now: Time, source: Gid)
    requires Collapse(reviews, now, source) == map[]
    ensures UpsertEach(table, reviews, now, source) == table
  {
    BulkIsOneByOne(table, reviews, now, source);
  }

  lemma {:induction false} SyncFromCollects(m: Mapping, c: Cursor, pages: seq<Page>, now: Time)
    requires Complete(pages, c.seen)
    ensures SyncFrom(m, c, Answers(pages), now)
         == (FinishSync(m.(reviews := UpsertEach(m.reviews, AllReviews(pages), now, m.gid)), m.gid,
                        if c.token.None? then pages[0].average else c.average,
                        if c.token.None? then pages[0].count else c.count, now), false)
    decreases |pages|
  {
    var m1 := m.(reviews := UpsertEach(m.reviews, pages[0].reviews, now, m.gid));
    if Collapse(pages[0].reviews, now, m.gid) == map[] { NothingToWrite(m.reviews, pages[0].reviews, now, m.gid); }
    assert UpsertPage(m, pages[0].reviews, m.gid, now).0 == m1;
    assert Answers(pages)[1..] == Answers(pages[1..]);
    UpsertEachJoins(m.reviews, pages[0].reviews, AllReviews(pages[1..]), now, m.gid);
    if IsLast(pages[0]) {
      assert pages[1..] == [];
    } else {
      SyncFromCollects(m1, After(c, pages[0]), pages[1..], now);
    }
  }

  /** reviews[k] is the last one of this id that can be stored: it has a rating from 1
      to 5 and a creation time, and its id fits the column. */
  predicate LastOf(reviews: seq<Review>, k: nat, id: string)
    requires k < |reviews|
  {
    && reviews[k].id == id && |id| <= 255 && reviews[k].rating.Some? && reviews[k].created.Some?
    && forall j :: k < j < |reviews| && reviews[j].id == id ==> reviews[j].rating.None? || reviews[j].created.None?
  }

  /** The row holds this review, with at most 255 characters of a non-empty name. */
  predicate Holds(row: Stored, r: Review, now: Time, source: Gid) {
    && r.rating == Some(row.rating) && r.created == Some(row.created) && row.text == r.text
    && row.fetched == now && row.source == source
    && (row.reviewer.None? <==> r.reviewer.None? || r.reviewer.value == "")
    && (row.reviewer.Some? ==>
          row.reviewer.value <= r.reviewer.value && |row.reviewer.value| == if |r.reviewer.value| <= 255 then |r.reviewer.value| else 255)
  }

  /** After an upsert: the id's row is its last storable review, or what it was. */
  predicate Upserted(before: Table, after: Table, reviews: seq<Review>, now: Time, source: Gid, id: string) {
    && (forall k :: 0 <= k < |reviews| && LastOf(reviews, k, id) ==> id in after && Holds(after[id], reviews[k], now, source))
    && ((forall k :: 0 <= k < |reviews| ==> !LastOf(reviews, k, id)) ==>
          (id in after <==> id in before) && (id in after ==> after[id] == before[id]))
  }

  lemma {:induction false} UpsertedExactly(table: Table, reviews: seq<Review>, now: Time, source: Gid, id: string)
    ensures Upserted(table, UpsertEach(table, reviews, now, source), reviews, now, source, id)
    decreases |reviews|
  {
    hide Holds, UpsertEach;
    if reviews == [] {
      assert UpsertEach(table, reviews, now, source) == table by { NoneUpserted(table, now, source); }
    } else {
      var n := |reviews| - 1;
      var before, last := reviews[..n], reviews[n];
      UpsertEachSplits(table, reviews, now, source);
      UpsertedExactly(table, before, now, source, id);
      if Usable(last) && last.id == id {
        RowHolds(last, now, source);
        assert LastOf(reviews, n, id);
      } else {
        forall k: nat | k < n ensures LastOf(reviews, k, id) <==> LastOf(before, k, id) { LastOfPrefix(reviews, k, id); }
      }
    }
  }

  lemma LastOfPrefix(reviews: seq<Review>, k: nat, id: string)
    requires k < |reviews| - 1 && !(Usable(reviews[|reviews| - 1]) && reviews[|reviews| - 1].id == id)
    ensures LastOf(reviews, k, id) <==> LastOf(reviews[..|reviews| - 1], k, id)
  {
  }

  lemma NoneUpserted(table: Table, now: Time, source: Gid)
    ensures UpsertEach(table, [], now, source) == table
  {
  }

  lemma RowHolds(r: Review, now: Time, source: Gid)
    requires Usable(r)
    ensures Holds(RowOf(r, now, source), r, now, source)
  {
  }

  /** The Google location's rating as the mapping shows it. */
  predicate Shows(counter: Option<Counter>, value: Option<int>, gid: Gid) {
    if value.None? then counter.None? else counter == Some(Counter(value.value, gid))
  }

  /** A sync that is not disturbed stores the last usable review of every id on its
      pages, later pages winning, leaves the other rows, and ends with the first
      page's average and count. */
  lemma CompleteSyncStoresEverything(m: Mapping, pages: seq<Page>, now: Time, id: string)
    requires Complete(pages, {})
    ensures var (after, limited) := SyncFrom(m, Cursor(None, {}, None, None), Answers(pages), now);
            && !limited && after.gid == m.gid && after.syncedAt == Some(now)
            && Shows(after.average, pages[0].average, m.gid) && Shows(after.count, pages[0].count, m.gid)
            && Upserted(m.reviews, after.reviews, AllReviews(pages), now, m.gid, id)
  {
    hide Upserted;
    SyncFromCollects(m, Cursor(None, {}, None, None), pages, now);
    UpsertedExactly(m.reviews, AllReviews(pages), now, m.gid, id);
  }

  // --- interleaved runs ---

  type Worker = nat

  /** A sync's position: which Google location it started with, the page token it
      will ask with, the tokens seen, and the first page's counters. */
  datatype Pc =
    | Idle
    | Asking(gid: Gid, token: Option<string>, seen: set<string>, average: Option<int>, count: Option<int>)
    | HasPage(gid: Gid, token: Option<string>, seen: set<string>, average: Option<int>, count: Option<int>, page: Page)
    | Ending(gid: Gid, average: Option<int>, count: Option<int>)

  /** `asked` is the page tokens each worker's latest sync has asked with, in order. */
  datatype World = World(m: Mapping, pcs: map<Worker, Pc>, asked: map<Worker, seq<Option<string>>>)

  datatype Step =
    | RemapTo(gid: Gid)
    | Begin(k: Worker)
    | Ask(k: Worker, page: Page)
    | WritePage(k: Worker, now: Time)
    | End(k: Worker, now: Time)
    | Stop(k: Worker)

  function PcOf(w: World, k: Worker): Pc { if k in w.pcs then w.pcs[k] else Idle }

  function At(w: World, k: Worker, pc: Pc): World { w.(pcs := w.pcs[k := pc]) }

  function AskedBy(w: World, k: Worker): seq<Option<string>> { if k in w.asked then w.asked[k] else [] }

  /** After a page is written: the next page, the end, or a stop on a repeated token. */
  function Advance(pc: Pc): Pc
    requires pc.HasPage?
  {
    var first := pc.token.None?;
    var average := if first then pc.page.average else pc.average;
    var count := if first then pc.page.count else pc.count;
    if pc.page.next.None? || pc.page.next.value == "" then Ending(pc.gid, average, count)
    else if pc.page.next.value in pc.seen then Idle
    else Asking(pc.gid, pc.page.next, pc.seen + {pc.page.next.value}, average, count)
  }

  function Next(w: World, s: Step): World {
    match s
    case RemapTo(gid) => w.(m := Remap(w.m, gid))
    case Begin(k) =>
      if PcOf(w, k).Idle? then At(w, k, Asking(w.m.gid, None, {}, None, None)).(asked := w.asked[k := []]) else w
    case Ask(k, page) =>
      var pc := PcOf(w, k);
      if pc.Asking?
      then At(w, k, HasPage(pc.gid, pc.token, pc.seen, pc.average, pc.count, page)).(asked := w.asked[k := AskedBy(w, k) + [pc.token]])
      else w
    case WritePage(k, now) =>
      var pc := PcOf(w, k);
      if !pc.HasPage? then w
      else
        var (m, current) := UpsertPage(w.m, pc.page.reviews, pc.gid, now);
        At(w.(m := m), k, if current then Advance(pc) else Idle)
    case End(k, now) =>
      var pc := PcOf(w, k);
      if pc.Ending? then At(w.(m := FinishSync(w.m, pc.gid, pc.average, pc.count, now)), k, Idle) else w
    case Stop(k) => At(w, k, Idle)
  }

  /** Everything shown for the mapping was read from the Google location it points at. */
  predicate Current(m: Mapping) {
    && (forall id :: id in m.reviews ==> m.reviews[id].source == m.gid)
    && (m.average.Some? ==> m.average.value.source == m.gid)
    && (m.count.Some? ==> m.count.value.source == m.gid)
  }

  lemma NextKeeps(w: World, s: Step)
    requires Current(w.m)
    ensures Current(Next(w, s).m)
  {
    if s.WritePage? && PcOf(w, s.k).HasPage? && PcOf(w, s.k).gid == w.m.gid {
      UpsertEachKeepsSource(w.m.reviews, PcOf(w, s.k).page.reviews, s.now, w.m.gid);
    }
  }

  function Run(w: World, steps: seq<Step>): World
    decreases |steps|
  {
    if steps == [] then w else Run(Next(w, steps[0]), steps[1..])
  }

  /** Under any interleaving of any number of paged syncs and remaps, including a
      remap away and back, every stored review and non-null counter of the mapping
      came from the Google location it points at now. */
  lemma {:induction false} SyncNeverMixesLocations(w: World, steps: seq<Step>)
    requires Current(w.m)
    ensures Current(Run(w, steps).m)
    decreases |steps|
  {
    if steps != [] {
      NextKeeps(w, steps[0]);
      SyncNeverMixesLocations(Next(w, steps[0]), steps[1..]);
    }
  }

  // --- one sync's statements ---

  /** A remap to the same Google location keeps everything; to another one it keeps nothing. */
  lemma RemapForgetsExactly(w: World, gid: Gid)
    ensures var m := Next(w, RemapTo(gid)).m;
            m == if w.m.gid == gid then w.m else Mapping(gid, None, None, None, map[])
  {
  }

  lemma LastIsCollapsed(reviews: seq<Review>, now: Time, source: Gid, id: string)
    ensures (exists k :: 0 <= k < |reviews| && LastOf(reviews, k, id)) ==> id in Collapse(reviews, now, source)
  {
    hide LastOf;
    UpsertedExactly(map[], reviews, now, source, id);
    BulkIsOneByOne(map[], reviews, now, source);
    assert map[] + Collapse(reviews, now, source) == Collapse(reviews, now, source);
  }

  /** A page reaches the table only while the mapping points where the sync started;
      one with anything to store that comes too late ends the sync. */
  lemma PageIsWrittenExactly(w: World, k: Worker, now: Time, id: string)
    requires PcOf(w, k).HasPage?
    ensures var pc, m := PcOf(w, k), Next(w, WritePage(k, now)).m;
            && m == w.m.(reviews := m.reviews)
            && (if pc.gid == w.m.gid then Upserted(w.m.reviews, m.reviews, pc.page.reviews, now, pc.gid, id) else m == w.m)
            && (pc.gid != w.m.gid && (exists k :: 0 <= k < |pc.page.reviews| && LastOf(pc.page.reviews, k, id)) ==>
                  PcOf(Next(w, WritePage(k, now)), k) == Idle)
  {
    hide Upserted, LastOf;
    LastIsCollapsed(PcOf(w, k).page.reviews, now, PcOf(w, k).gid, id);
    UpsertedExactly(w.m.reviews, PcOf(w, k).page.reviews, now, w.m.gid, id);
    if Collapse(PcOf(w, k).page.reviews, now, w.m.gid) == map[] { NothingToWrite(w.m.reviews, PcOf(w, k).page.reviews, now, w.m.gid); }
  }

  /** The last statement writes the first page's counters, or nothing after a remap. */
  lemma EndWritesExactly(w: World, k: Worker, now: Time)
    requires PcOf(w, k).Ending?
    ensures var pc, m := PcOf(w, k), Next(w, End(k, now)).m;
            if pc.gid == w.m.gid
            then m == w.m.(average := m.average, count := m.count, syncedAt := Some(now)) &&
                 Shows(m.average, pc.average, pc.gid) && Shows(m.count, pc.count, pc.gid)
            else m == w.m
  {
  }

  /** One sync's statements against these answers, with nobody else between them. */
  function AloneSteps(k: Worker, answers: seq<Answer>, now: Time): seq<Step> {
    if answers == [] then []
    else (if answers[0].Got? then [Ask(k, answers[0].page), WritePage(k, now), End(k, now)] else [Stop(k), Stop(k), Stop(k)])
         + AloneSteps(k, answers[1..], now)
  }

  lemma RunThree(w: World, a: Step, b: Step, c: Step, rest: seq<Step>)
    ensures Run(w, [a, b, c] + rest) == Run(Next(Next(Next(w, a), b), c), rest)
  {
    hide Next;
    var steps := [a, b, c] + rest;
    assert steps[0] == a && steps[1..] == [b, c] + rest;
    assert Run(w, steps) == Run(Next(w, a), [b, c] + rest);
    var w1 := Next(w, a);
    assert ([b, c] + rest)[1..] == [c] + rest;
    assert Run(w1, [b, c] + rest) == Run(Next(w1, b), [c] + rest);
    assert ([c] + rest)[1..] == rest;
    assert Run(Next(w1, b), [c] + rest) == Run(Next(Next(w1, b), c), rest);
  }

  lemma {:induction false} IdleStays(w: World, k: Worker, answers: seq<Answer>, now: Time)
    requires PcOf(w, k).Idle?
    ensures Run(w, AloneSteps(k, answers, now)).m == w.m
    decreases |answers|
  {
    if answers != [] {
      var steps := AloneSteps(k, answers, now);
      RunThree(w, steps[0], steps[1], steps[2], AloneSteps(k, answers[1..], now));
      IdleStays(Next(Next(Next(w, steps[0]), steps[1]), steps[2]), k, answers[1..], now);
    }
  }

  /** Run with nothing between them, the interleaved statements leave exactly what the
      sequential sync does, for every sequence of answers. */
  lemma {:induction false} AloneSyncIsSequential(w: World, k: Worker, c: Cursor, answers: seq<Answer>, now: Time)
    requires PcOf(w, k) == Asking(w.m.gid, c.token, c.seen, c.average, c.count)
    ensures Run(w, AloneSteps(k, answers, now)).m == SyncFrom(w.m, c, answers, now).0
    decreases |answers|
  {
    hide UpsertPage, FinishSync;
    if answers != [] {
      var steps, rest := AloneSteps(k, answers, now), answers[1..];
      RunThree(w, steps[0], steps[1], steps[2], AloneSteps(k, rest, now));
      var w3 := Next(Next(Next(w, steps[0]), steps[1]), steps[2]);
      if answers[0].Got? {
        AlonePage(w, k, c, answers[0].page, now);
        var page := answers[0].page;
        if !IsLast(page) && page.next.value !in c.seen {
          AloneSyncIsSequential(w3, k, After(c, page), rest, now);
        } else {
          IdleStays(w3, k, rest, now);
        }
      } else {
        IdleStays(w3, k, rest, now);
      }
    }
  }

  lemma AlonePage(w: World, k: Worker, c: Cursor, page: Page, now: Time)
    requires PcOf(w, k) == Asking(w.m.gid, c.token, c.seen, c.average, c.count)
    ensures var w3 := Next(Next(Next(w, Ask(k, page)), WritePage(k, now)), End(k, now));
            var m1 := UpsertPage(w.m, page.reviews, w.m.gid, now).0;
            && m1.gid == w.m.gid
            && (if IsLast(page) then
                  w3.m == FinishSync(m1, w.m.gid, if c.token.None? then page.average else c.average, if c.token.None? then page.count else c.count, now)
                else w3.m == m1)
            && (if !IsLast(page) && page.next.value !in c.seen
                then PcOf(w3, k) == Asking(w.m.gid, page.next, After(c, page).seen, After(c, page).average, After(c, page).count)
                else PcOf(w3, k).Idle?)
  {
    hide FinishSync, UpsertEach;
  }

  // --- page tokens ---

  predicate NoRepeats(tokens: seq<Option<string>>) {
    forall i, j :: 0 <= i < j < |tokens| ==> tokens[i] != tokens[j]
  }

  /** A sync has asked with no token, then with ones it has seen; the one it is
      about to ask with is not among those it asked with. */
  predicate TokensInv(w: World, k: Worker) {
    var pc, asked := PcOf(w, k), AskedBy(w, k);
    && NoRepeats(asked)
    && (pc.Asking? || pc.HasPage? ==>
          && (forall t :: t in asked ==> t.None? || t.value in pc.seen)
          && (pc.token.Some? ==> pc.token.value in pc.seen))
    && (pc.Asking? ==> pc.token !in asked)
  }

  lemma NextKeepsTokens(w: World, s: Step, k: Worker)
    requires TokensInv(w, k)
    ensures TokensInv(Next(w, s), k)
  {
    hide UpsertPage, FinishSync, Remap;
  }

  lemma {:induction false} RunKeepsTokens(w: World, steps: seq<Step>, k: Worker)
    requires TokensInv(w, k)
    ensures TokensInv(Run(w, steps), k)
    decreases |steps|
  {
    hide Next;
    if steps != [] {
      NextKeepsTokens(w, steps[0], k);
      RunKeepsTokens(Next(w, steps[0]), steps[1..], k);
    }
  }

  /** However syncs and remaps interleave, from no sync under way, no sync ever asks twice with the same page token. */
  lemma PageTokensNeverRepeat(w: World, steps: seq<Step>, k: Worker)
    requires w.pcs == map[] && w.asked == map[]
    ensures NoRepeats(AskedBy(Run(w, steps), k))
  {
    RunKeepsTokens(w, steps, k);
  }
}
