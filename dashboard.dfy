/**
 * The aggregations the analytics dashboard computes from the CSV rows before
 * charting them: two group-by tables, two column totals with the device
 * averages derived from one of them, the per-day buckets, and the date-ordered
 * series handed to the area chart.
 *
 * Rows arrive already parsed: a missing column is `None` (`undefined`), and a
 * numeric field holds what `Number(...)` or `parseFloat(...)` made of the
 * cell, `None` standing for `NaN`.
 */
module Dashboard {
  import opened Wrappers
  import opened Strings
  import opened Tally

  /** One CSV row, with the fields the dashboard reads. */
  datatype Post = Post(
    postType: Option<string>,
    genre: Option<string>,
    totalEngagements: Option<int>,       // Number(post.total_engagements)
    positiveSentiment: Option<real>,     // Number(post.positive_sentiment_pct)
    neutralSentiment: Option<real>,      // Number(post.neutral_sentiment_pct)
    negativeSentiment: Option<real>,     // Number(post.negative_sentiment_pct)
    deviceMobile: Option<real>,          // parseFloat(post.device_mobile_pct)
    deviceDesktop: Option<real>,         // parseFloat(post.device_desktop_pct)
    deviceTablet: Option<real>,          // parseFloat(post.device_tablet_pct)
    postedAt: Option<string>)

  // ---------------------------------------------------------------------------
  // postTypeEngagement and genrePerformance

  /** The column a group-by table is keyed on. */
  datatype Field = PostType | Genre

  /** `post.post_type` or `post.genre`: the cell the callback reads. */
  function Cell(p: Post, field: Field): Option<string> {
    if field == PostType then p.postType else p.genre
  }

  /** `acc[type]`: a missing cell is the property key "undefined". */
  function KeyOf(p: Post, field: Field): string {
    Cell(p, field).GetOr("undefined")
  }

  function Samples(rows: seq<Post>, field: Field): seq<Sample> {
    seq(|rows|, i requires 0 <= i < |rows| => (KeyOf(rows[i], field), rows[i].totalEngagements))
  }

  /**
   * The value stored under a key: `{name, engagements, count, avgEngagement}`.
   * `name` is the cell itself, so `None` when the cell was missing.
   */
  datatype Group = Group(name: Option<string>, engagements: Option<int>, count: nat, avgEngagement: Option<real>)

  /** One own property of the accumulator object: its key and its value. */
  datatype Entry = Entry(key: string, value: Group)

  /** `engagements / count`, and the initial 0 of an entry nothing was added to yet. */
  function Avg(engagements: Option<int>, count: nat): Option<real> {
    if count == 0 then Some(0.0)
    else if engagements.None? then None
    else Some(engagements.value as real / count as real)
  }

  function WithAvg(t: Tally, name: Option<string>): Group {
    Group(name, t.engagements, t.count, Avg(t.engagements, t.count))
  }

  /** The entry created on a key's first appearance, named after the row's cell. */
  function NewGroup(cell: Option<string>): Group {
    Group(cell, Some(0), 0, Some(0.0))
  }

  /** `engagements += Number(...)`, `count += 1`, then the average recomputed. */
  function Add(g: Group, v: Option<int>): Group {
    var engagements := AddNum(g.engagements, v);
    g.(engagements := engagements, count := g.count + 1, avgEngagement := Avg(engagements, g.count + 1))
  }

  /**
   * The `name` stored under key `k`: the cell of the row that created the
   * entry, that is of the first row whose key is `k` (`Some(k)` when no row has it).
   */
  function FirstCell(rows: seq<Post>, field: Field, k: string): Option<string>
    decreases |rows|
  {
    if rows == [] then Some(k)
    else
      var p := rows[..|rows| - 1];
      if k in Keys(Samples(p, field)) then FirstCell(p, field, k)
      else if KeyOf(rows[|rows| - 1], field) == k then Cell(rows[|rows| - 1], field)
      else Some(k)
  }

  /** The accumulator the rows should produce: one property per distinct key, in first-appearance order. */
  function Entries(rows: seq<Post>, field: Field): seq<Entry> {
    Named(rows, field, Tallies(Samples(rows, field)))
  }

  /** The entries for the tallies `t`, each named as `FirstCell` says. */
  function Named(rows: seq<Post>, field: Field, t: seq<Tally>): seq<Entry> {
    seq(|t|, j requires 0 <= j < |t| => Entry(t[j].key, WithAvg(t[j], FirstCell(rows, field, t[j].key))))
  }

  /** `Object.values(acc)`: the series the charts are drawn from. */
  function Values(acc: seq<Entry>): seq<Group> {
    seq(|acc|, j requires 0 <= j < |acc| => acc[j].value)
  }

  /** `acc[type]` among the own properties. */
  function FindEntry(acc: seq<Entry>, key: string): (r: Option<nat>)
    ensures r.Some? ==> r.value < |acc| && acc[r.value].key == key
    ensures r.None? ==> forall i :: 0 <= i < |acc| ==> acc[i].key != key
  {
    if acc == [] then None
    else if acc[|acc| - 1].key == key then Some(|acc| - 1)
    else FindEntry(acc[..|acc| - 1], key)
  }

  /**
   * The reduce callback: `acc[type]` is created when missing, named after the
   * row's cell, then its engagements, count and average are updated in place.
   */
  method Callback(acc: seq<Entry>, post: Post, field: Field) returns (r: seq<Entry>)
    ensures var k := KeyOf(post, field);
      match FindEntry(acc, k)
      case Some(j) => r == acc[j := Entry(k, Add(acc[j].value, post.totalEngagements))]
      case None => r == acc + [Entry(k, Add(NewGroup(Cell(post, field)), post.totalEngagements))]
  {
    var cell := Cell(post, field);
    var key := cell.GetOr("undefined");
    var value := post.totalEngagements;
    r := acc;
    var found := FindEntry(r, key);
    var j: nat;
    if found.None? {
      r := r + [Entry(key, NewGroup(cell))];
      j := |r| - 1;
    } else {
      j := found.value;
    }
    var entry := r[j].value;
    entry := entry.(engagements := AddNum(entry.engagements, value));
    entry := entry.(count := entry.count + 1);
    entry := entry.(avgEngagement := Avg(entry.engagements, entry.count));
    r := r[j := Entry(key, entry)];
  }

  /** The reduce shared by `postTypeEngagement` and `genrePerformance`. */
  method GroupEngagement(rows: seq<Post>, field: Field) returns (acc: seq<Entry>)
    ensures acc == Entries(rows, field)
  {
    acc := [];
    var i := 0;
    while i < |rows|
      invariant 0 <= i <= |rows|
      invariant acc == Entries(rows[..i], field)
    {
      EntriesSnoc(rows, field, i);
      acc := Callback(acc, rows[i], field);
      i := i + 1;
    }
    assert rows[..|rows|] == rows;
  }

  /** The samples of one more row. */
  lemma SamplesSnoc(rows: seq<Post>, field: Field, i: nat)
    requires i < |rows|
    ensures Samples(rows[..i + 1], field) ==
      Samples(rows[..i], field) + [(KeyOf(rows[i], field), rows[i].totalEngagements)]
  {
    assert rows[..i + 1] == rows[..i] + [rows[i]];
  }

  /** One more row leaves the names of the keys already present as they were and names a new key after its cell. */
  lemma FirstCellSnoc(rows: seq<Post>, field: Field, i: nat, k: string)
    requires i < |rows|
    ensures FirstCell(rows[..i + 1], field, k) ==
      if k in Keys(Samples(rows[..i], field)) then FirstCell(rows[..i], field, k)
      else if KeyOf(rows[i], field) == k then Cell(rows[i], field)
      else Some(k)
  {
    assert rows[..i + 1][..i] == rows[..i];
  }

  /** Naming is per entry: replacing one tally replaces one entry. */
  lemma NamedUpdate(rows: seq<Post>, field: Field, t: seq<Tally>, j: nat, x: Tally)
    requires j < |t|
    ensures Named(rows, field, t[j := x]) ==
      Named(rows, field, t)[j := Entry(x.key, WithAvg(x, FirstCell(rows, field, x.key)))]
  {
  }

  /** Naming is per entry: appending one tally appends one entry. */
  lemma NamedAppend(rows: seq<Post>, field: Field, t: seq<Tally>, x: Tally)
    ensures Named(rows, field, t + [x]) ==
      Named(rows, field, t) + [Entry(x.key, WithAvg(x, FirstCell(rows, field, x.key)))]
  {
  }

  /** One more row renames no entry whose key the earlier rows already had. */
  lemma NamedKept(rows: seq<Post>, field: Field, i: nat, t: seq<Tally>)
    requires i < |rows|
    requires |t| <= |Keys(Samples(rows[..i], field))|
    requires forall m :: 0 <= m < |t| ==> t[m].key == Keys(Samples(rows[..i], field))[m]
    ensures Named(rows[..i + 1], field, t) == Named(rows[..i], field, t)
  {
    var ks := Keys(Samples(rows[..i], field));
    forall m | 0 <= m < |t|
      ensures FirstCell(rows[..i + 1], field, t[m].key) == FirstCell(rows[..i], field, t[m].key)
    {
      assert t[m].key == ks[m];
      FirstCellSnoc(rows, field, i, t[m].key);
    }
  }

  /** The keys of the accumulator are the distinct keys of the rows, in order. */
  lemma EntryKeys(rows: seq<Post>, field: Field)
    ensures var t := Entries(rows, field);
      var ks := Keys(Samples(rows, field));
      |t| == |ks| && forall m :: 0 <= m < |t| ==> t[m].key == ks[m]
  {
  }

  /**
   * A row whose key already has an entry: that entry, keeping its name, gains
   * the row's engagements, one more count and the recomputed average.
   */
  lemma EntriesSnocFound(rows: seq<Post>, field: Field, i: nat, j: nat)
    requires i < |rows|
    requires FindEntry(Entries(rows[..i], field), KeyOf(rows[i], field)) == Some(j)
    ensures var t := Entries(rows[..i], field);
      Entries(rows[..i + 1], field) == t[j := Entry(KeyOf(rows[i], field), Add(t[j].value, rows[i].totalEngagements))]
  {
    var s := Samples(rows[..i], field);
    var k := KeyOf(rows[i], field);
    var v := rows[i].totalEngagements;
    EntryKeys(rows[..i], field);
    assert Keys(s)[j] == k;
    SamplesSnoc(rows, field, i);
    TalliesSnocFound(s, (k, v), j);
    NamedBump(rows, field, i, Tallies(s), j, v);
  }

  /** Bumping the tally of a key the earlier rows had bumps its entry and keeps its name. */
  lemma NamedBump(rows: seq<Post>, field: Field, i: nat, ts: seq<Tally>, j: nat, v: Option<int>)
    requires i < |rows| && j < |ts| <= |Keys(Samples(rows[..i], field))|
    requires forall m :: 0 <= m < |ts| ==> ts[m].key == Keys(Samples(rows[..i], field))[m]
    ensures var t := Named(rows[..i], field, ts);
      Named(rows[..i + 1], field, ts[j := Bump(ts[j], v)]) == t[j := Entry(ts[j].key, Add(t[j].value, v))]
  {
    var x := Bump(ts[j], v);
    NamedKept(rows, field, i, ts[j := x]);
    NamedUpdate(rows[..i], field, ts, j, x);
  }

  /** A row with a new key: an entry named after the row's cell is added, holding just that row. */
  lemma EntriesSnocNew(rows: seq<Post>, field: Field, i: nat)
    requires i < |rows|
    requires FindEntry(Entries(rows[..i], field), KeyOf(rows[i], field)).None?
    ensures Entries(rows[..i + 1], field) ==
      Entries(rows[..i], field) + [Entry(KeyOf(rows[i], field), Add(NewGroup(Cell(rows[i], field)), rows[i].totalEngagements))]
  {
    var s := Samples(rows[..i], field);
    var k := KeyOf(rows[i], field);
    var v := rows[i].totalEngagements;
    var ts := Tallies(s);
    EntryKeys(rows[..i], field);
    SamplesSnoc(rows, field, i);
    assert k !in Keys(s);
    TalliesSnocNew(s, (k, v));
    TalliesKeys(s);
    FirstCellSnoc(rows, field, i, k);
    NamedAppend(rows[..i + 1], field, ts, Bump(Fresh(k), v));
    NamedKept(rows, field, i, ts);
  }

  /** One row changes the accumulator exactly as the callback does. */
  lemma EntriesSnoc(rows: seq<Post>, field: Field, i: nat)
    requires i < |rows|
    ensures var t := Entries(rows[..i], field);
      var k := KeyOf(rows[i], field);
      var v := rows[i].totalEngagements;
      match FindEntry(t, k)
      case Some(j) => Entries(rows[..i + 1], field) == t[j := Entry(k, Add(t[j].value, v))]
      case None => Entries(rows[..i + 1], field) == t + [Entry(k, Add(NewGroup(Cell(rows[i], field)), v))]
  {
    match FindEntry(Entries(rows[..i], field), KeyOf(rows[i], field))
    case Some(j) => EntriesSnocFound(rows, field, i, j);
    case None => EntriesSnocNew(rows, field, i);
  }

  /** `data.reduce(...)` into `postTypeEngagement` (keyed by `post_type`). */
  method PostTypeEngagement(rows: seq<Post>) returns (acc: seq<Entry>)
    ensures acc == Entries(rows, PostType)
  {
    acc := GroupEngagement(rows, PostType);
  }

  /** `data.reduce(...)` into `genrePerformance` (keyed by `genre`; its `posts` is `count`). */
  method GenrePerformance(rows: seq<Post>) returns (acc: seq<Entry>)
    ensures acc == Entries(rows, Genre)
  {
    acc := GroupEngagement(rows, Genre);
  }

  function RowKeys(rows: seq<Post>, field: Field): seq<string> {
    seq(|rows|, i requires 0 <= i < |rows| => KeyOf(rows[i], field))
  }

  /**
   * A key has an entry exactly when some row carries it; the entry's count is
   * the number of rows with that key and its engagements the sum of theirs.
   */
  lemma GroupTableMeaning(rows: seq<Post>, field: Field, k: string)
    ensures var t := Entries(rows, field);
      && ((exists j :: 0 <= j < |t| && t[j].key == k) <==> k in RowKeys(rows, field))
      && forall j :: 0 <= j < |t| && t[j].key == k ==>
           && t[j].value.count == multiset(RowKeys(rows, field))[k]
           && t[j].value.engagements == Sum(Samples(rows, field), k)
  {
    var s := Samples(rows, field);
    var t := Entries(rows, field);
    assert KeyColumn(s) == RowKeys(rows, field);
    CountIsMultiplicity(s, k);
    KeysExact(s, k);
    if k in Keys(s) {
      var j :| 0 <= j < |Keys(s)| && Keys(s)[j] == k;
      assert t[j].key == k;
    }
  }

  /** The name of a key is the cell of the first row carrying that key. */
  lemma {:induction false} FirstCellAt(rows: seq<Post>, field: Field, i: nat)
    requires i < |rows|
    requires forall m :: 0 <= m < i ==> KeyOf(rows[m], field) != KeyOf(rows[i], field)
    ensures FirstCell(rows, field, KeyOf(rows[i], field)) == Cell(rows[i], field)
    decreases |rows|
  {
    var n := |rows| - 1;
    var p := rows[..n];
    var k := KeyOf(rows[i], field);
    KeysOccur(Samples(p, field), k);
    if i < n {
      assert Samples(p, field)[i].0 == k;
      assert forall m :: 0 <= m < i ==> p[m] == rows[m];
      FirstCellAt(p, field, i);
    } else {
      assert forall m :: 0 <= m < n ==> Samples(p, field)[m].0 == KeyOf(rows[m], field);
    }
  }

  /** A name read as a property key is the key it is stored under. */
  lemma {:induction false} FirstCellKey(rows: seq<Post>, field: Field, k: string)
    ensures FirstCell(rows, field, k).GetOr("undefined") == k
    decreases |rows|
  {
    if rows != [] {
      FirstCellKey(rows[..|rows| - 1], field, k);
    }
  }

  /**
   * Every entry is named by the cell of the first row carrying its key, so the
   * name is `undefined` exactly when that row's cell was missing, and the name
   * read as a property key is the entry's key.
   */
  lemma GroupNames(rows: seq<Post>, field: Field)
    ensures var t := Entries(rows, field);
      forall j :: 0 <= j < |t| ==>
        && t[j].value.name.GetOr("undefined") == t[j].key
        && forall i ::
             (&& 0 <= i < |rows| && KeyOf(rows[i], field) == t[j].key
              && forall m :: 0 <= m < i ==> KeyOf(rows[m], field) != t[j].key)
             ==> t[j].value.name == Cell(rows[i], field)
  {
    var t := Entries(rows, field);
    forall j | 0 <= j < |t|
      ensures t[j].value.name.GetOr("undefined") == t[j].key
    {
      FirstCellKey(rows, field, t[j].key);
    }
    forall i | 0 <= i < |rows| && forall m :: 0 <= m < i ==> KeyOf(rows[m], field) != KeyOf(rows[i], field)
      ensures FirstCell(rows, field, KeyOf(rows[i], field)) == Cell(rows[i], field)
    {
      FirstCellAt(rows, field, i);
    }
  }

  /**
   * The row `Papa.parse` makes of the CSV's final newline has neither a type
   * nor engagements: it is listed as `{name: undefined, engagements: NaN,
   * count: 1, avgEngagement: NaN}`.
   */
  lemma MissingCellNamed(p: Post, field: Field)
    requires Cell(p, field).None? && p.totalEngagements.None?
    ensures Values(Entries([p], field)) == [Group(None, None, 1, None)]
  {
    var s := Samples([p], field);
    assert s == [("undefined", None)];
    assert s[..0] == [];
    assert Keys(s) == ["undefined"];
    assert Count(s, "undefined") == 1;
    assert Sum(s, "undefined") == None;
    assert Tallies(s) == [Tally("undefined", None, 1)];
    assert [p][..0] == [];
    assert Samples([p][..0], field) == [];
    assert FirstCell([p], field, "undefined") == None;
    assert Entries([p], field) == [Entry("undefined", Group(None, None, 1, None))];
  }

  /** Every entry has a positive count, and its average times its count is its sum (`NaN` stays `NaN`). */
  lemma GroupAverages(rows: seq<Post>, field: Field)
    ensures var t := Values(Entries(rows, field));
      forall j :: 0 <= j < |t| ==>
        && t[j].count >= 1
        && (t[j].avgEngagement.None? <==> t[j].engagements.None?)
        && (t[j].engagements.Some? ==>
              t[j].avgEngagement.value * t[j].count as real == t[j].engagements.value as real)
  {
    var s := Samples(rows, field);
    forall j | 0 <= j < |Keys(s)|
      ensures Count(s, Keys(s)[j]) >= 1
    {
      KeysExact(s, Keys(s)[j]);
    }
  }

  function GroupCounts(t: seq<Group>): nat
    decreases |t|
  {
    if t == [] then 0 else GroupCounts(t[..|t| - 1]) + t[|t| - 1].count
  }

  lemma {:induction false} GroupCountsOfTallies(g: seq<Group>, t: seq<Tally>)
    requires |g| == |t| && forall j :: 0 <= j < |t| ==> g[j].count == t[j].count
    ensures GroupCounts(g) == TotalCount(t)
    decreases |t|
  {
    if t != [] {
      GroupCountsOfTallies(g[..|g| - 1], t[..|t| - 1]);
    }
  }

  /** The counts across all keys add up to the number of rows. */
  lemma GroupCountsCoverRows(rows: seq<Post>, field: Field)
    ensures GroupCounts(Values(Entries(rows, field))) == |rows|
  {
    var s := Samples(rows, field);
    GroupCountsOfTallies(Values(Entries(rows, field)), Tallies(s));
    CountsCoverSamples(s);
  }

  /**
   * The names `{}` inherits from `Object.prototype`. For each of them
   * `acc[name]` on the accumulator is already truthy (a function, or the
   * prototype itself for "__proto__").
   */
  const InheritedNames: set<string> := {
    "constructor", "__defineGetter__", "__defineSetter__", "hasOwnProperty",
    "__lookupGetter__", "__lookupSetter__", "isPrototypeOf", "propertyIsEnumerable",
    "toString", "valueOf", "__proto__", "toLocaleString" }

  /**
   * The group-by fold as the callback is written: for an inherited name the
   * `if (!acc[key])` test finds the inherited member, no own entry is created,
   * and the row's numbers are written onto that member, which
   * `Object.values(acc)` does not list. The row is lost from the table.
   */
  function TalliesAsWritten(s: seq<Sample>): seq<Tally>
    decreases |s|
  {
    if s == [] then []
    else
      var t := TalliesAsWritten(s[..|s| - 1]);
      if s[|s| - 1].0 in InheritedNames then t else Step(t, s[|s| - 1])
  }

  /** A single post whose type is "constructor" leaves the as-written table empty, where it should count once. */
  lemma InheritedKeyIsLost()
    ensures var s := [("constructor", Some(7))];
      && TalliesAsWritten(s) == []
      && TotalCount(TalliesAsWritten(s)) == 0 != |s|
      && Tallies(s) == [Tally("constructor", Some(7), 1)]
  {
    var s: seq<Sample> := [("constructor", Some(7))];
    assert s[..0] == [];
    assert Keys(s) == ["constructor"];
  }

  // ---------------------------------------------------------------------------
  // sentimentAnalysis

  datatype Sentiment = Positive | Neutral | Negative

  function SentimentOf(p: Post, c: Sentiment): Option<real> {
    match c
    case Positive => p.positiveSentiment
    case Neutral => p.neutralSentiment
    case Negative => p.negativeSentiment
  }

  /** JavaScript `+` on numbers that may be `NaN`. */
  function AddReal(a: Option<real>, b: Option<real>): Option<real> {
    if a.None? || b.None? then None else Some(a.value + b.value)
  }

  /** The column total, starting from 0. */
  function SentimentSum(rows: seq<Post>, c: Sentiment): Option<real>
    decreases |rows|
  {
    if rows == [] then Some(0.0)
    else AddReal(SentimentSum(rows[..|rows| - 1], c), SentimentOf(rows[|rows| - 1], c))
  }

  /** `{positive, neutral, negative, count}` */
  datatype SentimentTotals = SentimentTotals(positive: Option<real>, neutral: Option<real>, negative: Option<real>, count: nat)

  /** `data.reduce(...)` into `sentimentAnalysis`. */
  method SentimentAnalysis(rows: seq<Post>) returns (acc: SentimentTotals)
    ensures acc.count == |rows|
    ensures acc.positive == SentimentSum(rows, Positive)
    ensures acc.neutral == SentimentSum(rows, Neutral)
    ensures acc.negative == SentimentSum(rows, Negative)
  {
    acc := SentimentTotals(Some(0.0), Some(0.0), Some(0.0), 0);
    var i := 0;
    while i < |rows|
      invariant 0 <= i <= |rows|
      invariant acc == SentimentTotals(SentimentSum(rows[..i], Positive), SentimentSum(rows[..i], Neutral),
                                       SentimentSum(rows[..i], Negative), i)
    {
      assert rows[..i + 1][..i] == rows[..i];
      acc := acc.(positive := AddReal(acc.positive, rows[i].positiveSentiment));
      acc := acc.(neutral := AddReal(acc.neutral, rows[i].neutralSentiment));
      acc := acc.(negative := AddReal(acc.negative, rows[i].negativeSentiment));
      acc := acc.(count := acc.count + 1);
      i := i + 1;
    }
    assert rows[..|rows|] == rows;
  }

  /** A column total is `NaN` exactly when some row's cell is. */
  lemma {:induction false} SentimentSumNaN(rows: seq<Post>, c: Sentiment)
    ensures SentimentSum(rows, c).None? <==> exists i :: 0 <= i < |rows| && SentimentOf(rows[i], c).None?
    decreases |rows|
  {
    if rows != [] {
      var p := rows[..|rows| - 1];
      SentimentSumNaN(p, c);
      assert forall i :: 0 <= i < |p| ==> p[i] == rows[i];
    }
  }

  // ---------------------------------------------------------------------------
  // deviceUsage and deviceData

  datatype Device = Mobile | Desktop | Tablet

  function DeviceOf(p: Post, d: Device): Option<real> {
    match d
    case Mobile => p.deviceMobile
    case Desktop => p.deviceDesktop
    case Tablet => p.deviceTablet
  }

  /** `parseFloat(cell) || 0`: a `NaN` cell counts as 0 (so does a 0 cell). */
  function Share(v: Option<real>): real {
    v.GetOr(0.0)
  }

  function DeviceSum(rows: seq<Post>, d: Device): real
    decreases |rows|
  {
    if rows == [] then 0.0
    else DeviceSum(rows[..|rows| - 1], d) + Share(DeviceOf(rows[|rows| - 1], d))
  }

  /** `{mobile, desktop, tablet, total}` */
  datatype DeviceUsage = DeviceUsage(mobile: real, desktop: real, tablet: real, total: nat)

  /** `data.reduce(...)` into `deviceUsage`. */
  method DeviceTotals(rows: seq<Post>) returns (acc: DeviceUsage)
    ensures acc.total == |rows|
    ensures acc.mobile == DeviceSum(rows, Mobile)
    ensures acc.desktop == DeviceSum(rows, Desktop)
    ensures acc.tablet == DeviceSum(rows, Tablet)
  {
    acc := DeviceUsage(0.0, 0.0, 0.0, 0);
    var i := 0;
    while i < |rows|
      invariant 0 <= i <= |rows|
      invariant acc == DeviceUsage(DeviceSum(rows[..i], Mobile), DeviceSum(rows[..i], Desktop),
                                   DeviceSum(rows[..i], Tablet), i)
    {
      assert rows[..i + 1][..i] == rows[..i];
      var mobile := Share(rows[i].deviceMobile);
      var desktop := Share(rows[i].deviceDesktop);
      var tablet := Share(rows[i].deviceTablet);
      acc := acc.(mobile := acc.mobile + mobile);
      acc := acc.(desktop := acc.desktop + desktop);
      acc := acc.(tablet := acc.tablet + tablet);
      acc := acc.(total := acc.total + 1);
      i := i + 1;
    }
    assert rows[..|rows|] == rows;
  }

  /** One slice of the device pie chart. */
  datatype Slice = Slice(name: string, value: real)

  function GuardedAverage(sum: real, total: nat): real {
    if total > 0 then sum / total as real else 0.0
  }

  /** `deviceData`: Mobile, Desktop, Tablet, each the average share, or 0 when there are no rows. */
  function DeviceData(u: DeviceUsage): (r: seq<Slice>)
    ensures |r| == 3 && r[0].name == "Mobile" && r[1].name == "Desktop" && r[2].name == "Tablet"
    ensures u.total == 0 ==> r[0].value == 0.0 && r[1].value == 0.0 && r[2].value == 0.0
    ensures u.total > 0 ==>
      && r[0].value * u.total as real == u.mobile
      && r[1].value * u.total as real == u.desktop
      && r[2].value * u.total as real == u.tablet
  {
    [ Slice("Mobile", GuardedAverage(u.mobile, u.total)),
      Slice("Desktop", GuardedAverage(u.desktop, u.total)),
      Slice("Tablet", GuardedAverage(u.tablet, u.total)) ]
  }

  lemma {:induction false} DeviceSumBounded(rows: seq<Post>, d: Device)
    requires forall i :: 0 <= i < |rows| ==> 0.0 <= Share(DeviceOf(rows[i], d)) <= 100.0
    ensures 0.0 <= DeviceSum(rows, d) <= 100.0 * |rows| as real
    decreases |rows|
  {
    if rows != [] {
      DeviceSumBounded(rows[..|rows| - 1], d);
    }
  }

  /** When every cell that parses is a percentage, every slice of the chart is a percentage. */
  lemma DeviceDataBounded(rows: seq<Post>)
    requires forall i, d :: 0 <= i < |rows| && DeviceOf(rows[i], d).Some? ==>
      0.0 <= DeviceOf(rows[i], d).value <= 100.0
    ensures var u := DeviceUsage(DeviceSum(rows, Mobile), DeviceSum(rows, Desktop), DeviceSum(rows, Tablet), |rows|);
      forall k :: 0 <= k < 3 ==> 0.0 <= DeviceData(u)[k].value <= 100.0
  {
    DeviceSumBounded(rows, Mobile);
    DeviceSumBounded(rows, Desktop);
    DeviceSumBounded(rows, Tablet);
    var n := |rows| as real;
    if |rows| > 0 {
      AverageBounded(DeviceSum(rows, Mobile), n);
      AverageBounded(DeviceSum(rows, Desktop), n);
      AverageBounded(DeviceSum(rows, Tablet), n);
    }
  }

  lemma AverageBounded(sum: real, n: real)
    requires n > 0.0 && 0.0 <= sum <= 100.0 * n
    ensures 0.0 <= sum / n <= 100.0
  {
  }

  // ---------------------------------------------------------------------------
  // timeEngagement and the date-ordered series

  /** What `new Date(...)` is given: `new Date(year, month - 1, day)` or `new Date(dateStr)`. */
  datatype DateInput =
    | FromParts(month: Option<string>, day: Option<string>, year: Option<string>)
    | FromText(text: string)

  /** Array destructuring: a missing element is `undefined`. */
  function PartAt(parts: seq<string>, i: nat): Option<string> {
    if i < |parts| then Some(parts[i]) else None
  }

  /** A date with "/" is split as month/day/year; anything else goes to the date parser whole. */
  function ToDateInput(dateStr: string): DateInput {
    if '/' in dateStr then
      var parts := Split(dateStr, '/');
      FromParts(PartAt(parts, 0), PartAt(parts, 1), PartAt(parts, 2))
    else FromText(dateStr)
  }

  /** "MM/DD/YYYY" is read as month, day and year, in that order. */
  lemma SlashDateOrder(month: string, day: string, year: string)
    requires '/' !in month && '/' !in day && '/' !in year
    ensures ToDateInput(month + "/" + day + "/" + year) == FromParts(Some(month), Some(day), Some(year))
  {
    var parts := [month, day, year];
    var s := month + "/" + day + "/" + year;
    assert Join(parts, "/") == s by {
      assert parts[1..] == [day, year];
      assert parts[1..][1..] == [year];
      assert Join([day, year], "/") == day + "/" + year;
      assert s == month + "/" + (day + "/" + year);
    }
    SplitJoin(parts, '/');
    assert s[|month|] == '/';
  }

  /**
   * The bucket key of a row: `date.toISOString().split("T")[0]`, or `None`
   * when `posted_at` is missing (the `includes` call throws and the catch
   * skips the row) or the date is invalid. `dateKey` stands for the
   * JavaScript `Date` construction and formatting.
   */
  function BucketKey(p: Post, dateKey: DateInput -> Option<string>): Option<string> {
    if p.postedAt.None? then None else dateKey(ToDateInput(p.postedAt.value))
  }

  /** The samples of the rows that land in a bucket, in row order. */
  function DatedSamples(rows: seq<Post>, dateKey: DateInput -> Option<string>): seq<Sample>
    decreases |rows|
  {
    if rows == [] then []
    else
      var prior := DatedSamples(rows[..|rows| - 1], dateKey);
      var last := rows[|rows| - 1];
      match BucketKey(last, dateKey)
      case None => prior
      case Some(key) => prior + [(key, last.totalEngagements)]
  }

  /** The samples of one more row: one more sample when the row has a valid date, none otherwise. */
  lemma DatedSamplesSnoc(rows: seq<Post>, dateKey: DateInput -> Option<string>, i: nat)
    requires i < |rows|
    ensures DatedSamples(rows[..i + 1], dateKey) ==
      match BucketKey(rows[i], dateKey)
      case None => DatedSamples(rows[..i], dateKey)
      case Some(key) => DatedSamples(rows[..i], dateKey) + [(key, rows[i].totalEngagements)]
  {
    assert rows[..i + 1][..i] == rows[..i];
  }

  /**
   * The `timeEngagement` reduce callback: a row without a valid date leaves
   * `acc` alone; otherwise the bucket of its day is created when missing, then
   * gains the row's engagements and one more post, in place.
   */
  method BucketCallback(acc: seq<Tally>, post: Post, dateKey: DateInput -> Option<string>) returns (r: seq<Tally>)
    ensures match BucketKey(post, dateKey)
      case None => r == acc
      case Some(key) => r == Step(acc, (key, post.totalEngagements))
  {
    r := acc;
    if post.postedAt.None? {
      // `dateStr.includes` throws on `undefined`; the catch returns `acc`
      return;
    }
    var date := dateKey(ToDateInput(post.postedAt.value));
    if date.None? {
      return;
    }
    var key := date.value;
    var found := FindKey(r, key);
    var j: nat;
    if found.None? {
      r := r + [Tally(key, Some(0), 0)];
      j := |r| - 1;
    } else {
      j := found.value;
    }
    var bucket := r[j];
    bucket := bucket.(engagements := AddNum(bucket.engagements, post.totalEngagements));
    bucket := bucket.(count := bucket.count + 1);
    r := r[j := bucket];
  }

  /** One row changes the buckets exactly as the callback does. */
  lemma BucketsSnoc(rows: seq<Post>, dateKey: DateInput -> Option<string>, i: nat)
    requires i < |rows|
    ensures var t := Tallies(DatedSamples(rows[..i], dateKey));
      match BucketKey(rows[i], dateKey)
      case None => Tallies(DatedSamples(rows[..i + 1], dateKey)) == t
      case Some(key) => Tallies(DatedSamples(rows[..i + 1], dateKey)) == Step(t, (key, rows[i].totalEngagements))
  {
    DatedSamplesSnoc(rows, dateKey, i);
    match BucketKey(rows[i], dateKey)
    case None =>
    case Some(key) => TalliesSnoc(DatedSamples(rows[..i], dateKey), (key, rows[i].totalEngagements));
  }

  /** `data.reduce(...)` into `timeEngagement`: buckets `{date, engagements, posts}`. */
  method TimeEngagement(rows: seq<Post>, dateKey: DateInput -> Option<string>) returns (acc: seq<Tally>)
    ensures acc == Tallies(DatedSamples(rows, dateKey))
  {
    acc := [];
    var i := 0;
    while i < |rows|
      invariant 0 <= i <= |rows|
      invariant acc == Tallies(DatedSamples(rows[..i], dateKey))
    {
      BucketsSnoc(rows, dateKey, i);
      acc := BucketCallback(acc, rows[i], dateKey);
      i := i + 1;
    }
    assert rows[..|rows|] == rows;
  }

  /** A row bucketed on a valid date contributes one post; invalid rows contribute none. */
  lemma {:induction false} DatedSamplesBounded(rows: seq<Post>, dateKey: DateInput -> Option<string>)
    ensures |DatedSamples(rows, dateKey)| <= |rows|
    ensures |DatedSamples(rows, dateKey)| == |rows| <==>
      forall i :: 0 <= i < |rows| ==> BucketKey(rows[i], dateKey).Some?
    decreases |rows|
  {
    if rows != [] {
      var p := rows[..|rows| - 1];
      DatedSamplesBounded(p, dateKey);
      assert forall i :: 0 <= i < |p| ==> p[i] == rows[i];
    }
  }

  /** The bucket posts add up to at most the number of rows, and to exactly that when every date is valid. */
  lemma BucketPostsBounded(rows: seq<Post>, dateKey: DateInput -> Option<string>)
    ensures TotalCount(Tallies(DatedSamples(rows, dateKey))) <= |rows|
    ensures TotalCount(Tallies(DatedSamples(rows, dateKey))) == |rows| <==>
      forall i :: 0 <= i < |rows| ==> BucketKey(rows[i], dateKey).Some?
  {
    CountsCoverSamples(DatedSamples(rows, dateKey));
    DatedSamplesBounded(rows, dateKey);
  }

  /** Ascending by the time each bucket's date denotes (`when` is `new Date(date)` in milliseconds). */
  predicate SortedByDate(bs: seq<Tally>, when: string -> int) {
    forall i, j :: 0 <= i < j < |bs| ==> when(bs[i].key) <= when(bs[j].key)
  }

  function InsertByDate(b: Tally, bs: seq<Tally>, when: string -> int): (r: seq<Tally>)
    requires SortedByDate(bs, when)
    ensures SortedByDate(r, when)
    ensures multiset(r) == multiset(bs) + multiset{b}
  {
    if bs == [] then [b]
    else if when(b.key) <= when(bs[0].key) then
      SortedCons(b, bs, when);
      [b] + bs
    else
      var rest := InsertByDate(b, bs[1..], when);
      InsertBehind(b, bs, rest, when);
      [bs[0]] + rest
  }

  /** A bucket later than the first goes behind it: the first stays in front of the rest with the bucket inserted. */
  lemma InsertBehind(b: Tally, bs: seq<Tally>, rest: seq<Tally>, when: string -> int)
    requires bs != [] && SortedByDate(bs, when) && when(bs[0].key) < when(b.key)
    requires SortedByDate(rest, when) && multiset(rest) == multiset(bs[1..]) + multiset{b}
    ensures SortedByDate([bs[0]] + rest, when)
    ensures multiset([bs[0]] + rest) == multiset(bs) + multiset{b}
  {
    assert bs == [bs[0]] + bs[1..];
    BoundKept(when(bs[0].key), bs[1..], b, rest, when);
    SortedCons(bs[0], rest, when);
  }

  /** A bucket no later than every bucket of a sorted series can go in front of it. */
  lemma SortedCons(x: Tally, bs: seq<Tally>, when: string -> int)
    requires SortedByDate(bs, when)
    requires forall i :: 0 <= i < |bs| ==> when(x.key) <= when(bs[i].key)
    ensures SortedByDate([x] + bs, when)
  {
    var r := [x] + bs;
    forall i, j | 0 <= i < j < |r|
      ensures when(r[i].key) <= when(r[j].key)
    {
      assert r[j] == bs[j - 1];
      if i > 0 {
        assert r[i] == bs[i - 1];
      }
    }
  }

  /** A lower bound on every element of `bs` and on `b` is one on every element of a series holding exactly those. */
  lemma BoundKept(lo: int, bs: seq<Tally>, b: Tally, r: seq<Tally>, when: string -> int)
    requires forall i :: 0 <= i < |bs| ==> lo <= when(bs[i].key)
    requires lo <= when(b.key)
    requires multiset(r) == multiset(bs) + multiset{b}
    ensures forall i :: 0 <= i < |r| ==> lo <= when(r[i].key)
  {
    forall i | 0 <= i < |r|
      ensures lo <= when(r[i].key)
    {
      assert r[i] in multiset(r);
      if r[i] != b {
        assert r[i] in multiset(bs);
        var k :| 0 <= k < |bs| && bs[k] == r[i];
      }
    }
  }

  /** `Object.values(timeEngagement).sort((a, b) => new Date(a.date) - new Date(b.date))` */
  function SortByDate(bs: seq<Tally>, when: string -> int): (r: seq<Tally>)
    ensures SortedByDate(r, when)
    ensures multiset(r) == multiset(bs)
  {
    if bs == [] then []
    else
      assert bs == [bs[0]] + bs[1..];
      InsertByDate(bs[0], SortByDate(bs[1..], when), when)
  }
}
