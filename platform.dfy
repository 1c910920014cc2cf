/**
 * The in-memory logic of the dashboard controller in main.js (class `AIChatbotPlatform`):
 * the interaction cache and how it is refreshed, lookups, the request a save sends, the
 * tag filter and text search that decide which rows are shown, the statistics cards, the
 * per-topic counts behind the chart and the body formatter.  The DOM inputs the filters
 * read are fields of the controller.
 */
module Platform {
  import opened Options
  import opened Text
  import opened Seqs

  /** A cached interaction.  `title` and `content` are `None` when the stored row lacks them or
      holds `null` there: the interactions handler stores request bodies as they are.  `tags` is
      the comma-separated string the server stores; an empty string and a missing value behave
      alike everywhere it is read.  `createdDate` is the time `new Date(created_date)` denotes,
      in milliseconds. */
  datatype Interaction = Interaction(id: int, title: Option<string>, content: Option<string>, tags: string, createdDate: int)

  // ---------------------------------------------------------------- tags

  /** Trims and lowercases every piece. */
  function Normalize(parts: seq<string>): (r: seq<string>)
    ensures |r| == |parts|
    ensures forall k :: 0 <= k < |parts| ==> r[k] == ToLower(Trim(parts[k]))
  {
    if parts == [] then [] else [ToLower(Trim(parts[0]))] + Normalize(parts[1..])
  }

  /** `tags ? tags.split(',').map(t => t.trim().toLowerCase()) : []`: one tag per
      comma-separated piece, none for an empty string. */
  function TagList(tags: string): (r: seq<string>)
    ensures tags == "" ==> r == []
    ensures tags != "" ==> |r| == multiset(tags)[','] + 1
  {
    if tags == "" then []
    else
      SplitCount(tags, ',');
      Normalize(Split(tags, ','))
  }

  /** When the tag string is a list of comma-free entries joined by commas, its tags are those
      entries trimmed and lowercased. */
  lemma TagListOfJoin(entries: seq<string>)
    requires |entries| >= 1 && Join(entries, ',') != ""
    requires forall k :: 0 <= k < |entries| ==> ',' !in entries[k]
    ensures TagList(Join(entries, ',')) == Normalize(entries)
  {
    SplitJoin(entries, ',');
  }

  /** `filterLogic`: everything passes an empty or 'all' filter; otherwise some tag must equal
      the lowercased filter. */
  predicate FilterAccepts(filter: string, it: Interaction) {
    filter == "" || filter == "all" || ToLower(filter) in TagList(it.tags)
  }

  /** For a tag string of comma-free entries joined by commas, a real filter accepts exactly
      when one of the entries, trimmed and lowercased, equals the lowercased filter. */
  lemma FilterAcceptsEntries(filter: string, it: Interaction, entries: seq<string>)
    requires filter != "" && filter != "all"
    requires |entries| >= 1 && it.tags == Join(entries, ',') && it.tags != ""
    requires forall k :: 0 <= k < |entries| ==> ',' !in entries[k]
    ensures FilterAccepts(filter, it) <==> exists k :: 0 <= k < |entries| && ToLower(Trim(entries[k])) == ToLower(filter)
  {
    TagListOfJoin(entries);
    InNormalize(ToLower(filter), entries);
  }

  lemma InNormalize(x: string, entries: seq<string>)
    ensures x in Normalize(entries) <==> exists k :: 0 <= k < |entries| && ToLower(Trim(entries[k])) == x
  {
    var tags := Normalize(entries);
    if x in tags {
      var k :| 0 <= k < |tags| && tags[k] == x;
      assert ToLower(Trim(entries[k])) == x;
    }
  }

  /** `searchLogic`, evaluated as JavaScript does, with `None` where it throws.  With a
      non-empty term both `title.toLowerCase()` and `content.toLowerCase()` are evaluated
      before the `||`, so a missing title or content throws whatever else would match. */
  function SearchResult(search: string, it: Interaction): (r: Option<bool>)
    ensures r.None? <==> search != "" && (it.title.None? || it.content.None?)
    ensures search == "" ==> r == Some(true)
  {
    var term := ToLower(search);
    assert term == "" <==> search == "";
    if term == "" then Some(true)
    else match (it.title, it.content)
      case (Some(t), Some(c)) =>
        Some(Includes(ToLower(t), term) || Includes(ToLower(c), term)
          || (it.tags != "" && Includes(ToLower(it.tags), term)))
      case _ => None
  }

  /** The search keeps the interaction. */
  predicate SearchAccepts(search: string, it: Interaction) {
    SearchResult(search, it) == Some(true)
  }

  /** The search accepts exactly when the term is empty or, with title and content present,
      occurs ignoring case in the title, the content or the tag string. */
  lemma SearchAcceptsMeaning(search: string, it: Interaction)
    ensures SearchAccepts(search, it) <==>
      || search == ""
      || (&& it.title.Some? && it.content.Some?
          && (|| IsSubstring(ToLower(search), ToLower(it.title.value))
              || IsSubstring(ToLower(search), ToLower(it.content.value))
              || (it.tags != "" && IsSubstring(ToLower(search), ToLower(it.tags)))))
  {
    var term := ToLower(search);
    if term != "" && it.title.Some? && it.content.Some? {
      var a := Includes(ToLower(it.title.value), term);
      var b := Includes(ToLower(it.content.value), term);
      if it.tags != "" {
        var c := Includes(ToLower(it.tags), term);
      }
    }
  }

  /** Both tests together. */
  predicate Shown(filter: string, search: string, it: Interaction) {
    FilterAccepts(filter, it) && SearchAccepts(search, it)
  }

  function ByTag(filter: string): Interaction -> bool {
    it => FilterAccepts(filter, it)
  }

  function ByText(search: string): Interaction -> bool {
    it => SearchAccepts(search, it)
  }

  function ByBoth(filter: string, search: string): Interaction -> bool {
    it => Shown(filter, search, it)
  }

  /** The filter chain of `renderInteractions`: `.filter(filterLogic).filter(searchLogic)`.
      `None` when the search throws on one of the rows the tag filter kept; otherwise the rows
      kept are, in their order and with their repetitions, exactly the interactions accepted
      by both tests. */
  function Project(xs: seq<Interaction>, filter: string, search: string): (r: Option<seq<Interaction>>)
    ensures r.None? <==> exists i :: 0 <= i < |xs| && FilterAccepts(filter, xs[i]) && SearchResult(search, xs[i]).None?
    ensures r.Some? ==> r.value == Filter(xs, ByBoth(filter, search))
    ensures r.Some? ==> IsSubsequence(r.value, xs) && |r.value| == CountWhere(xs, ByBoth(filter, search))
    ensures r.Some? ==> forall it :: it in r.value <==> it in xs && Shown(filter, search, it)
  {
    var tagged := Filter(xs, ByTag(filter));
    FilterMembers(xs, ByTag(filter));
    if exists i :: 0 <= i < |tagged| && SearchResult(search, tagged[i]).None? then
      var i :| 0 <= i < |tagged| && SearchResult(search, tagged[i]).None?;
      assert tagged[i] in xs;
      None
    else
      assert forall j :: 0 <= j < |xs| && FilterAccepts(filter, xs[j]) ==> xs[j] in tagged;
      FilterThenFilter(xs, ByTag(filter), ByText(search), ByBoth(filter, search));
      FilterMembers(xs, ByBoth(filter, search));
      Some(Filter(tagged, ByText(search)))
  }

  /** Projecting the rows a projection shows changes nothing. */
  lemma ProjectIdempotent(xs: seq<Interaction>, filter: string, search: string)
    requires Project(xs, filter, search).Some?
    ensures Project(Project(xs, filter, search).value, filter, search) == Project(xs, filter, search)
  {
    var r := Project(xs, filter, search).value;
    assert forall i :: 0 <= i < |r| ==> ByBoth(filter, search)(r[i]);
    FilterAll(r, ByBoth(filter, search));
  }

  /** With the filter at 'all' and an empty search every interaction is shown, in order. */
  lemma ProjectCleared(xs: seq<Interaction>)
    ensures Project(xs, "all", "") == Some(xs)
  {
    FilterAll(xs, ByBoth("all", ""));
  }

  /** What the table shows: the placeholder row, the rows in cache order, or nothing at all
      when the search threw after the table body had been emptied. */
  datatype View = NoInteractionsFound | Rows(items: seq<Interaction>) | Cleared

  function ViewOf(rows: seq<Interaction>): (v: View)
    ensures v.NoInteractionsFound? <==> rows == []
    ensures v.Rows? ==> v.items == rows
  {
    if rows == [] then NoInteractionsFound else Rows(rows)
  }

  // ---------------------------------------------------------------- save request

  const InteractionsEndpoint := "/api/interactions"

  /** The JSON body `saveInteraction` sends; `id` only on an update. */
  datatype SaveBody = SaveBody(title: string, content: string, tags: string, id: Option<string>)

  datatype ClientRequest = ClientRequest(httpMethod: string, url: string, body: SaveBody)

  /** The request `saveInteraction` builds from the form: an empty id creates with POST to the
      collection; any other id updates with PUT to `collection/id` and repeats the id in the body. */
  function SaveRequest(formId: string, title: string, content: string, tags: string): (r: ClientRequest)
    ensures formId == "" ==> r == ClientRequest("POST", InteractionsEndpoint, SaveBody(title, content, tags, None))
    ensures formId != "" ==> r == ClientRequest("PUT", InteractionsEndpoint + "/" + formId, SaveBody(title, content, tags, Some(formId)))
  {
    var isNew := formId == "";
    var body := SaveBody(title, content, tags, None);
    if isNew then ClientRequest("POST", InteractionsEndpoint, body)
    else ClientRequest("PUT", InteractionsEndpoint + "/" + formId, body.(id := Some(formId)))
  }

  // ---------------------------------------------------------------- statistics

  function TagsOf(it: Interaction): seq<string> {
    TagList(it.tags)
  }

  /** Every tag occurrence over all interactions, in order. */
  function AllTags(xs: seq<Interaction>): seq<string> {
    FlatMap(xs, TagsOf)
  }

  /** The distinct tags (`new Set(...)`). */
  function TagSet(xs: seq<Interaction>): set<string> {
    set t | t in AllTags(xs)
  }

  /** A tag is counted exactly when some interaction carries it. */
  lemma TagSetMembers(xs: seq<Interaction>, t: string)
    ensures t in TagSet(xs) <==> exists i :: 0 <= i < |xs| && t in TagList(xs[i].tags)
  {
    FlatMapMembers(xs, TagsOf, t);
  }

  /** `content ? content.split(/\s+/).length : 0`. */
  function WordCount(content: string): nat {
    if content == "" then 0 else |SplitSpaces(content)|
  }

  /** A non-empty content counts one word more than it has runs of spaces. */
  lemma WordCountRuns(content: string)
    requires content != ""
    ensures WordCount(content) == SpaceRuns(content) + 1
  {
    SplitSpacesMeaning(content);
  }

  function TotalWords(xs: seq<Interaction>): nat {
    if xs == [] then 0
    else (match xs[0].content case Some(c) => WordCount(c) case None => 0) + TotalWords(xs[1..])
  }

  /** `Math.round(w / n)` for `n > 0`: halves round up. */
  function RoundedRatio(w: nat, n: nat): (r: nat)
    requires n > 0
    ensures 2 * w - n < 2 * n * r <= 2 * w + n
  {
    var r := (2 * w + n) / (2 * n);
    assert 2 * n * r <= 2 * w + n < 2 * n * r + 2 * n by {
      assert (2 * w + n) == (2 * n) * r + (2 * w + n) % (2 * n);
    }
    r
  }

  /** The bounds of `RoundedRatio` pin the result down. */
  lemma RoundedRatioUnique(w: nat, n: nat, r: nat)
    requires n > 0
    requires 2 * w - n < 2 * n * r <= 2 * w + n
    ensures r == RoundedRatio(w, n)
  {
    var q := RoundedRatio(w, n);
    assert 2 * n * r - 2 * n * q == 2 * n * (r - q);
    ScaledZero(2 * n, r - q);
  }

  lemma ScaledZero(m: int, e: int)
    requires m > 0 && -m < m * e < m
    ensures e == 0
  {
    if e > 0 {
      MulAtLeast(m, e);
    }
  }

  lemma {:induction false} MulAtLeast(m: nat, e: nat)
    requires e >= 1
    ensures m * e >= m
  {
    if e > 1 {
      MulAtLeast(m, e - 1);
      assert m * e == m * (e - 1) + m;
    }
  }

  /** The four statistics cards. */
  datatype StatsView = StatsView(totalInteractions: nat, totalTags: nat, activeUsers: nat, averageLength: nat)

  /** `updateStats`: the interaction count, the number of distinct tags, the fixed user count
      and the rounded mean word count (0 for an empty cache). */
  function Stats(xs: seq<Interaction>): (s: StatsView)
    ensures s.totalInteractions == |xs| && s.totalTags == |TagSet(xs)| && s.activeUsers == 5
    ensures xs == [] ==> s.averageLength == 0
    ensures xs != [] ==> 2 * TotalWords(xs) - |xs| < 2 * |xs| * s.averageLength <= 2 * TotalWords(xs) + |xs|
  {
    StatsView(|xs|, |TagSet(xs)|, 5, if |xs| > 0 then RoundedRatio(TotalWords(xs), |xs|) else 0)
  }

  // ---------------------------------------------------------------- topic chart

  /** Keys JavaScript treats as array indices: canonical decimals below 2^32 - 1.  Plain
      objects enumerate these first, in increasing numeric order. */
  predicate IsArrayIndex(k: string) {
    && |k| > 0
    && (forall i :: 0 <= i < |k| ==> '0' <= k[i] <= '9')
    && (k == "0" || k[0] != '0')
    && DecimalValue(k) < 0x1_0000_0000 - 1
  }

  function DecimalValue(k: string): nat {
    if k == [] then 0
    else
      var d := k[|k| - 1] as int - '0' as int;
      10 * DecimalValue(k[..|k| - 1]) + (if 0 <= d <= 9 then d else 0)
  }

  /** `Object.entries` order of the keys in insertion order `keys`: array indices ascending,
      then the other keys as inserted. */
  function PropertyOrder(keys: seq<string>): (r: seq<string>)
    ensures multiset(r) == multiset(keys)
  {
    var indices := Filter(keys, IsArrayIndex);
    var others := Filter(keys, k => !IsArrayIndex(k));
    FilterPartition(keys, IsArrayIndex, k => !IsArrayIndex(k));
    SortDesc(indices, (k: string) => -(DecimalValue(k) as int)) + others
  }

  /** One slice of the topic chart. */
  datatype TopicSlice<K> = TopicSlice(name: K, value: nat)

  function SliceValue<K(!new)>(e: TopicSlice<K>): int {
    e.value
  }

  /** `Object.entries(tagCounts)` for the keys in `order`. */
  function Entries<K(!new)>(order: seq<K>, counts: map<K, nat>): (r: seq<TopicSlice<K>>)
    requires forall i :: 0 <= i < |order| ==> order[i] in counts
    ensures |r| == |order|
    ensures forall i :: 0 <= i < |order| ==> r[i] == TopicSlice(order[i], counts[order[i]])
  {
    if order == [] then [] else [TopicSlice(order[0], counts[order[0]])] + Entries(order[1..], counts)
  }

  function Min(a: int, b: int): int {
    if a <= b then a else b
  }

  /** `.sort(([, a], [, b]) => b - a).slice(0, 5)`: at most five of the entries, by
      non-increasing count. */
  function TopFive<K(!new)>(entries: seq<TopicSlice<K>>): (r: seq<TopicSlice<K>>)
    ensures |r| == Min(5, |entries|)
    ensures forall i, j :: 0 <= i < j < |r| ==> r[i].value >= r[j].value
    ensures multiset(r) <= multiset(entries)
  {
    var sorted := SortDesc(entries, SliceValue);
    var m := Min(5, |sorted|);
    assert sorted == sorted[..m] + sorted[m..];
    assert forall i, j :: 0 <= i < j < m ==> SliceValue(sorted[i]) >= SliceValue(sorted[j]);
    sorted[..m]
  }

  /** The chart is as long as there are distinct tags, up to five; it is ordered by
      non-increasing count; each slice carries a distinct tag and its true number of
      occurrences; and no tag left out occurs more often than the smallest slice. */
  ghost predicate IsTopChart<K(!new)>(chart: seq<TopicSlice<K>>, tags: seq<K>) {
    && |chart| == Min(5, |set t | t in tags|)
    && (forall i, j :: 0 <= i < j < |chart| ==> chart[i].value >= chart[j].value)
    && (forall i :: 0 <= i < |chart| ==> chart[i].name in tags && chart[i].value == multiset(tags)[chart[i].name])
    && (forall i, j :: 0 <= i < j < |chart| ==> chart[i].name != chart[j].name)
    && (forall t :: t in tags && (forall i :: 0 <= i < |chart| ==> chart[i].name != t) ==>
          0 < |chart| && multiset(tags)[t] <= chart[|chart| - 1].value)
  }

  /** No tag names two slices. */
  ghost predicate NamesDistinct<K(!new)>(s: seq<TopicSlice<K>>) {
    forall i, j :: 0 <= i < j < |s| ==> s[i].name != s[j].name
  }

  /** Every slice names a tag of `tags` with its number of occurrences. */
  ghost predicate TrueCounts<K(!new)>(s: seq<TopicSlice<K>>, tags: seq<K>) {
    forall i :: 0 <= i < |s| ==> s[i].name in tags && s[i].value == multiset(tags)[s[i].name]
  }

  /** Every tag has a slice. */
  ghost predicate Covers<K(!new)>(s: seq<TopicSlice<K>>, tags: seq<K>) {
    forall t :: t in tags ==> exists i :: 0 <= i < |s| && s[i].name == t
  }

  /** One slice per tag, with its true count. */
  ghost predicate AllSlices<K(!new)>(s: seq<TopicSlice<K>>, tags: seq<K>) {
    NamesDistinct(s) && TrueCounts(s, tags) && Covers(s, tags) && |s| == |set t | t in tags|
  }

  lemma TopFiveCorrect<K(!new)>(order: seq<K>, counts: map<K, nat>, tags: seq<K>)
    requires multiset(order) == multiset(Dedup(tags))
    requires forall i :: 0 <= i < |order| ==> order[i] in counts && counts[order[i]] == multiset(tags)[order[i]]
    ensures IsTopChart(TopFive(Entries(order, counts)), tags)
  {
    var entries := Entries(order, counts);
    EntriesAreSlices(order, counts, tags);
    var sorted := SortDesc(entries, SliceValue);
    SlicesPermutation(entries, sorted, tags);
    ChartOfSorted(sorted, tags);
  }

  lemma EntriesAreSlices<K(!new)>(order: seq<K>, counts: map<K, nat>, tags: seq<K>)
    requires multiset(order) == multiset(Dedup(tags))
    requires forall i :: 0 <= i < |order| ==> order[i] in counts && counts[order[i]] == multiset(tags)[order[i]]
    ensures AllSlices(Entries(order, counts), tags)
  {
    var keys := Dedup(tags);
    DedupKeepsAll(tags);
    var entries := Entries(order, counts);
    DistinctPermutation(keys, order);
    DistinctCardinality(keys);
    assert (set t | t in keys) == (set t | t in tags);
    assert |multiset(order)| == |multiset(keys)|;
    forall i | 0 <= i < |order| ensures order[i] in tags {
      assert order[i] in multiset(keys);
    }
    forall t | t in tags ensures exists i :: 0 <= i < |entries| && entries[i].name == t {
      assert t in multiset(keys);
      var a :| 0 <= a < |order| && order[a] == t;
      assert entries[a].name == t;
    }
  }

  lemma SlicesPermutation<K(!new)>(a: seq<TopicSlice<K>>, b: seq<TopicSlice<K>>, tags: seq<K>)
    requires AllSlices(a, tags)
    requires multiset(a) == multiset(b)
    ensures AllSlices(b, tags)
  {
    assert |multiset(a)| == |multiset(b)|;
    forall i | 0 <= i < |b| ensures exists k :: 0 <= k < |a| && b[i] == a[k] {
      assert b[i] in multiset(a);
    }
    forall t | t in tags ensures exists i :: 0 <= i < |b| && b[i].name == t {
      var k :| 0 <= k < |a| && a[k].name == t;
      assert a[k] in multiset(b);
    }
    forall i, j | 0 <= i < j < |b| ensures b[i].name != b[j].name {
      if b[i].name == b[j].name {
        var p :| 0 <= p < |a| && b[i] == a[p];
        var q :| 0 <= q < |a| && b[j] == a[q];
        assert p == q;
        MultisetAtLeastTwo(b, i, j);
        assert Distinct(a);
        DistinctAtMostOne(a, a[p]);
      }
    }
  }

  lemma ChartOfSorted<K(!new)>(sorted: seq<TopicSlice<K>>, tags: seq<K>)
    requires AllSlices(sorted, tags)
    requires SortedDesc(sorted, SliceValue)
    ensures IsTopChart(sorted[..Min(5, |sorted|)], tags)
  {
    var chart := sorted[..Min(5, |sorted|)];
    PrefixSlices(sorted, tags, Min(5, |sorted|));
    ChartOmitted(sorted, tags, chart);
  }

  lemma PrefixSlices<K(!new)>(sorted: seq<TopicSlice<K>>, tags: seq<K>, m: nat)
    requires NamesDistinct(sorted) && TrueCounts(sorted, tags)
    requires SortedDesc(sorted, SliceValue)
    requires m <= |sorted|
    ensures NamesDistinct(sorted[..m]) && TrueCounts(sorted[..m], tags)
    ensures forall i, j :: 0 <= i < j < m ==> sorted[..m][i].value >= sorted[..m][j].value
  {
  }

  lemma ChartOmitted<K(!new)>(sorted: seq<TopicSlice<K>>, tags: seq<K>, chart: seq<TopicSlice<K>>)
    requires Covers(sorted, tags) && TrueCounts(sorted, tags)
    requires SortedDesc(sorted, SliceValue)
    requires chart == sorted[..Min(5, |sorted|)]
    ensures forall t :: t in tags && (forall i :: 0 <= i < |chart| ==> chart[i].name != t) ==>
      0 < |chart| && multiset(tags)[t] <= chart[|chart| - 1].value
  {
    assert forall i :: 0 <= i < |chart| ==> chart[i] == sorted[i];
    forall t | t in tags && (forall i :: 0 <= i < |chart| ==> chart[i].name != t)
      ensures 0 < |chart| && multiset(tags)[t] <= chart[|chart| - 1].value
    {
      var p :| 0 <= p < |sorted| && sorted[p].name == t;
      OmittedBelowLast(sorted, tags, p);
    }
  }

  lemma OmittedBelowLast<K(!new)>(sorted: seq<TopicSlice<K>>, tags: seq<K>, p: nat)
    requires TrueCounts(sorted, tags)
    requires SortedDesc(sorted, SliceValue)
    requires p < |sorted| && p >= Min(5, |sorted|)
    ensures 0 < Min(5, |sorted|) && sorted[p].value <= sorted[Min(5, |sorted|) - 1].value
  {
    var m := Min(5, |sorted|);
    assert m == 5;
    assert SliceValue(sorted[m - 1]) >= SliceValue(sorted[p]);
  }

  // ---------------------------------------------------------------- body formatting

  const ParagraphOpen := "<p class=\"mb-3\">"
  const ParagraphClose := "</p>"

  /** `lines.map(line => '<p class="mb-3">' + line.trim() + '</p>').join('')`. */
  function Paragraphs(lines: seq<string>): string {
    if lines == [] then "" else ParagraphOpen + Trim(lines[0]) + ParagraphClose + Paragraphs(lines[1..])
  }

  predicate MarkerAt(s: string, k: int) {
    0 <= k && k + 1 < |s| && s[k] == '*' && s[k + 1] == '*'
  }

  /** Where the lazy match of the bold pattern started at `j` ends: the first `**` at or after `j`, provided no
      line terminator comes before it. */
  function CloseAt(s: string, j: nat): (r: Option<nat>)
    ensures r.Some? ==> j <= r.value && MarkerAt(s, r.value)
    ensures r.Some? ==> forall m :: j <= m < r.value ==> !IsLineTerminator(s[m]) && !MarkerAt(s, m)
    ensures r.None? ==> forall k :: j <= k && MarkerAt(s, k) ==> exists m :: j <= m < k && IsLineTerminator(s[m])
    decreases |s| - j
  {
    if j + 2 > |s| then None
    else if MarkerAt(s, j) then Some(j)
    else if IsLineTerminator(s[j]) then None
    else CloseAt(s, j + 1)
  }

  /** The global lazy bold replacement of the formatter: a pair of double stars around any
      single-line text becomes a strong element, scanning left to right and resuming after
      each replaced match.  Text without a `**` is left alone. */
  function ReplaceBold(s: string): (r: string)
    ensures (forall k :: !MarkerAt(s, k)) ==> r == s
    decreases |s|
  {
    if |s| < 2 then s
    else if MarkerAt(s, 0) then
      match CloseAt(s, 2)
      case Some(k) => "<strong>" + s[2..k] + "</strong>" + ReplaceBold(s[k + 2..])
      case None => [s[0]] + ReplaceBold(s[1..])
    else
      assert forall k :: MarkerAt(s[1..], k) ==> MarkerAt(s, k + 1);
      [s[0]] + ReplaceBold(s[1..])
  }

  /** A star-free, single-line text between two `**` becomes bold. */
  lemma ReplaceBoldWrapped(x: string, rest: string)
    requires '*' !in x
    requires forall i :: 0 <= i < |x| ==> !IsLineTerminator(x[i])
    ensures ReplaceBold("**" + x + "**" + rest) == "<strong>" + x + "</strong>" + ReplaceBold(rest)
  {
    var s := "**" + x + "**" + rest;
    CloseAtWrapped(x, rest, 2);
    assert s[2..2 + |x|] == x;
    assert s[2 + |x| + 2..] == rest;
  }

  lemma {:induction false} CloseAtWrapped(x: string, rest: string, j: nat)
    requires '*' !in x
    requires forall i :: 0 <= i < |x| ==> !IsLineTerminator(x[i])
    requires 2 <= j <= 2 + |x|
    ensures CloseAt("**" + x + "**" + rest, j) == Some(2 + |x|)
    decreases 2 + |x| - j
  {
    var s := "**" + x + "**" + rest;
    if j < 2 + |x| {
      assert s[j] == x[j - 2];
      CloseAtWrapped(x, rest, j + 1);
    } else {
      assert MarkerAt(s, j);
    }
  }

  /** `formatInteractionBody(content)`: '' for an empty body, otherwise one paragraph per line
      with `**...**` turned bold. */
  function FormatInteractionBody(content: string): string {
    if content == "" then "" else ReplaceBold(Paragraphs(Split(content, '\n')))
  }

  /** A one-line body without stars becomes a single paragraph of the trimmed line. */
  lemma FormatPlainLine(content: string)
    requires content != ""
    requires '\n' !in content && '*' !in content
    ensures FormatInteractionBody(content) == ParagraphOpen + Trim(content) + ParagraphClose
  {
    assert Join([content], '\n') == content;
    SplitJoin([content], '\n');
    var t := Trim(content);
    assert Paragraphs([content]) == ParagraphOpen + t + ParagraphClose;
    TrimStarFree(content);
    PlainParagraph(t);
  }

  lemma TrimStarFree(content: string)
    requires '*' !in content
    ensures '*' !in Trim(content)
  {
    TrimInside(content);
  }

  lemma PlainParagraph(t: string)
    requires '*' !in t
    ensures ReplaceBold(ParagraphOpen + t + ParagraphClose) == ParagraphOpen + t + ParagraphClose
  {
    var html := ParagraphOpen + t + ParagraphClose;
    forall k | 0 <= k < |html| ensures html[k] != '*' || k + 1 >= |html| || html[k + 1] != '*' {
      if |ParagraphOpen| <= k < |ParagraphOpen| + |t| {
        assert html[k] == t[k - |ParagraphOpen|];
      }
    }
  }

  /** A body without stars becomes one paragraph per line, each line trimmed. */
  lemma FormatStarFree(content: string)
    requires content != "" && '*' !in content
    ensures FormatInteractionBody(content) == Paragraphs(Split(content, '\n'))
  {
    var lines := Split(content, '\n');
    SplitKeepsOut(content, '\n', '*');
    ParagraphsStarFree(lines);
    var html := Paragraphs(lines);
    forall k | 0 <= k < |html| ensures !MarkerAt(html, k) {
      assert html[k] in html;
    }
  }

  lemma {:induction false} ParagraphsStarFree(lines: seq<string>)
    requires forall k :: 0 <= k < |lines| ==> '*' !in lines[k]
    ensures '*' !in Paragraphs(lines)
  {
    if lines != [] {
      ParagraphsStarFree(lines[1..]);
      TrimStarFree(lines[0]);
    }
  }

  // ---------------------------------------------------------------- the controller

  /** What `fetch` of the collection gave: a rejected request, or a response with its status
      flag and its JSON body (`None` when parsing it failed). */
  datatype FetchResult =
    | NetworkError
    | HttpResponse(ok: bool, body: Option<ListEnvelope>)

  datatype ListEnvelope = ListEnvelope(success: bool, data: seq<Interaction>)

  /** The data a successful load installs, if the response is one. */
  function LoadedData(response: FetchResult): Option<seq<Interaction>> {
    match response
    case HttpResponse(true, Some(ListEnvelope(true, data))) => Some(data)
    case _ => None
  }

  /** `(a, b) => new Date(b.created_date) - new Date(a.created_date)`. */
  function NewestFirst(xs: seq<Interaction>): (r: seq<Interaction>)
    ensures SortedDesc(r, (it: Interaction) => it.createdDate)
    ensures multiset(r) == multiset(xs)
  {
    SortDesc(xs, (it: Interaction) => it.createdDate)
  }

  class AIChatbotPlatform {
    /** `this.interactions`, the cache. */
    var interactions: seq<Interaction>
    /** `this.currentEditId`. */
    var currentEditId: Option<int>
    /** The value of the search input. */
    var searchInput: string
    /** The value of the topic filter select. */
    var filterSelect: string

    /** The controller with an empty cache, over inputs holding `search` and `filter`. */
    constructor (search: string, filter: string)
      ensures interactions == [] && currentEditId == None
      ensures searchInput == search && filterSelect == filter
    {
      interactions := [];
      currentEditId := None;
      searchInput := search;
      filterSelect := filter;
    }

    /** `loadInteractions`: on an ok response whose envelope says success, the cache becomes the
        data sorted newest first; on any failure it is left as it was. */
    method LoadInteractions(response: FetchResult)
      modifies this`interactions
      ensures LoadedData(response).Some? ==> interactions == NewestFirst(LoadedData(response).value)
      ensures LoadedData(response).None? ==> interactions == old(interactions)
    {
      match response
      case NetworkError =>
      case HttpResponse(ok, body) =>
        if ok && body.Some? && body.value.success {
          interactions := NewestFirst(body.value.data);
        }
    }

    /** `getInteractionById(id)`: the first cached interaction with the id. */
    function GetInteractionById(id: int): (r: Option<Interaction>)
      reads this
      ensures r.Some? ==> exists i :: 0 <= i < |interactions| && interactions[i] == r.value && r.value.id == id
                                      && forall j :: 0 <= j < i ==> interactions[j].id != id
      ensures r.None? <==> forall j :: 0 <= j < |interactions| ==> interactions[j].id != id
    {
      match FirstWhere(interactions, (it: Interaction) => it.id == id)
      case Some(i) => Some(interactions[i])
      case None => None
    }

    /** `editInteraction(id)`: remembers the id and returns the interaction the form shows. */
    method EditInteraction(id: int) returns (shown: Option<Interaction>)
      modifies this`currentEditId
      ensures currentEditId == Some(id)
      ensures shown == GetInteractionById(id)
    {
      currentEditId := Some(id);
      shown := GetInteractionById(id);
    }

    /** `closeModal`: forgets the id being edited. */
    method CloseModal()
      modifies this`currentEditId
      ensures currentEditId == None
    {
      currentEditId := None;
    }

    /** The tail of `saveInteraction` and `deleteInteraction`: when the server reports success
        the modal closes and the cache is reloaded; otherwise nothing changes. */
    method FinishMutation(succeeded: bool, reload: FetchResult)
      modifies this`currentEditId, this`interactions
      ensures succeeded ==> currentEditId == None
      ensures succeeded && LoadedData(reload).Some? ==> interactions == NewestFirst(LoadedData(reload).value)
      ensures !succeeded || LoadedData(reload).None? ==> interactions == old(interactions)
      ensures !succeeded ==> currentEditId == old(currentEditId)
    {
      if succeeded {
        CloseModal();
        LoadInteractions(reload);
      }
    }

    /** `renderInteractions`: the rows that pass both the tag filter and the search, or an
        emptied table when the search throws. */
    function RenderInteractions(): (v: View)
      reads this
      ensures v.Cleared? <==>
        exists i :: 0 <= i < |interactions| && FilterAccepts(filterSelect, interactions[i]) && SearchResult(searchInput, interactions[i]).None?
      ensures v.NoInteractionsFound? <==> !v.Cleared? && forall it :: it in interactions ==> !Shown(filterSelect, searchInput, it)
      ensures v.Rows? ==> v.items == Filter(interactions, ByBoth(filterSelect, searchInput))
      ensures v.Rows? ==> IsSubsequence(v.items, interactions) && |v.items| == CountWhere(interactions, ByBoth(filterSelect, searchInput))
      ensures v.Rows? ==> forall it :: it in v.items <==> it in interactions && Shown(filterSelect, searchInput, it)
    {
      match Project(interactions, filterSelect, searchInput)
      case None => Cleared
      case Some(rows) =>
        assert rows != [] ==> rows[0] in rows;
        ViewOf(rows)
    }

    /** `clearFilters`: empties the search, resets the filter to 'all' and shows the whole cache. */
    method ClearFilters() returns (v: View)
      modifies this`searchInput, this`filterSelect
      ensures searchInput == "" && filterSelect == "all"
      ensures v == ViewOf(interactions)
    {
      searchInput := "";
      filterSelect := "all";
      ProjectCleared(interactions);
      v := RenderInteractions();
    }

    /** `updateStats`. */
    function UpdateStats(): (s: StatsView)
      reads this
      ensures s == Stats(interactions)
    {
      Stats(interactions)
    }

    /** `updateTopicChart`: the data of the top-five pie chart. */
    method UpdateTopicChart() returns (chart: seq<TopicSlice<string>>)
      ensures IsTopChart(chart, AllTags(interactions))
    {
      // each trimmed, lowercased tag occurrence adds one to its count; `keys` records the
      // order in which the tags were first met, which the object's key order follows
      var counts, keys := Tally(interactions, TagsOf);
      var order := PropertyOrder(keys);
      forall i | 0 <= i < |order| ensures order[i] in counts {
        assert order[i] in multiset(keys);
      }
      chart := TopFive(Entries(order, counts));
      TopFiveCorrect(order, counts, AllTags(interactions));
    }
  }
}
