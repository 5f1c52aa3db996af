/**
 * The application state shared by the views: the detection history and the
 * settings map (src/utils/state.py). The Python class is a process-wide
 * singleton; here it is an ordinary object that the callers are given.
 */
module State {
  import opened Wrappers
  import opened Dicts
  import opened Sequences

  /** One detection. `timestamp` is the wall-clock reading taken when it was recorded. */
  datatype Entry = Entry(timestamp: int, sound: string, confidence: real, source: string)

  /** A settings value: the defaults hold floats and booleans. */
  datatype Setting = Num(x: real) | Flag(b: bool)

  /** The value a setting takes in a numeric comparison (a Python bool counts as 0 or 1). */
  function AsNumber(v: Setting): real {
    match v
    case Num(x) => x
    case Flag(b) => if b then 1.0 else 0.0
  }

  /** Python truthiness of a setting value. */
  predicate Truthy(v: Setting) {
    match v
    case Num(x) => x != 0.0
    case Flag(b) => b
  }

  const THRESHOLD_KEY := "confidence_threshold"
  const NOTIFICATIONS_KEY := "enable_notifications"
  const VISUAL_ALERTS_KEY := "enable_visual_alerts"

  const DEFAULT_SETTINGS: map<string, Setting> := map[
    THRESHOLD_KEY := Num(50.0),
    NOTIFICATIONS_KEY := Flag(true),
    VISUAL_ALERTS_KEY := Flag(true),
    "enable_sound_alerts" := Flag(false),
    "recording" := Flag(false)
  ]

  /** The result of `get_stats`. */
  datatype Stats = Stats(totalDetections: nat, mostCommon: Option<string>, avgConfidence: real)

  // ---------------------------------------------------------------------------
  // get_history: newest first, stable for equal timestamps

  predicate NonIncreasing(s: seq<Entry>) {
    forall i, j :: 0 <= i < j < |s| ==> s[i].timestamp >= s[j].timestamp
  }

  /**
   * Places `e` into the newest-first sequence `s`, after every entry at least as
   * new as `e`: entries inserted later follow earlier ones with the same timestamp.
   */
  function InsertNewestFirst(s: seq<Entry>, e: Entry): seq<Entry> {
    if s == [] then [e]
    else if s[0].timestamp >= e.timestamp then [s[0]] + InsertNewestFirst(s[1..], e)
    else [e] + s
  }

  /** `sorted(history, key=lambda x: x['timestamp'], reverse=True)`; Python's sort is stable. */
  function NewestFirst(h: seq<Entry>): seq<Entry> {
    if h == [] then [] else InsertNewestFirst(NewestFirst(h[..|h| - 1]), h[|h| - 1])
  }

  /** The entries stamped `t`, in their order in `s`. */
  function StampedAt(s: seq<Entry>, t: int): seq<Entry> {
    if s == [] then [] else (if s[0].timestamp == t then [s[0]] else []) + StampedAt(s[1..], t)
  }

  lemma {:induction false} StampedAtAppend(a: seq<Entry>, b: seq<Entry>, t: int)
    ensures StampedAt(a + b, t) == StampedAt(a, t) + StampedAt(b, t)
  {
    if a != [] {
      assert (a + b)[1..] == a[1..] + b;
      StampedAtAppend(a[1..], b, t);
    } else {
      assert a + b == b;
    }
  }

  lemma {:induction false} StampedAtNone(s: seq<Entry>, t: int)
    requires forall i :: 0 <= i < |s| ==> s[i].timestamp != t
    ensures StampedAt(s, t) == []
  {
    if s != [] { StampedAtNone(s[1..], t); }
  }

  /** No entry of `s` is newer than `b`. */
  predicate NoNewerThan(s: seq<Entry>, b: int) {
    forall i :: 0 <= i < |s| ==> s[i].timestamp <= b
  }

  lemma {:induction false} InsertNoNewer(s: seq<Entry>, e: Entry, b: int)
    requires NoNewerThan(s, b) && e.timestamp <= b
    ensures NoNewerThan(InsertNewestFirst(s, e), b)
  {
    if s != [] && s[0].timestamp >= e.timestamp {
      InsertNoNewer(s[1..], e, b);
      var r := InsertNewestFirst(s, e);
      assert r == [s[0]] + InsertNewestFirst(s[1..], e);
      forall i | 0 <= i < |r| ensures r[i].timestamp <= b {
        if i > 0 { assert r[i] == InsertNewestFirst(s[1..], e)[i - 1]; }
      }
    }
  }

  lemma {:induction false} InsertSorted(s: seq<Entry>, e: Entry)
    requires NonIncreasing(s)
    ensures NonIncreasing(InsertNewestFirst(s, e))
  {
    if s != [] && s[0].timestamp >= e.timestamp {
      var t := InsertNewestFirst(s[1..], e);
      InsertSorted(s[1..], e);
      assert NoNewerThan(s[1..], s[0].timestamp) by {
        forall i | 0 <= i < |s[1..]| ensures s[1..][i].timestamp <= s[0].timestamp {
          assert s[1..][i] == s[i + 1];
        }
      }
      InsertNoNewer(s[1..], e, s[0].timestamp);
      var r := [s[0]] + t;
      forall i, j | 0 <= i < j < |r| ensures r[i].timestamp >= r[j].timestamp {
        assert r[j] == t[j - 1];
        if i > 0 { assert r[i] == t[i - 1]; }
      }
    }
  }

  lemma {:induction false} InsertMultiset(s: seq<Entry>, e: Entry)
    ensures multiset(InsertNewestFirst(s, e)) == multiset(s) + multiset{e}
  {
    if s != [] && s[0].timestamp >= e.timestamp {
      InsertMultiset(s[1..], e);
      assert s == [s[0]] + s[1..];
    }
  }

  lemma {:induction false} InsertStamped(s: seq<Entry>, e: Entry, t: int)
    requires NonIncreasing(s)
    ensures StampedAt(InsertNewestFirst(s, e), t) == StampedAt(s, t) + (if e.timestamp == t then [e] else [])
  {
    var added := if e.timestamp == t then [e] else [];
    if s == [] {
    } else if s[0].timestamp >= e.timestamp {
      var head := if s[0].timestamp == t then [s[0]] else [];
      assert NonIncreasing(s[1..]) by { NonIncreasingTail(s); }
      calc {
        StampedAt(InsertNewestFirst(s, e), t);
        StampedAt([s[0]] + InsertNewestFirst(s[1..], e), t);
        { StampedAtCons(s[0], InsertNewestFirst(s[1..], e), t); }
        head + StampedAt(InsertNewestFirst(s[1..], e), t);
        { InsertStamped(s[1..], e, t); }
        head + (StampedAt(s[1..], t) + added);
        head + StampedAt(s[1..], t) + added;
        { StampedAtCons(s[0], s[1..], t); assert [s[0]] + s[1..] == s; }
        StampedAt(s, t) + added;
      }
    } else {
      StampedAtCons(e, s, t);
      if e.timestamp == t {
        NonIncreasingOlder(s, t);
        StampedAtNone(s, t);
      }
    }
  }

  /** The stamped entries of a sequence with one more entry in front. */
  lemma StampedAtCons(x: Entry, s: seq<Entry>, t: int)
    ensures StampedAt([x] + s, t) == (if x.timestamp == t then [x] else []) + StampedAt(s, t)
  {
    assert ([x] + s)[1..] == s;
  }

  lemma NonIncreasingTail(s: seq<Entry>)
    requires s != [] && NonIncreasing(s)
    ensures NonIncreasing(s[1..])
  {
    assert forall i :: 0 <= i < |s[1..]| ==> s[1..][i] == s[i + 1];
  }

  /** A newest-first sequence whose first entry is older than `t` holds no entry stamped `t`. */
  lemma NonIncreasingOlder(s: seq<Entry>, t: int)
    requires s != [] && NonIncreasing(s) && s[0].timestamp < t
    ensures forall i :: 0 <= i < |s| ==> s[i].timestamp != t
  {
    forall i | 0 <= i < |s| ensures s[i].timestamp != t {
      if i > 0 { assert s[0].timestamp >= s[i].timestamp; }
    }
  }

  /** `get_history()` is sorted newest first. */
  lemma {:induction false} NewestFirstSorted(h: seq<Entry>)
    ensures NonIncreasing(NewestFirst(h))
    ensures multiset(NewestFirst(h)) == multiset(h)
  {
    if h != [] {
      NewestFirstSorted(h[..|h| - 1]);
      InsertSorted(NewestFirst(h[..|h| - 1]), h[|h| - 1]);
      InsertMultiset(NewestFirst(h[..|h| - 1]), h[|h| - 1]);
      assert h == h[..|h| - 1] + [h[|h| - 1]];
    }
  }

  /** `get_history()` keeps entries with equal timestamps in insertion order. */
  lemma {:induction false} NewestFirstStable(h: seq<Entry>, t: int)
    ensures StampedAt(NewestFirst(h), t) == StampedAt(h, t)
  {
    if h != [] {
      var init, last := h[..|h| - 1], h[|h| - 1];
      var s := NewestFirst(init);
      var added := if last.timestamp == t then [last] else [];
      assert NonIncreasing(s) by { NewestFirstSorted(init); }
      calc {
        StampedAt(NewestFirst(h), t);
        StampedAt(InsertNewestFirst(s, last), t);
        { InsertStamped(s, last, t); }
        StampedAt(s, t) + added;
        { NewestFirstStable(init, t); }
        StampedAt(init, t) + added;
        { assert StampedAt([last], t) == added; }
        StampedAt(init, t) + StampedAt([last], t);
        { StampedAtAppend(init, [last], t); }
        StampedAt(init + [last], t);
        { assert h == init + [last]; }
        StampedAt(h, t);
      }
    }
  }

  /** A prefix of a newest-first sequence is newest first, and a sub-multiset holding a prefix of each timestamp's entries. */
  lemma PrefixProps(s: seq<Entry>, n: nat)
    requires NonIncreasing(s) && n <= |s|
    ensures NonIncreasing(s[..n])
    ensures multiset(s[..n]) <= multiset(s)
    ensures forall t :: StampedAt(s[..n], t) <= StampedAt(s, t)
  {
    assert s == s[..n] + s[n..];
    assert multiset(s) == multiset(s[..n]) + multiset(s[n..]);
    forall t ensures StampedAt(s[..n], t) <= StampedAt(s, t) {
      StampedAtAppend(s[..n], s[n..], t);
    }
  }

  // ---------------------------------------------------------------------------
  // get_stats

  function Labels(h: seq<Entry>): (ls: seq<string>)
    ensures |ls| == |h| && forall i :: 0 <= i < |h| ==> ls[i] == h[i].sound
  {
    seq(|h|, i requires 0 <= i < |h| => h[i].sound)
  }

  function Confidences(h: seq<Entry>): (cs: seq<real>)
    ensures |cs| == |h| && forall i :: 0 <= i < |h| ==> cs[i] == h[i].confidence
  {
    seq(|h|, i requires 0 <= i < |h| => h[i].confidence)
  }

  /** Number of occurrences of `l` in `ls`. */
  function Count(ls: seq<string>, l: string): nat {
    if ls == [] then 0 else Count(ls[..|ls| - 1], l) + (if ls[|ls| - 1] == l then 1 else 0)
  }

  /** The distinct labels of `ls` in the order they are first seen. */
  function FirstSeen(ls: seq<string>): seq<string> {
    if ls == [] then []
    else if ls[|ls| - 1] in FirstSeen(ls[..|ls| - 1]) then FirstSeen(ls[..|ls| - 1])
    else FirstSeen(ls[..|ls| - 1]) + [ls[|ls| - 1]]
  }

  /** The `label_counts` dict that the loop of `get_stats` builds from `ls`. */
  function LabelCounts(ls: seq<string>): Dict<string, nat> {
    if ls == [] then []
    else
      var d := LabelCounts(ls[..|ls| - 1]);
      var l := ls[|ls| - 1];
      Put(d, l, Get(d, l).GetOr(0) + 1)
  }

  /** `max(d, key=d.get)` as an item: the first item of greatest value. */
  function MaxItem(d: Dict<string, nat>): (string, nat)
    requires d != []
  {
    if |d| == 1 then d[0]
    else
      var m := MaxItem(d[..|d| - 1]);
      if d[|d| - 1].1 > m.1 then d[|d| - 1] else m
  }

  /** The statistics `get_stats` reports for the history `h`. */
  function StatsOf(h: seq<Entry>): Stats {
    if h == [] then Stats(0, None, 0.0)
    else
      var counts := LabelCounts(Labels(h));
      var mostCommon := if counts != [] then Some(MaxItem(counts).0) else None;
      Stats(|h|, mostCommon, Sum(Confidences(h)) / (|h| as real))
  }

  lemma {:induction false} FirstSeenMembers(ls: seq<string>)
    ensures forall l :: l in FirstSeen(ls) <==> l in ls
    ensures forall i, j :: 0 <= i < j < |FirstSeen(ls)| ==> FirstSeen(ls)[i] != FirstSeen(ls)[j]
  {
    if ls != [] {
      FirstSeenMembers(ls[..|ls| - 1]);
      assert ls == ls[..|ls| - 1] + [ls[|ls| - 1]];
    }
  }

  /** The labels first seen within a prefix come first. */
  lemma {:induction false} FirstSeenPrefix(ls: seq<string>, k: nat)
    requires k <= |ls|
    ensures |FirstSeen(ls[..k])| <= |FirstSeen(ls)|
    ensures FirstSeen(ls[..k]) == FirstSeen(ls)[..|FirstSeen(ls[..k])|]
    decreases |ls|
  {
    if k == |ls| {
      assert ls[..k] == ls;
    } else {
      var init := ls[..|ls| - 1];
      assert ls[..k] == init[..k];
      FirstSeenPrefix(init, k);
    }
  }

  lemma {:induction false} CountAbsent(ls: seq<string>, l: string)
    requires l !in ls
    ensures Count(ls, l) == 0
  {
    if ls != [] {
      assert ls == ls[..|ls| - 1] + [ls[|ls| - 1]];
      CountAbsent(ls[..|ls| - 1], l);
    }
  }

  /** The keys of `label_counts` are the labels in first-seen order. */
  lemma {:induction false} LabelCountsKeys(ls: seq<string>)
    ensures Keys(LabelCounts(ls)) == FirstSeen(ls)
  {
    if ls != [] {
      var d, l := LabelCounts(ls[..|ls| - 1]), ls[|ls| - 1];
      LabelCountsKeys(ls[..|ls| - 1]);
      PutKeys(d, l, Get(d, l).GetOr(0) + 1);
    }
  }

  /** `label_counts.get(l)` is the number of occurrences of `l`, or `None` for an unseen label. */
  lemma {:induction false} LabelCountsGet(ls: seq<string>, x: string)
    ensures Get(LabelCounts(ls), x) == if x in ls then Some(Count(ls, x)) else None
  {
    if ls != [] {
      var init, l := ls[..|ls| - 1], ls[|ls| - 1];
      LabelCountsGetStep(ls, x);
      InSnoc(ls, x);
      if x == l {
        LabelCountsGet(init, l);
        if l !in init { CountAbsent(init, l); }
      } else {
        LabelCountsGet(init, x);
      }
    }
  }

  /** Counting one more label changes only that label's entry, which goes up by one. */
  lemma LabelCountsGetStep(ls: seq<string>, x: string)
    requires ls != []
    ensures var init, l := ls[..|ls| - 1], ls[|ls| - 1];
      && Get(LabelCounts(ls), x) == (if x == l then Some(Get(LabelCounts(init), l).GetOr(0) + 1) else Get(LabelCounts(init), x))
      && Count(ls, x) == Count(init, x) + (if l == x then 1 else 0)
  {
    var init, l := ls[..|ls| - 1], ls[|ls| - 1];
    var d := LabelCounts(init);
    var v := Get(d, l).GetOr(0) + 1;
    assert LabelCounts(ls) == Put(d, l, v);
    GetPut(d, l, v, x);
  }

  /** Item `j` of `label_counts` is the `j`-th label first seen, with its count. */
  lemma LabelCountsItem(ls: seq<string>, j: int)
    requires 0 <= j < |FirstSeen(ls)|
    ensures |LabelCounts(ls)| == |FirstSeen(ls)|
    ensures LabelCounts(ls)[j] == (FirstSeen(ls)[j], Count(ls, FirstSeen(ls)[j]))
  {
    var d := LabelCounts(ls);
    LabelCountsKeys(ls);
    FirstSeenMembers(ls);
    assert Keys(d)[j] == d[j].0;
    assert DistinctKeys(d) by {
      forall i, k | 0 <= i < k < |d| ensures d[i].0 != d[k].0 {
        assert Keys(d)[i] == d[i].0 && Keys(d)[k] == d[k].0;
      }
    }
    GetAt(d, j);
    LabelCountsGet(ls, d[j].0);
  }

  /** The position of `max(d, key=d.get)`: a greatest value, and no earlier item as great. */
  lemma {:induction false} MaxItemIndex(d: Dict<string, nat>) returns (p: nat)
    requires d != []
    ensures p < |d| && d[p] == MaxItem(d)
    ensures forall j :: 0 <= j < |d| ==> d[j].1 <= d[p].1
    ensures forall j :: 0 <= j < p ==> d[j].1 < d[p].1
  {
    if |d| == 1 {
      p := 0;
    } else {
      var init := d[..|d| - 1];
      var q := MaxItemIndex(init);
      p := if d[|d| - 1].1 > MaxItem(init).1 then |d| - 1 else q;
    }
  }

  /** The position of the most common label among the labels in first-seen order. */
  lemma MostCommonIndex(ls: seq<string>) returns (p: nat)
    requires ls != []
    ensures LabelCounts(ls) != [] && p < |FirstSeen(ls)|
    ensures MaxItem(LabelCounts(ls)).0 == FirstSeen(ls)[p]
    ensures forall j :: 0 <= j < |FirstSeen(ls)| ==> Count(ls, FirstSeen(ls)[j]) <= Count(ls, FirstSeen(ls)[p])
    ensures forall j :: 0 <= j < p ==> Count(ls, FirstSeen(ls)[j]) < Count(ls, FirstSeen(ls)[p])
  {
    var d := LabelCounts(ls);
    FirstSeenMembers(ls);
    assert ls[0] in FirstSeen(ls);
    LabelCountsItem(ls, 0);
    p := MaxItemIndex(d);
    LabelCountsItem(ls, p);
    forall j | 0 <= j < |FirstSeen(ls)| ensures Count(ls, FirstSeen(ls)[j]) <= Count(ls, FirstSeen(ls)[p]) {
      LabelCountsItem(ls, j);
    }
    forall j | 0 <= j < p ensures Count(ls, FirstSeen(ls)[j]) < Count(ls, FirstSeen(ls)[p]) {
      LabelCountsItem(ls, j);
    }
  }

  /** The most common label of a non-empty history occurs in it, and no label occurs more often. */
  lemma MostCommonIsMode(h: seq<Entry>)
    requires h != []
    ensures StatsOf(h).mostCommon.Some?
    ensures StatsOf(h).mostCommon.value in Labels(h)
    ensures forall l :: l in Labels(h) ==> Count(Labels(h), l) <= Count(Labels(h), StatsOf(h).mostCommon.value)
  {
    var ls := Labels(h);
    var p := MostCommonIndex(ls);
    FirstSeenMembers(ls);
    forall l | l in ls ensures Count(ls, l) <= Count(ls, FirstSeen(ls)[p]) {
      var j :| 0 <= j < |FirstSeen(ls)| && FirstSeen(ls)[j] == l;
    }
  }

  /**
   * Among equally common labels the one seen first wins: every prefix of the
   * history that holds a label as common as the reported one holds the reported one.
   */
  lemma MostCommonSeenFirst(h: seq<Entry>, l: string, k: nat)
    requires h != [] && k <= |h|
    requires l in Labels(h)[..k]
    requires Count(Labels(h), l) == Count(Labels(h), StatsOf(h).mostCommon.value)
    ensures StatsOf(h).mostCommon.value in Labels(h)[..k]
  {
    var ls := Labels(h);
    var p := MostCommonIndex(ls);
    var fk := FirstSeen(ls[..k]);
    FirstSeenPrefix(ls, k);
    FirstSeenMembers(ls[..k]);
    FirstSeenMembers(ls);
    var jl :| 0 <= jl < |fk| && fk[jl] == l;
    assert FirstSeen(ls)[jl] == l;
    assert p <= jl;
    assert fk[p] == FirstSeen(ls)[p];
  }

  /** Counting one more label. */
  lemma LabelCountsAppend(ls: seq<string>, l: string)
    ensures LabelCounts(ls + [l]) == Put(LabelCounts(ls), l, Get(LabelCounts(ls), l).GetOr(0) + 1)
  {
    assert (ls + [l])[..|ls|] == ls;
  }

  /** One turn of the loop of `get_stats`: the entry at `i` is counted and its confidence collected. */
  lemma StatsStep(h: seq<Entry>, i: nat)
    requires i < |h|
    ensures LabelCounts(Labels(h[..i + 1])) ==
              Put(LabelCounts(Labels(h[..i])), h[i].sound, Get(LabelCounts(Labels(h[..i])), h[i].sound).GetOr(0) + 1)
    ensures Confidences(h[..i + 1]) == Confidences(h[..i]) + [h[i].confidence]
  {
    LabelsStep(h, i);
    LabelCountsAppend(Labels(h[..i]), h[i].sound);
  }

  lemma LabelsStep(h: seq<Entry>, i: nat)
    requires i < |h|
    ensures Labels(h[..i + 1]) == Labels(h[..i]) + [h[i].sound]
    ensures Confidences(h[..i + 1]) == Confidences(h[..i]) + [h[i].confidence]
  {
    var a, b := Labels(h[..i + 1]), Labels(h[..i]) + [h[i].sound];
    forall k | 0 <= k < |a| ensures a[k] == b[k] {
      if k < i {
        assert a[k] == h[..i + 1][k].sound == h[k].sound == h[..i][k].sound;
      }
    }
    var c, d := Confidences(h[..i + 1]), Confidences(h[..i]) + [h[i].confidence];
    forall k | 0 <= k < |c| ensures c[k] == d[k] {
      if k < i {
        assert c[k] == h[..i + 1][k].confidence == h[k].confidence == h[..i][k].confidence;
      }
    }
  }

  /** The loop of `get_stats`: the label counts and the confidences of `h`, in one pass. */
  method Tally(h: seq<Entry>) returns (labelCounts: Dict<string, nat>, confidences: seq<real>)
    ensures labelCounts == LabelCounts(Labels(h))
    ensures confidences == Confidences(h)
  {
    labelCounts := [];
    confidences := [];
    for i := 0 to |h|
      invariant labelCounts == LabelCounts(Labels(h[..i]))
      invariant confidences == Confidences(h[..i])
    {
      StatsStep(h, i);
      var sound := h[i].sound;
      labelCounts := Put(labelCounts, sound, Get(labelCounts, sound).GetOr(0) + 1);
      confidences := confidences + [h[i].confidence];
    }
    assert h[..|h|] == h;
  }

  lemma MeanBound(s: real, n: real, hi: real)
    requires n > 0.0 && 0.0 <= s <= hi * n
    ensures 0.0 <= s / n <= hi
  {
    assert (s / n) * n == s;
  }

  /** With every confidence within [0, 100], so is the reported average. */
  lemma AverageInRange(h: seq<Entry>)
    requires forall i :: 0 <= i < |h| ==> 0.0 <= h[i].confidence <= 100.0
    ensures 0.0 <= StatsOf(h).avgConfidence <= 100.0
  {
    if h != [] {
      SumBounds(Confidences(h), 100.0);
      MeanBound(Sum(Confidences(h)), |h| as real, 100.0);
    }
  }

  // ---------------------------------------------------------------------------

  class AppState {
    var history: seq<Entry>
    var settings: map<string, Setting>

    /** `update_setting` never adds keys: the settings keep the default keys. */
    ghost predicate Valid()
      reads this
    {
      settings.Keys == DEFAULT_SETTINGS.Keys
    }

    constructor()
      ensures Valid() && history == [] && settings == DEFAULT_SETTINGS
    {
      history := [];
      settings := DEFAULT_SETTINGS;
    }

    /** Appends one entry stamped `now`; earlier entries are kept as they are. */
    method AddToHistory(sound: string, confidence: real, source: string := "file", now: int)
      modifies this
      ensures history == old(history) + [Entry(now, sound, confidence, source)]
      ensures settings == old(settings)
    {
      history := history + [Entry(now, sound, confidence, source)];
    }

    /**
     * The history newest first (equal timestamps in insertion order); a
     * non-zero `limit` keeps `history[:limit]` of that order.
     */
    function GetHistory(limit: Option<int> := None): (r: seq<Entry>)
      reads this
      ensures NonIncreasing(r)
      ensures multiset(r) <= multiset(history)
      ensures limit == None || limit == Some(0) ==> multiset(r) == multiset(history)
      ensures limit.Some? && 0 < limit.value ==>
                |r| == if limit.value < |history| then limit.value else |history|
      ensures forall t :: StampedAt(r, t) <= StampedAt(NewestFirst(history), t)
      ensures r <= NewestFirst(history)
    {
      var sorted := NewestFirst(history);
      NewestFirstSorted(history);
      var r := if limit.None? || limit.value == 0 then sorted else SliceTo(sorted, limit.value);
      PrefixProps(sorted, |r|);
      r
    }

    method ClearHistory()
      modifies this
      ensures history == [] && settings == old(settings)
    {
      history := [];
    }

    /** Changes a known key only; an unknown key leaves the settings as they are. */
    method UpdateSetting(key: string, value: Setting)
      requires Valid()
      modifies this
      ensures Valid()
      ensures settings == if key in old(settings) then old(settings)[key := value] else old(settings)
      ensures history == old(history)
    {
      if key in settings {
        settings := settings[key := value];
      }
    }

    /** `settings.get(key)` */
    function GetSetting(key: string): (r: Option<Setting>)
      reads this
      ensures r.Some? <==> key in settings
      ensures r.Some? ==> r.value == settings[key]
    {
      if key in settings then Some(settings[key]) else None
    }

    /** The statistics of the current history, computed by one pass over it. */
    method GetStats() returns (stats: Stats)
      ensures stats == StatsOf(history)
    {
      var h := history;
      if h == [] {
        return Stats(0, None, 0.0);
      }
      var total := |h|;
      var labelCounts, confidences := Tally(h);
      var mostCommon := if labelCounts != [] then Some(MaxItem(labelCounts).0) else None;
      var avgConfidence := if confidences != [] then Sum(confidences) / (|confidences| as real) else 0.0;
      stats := Stats(total, mostCommon, avgConfidence);
    }
  }
}
