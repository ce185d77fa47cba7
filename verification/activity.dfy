/**
 * The /activity command: the period default and name, the total of the
 * command counts, the top commands (collected from the stats map, then
 * bubble-sorted in place by count), and the activity level. Go visits a
 * map in an unspecified order; that order is an input here (`order`, the
 * map's keys each listed once).
 */
module Activity {
  import opened GoStrings

  const DefaultPeriod := "7days"

  /** Execute: an empty period means the last seven days. */
  function PeriodOrDefault(period: string): (p: string)
    ensures period == "" ==> p == DefaultPeriod
    ensures period != "" ==> p == period
  {
    if period == "" then DefaultPeriod else period
  }

  const SevenDayName := "📊 過去7日間"

  /** getPeriodName: four periods have names of their own, any other shows the 7-day name. */
  function PeriodName(period: string): (name: string)
    ensures name == SevenDayName <==> period != "today" && period != "30days" && period != "all"
  {
    match period
    case "today" => "📅 今日"
    case "7days" => SevenDayName
    case "30days" => "📈 過去30日間"
    case "all" => "📉 全期間"
    case _ => SevenDayName
  }

  /** `order` lists every key of `stats` exactly once: one Go iteration over the map. */
  ghost predicate Enumerates(order: seq<string>, stats: map<string, int>)
  {
    (forall n :: n in stats <==> n in order)
    && (forall i, j :: 0 <= i < j < |order| ==> order[i] != order[j])
  }

  /** The sum of the counts of the listed commands. */
  function SumOf(order: seq<string>, stats: map<string, int>): int
    requires forall n :: n in order ==> n in stats
  {
    if |order| == 0 then 0
    else SumOf(order[..|order| - 1], stats) + stats[order[|order| - 1]]
  }

  /** The total loop of Execute: the sum of every count in the map. */
  method TotalCommands(stats: map<string, int>, order: seq<string>) returns (total: int)
    requires Enumerates(order, stats)
    ensures total == SumOf(order, stats)
  {
    total := 0;
    for k := 0 to |order|
      invariant total == SumOf(order[..k], stats)
    {
      assert order[..k + 1][..k] == order[..k];
      total := total + stats[order[k]];
    }
    assert order[..|order|] == order;
  }

  /** The sum with one listed key removed. */
  lemma {:induction false} SumWithout(order: seq<string>, stats: map<string, int>, i: nat)
    requires forall n :: n in order ==> n in stats
    requires i < |order|
    ensures SumOf(order, stats) == SumOf(order[..i] + order[i + 1..], stats) + stats[order[i]]
    decreases |order|
  {
    var last := |order| - 1;
    if i < last {
      var front := order[..last];
      assert front[..i] + front[i + 1..] == (order[..i] + order[i + 1..])[..last - 1];
      SumWithout(front, stats, i);
      assert (order[..i] + order[i + 1..])[last - 1] == order[last];
    } else {
      assert order[..i] + order[i + 1..] == order[..last];
    }
  }

  /** Two lists without repeats that hold the same names. */
  ghost predicate SameNames(o1: seq<string>, o2: seq<string>)
  {
    (forall n :: n in o1 <==> n in o2)
    && (forall i, j :: 0 <= i < j < |o1| ==> o1[i] != o1[j])
    && (forall i, j :: 0 <= i < j < |o2| ==> o2[i] != o2[j])
  }

  /** Taking the last name off the first list and the same name off the second keeps them alike. */
  lemma RemoveFromBoth(o1: seq<string>, o2: seq<string>, i: nat)
    requires SameNames(o1, o2) && |o1| > 0
    requires i < |o2| && o2[i] == o1[|o1| - 1]
    ensures SameNames(o1[..|o1| - 1], o2[..i] + o2[i + 1..])
  {
    var x := o1[|o1| - 1];
    var rest1 := o1[..|o1| - 1];
    var rest2 := o2[..i] + o2[i + 1..];
    forall n | n in rest1
      ensures n in rest2
    {
      var a :| 0 <= a < |rest1| && rest1[a] == n;
      assert o1[a] == n && n != x;
      assert n in o2;
      var b :| 0 <= b < |o2| && o2[b] == n;
      if b < i {
        assert rest2[b] == n;
      } else {
        assert rest2[b - 1] == n;
      }
    }
    forall n | n in rest2
      ensures n in rest1
    {
      var b :| 0 <= b < |rest2| && rest2[b] == n;
      var b2 := if b < i then b else b + 1;
      assert o2[b2] == n && b2 != i;
      assert n in o1;
      var a :| 0 <= a < |o1| && o1[a] == n;
      assert rest1[a] == n;
    }
    forall p, q | 0 <= p < q < |rest2|
      ensures rest2[p] != rest2[q]
    {
      var p2 := if p < i then p else p + 1;
      var q2 := if q < i then q else q + 1;
      assert rest2[p] == o2[p2] && rest2[q] == o2[q2];
    }
  }

  /** The total does not depend on the order in which Go visits the map. */
  lemma {:induction false} TotalIndependentOfOrder(o1: seq<string>, o2: seq<string>, stats: map<string, int>)
    requires SameNames(o1, o2)
    requires forall n :: n in o1 ==> n in stats
    ensures SumOf(o1, stats) == SumOf(o2, stats)
    decreases |o1|
  {
    if |o1| == 0 {
      assert forall k :: 0 <= k < |o2| ==> o2[k] in o1;
    } else {
      var x := o1[|o1| - 1];
      assert x in o1;
      var i :| 0 <= i < |o2| && o2[i] == x;
      RemoveFromBoth(o1, o2, i);
      TotalIndependentOfOrder(o1[..|o1| - 1], o2[..i] + o2[i + 1..], stats);
      SumWithout(o2, stats, i);
    }
  }

  // ---- top commands ----

  datatype CommandStat = CommandStat(name: string, count: int)

  /** Non-increasing by count. */
  predicate SortedByCount(s: seq<CommandStat>)
  {
    forall i, j :: 0 <= i < j < |s| ==> s[i].count >= s[j].count
  }

  /** The stats pairs in the order Go visits them. */
  function Entries(order: seq<string>, stats: map<string, int>): (es: seq<CommandStat>)
    requires forall n :: n in order ==> n in stats
    ensures |es| == |order|
    ensures forall k :: 0 <= k < |es| ==> es[k] == CommandStat(order[k], stats[order[k]])
  {
    if |order| == 0 then []
    else Entries(order[..|order| - 1], stats) + [CommandStat(order[|order| - 1], stats[order[|order| - 1]])]
  }

  /** Swaps a[j] and a[j + 1] inside the range a[..end]. */
  method SwapNext(a: array<CommandStat>, j: nat, end: nat)
    requires j + 1 < end <= a.Length
    modifies a
    ensures a[j] == old(a[j + 1]) && a[j + 1] == old(a[j])
    ensures forall k :: 0 <= k < a.Length && k != j && k != j + 1 ==> a[k] == old(a[k])
    ensures multiset(a[..end]) == multiset(old(a[..end]))
    ensures a[end..] == old(a[end..])
  {
    a[j], a[j + 1] := a[j + 1], a[j];
    assert a[..end] == old(a[..end])[j := old(a[j + 1])][j + 1 := old(a[j])];
  }

  /**
   * One pass of the bubble sort over a[..end]: the smallest count of that
   * range ends at position end - 1, the range keeps its elements, and the
   * already placed tail is left alone.
   */
  method BubblePass(a: array<CommandStat>, end: nat)
    requires 0 < end <= a.Length
    modifies a
    ensures multiset(a[..end]) == multiset(old(a[..end]))
    ensures a[end..] == old(a[end..])
    ensures forall k :: 0 <= k < end ==> a[k].count >= a[end - 1].count
  {
    var j := 0;
    while j < end - 1
      invariant 0 <= j < end
      invariant multiset(a[..end]) == multiset(old(a[..end]))
      invariant a[end..] == old(a[end..])
      invariant forall k :: 0 <= k <= j ==> a[k].count >= a[j].count
    {
      if a[j].count < a[j + 1].count {
        SwapNext(a, j, end);
      }
      j := j + 1;
    }
  }

  /** An element of a range with the same elements as before is one of the elements before. */
  lemma FromRange(now: seq<CommandStat>, before: seq<CommandStat>, end: nat, k: nat)
    requires end <= |now| && end <= |before| && k < end
    requires multiset(now[..end]) == multiset(before[..end])
    ensures now[k] in before[..end]
  {
    assert now[k] in now[..end];
    assert now[k] in multiset(now[..end]);
  }

  /** Counts from position `from` on are in place: non-increasing, and no larger than any count before `from`. */
  predicate PlacedFrom(s: seq<CommandStat>, from: int)
  {
    (forall k, m :: 0 <= from <= k < m < |s| ==> s[k].count >= s[m].count)
    && (forall k, m :: 0 <= k < from <= m < |s| ==> s[k].count >= s[m].count)
  }

  /** A pass over s[..end] that brings the smallest count to end - 1 puts one more position in place. */
  lemma PassPlacesOneMore(before: seq<CommandStat>, after: seq<CommandStat>, end: nat)
    requires 0 < end <= |before| == |after|
    requires PlacedFrom(before, end)
    requires multiset(after[..end]) == multiset(before[..end])
    requires after[end..] == before[end..]
    requires forall k :: 0 <= k < end ==> after[k].count >= after[end - 1].count
    ensures PlacedFrom(after, end - 1)
  {
    forall k, m | 0 <= k < end <= m < |after|
      ensures after[k].count >= after[m].count
    {
      FromRange(after, before, end, k);
      var src :| 0 <= src < end && before[src] == after[k];
      assert after[m] == after[end..][m - end] == before[m];
    }
    forall k, m | end <= k < m < |after|
      ensures after[k].count >= after[m].count
    {
      assert after[k] == after[end..][k - end] == before[k];
      assert after[m] == after[end..][m - end] == before[m];
    }
  }

  /** The bubble sort of getTopCommands: in place, non-increasing by count, and a permutation. */
  method BubbleSort(a: array<CommandStat>)
    modifies a
    ensures SortedByCount(a[..])
    ensures multiset(a[..]) == multiset(old(a[..]))
  {
    var n := a.Length;
    var i := 0;
    while i < n - 1
      invariant 0 <= i <= if n == 0 then 0 else n - 1
      invariant multiset(a[..]) == multiset(old(a[..]))
      invariant PlacedFrom(a[..], n - i)
    {
      ghost var before := a[..];
      var end := n - i;
      BubblePass(a, end);
      assert a[..] == a[..end] + a[end..] && before == before[..end] + before[end..];
      PassPlacesOneMore(before, a[..], end);
      i := i + 1;
    }
  }

  /** Two equal elements at different positions make a multiplicity of at least two. */
  lemma TwiceInMultiset(s: seq<CommandStat>, i: nat, j: nat)
    requires i < j < |s| && s[i] == s[j]
    ensures multiset(s)[s[i]] >= 2
  {
    assert s == s[..j] + s[j..];
    assert s[i] in s[..j];
    assert s[j..][0] == s[j];
  }

  /** A list without repeats has every element at most once. */
  lemma {:induction false} DistinctAtMostOnce(s: seq<CommandStat>, x: CommandStat)
    requires forall i, j :: 0 <= i < j < |s| ==> s[i] != s[j]
    ensures multiset(s)[x] <= 1
    decreases |s|
  {
    if |s| > 0 {
      var front := s[..|s| - 1];
      DistinctAtMostOnce(front, x);
      assert s == front + [s[|s| - 1]];
      assert s[|s| - 1] !in front;
    }
  }

  /** The first `limit` entries, or all of them when there are fewer. */
  function Take(s: seq<CommandStat>, limit: nat): (t: seq<CommandStat>)
    ensures |t| == if |s| > limit then limit else |s|
    ensures t == s[..|t|]
  {
    if |s| > limit then s[..limit] else s
  }

  /** Every element of a rearrangement of the entries is a command of the map with its own count. */
  lemma RearrangedEntriesAreStats(sorted: seq<CommandStat>, order: seq<string>, stats: map<string, int>)
    requires Enumerates(order, stats)
    requires multiset(sorted) == multiset(Entries(order, stats))
    ensures forall e :: e in sorted ==> e.name in stats && stats[e.name] == e.count
  {
    var es := Entries(order, stats);
    forall e | e in sorted
      ensures e.name in stats && stats[e.name] == e.count
    {
      assert e in multiset(es);
      var k :| 0 <= k < |es| && es[k] == e;
    }
  }

  /** A rearrangement of the entries names each command once. */
  lemma RearrangedNamesDistinct(sorted: seq<CommandStat>, order: seq<string>, stats: map<string, int>)
    requires Enumerates(order, stats)
    requires multiset(sorted) == multiset(Entries(order, stats))
    ensures forall i, j :: 0 <= i < j < |sorted| ==> sorted[i].name != sorted[j].name
  {
    var es := Entries(order, stats);
    RearrangedEntriesAreStats(sorted, order, stats);
    forall p, q | 0 <= p < q < |es|
      ensures es[p] != es[q]
    {
      assert es[p].name == order[p] && es[q].name == order[q];
    }
    forall i, j | 0 <= i < j < |sorted|
      ensures sorted[i].name != sorted[j].name
    {
      if sorted[i].name == sorted[j].name {
        assert sorted[i] in sorted && sorted[j] in sorted;
        TwiceInMultiset(sorted, i, j);
        DistinctAtMostOnce(es, sorted[i]);
      }
    }
  }

  /** No command missing from the first `limit` sorted entries counts more than one of them. */
  lemma TopKeepsLargest(sorted: seq<CommandStat>, order: seq<string>, stats: map<string, int>, limit: nat)
    requires Enumerates(order, stats)
    requires SortedByCount(sorted) && multiset(sorted) == multiset(Entries(order, stats))
    ensures var top := Take(sorted, limit);
            forall n :: n in stats && (forall e :: e in top ==> e.name != n) ==> forall e :: e in top ==> e.count >= stats[n]
  {
    var es := Entries(order, stats);
    var top := Take(sorted, limit);
    forall n | n in stats && (forall e :: e in top ==> e.name != n)
      ensures forall e :: e in top ==> e.count >= stats[n]
    {
      var k :| 0 <= k < |order| && order[k] == n;
      var entry := es[k];
      assert entry in multiset(sorted);
      var m :| 0 <= m < |sorted| && sorted[m] == entry;
      assert sorted[m] !in top;
      assert m >= |top| by {
        assert forall j :: 0 <= j < |top| ==> top[j] == sorted[j];
      }
      forall e | e in top
        ensures e.count >= stats[n]
      {
        var i :| 0 <= i < |top| && top[i] == e;
      }
    }
  }

  /**
   * `top` is a leading run of the commands by count: non-increasing, each a
   * distinct command with its own count, and no command left out counts
   * more than one kept.
   */
  ghost predicate TopCommands(top: seq<CommandStat>, stats: map<string, int>)
  {
    && SortedByCount(top)
    && (forall e :: e in top ==> e.name in stats && stats[e.name] == e.count)
    && (forall i, j :: 0 <= i < j < |top| ==> top[i].name != top[j].name)
    && (forall n :: n in stats && (forall e :: e in top ==> e.name != n) ==> forall e :: e in top ==> e.count >= stats[n])
  }

  /** The first `limit` entries of a sorted rearrangement of the map's entries are its top commands. */
  lemma TopOfSorted(sorted: seq<CommandStat>, order: seq<string>, stats: map<string, int>, limit: nat)
    requires Enumerates(order, stats)
    requires SortedByCount(sorted) && multiset(sorted) == multiset(Entries(order, stats))
    ensures TopCommands(Take(sorted, limit), stats)
  {
    var top := Take(sorted, limit);
    RearrangedEntriesAreStats(sorted, order, stats);
    RearrangedNamesDistinct(sorted, order, stats);
    TopKeepsLargest(sorted, order, stats, limit);
    forall e | e in top
      ensures e.name in stats && stats[e.name] == e.count
    {
      assert e in sorted;
    }
    forall i, j | 0 <= i < j < |top|
      ensures top[i].name != top[j].name && top[i].count >= top[j].count
    {
      assert top[i] == sorted[i] && top[j] == sorted[j];
    }
  }

  /** The entry loop of getTopCommands: one CommandStat per map entry, in the order Go visits them. */
  method CollectEntries(stats: map<string, int>, order: seq<string>) returns (a: array<CommandStat>)
    requires Enumerates(order, stats)
    ensures fresh(a) && a[..] == Entries(order, stats)
  {
    a := new CommandStat[|order|](_ => CommandStat("", 0));
    for k := 0 to |order|
      invariant forall p :: 0 <= p < k ==> a[p] == CommandStat(order[p], stats[order[p]])
    {
      a[k] := CommandStat(order[k], stats[order[k]]);
    }
  }

  /**
   * getTopCommands: the entries sorted by count, non-increasing, cut to
   * `limit`; each is a distinct command with its own count, and none left
   * out counts more than one kept.
   */
  method GetTopCommands(stats: map<string, int>, order: seq<string>, limit: nat) returns (top: seq<CommandStat>)
    requires Enumerates(order, stats)
    ensures |top| == if |stats| > limit then limit else |stats|
    ensures TopCommands(top, stats)
  {
    var a := CollectEntries(stats, order);
    BubbleSort(a);
    TopOfSorted(a[..], order, stats, limit);
    EnumerationSize(order, stats);
    top := Take(a[..], limit);
  }

  /** The number of distinct keys listed once each is the list's length. */
  lemma {:induction false} EnumerationSize(order: seq<string>, stats: map<string, int>)
    requires Enumerates(order, stats)
    ensures |stats| == |order|
  {
    assert stats.Keys == set n | n in order;
    DistinctSetSize(order);
  }

  lemma {:induction false} DistinctSetSize(order: seq<string>)
    requires forall i, j :: 0 <= i < j < |order| ==> order[i] != order[j]
    ensures |set n | n in order| == |order|
    decreases |order|
  {
    if |order| > 0 {
      var front := order[..|order| - 1];
      DistinctSetSize(front);
      assert (set n | n in order) == (set n | n in front) + {order[|order| - 1]};
      assert order[|order| - 1] !in front;
    }
  }

  // ---- activity level ----

  /** The four band bounds of a period; "all" and any unknown period share the widest. */
  function Thresholds(period: string): (t: seq<int>)
    ensures |t| == 4 && t[0] == 0
    ensures forall i, j :: 0 <= i < j < 4 ==> t[i] < t[j]
  {
    match period
    case "today" => [0, 5, 15, 30]
    case "7days" => [0, 20, 60, 120]
    case "30days" => [0, 50, 150, 300]
    case _ => [0, 100, 300, 600]
  }

  /** getActivityLevel's band: the first whose bound is at least the total, or 4 above every bound. */
  function LevelIndex(total: int, period: string): (lv: nat)
    ensures lv <= 4
    ensures lv < 4 ==> total <= Thresholds(period)[lv]
    ensures forall k :: 0 <= k < lv ==> total > Thresholds(period)[k]
  {
    var t := Thresholds(period);
    if total <= t[0] then 0
    else if total <= t[1] then 1
    else if total <= t[2] then 2
    else if total <= t[3] then 3
    else 4
  }

  /** For one period, more commands never give a lower level. */
  lemma LevelMonotone(t1: int, t2: int, period: string)
    requires t1 <= t2
    ensures LevelIndex(t1, period) <= LevelIndex(t2, period)
  {
  }

  const LevelEmoji := ["😴", "😐", "😊", "🔥", "🚀"]
  const LevelName := ["非常に低い", "低い", "中程度", "高い", "非常に高い"]
  const LevelDescription := ["もっとボットを活用してみてください！", "まだまだ活用の余地があります",
                             "良いペースで利用されています", "とても活発に利用されています！", "驚異的な活動レベルです！"]

  /** The head of a level line: the band's emoji and its name in bold. */
  function LevelHead(lv: nat): string
    requires lv <= 4
  {
    LevelEmoji[lv] + " **" + LevelName[lv] + "** ("
  }

  /** getActivityLevel: the band's emoji and name, then the total, then the band's description. */
  function ActivityLevel(total: int, period: string): (r: string)
    ensures var lv := LevelIndex(total, period);
            var head := LevelHead(lv);
            var tail := "回)\n" + LevelDescription[lv];
            HasPrefix(r, head) && HasSuffix(r, tail) && |head| + |tail| <= |r|
            && r[|head|..|r| - |tail|] == IntToDecimal(total)
  {
    var lv := LevelIndex(total, period);
    var head := LevelHead(lv);
    var tail := "回)\n" + LevelDescription[lv];
    var r := head + IntToDecimal(total) + tail;
    assert r[..|head|] == head;
    assert r[|r| - |tail|..] == tail;
    assert r[|head|..|r| - |tail|] == IntToDecimal(total);
    r
  }

  /** The level line tells the total back: two totals with the same line are equal. */
  lemma ActivityLevelInjective(t1: int, t2: int, period: string)
    requires ActivityLevel(t1, period) == ActivityLevel(t2, period)
    ensures t1 == t2
  {
    var l1, l2 := LevelIndex(t1, period), LevelIndex(t2, period);
    assert ActivityLevel(t1, period)[0] == LevelEmoji[l1][0];
    assert ActivityLevel(t2, period)[0] == LevelEmoji[l2][0];
    assert l1 == l2;
    IntToDecimalInjective(t1, t2);
  }

  /** No commands at all is always the lowest level. */
  lemma NoCommandsLowest(period: string)
    ensures LevelIndex(0, period) == 0
  {
  }
}
