/**
 * The chart transformers of src/lib/api.ts: `processStatusDistribution` and
 * `processLeadsOverTime`, both built on one group-and-count loop.
 */
module Charts {
  import opened Seqs
  import opened Sorting
  import opened Types

  // ---------------------------------------------------------------------------
  // Group-and-count (the `grouped` record of the two chart transformers)
  // ---------------------------------------------------------------------------

  /** The distinct keys in order of first occurrence: the key order of the `grouped` record. */
  function FirstOccurrences(keys: seq<string>): seq<string>
  {
    if |keys| == 0 then []
    else
      var earlier := FirstOccurrences(keys[..|keys| - 1]);
      var k := keys[|keys| - 1];
      if k in earlier then earlier else earlier + [k]
  }

  /** `Object.entries(grouped)`: each distinct key with its number of occurrences. */
  function Tally(keys: seq<string>): seq<(string, nat)>
  {
    var f := FirstOccurrences(keys);
    seq(|f|, i requires 0 <= i < |f| => (f[i], multiset(keys)[f[i]]))
  }

  function Counts(t: seq<(string, nat)>): seq<nat>
  {
    seq(|t|, i requires 0 <= i < |t| => t[i].1)
  }

  /** `keys.forEach(k => grouped[k] = (grouped[k] || 0) + 1)`, then `Object.entries(grouped)`. */
  method GroupCount(keys: seq<string>) returns (entries: seq<(string, nat)>)
    ensures entries == Tally(keys)
    ensures forall i, j :: 0 <= i < j < |entries| ==> FirstIndex(keys, entries[i].0) < FirstIndex(keys, entries[j].0)
  {
    var grouped: map<string, nat> := map[];
    var order: seq<string> := [];  // the insertion order of the record's keys
    var i := 0;
    while i < |keys|
      invariant 0 <= i <= |keys|
      invariant order == FirstOccurrences(keys[..i])
      invariant forall k :: k in grouped <==> k in order
      invariant forall k :: k in grouped ==> grouped[k] == multiset(keys[..i])[k]
    {
      var key := keys[i];
      assert keys[..i + 1][..i] == keys[..i];
      assert keys[..i + 1] == keys[..i] + [key];
      assert multiset(keys[..i + 1]) == multiset(keys[..i]) + multiset{key};
      FirstOccurrencesSpec(keys[..i]);
      if key !in grouped {
        order := order + [key];
      }
      grouped := grouped[key := (if key in grouped then grouped[key] else 0) + 1];
      i := i + 1;
    }
    assert keys[..i] == keys;
    entries := seq(|order|, j requires 0 <= j < |order| => (order[j], grouped[order[j]]));
    FirstOccurrencesOrdered(keys);
  }

  /** The first-occurrence list is duplicate-free and has exactly the keys of the input. */
  lemma {:induction false} FirstOccurrencesSpec(keys: seq<string>)
    ensures Distinct(FirstOccurrences(keys))
    ensures forall k :: k in FirstOccurrences(keys) <==> k in keys
    ensures |FirstOccurrences(keys)| == |set k | k in keys|
  {
    if |keys| > 0 {
      var p := keys[..|keys| - 1];
      FirstOccurrencesSpec(p);
      assert keys == p + [keys[|keys| - 1]];
    }
    DistinctCardinality(FirstOccurrences(keys));
    assert (set k | k in FirstOccurrences(keys)) == (set k | k in keys);
  }

  /** Keys are only ever appended: the order of a prefix is a prefix of the order. */
  lemma {:induction false} FirstOccurrencesPrefix(keys: seq<string>, n: nat)
    requires n <= |keys|
    ensures FirstOccurrences(keys[..n]) <= FirstOccurrences(keys)
  {
    if n < |keys| {
      var p := keys[..|keys| - 1];
      assert p[..n] == keys[..n];
      FirstOccurrencesPrefix(p, n);
    } else {
      assert keys[..n] == keys;
    }
  }

  /** The position of the first `k` in `keys`; `|keys|` when there is none. */
  function FirstIndex(keys: seq<string>, k: string): (i: nat)
    ensures i <= |keys|
    ensures i < |keys| <==> k in keys
    ensures i < |keys| ==> keys[i] == k
    ensures forall j :: 0 <= j < i ==> keys[j] != k
  {
    if |keys| == 0 then 0
    else if keys[0] == k then 0
    else 1 + FirstIndex(keys[1..], k)
  }

  /** A first occurrence is found wherever it is in the input. */
  lemma FirstIndexAt(keys: seq<string>, k: string, i: nat)
    requires i < |keys| && keys[i] == k
    requires forall j :: 0 <= j < i ==> keys[j] != k
    ensures FirstIndex(keys, k) == i
  {
    assert keys[i] == k;
  }

  /** Appending a key does not move the first occurrence of a key already present. */
  lemma FirstIndexAppend(p: seq<string>, x: string, k: string)
    requires k in p
    ensures FirstIndex(p + [x], k) == FirstIndex(p, k)
  {
    var i := FirstIndex(p, k);
    assert (p + [x])[i] == k;
    forall j | 0 <= j < i ensures (p + [x])[j] != k {
      assert (p + [x])[j] == p[j];
    }
    FirstIndexAt(p + [x], k, i);
  }

  /**
   * The record's keys come in the order the input first mentions them: the insertion
   * order `Object.entries` reports.
   */
  lemma {:induction false} FirstOccurrencesOrdered(keys: seq<string>)
    ensures forall i, j :: 0 <= i < j < |FirstOccurrences(keys)| ==>
              FirstIndex(keys, FirstOccurrences(keys)[i]) < FirstIndex(keys, FirstOccurrences(keys)[j])
  {
    if |keys| > 0 {
      var p := keys[..|keys| - 1];
      var x := keys[|keys| - 1];
      var fp := FirstOccurrences(p);
      var f := FirstOccurrences(keys);
      assert keys == p + [x];
      FirstOccurrencesOrdered(p);
      FirstOccurrencesSpec(p);
      forall k | k in fp ensures FirstIndex(keys, k) == FirstIndex(p, k) < |p| {
        FirstIndexAppend(p, x, k);
      }
      if x !in fp {
        assert f == fp + [x];
        forall j | 0 <= j < |p| ensures keys[j] != x {
          assert keys[j] == p[j] && p[j] in p;
        }
        FirstIndexAt(keys, x, |p|);
        forall i, j | 0 <= i < j < |f| ensures FirstIndex(keys, f[i]) < FirstIndex(keys, f[j]) {
          assert f[i] == fp[i] && fp[i] in fp;
          if j < |fp| {
            assert f[j] == fp[j] && fp[j] in fp;
          }
        }
      } else {
        forall i, j | 0 <= i < j < |f| ensures FirstIndex(keys, f[i]) < FirstIndex(keys, f[j]) {
          assert f[i] == fp[i] && fp[i] in fp && f[j] == fp[j] && fp[j] in fp;
        }
      }
    }
  }

  lemma {:induction false} SumAppend(a: seq<nat>, b: seq<nat>)
    ensures Sum(a + b) == Sum(a) + Sum(b)
  {
    if |a| > 0 {
      assert (a + b)[1..] == a[1..] + b;
      SumAppend(a[1..], b);
    } else {
      assert a + b == b;
    }
  }

  function CountsOf(f: seq<string>, m: multiset<string>): seq<nat>
  {
    seq(|f|, i requires 0 <= i < |f| => m[f[i]])
  }

  /** Adding one occurrence of `x` adds one to the sum iff `x` is listed (once). */
  lemma {:induction false} CountsOfAdd(f: seq<string>, m: multiset<string>, x: string)
    requires Distinct(f)
    ensures Sum(CountsOf(f, m + multiset{x})) == Sum(CountsOf(f, m)) + (if x in f then 1 else 0)
  {
    if |f| > 0 {
      CountsOfAdd(f[1..], m, x);
      assert CountsOf(f, m)[1..] == CountsOf(f[1..], m);
      assert CountsOf(f, m + multiset{x})[1..] == CountsOf(f[1..], m + multiset{x});
      assert x in f <==> x == f[0] || x in f[1..] by {
        assert f == [f[0]] + f[1..];
      }
      if x == f[0] {
        assert x !in f[1..];
      }
    }
  }

  /** The counts add up to the number of keys. */
  lemma {:induction false} TallySum(keys: seq<string>)
    ensures Sum(Counts(Tally(keys))) == |keys|
  {
    var f := FirstOccurrences(keys);
    assert Counts(Tally(keys)) == CountsOf(f, multiset(keys));
    if |keys| > 0 {
      var p := keys[..|keys| - 1];
      var x := keys[|keys| - 1];
      assert keys == p + [x];
      var fp := FirstOccurrences(p);
      TallySum(p);
      assert Counts(Tally(p)) == CountsOf(fp, multiset(p));
      FirstOccurrencesSpec(p);
      CountsOfAdd(fp, multiset(p), x);
      if x !in fp {
        assert f == fp + [x];
        assert CountsOf(f, multiset(keys)) == CountsOf(fp, multiset(keys)) + [multiset(keys)[x]];
        SumAppend(CountsOf(fp, multiset(keys)), [multiset(keys)[x]]);
        assert multiset(p)[x] == 0;
      }
    }
  }

  /**
   * The tally has one entry per distinct key, in first-occurrence order, each with its
   * number of occurrences (at least one), and the counts add up to the number of keys.
   */
  lemma {:induction false} TallySpec(keys: seq<string>)
    ensures |Tally(keys)| == |set k | k in keys|
    ensures forall i :: 0 <= i < |Tally(keys)| ==>
              Tally(keys)[i].0 in keys && Tally(keys)[i].1 == multiset(keys)[Tally(keys)[i].0] >= 1
    ensures forall k :: k in keys ==> exists i :: 0 <= i < |Tally(keys)| && Tally(keys)[i].0 == k
    ensures forall i, j :: 0 <= i < j < |Tally(keys)| ==> Tally(keys)[i].0 != Tally(keys)[j].0
    ensures Sum(Counts(Tally(keys))) == |keys|
  {
    FirstOccurrencesSpec(keys);
    TallySum(keys);
    var f := FirstOccurrences(keys);
    forall i | 0 <= i < |Tally(keys)|
      ensures Tally(keys)[i].0 in keys && Tally(keys)[i].1 == multiset(keys)[Tally(keys)[i].0] >= 1
    {
      assert Tally(keys)[i] == (f[i], multiset(keys)[f[i]]);
      assert f[i] in f;
    }
    forall k | k in keys ensures exists i :: 0 <= i < |Tally(keys)| && Tally(keys)[i].0 == k {
      var i :| 0 <= i < |f| && f[i] == k;
      assert Tally(keys)[i].0 == k;
    }
  }

  // ---------------------------------------------------------------------------
  // processStatusDistribution
  // ---------------------------------------------------------------------------

  /** `{ name, value }` */
  datatype PieSlice = PieSlice(name: string, value: nat)

  function StatusNames(leads: seq<Lead>): seq<string>
  {
    seq(|leads|, i requires 0 <= i < |leads| => StatusName(leads[i].status))
  }

  function SliceValues(slices: seq<PieSlice>): seq<nat>
  {
    seq(|slices|, i requires 0 <= i < |slices| => slices[i].value)
  }

  /** The pie data: the status tally as slices. */
  function StatusDistribution(leads: seq<Lead>): seq<PieSlice>
  {
    var t := Tally(StatusNames(leads));
    seq(|t|, i requires 0 <= i < |t| => PieSlice(t[i].0, t[i].1))
  }

  /** `processStatusDistribution(leads)` */
  method ProcessStatusDistribution(leads: seq<Lead>) returns (slices: seq<PieSlice>)
    ensures slices == StatusDistribution(leads)
  {
    var names := seq(|leads|, i requires 0 <= i < |leads| => StatusName(leads[i].status));
    var entries := GroupCount(names);
    slices := seq(|entries|, i requires 0 <= i < |entries| => PieSlice(entries[i].0, entries[i].1));
  }

  /** One slice per distinct status, no name twice. */
  lemma StatusDistributionShape(leads: seq<Lead>)
    ensures |StatusDistribution(leads)| == |set l | l in leads :: l.status|
    ensures forall i, j :: 0 <= i < j < |StatusDistribution(leads)| ==>
              StatusDistribution(leads)[i].name != StatusDistribution(leads)[j].name
  {
    var names := StatusNames(leads);
    TallySpec(names);
    forall k | k in names ensures exists l :: l in leads && k == StatusName(l.status) {
      var j :| 0 <= j < |names| && names[j] == k;
      assert leads[j] in leads;
    }
    forall l | l in leads ensures StatusName(l.status) in names {
      var j :| 0 <= j < |leads| && leads[j] == l;
      assert names[j] == StatusName(l.status);
    }
    assert (set k | k in names) == (set l | l in leads :: StatusName(l.status));
    StatusImageSize(leads);
  }

  /** Every slice's value is the number of leads with that status (so at least one). */
  lemma StatusDistributionValues(leads: seq<Lead>)
    ensures forall i :: 0 <= i < |StatusDistribution(leads)| ==>
              StatusDistribution(leads)[i].value == multiset(StatusNames(leads))[StatusDistribution(leads)[i].name] >= 1
    ensures Sum(SliceValues(StatusDistribution(leads))) == |leads|
  {
    var names := StatusNames(leads);
    TallySpec(names);
    assert SliceValues(StatusDistribution(leads)) == Counts(Tally(names));
  }

  /** The slices name exactly the statuses that occur. */
  lemma StatusDistributionNames(leads: seq<Lead>)
    ensures forall i :: 0 <= i < |StatusDistribution(leads)| ==>
              exists l :: l in leads && StatusName(l.status) == StatusDistribution(leads)[i].name
    ensures forall l :: l in leads ==>
              exists i :: 0 <= i < |StatusDistribution(leads)| && StatusDistribution(leads)[i].name == StatusName(l.status)
  {
    var r := StatusDistribution(leads);
    forall i | 0 <= i < |r| ensures exists l :: l in leads && StatusName(l.status) == r[i].name {
      var j := SliceSource(leads, i);
      assert leads[j] in leads;
    }
    forall l | l in leads ensures exists i :: 0 <= i < |r| && r[i].name == StatusName(l.status) {
      var j :| 0 <= j < |leads| && leads[j] == l;
      var i := SliceOf(leads, j);
    }
  }

  /** The slice names are the first occurrences of the status names. */
  /**
   * The slices come in the order in which their statuses first occur among the leads:
   * `Object.entries` of the `grouped` record.
   */
  lemma StatusDistributionOrder(leads: seq<Lead>)
    ensures forall i, j :: 0 <= i < j < |StatusDistribution(leads)| ==>
              FirstIndex(StatusNames(leads), StatusDistribution(leads)[i].name) <
              FirstIndex(StatusNames(leads), StatusDistribution(leads)[j].name)
  {
    var f := FirstOccurrences(StatusNames(leads));
    FirstOccurrencesOrdered(StatusNames(leads));
    forall i | 0 <= i < |StatusDistribution(leads)| ensures StatusDistribution(leads)[i].name == f[i] {
    }
  }

  lemma SliceNames(leads: seq<Lead>)
    ensures |StatusDistribution(leads)| == |FirstOccurrences(StatusNames(leads))|
    ensures forall i :: 0 <= i < |StatusDistribution(leads)| ==>
              StatusDistribution(leads)[i].name == FirstOccurrences(StatusNames(leads))[i]
  {
  }

  /** A lead whose status slice `i` names. */
  lemma SliceSource(leads: seq<Lead>, i: nat) returns (j: nat)
    requires i < |StatusDistribution(leads)|
    ensures j < |leads| && StatusName(leads[j].status) == StatusDistribution(leads)[i].name
  {
    var names := StatusNames(leads);
    var f := FirstOccurrences(names);
    SliceNames(leads);
    FirstOccurrencesSpec(names);
    assert f[i] in f;
    assert f[i] in names;
    j :| 0 <= j < |names| && names[j] == f[i];
  }

  /** The slice that names lead `j`'s status. */
  lemma SliceOf(leads: seq<Lead>, j: nat) returns (i: nat)
    requires j < |leads|
    ensures i < |StatusDistribution(leads)| && StatusDistribution(leads)[i].name == StatusName(leads[j].status)
  {
    var names := StatusNames(leads);
    var f := FirstOccurrences(names);
    SliceNames(leads);
    FirstOccurrencesSpec(names);
    assert names[j] in names;
    assert names[j] in f;
    i :| 0 <= i < |f| && f[i] == names[j];
  }

  lemma StatusImageSize(leads: seq<Lead>)
    ensures |set l | l in leads :: StatusName(l.status)| == |set l | l in leads :: l.status|
  {
    var byStatus := set l | l in leads :: l.status;
    var byName := set l | l in leads :: StatusName(l.status);
    assert byName == set s | s in byStatus :: StatusName(s);
    InjectiveImage(byStatus);
  }

  lemma {:induction false} InjectiveImage(s: set<Status>)
    ensures |set x | x in s :: StatusName(x)| == |s|
  {
    if s != {} {
      var x :| x in s;
      InjectiveImage(s - {x});
      var img := set y | y in s - {x} :: StatusName(y);
      assert (set y | y in s :: StatusName(y)) == img + {StatusName(x)};
      assert StatusName(x) !in img;
    }
  }

  // ---------------------------------------------------------------------------
  // processLeadsOverTime
  // ---------------------------------------------------------------------------

  /** `{ date, leads }` */
  datatype ChartPoint = ChartPoint(date: string, leads: nat)

  function EventDates(leads: seq<Lead>): seq<string>
  {
    seq(|leads|, i requires 0 <= i < |leads| => leads[i].data_evento)
  }

  /** The comparator `new Date(a.date).getTime() - new Date(b.date).getTime()` on labels. */
  function ByTime(time: string -> int): (ChartPoint, ChartPoint) -> bool
  {
    (a: ChartPoint, b: ChartPoint) => time(a.date) - time(b.date) <= 0
  }

  lemma ByTimeIsConsistent(time: string -> int)
    ensures TotalPreorder(ByTime(time))
  {
  }

  /** `.slice(-8)` */
  function LastEight<T>(s: seq<T>): seq<T>
  {
    s[|s| - Min(8, |s|)..]
  }

  /** The tally by raw event date, with each date replaced by its chart label. */
  function TimePoints(leads: seq<Lead>, format: string -> string): seq<ChartPoint>
  {
    var t := Tally(EventDates(leads));
    seq(|t|, i requires 0 <= i < |t| => ChartPoint(format(t[i].0), t[i].1))
  }

  /** The line-chart data: the labelled tally, sorted by the parsed label, last eight. */
  function LeadsOverTime(leads: seq<Lead>, format: string -> string, time: string -> int): seq<ChartPoint>
  {
    LastEight(StableSort(TimePoints(leads, format), ByTime(time)))
  }

  /** `processLeadsOverTime(leads)`, given the date formatter and the label parser. */
  method ProcessLeadsOverTime(leads: seq<Lead>, format: string -> string, time: string -> int)
    returns (points: seq<ChartPoint>)
    ensures points == LeadsOverTime(leads, format, time)
  {
    var dates := seq(|leads|, i requires 0 <= i < |leads| => leads[i].data_evento);
    var grouped := GroupCount(dates);
    var labelled := seq(|grouped|, i requires 0 <= i < |grouped| => ChartPoint(format(grouped[i].0), grouped[i].1));
    var sorted := StableSort(labelled, ByTime(time));
    points := sorted[|sorted| - Min(8, |sorted|)..];
  }

  /** The sorted labelled tally, from which the last eight are kept. */
  function SortedPoints(leads: seq<Lead>, format: string -> string, time: string -> int): seq<ChartPoint>
  {
    StableSort(TimePoints(leads, format), ByTime(time))
  }

  /** At most eight points; one per distinct event date when there are fewer. */
  lemma LeadsOverTimeLength(leads: seq<Lead>, format: string -> string, time: string -> int)
    ensures |LeadsOverTime(leads, format, time)| == Min(8, |set d | d in EventDates(leads)|)
    ensures leads == [] ==> LeadsOverTime(leads, format, time) == []
  {
    TallySpec(EventDates(leads));
    SortIsPermutation(TimePoints(leads, format), ByTime(time));
  }

  /** The points ascend by the parsed label (not necessarily by date). */
  lemma LeadsOverTimeAscending(leads: seq<Lead>, format: string -> string, time: string -> int)
    ensures forall i, j :: 0 <= i < j < |LeadsOverTime(leads, format, time)| ==>
              time(LeadsOverTime(leads, format, time)[i].date) <= time(LeadsOverTime(leads, format, time)[j].date)
  {
    var le := ByTime(time);
    var s := SortedPoints(leads, format, time);
    var r := LeadsOverTime(leads, format, time);
    ByTimeIsConsistent(time);
    SortIsSorted(TimePoints(leads, format), le);
    var k := |s| - Min(8, |s|);
    forall i, j | 0 <= i < j < |r| ensures time(r[i].date) <= time(r[j].date) {
      assert r[i] == s[k + i] && r[j] == s[k + j];
      assert le(s[k + i], s[k + j]);
    }
  }

  /** Each point is the label of one raw date with that date's exact count. */
  lemma LeadsOverTimePoints(leads: seq<Lead>, format: string -> string, time: string -> int)
    ensures multiset(LeadsOverTime(leads, format, time)) <= multiset(TimePoints(leads, format))
    ensures forall p :: p in LeadsOverTime(leads, format, time) ==>
              exists d :: d in EventDates(leads) && p == ChartPoint(format(d), multiset(EventDates(leads))[d])
  {
    var dates := EventDates(leads);
    var pts := TimePoints(leads, format);
    var s := SortedPoints(leads, format, time);
    var r := LeadsOverTime(leads, format, time);
    TallySpec(dates);
    SortIsPermutation(pts, ByTime(time));
    var k := |s| - Min(8, |s|);
    assert s == s[..k] + r;
    assert multiset(s) == multiset(s[..k]) + multiset(r);
    forall p | p in r ensures exists d :: d in dates && p == ChartPoint(format(d), multiset(dates)[d]) {
      assert p in multiset(s);
      assert p in pts;
      var i :| 0 <= i < |pts| && pts[i] == p;
      assert Tally(dates)[i].0 in dates;
    }
  }

  /** No dropped point parses later than a kept one: the kept eight are the latest. */
  lemma LeadsOverTimeKeepsLatest(leads: seq<Lead>, format: string -> string, time: string -> int)
    ensures forall p: ChartPoint, q: ChartPoint ::
              p in multiset(TimePoints(leads, format)) - multiset(LeadsOverTime(leads, format, time)) &&
              q in LeadsOverTime(leads, format, time) ==>
                time(p.date) <= time(q.date)
  {
    var pts := TimePoints(leads, format);
    var le := ByTime(time);
    var s := SortedPoints(leads, format, time);
    var r := LeadsOverTime(leads, format, time);
    SortIsPermutation(pts, le);
    ByTimeIsConsistent(time);
    SortIsSorted(pts, le);
    var k := |s| - Min(8, |s|);
    assert s == s[..k] + r;
    assert multiset(s) == multiset(s[..k]) + multiset(r);
    assert multiset(pts) - multiset(r) == multiset(s[..k]);
    assert r == s[k..];
    SortedSplit(s, k, le);
    forall p: ChartPoint, q: ChartPoint | p in multiset(pts) - multiset(r) && q in r ensures time(p.date) <= time(q.date) {
      assert q in multiset(s[k..]);
      assert le(p, q);
    }
  }
}
