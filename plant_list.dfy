/**
 * `loadPlant`'s pipeline: the stored object's keys, mapped to their
 * records with `hour` rendered, then sorted by notification time in whole
 * seconds with a stable sort.
 */
module PlantList {
  import opened Dates
  import opened Seqs
  import opened PlantTable

  /** `{...data, hour: format(dateTimeNotification, "HH:mm")}`. */
  function WithHour(p: PlantProps): (r: PlantProps)
    ensures r.hour == FormatHourMinute(p.dateTimeNotification)
    ensures r.(hour := p.hour) == p
  {
    p.(hour := FormatHourMinute(p.dateTimeNotification))
  }

  /** `Object.keys(plants).map(...)`: one record per listed key, in key order. */
  function Records(keys: seq<string>, entries: map<string, StoredEntry>): (r: seq<PlantProps>)
    requires forall k :: k in keys ==> k in entries
    ensures |r| == |keys|
    ensures forall i :: 0 <= i < |keys| ==> r[i] == WithHour(entries[keys[i]].data)
  {
    if keys == [] then []
    else [WithHour(entries[keys[0]].data)] + Records(keys[1..], entries)
  }

  /** The comparator's key: `Math.floor(getTime() / 1000)`. */
  function Seconds(p: PlantProps): int
  {
    Time(p.dateTimeNotification) / 1000
  }

  predicate SortedBySeconds(s: seq<PlantProps>)
  {
    forall i, j :: 0 <= i < j < |s| ==> Seconds(s[i]) <= Seconds(s[j])
  }

  /** Insert `x` after every element whose key is not larger than its own. */
  function Insert(s: seq<PlantProps>, x: PlantProps): (r: seq<PlantProps>)
    ensures |r| == |s| + 1
    ensures multiset(r) == multiset(s) + multiset{x}
  {
    if s == [] then [x]
    else if Seconds(s[|s| - 1]) <= Seconds(x) then s + [x]
    else
      var init, last := s[..|s| - 1], s[|s| - 1];
      assert s == init + [last];
      Insert(init, x) + [last]
  }

  /** Inserting before a later last element leaves that element last. */
  lemma InsertBeforeLast(init: seq<PlantProps>, last: PlantProps, x: PlantProps)
    requires Seconds(last) > Seconds(x)
    ensures Insert(init + [last], x) == Insert(init, x) + [last]
  {
    var s := init + [last];
    assert s[..|s| - 1] == init;
  }

  /** Appending an element no earlier than every element keeps the order. */
  lemma AppendKeepsSorted(a: seq<PlantProps>, z: PlantProps)
    requires SortedBySeconds(a)
    requires forall i :: 0 <= i < |a| ==> Seconds(a[i]) <= Seconds(z)
    ensures SortedBySeconds(a + [z])
  {
    var r := a + [z];
    forall i, j | 0 <= i < j < |r| ensures Seconds(r[i]) <= Seconds(r[j]) {
      assert r[i] == a[i];
    }
  }

  lemma {:induction false} InsertKeepsSorted(s: seq<PlantProps>, x: PlantProps)
    requires SortedBySeconds(s)
    ensures SortedBySeconds(Insert(s, x))
  {
    if s != [] && Seconds(s[|s| - 1]) > Seconds(x) {
      var init, last := s[..|s| - 1], s[|s| - 1];
      assert s == init + [last];
      assert SortedBySeconds(init);
      InsertKeepsSorted(init, x);
      InsertBeforeLast(init, last, x);
      var ins := Insert(init, x);
      forall i | 0 <= i < |ins| ensures Seconds(ins[i]) <= Seconds(last) {
        var y := ins[i];
        assert y in multiset(init) + multiset{x};
        if y != x {
          assert y in init;
          var j :| 0 <= j < |init| && init[j] == y;
          assert s[j] == y;
        }
      }
      AppendKeepsSorted(ins, last);
    } else if s != [] {
      AppendKeepsSorted(s, x);
    }
  }

  /**
   * `Array.prototype.sort` with the comparator
   * `Math.floor(a / 1000 - Math.floor(b / 1000))`, whose sign is that of
   * `Seconds(a) - Seconds(b)`; the sort is stable, and a stable sort's
   * result is the one this insertion sort computes.
   */
  function SortBySeconds(s: seq<PlantProps>): (r: seq<PlantProps>)
    ensures multiset(r) == multiset(s) && |r| == |s|
    ensures SortedBySeconds(r)
  {
    if s == [] then []
    else
      var init, last := s[..|s| - 1], s[|s| - 1];
      assert s == init + [last];
      InsertKeepsSorted(SortBySeconds(init), last);
      Insert(SortBySeconds(init), last)
  }

  function AtSecond(sec: int): PlantProps -> bool
  {
    p => Seconds(p) == sec
  }

  /** Two filtered pieces of which one is empty can be swapped. */
  lemma SwapEmpty<T>(a: seq<T>, b: seq<T>, c: seq<T>)
    requires b == [] || c == []
    ensures a + b + c == a + c + b
  {
  }

  lemma {:induction false} InsertKeepsTies(s: seq<PlantProps>, x: PlantProps, sec: int)
    ensures Filter(Insert(s, x), AtSecond(sec)) == Filter(s, AtSecond(sec)) + Filter([x], AtSecond(sec))
  {
    var keep := AtSecond(sec);
    if s == [] {
    } else if Seconds(s[|s| - 1]) <= Seconds(x) {
      FilterConcat(s, [x], keep);
    } else {
      var init, last := s[..|s| - 1], s[|s| - 1];
      assert s == init + [last];
      InsertBeforeLast(init, last, x);
      InsertKeepsTies(init, x, sec);
      FilterConcat(Insert(init, x), [last], keep);
      FilterConcat(init, [last], keep);
      FilterSingleton(x, keep);
      FilterSingleton(last, keep);
      SwapEmpty(Filter(init, keep), Filter([x], keep), Filter([last], keep));
    }
  }

  /** Stability: the records with any one key appear in the sorted list in their original order. */
  lemma {:induction false} SortKeepsTies(s: seq<PlantProps>, sec: int)
    ensures Filter(SortBySeconds(s), AtSecond(sec)) == Filter(s, AtSecond(sec))
  {
    if s != [] {
      var init, last := s[..|s| - 1], s[|s| - 1];
      assert s == init + [last];
      SortKeepsTies(init, sec);
      InsertKeepsTies(SortBySeconds(init), last, sec);
      FilterConcat(init, [last], AtSecond(sec));
    }
  }

  /** What `loadPlant` resolves to for a stored object: its records, reordered and sorted. */
  function LoadList(t: Table): (r: seq<PlantProps>)
    requires WellFormed(t)
    ensures |r| == |t.keys|
    ensures multiset(r) == multiset(Records(t.keys, t.entries))
    ensures SortedBySeconds(r)
  {
    SortBySeconds(Records(t.keys, t.entries))
  }

  /** Records whose notification falls in the same second keep their key order. */
  lemma {:induction false} LoadListIsStable(t: Table, sec: int)
    requires WellFormed(t)
    ensures Filter(LoadList(t), AtSecond(sec)) == Filter(Records(t.keys, t.entries), AtSecond(sec))
  {
    SortKeepsTies(Records(t.keys, t.entries), sec);
  }

  /** Every stored entry is listed, with `hour` rendered and everything else copied. */
  lemma {:induction false} LoadListHasEveryEntry(t: Table)
    requires WellFormed(t)
    ensures forall k :: k in t.entries ==> WithHour(t.entries[k].data) in LoadList(t)
  {
    var recs := Records(t.keys, t.entries);
    var r := LoadList(t);
    forall k | k in t.entries ensures WithHour(t.entries[k].data) in r {
      var i :| 0 <= i < |t.keys| && t.keys[i] == k;
      assert recs[i] in multiset(r);
    }
  }

  /** Nothing is listed that is not a stored entry's record. */
  lemma {:induction false} LoadListHasOnlyEntries(t: Table)
    requires WellFormed(t)
    ensures forall p :: p in LoadList(t) ==> p.id in t.entries && p == WithHour(t.entries[p.id].data)
  {
    var recs := Records(t.keys, t.entries);
    var r := LoadList(t);
    forall p | p in r ensures p.id in t.entries && p == WithHour(t.entries[p.id].data) {
      assert p in multiset(r);
      assert p in multiset(recs);
      assert p in recs;
      var i :| 0 <= i < |recs| && recs[i] == p;
      var d := t.entries[t.keys[i]].data;
      assert p == WithHour(d) && d.id == t.keys[i];
      assert p.id == d.id;
    }
  }

  /** An empty or missing store lists no plants. */
  lemma EmptyStoreListsNothing()
    ensures LoadList(Stored(Wrappers.None)) == []
  {
  }

  /** A plant saved under a new id is listed, with only `hour` changed. */
  lemma {:induction false} SavedPlantIsListed(t: Table, p: PlantProps, h: Handle)
    requires WellFormed(t) && p.id !in t.entries
    ensures WithHour(p) in LoadList(Spread(t, p.id, StoredEntry(p, h)))
  {
    LoadListHasEveryEntry(Spread(t, p.id, StoredEntry(p, h)));
  }

  /** No record with a removed id is listed afterwards. */
  lemma {:induction false} RemovedPlantIsNotListed(t: Table, id: string)
    requires WellFormed(t)
    ensures forall p :: p in LoadList(Delete(t, id)) ==> p.id != id
  {
    LoadListHasOnlyEntries(Delete(t, id));
  }

  /** The first listed plant is one whose notification second is the earliest stored. */
  lemma {:induction false} FirstIsEarliest(t: Table)
    requires WellFormed(t) && LoadList(t) != []
    ensures forall k :: k in t.entries ==> Seconds(LoadList(t)[0]) <= Seconds(t.entries[k].data)
  {
    LoadListHasEveryEntry(t);
    var r := LoadList(t);
    forall k | k in t.entries ensures Seconds(r[0]) <= Seconds(t.entries[k].data) {
      var p := WithHour(t.entries[k].data);
      var i :| 0 <= i < |r| && r[i] == p;
      assert Seconds(p) == Seconds(t.entries[k].data);
    }
  }

  /** Two plants saved in either order are listed earliest first. */
  lemma {:induction false} TwoSavesListEarliestFirst(a: PlantProps, b: PlantProps, ha: Handle, hb: Handle)
    requires a.id != b.id && Seconds(a) < Seconds(b)
    ensures LoadList(Spread(Spread(Empty, a.id, StoredEntry(a, ha)), b.id, StoredEntry(b, hb))) == [WithHour(a), WithHour(b)]
    ensures LoadList(Spread(Spread(Empty, b.id, StoredEntry(b, hb)), a.id, StoredEntry(a, ha))) == [WithHour(a), WithHour(b)]
  {
    EmptyIsWellFormed();
    var ab := Spread(Spread(Empty, a.id, StoredEntry(a, ha)), b.id, StoredEntry(b, hb));
    var ba := Spread(Spread(Empty, b.id, StoredEntry(b, hb)), a.id, StoredEntry(a, ha));
    SaveAddsAtMostOneEntry(Empty, a.id, StoredEntry(a, ha));
    SaveAddsAtMostOneEntry(Spread(Empty, a.id, StoredEntry(a, ha)), b.id, StoredEntry(b, hb));
    SaveAddsAtMostOneEntry(Empty, b.id, StoredEntry(b, hb));
    SaveAddsAtMostOneEntry(Spread(Empty, b.id, StoredEntry(b, hb)), a.id, StoredEntry(a, ha));
    LoadListHasEveryEntry(ab);
    LoadListHasEveryEntry(ba);
    OrderedPair(LoadList(ab), WithHour(a), WithHour(b));
    OrderedPair(LoadList(ba), WithHour(a), WithHour(b));
  }

  lemma OrderedPair(r: seq<PlantProps>, x: PlantProps, y: PlantProps)
    requires |r| == 2 && x in r && y in r && SortedBySeconds(r) && Seconds(x) < Seconds(y)
    ensures r == [x, y]
  {
  }
}
