/**
 * `PlantProps` and `StoragePlantProps` of `libs/storage.ts`, and the two
 * changes the store makes to the stored object: the spread merge of
 * `savePlant` and the `delete` of `removePlant`.
 */
module PlantTable {
  import opened Dates
  import opened Recurrence
  import opened Seqs
  import opened Wrappers

  /** The opaque `notificationId` the notification scheduler hands out. */
  type Handle = nat

  datatype PlantProps = PlantProps(
    id: string,
    name: string,
    about: string,
    waterTips: string,
    photo: string,
    environments: seq<string>,
    frequency: Frequency,
    hour: string,
    dateTimeNotification: Moment)

  /** One value of `StoragePlantProps`: `{data, notificationId}`. */
  datatype StoredEntry = StoredEntry(data: PlantProps, notificationId: Handle)

  /**
   * The object stored under "@plantmanager:plants": its entries, and its
   * keys in the order `Object.keys` lists them.
   */
  datatype Table = Table(keys: seq<string>, entries: map<string, StoredEntry>)

  /** Every key listed once, the listed keys are the entries' keys, and each entry is filed under its plant's id. */
  ghost predicate WellFormed(t: Table)
  {
    && Distinct(t.keys)
    && (forall k :: k in t.keys <==> k in t.entries)
    && (forall k :: k in t.entries ==> t.entries[k].data.id == k)
  }

  const Empty := Table([], map[])

  /** `data ? JSON.parse(data) : {}`: a missing stored value reads as the empty object. */
  function Stored(value: Option<Table>): (t: Table)
    ensures value.None? ==> t.keys == [] && t.entries == map[]
    ensures value.Some? ==> t == value.value
  {
    match value
    case None => Empty
    case Some(t) => t
  }

  lemma EmptyIsWellFormed()
    ensures WellFormed(Empty)
  {
  }

  function IsNot(id: string): string -> bool
  {
    k => k != id
  }

  /**
   * `{...newPlant, ...oldPlants}` with `newPlant = {[id]: e}`: a key
   * already stored keeps its old value, a new key gets `e`, and `id` is
   * listed first because `newPlant` is spread first.
   */
  function Spread(t: Table, id: string, e: StoredEntry): (r: Table)
    requires WellFormed(t) && e.data.id == id
    ensures WellFormed(r)
    ensures r.entries.Keys == t.entries.Keys + {id}
    ensures id in t.entries ==> r.entries == t.entries
    ensures id !in t.entries ==> r.entries[id] == e
    ensures forall k :: k in t.entries ==> r.entries[k] == t.entries[k]
    ensures r.keys[0] == id && r.keys[1..] == Filter(t.keys, IsNot(id))
  {
    var rest := Filter(t.keys, IsNot(id));
    FrontKey(t.keys, id);
    var r := Table([id] + rest, if id in t.entries then t.entries else t.entries[id := e]);
    assert r.keys[1..] == rest;
    r
  }

  /** Listing `id` first and then the other keys lists every key once. */
  lemma FrontKey(keys: seq<string>, id: string)
    requires Distinct(keys)
    ensures Distinct([id] + Filter(keys, IsNot(id)))
    ensures forall k :: k in [id] + Filter(keys, IsNot(id)) <==> k == id || k in keys
  {
    var rest := Filter(keys, IsNot(id));
    var ks := [id] + rest;
    FilterDistinct(keys, IsNot(id));
    FilterCounts(keys, IsNot(id));
    assert id !in rest;
    assert Distinct(rest);
    forall i, j | 0 <= i < j < |ks| ensures ks[i] != ks[j] {
      if i == 0 {
        assert ks[j] == rest[j - 1];
        assert rest[j - 1] in rest;
      } else {
        assert ks[i] == rest[i - 1] && ks[j] == rest[j - 1];
      }
    }
    forall k ensures k in ks <==> k == id || k in keys {
      assert k in rest <==> k in keys && IsNot(id)(k);
    }
  }

  /** `delete plants[id]`: the entry goes, the remaining keys keep their order. */
  function Delete(t: Table, id: string): (r: Table)
    requires WellFormed(t)
    ensures WellFormed(r)
    ensures r.entries.Keys == t.entries.Keys - {id}
    ensures forall k :: k in r.entries ==> r.entries[k] == t.entries[k]
    ensures r.keys == Filter(t.keys, IsNot(id))
  {
    FilterDistinct(t.keys, IsNot(id));
    FilterCounts(t.keys, IsNot(id));
    Table(Filter(t.keys, IsNot(id)), t.entries - {id})
  }

  /** Saving an id that is already stored leaves every stored entry as it was. */
  lemma {:induction false} SaveTwiceKeepsTheFirst(t: Table, p: PlantProps, h1: Handle, q: PlantProps, h2: Handle)
    requires WellFormed(t) && q.id == p.id
    ensures var once := Spread(t, p.id, StoredEntry(p, h1));
            var twice := Spread(once, q.id, StoredEntry(q, h2));
            twice.entries == once.entries && twice.entries[p.id] == (if p.id in t.entries then t.entries[p.id] else StoredEntry(p, h1))
  {
  }

  /** After a save a later save of the same plant adds no entry: exactly one entry per id. */
  lemma {:induction false} SaveAddsAtMostOneEntry(t: Table, id: string, e: StoredEntry)
    requires WellFormed(t) && e.data.id == id
    ensures |Spread(t, id, e).keys| == |t.keys| + (if id in t.entries then 0 else 1)
  {
    var r := Spread(t, id, e);
    KeysCount(t);
    KeysCount(r);
    if id in t.entries {
      assert r.entries == t.entries;
    } else {
      assert r.entries.Keys == t.entries.Keys + {id};
      assert |r.entries.Keys| == |t.entries.Keys| + 1;
    }
  }

  /** In a well-formed table the key list and the entries have the same size. */
  lemma {:induction false} KeysCount(t: Table)
    requires WellFormed(t)
    ensures |t.keys| == |t.entries|
  {
    DistinctCardinality(t.keys);
    assert t.entries.Keys == set k | k in t.keys;
  }

  lemma {:induction false} DistinctCardinality(s: seq<string>)
    requires Distinct(s)
    ensures |set k | k in s| == |s|
  {
    if s != [] {
      var tail := s[1..];
      assert Distinct(tail) by {
        forall i, j | 0 <= i < j < |tail| ensures tail[i] != tail[j] {
          assert tail[i] == s[i + 1] && tail[j] == s[j + 1];
        }
      }
      DistinctCardinality(tail);
      assert s[0] !in tail by {
        forall i | 0 <= i < |tail| ensures tail[i] != s[0] {
          assert tail[i] == s[i + 1];
        }
      }
      assert (set k | k in s) == (set k | k in tail) + {s[0]} by {
        assert s == [s[0]] + tail;
      }
    }
  }
}
