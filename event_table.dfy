/**
 * The persistent event table shared by the tracker and its destination
 * workers, as an abstract in-memory table: the records in the order they were
 * inserted, the fetch of a record by id, the workers' ascending range fetch,
 * and the coordinator's rule for taking a destination off a record.
 */
module EventTable {

  datatype Option<T> = None | Some(value: T)

  /** One stored event: its id, its body and the destinations still owed delivery. */
  datatype EventRecord = EventRecord(id: int, body: string, destinations: seq<string>)

  /** The largest number of records one worker fetch returns. */
  const FetchLimit: nat := 10

  // Fetch by id

  /**
   * Index of the record a fetch by `id` yields first. Ids come from a clock and
   * may repeat; the first match in insertion order is the one acted upon.
   */
  function FirstWithId(records: seq<EventRecord>, id: int): (r: Option<nat>)
    ensures r.Some? ==> r.value < |records| && records[r.value].id == id
    ensures r.Some? ==> forall j :: 0 <= j < r.value ==> records[j].id != id
    ensures r.None? <==> forall j :: 0 <= j < |records| ==> records[j].id != id
  {
    if records == [] then None
    else if records[0].id == id then Some(0)
    else match FirstWithId(records[1..], id)
      case None => None
      case Some(i) => Some(i + 1)
  }

  // Taking a destination off a record

  /** The list with every occurrence of `name` taken out. */
  function RemoveAll(names: seq<string>, name: string): seq<string>
  {
    if names == [] then []
    else if names[0] == name then RemoveAll(names[1..], name)
    else [names[0]] + RemoveAll(names[1..], name)
  }

  /**
   * Taking a name out leaves no occurrence of it, keeps every other name as
   * often as before, and shortens the list by the occurrences removed.
   */
  lemma {:induction false} RemoveAllCounts(names: seq<string>, name: string)
    ensures var r := RemoveAll(names, name);
      && name !in r
      && (forall x | x != name :: multiset(r)[x] == multiset(names)[x])
      && |r| + multiset(names)[name] == |names|
  {
    if names != [] {
      RemoveAllCounts(names[1..], name);
      assert names == [names[0]] + names[1..];
    }
  }

  /** Concatenation is associative. */
  lemma ConcatAssoc<T>(a: seq<T>, b: seq<T>, c: seq<T>)
    ensures a + (b + c) == (a + b) + c
  {
  }

  /** Taking a name out keeps the order of what remains: it works piece by piece. */
  lemma {:induction false} RemoveAllDistributes(a: seq<string>, b: seq<string>, name: string)
    ensures RemoveAll(a + b, name) == RemoveAll(a, name) + RemoveAll(b, name)
  {
    if a == [] {
      assert a + b == b;
    } else {
      var head := if a[0] == name then [] else [a[0]];
      assert (a + b)[0] == a[0];
      assert (a + b)[1..] == a[1..] + b;
      assert RemoveAll(a, name) == head + RemoveAll(a[1..], name);
      assert RemoveAll(a + b, name) == head + RemoveAll(a[1..] + b, name);
      RemoveAllDistributes(a[1..], b, name);
      ConcatAssoc(head, RemoveAll(a[1..], name), RemoveAll(b, name));
    }
  }

  /** A list without the name is left exactly as it is. */
  lemma {:induction false} RemoveAllAbsent(names: seq<string>, name: string)
    requires name !in names
    ensures RemoveAll(names, name) == names
  {
    if names != [] {
      RemoveAllAbsent(names[1..], name);
    }
  }

  /**
   * The coordinator's removal of `destination` from the record with `id`: no
   * record with that id leaves the table as it is; a record with fewer than two
   * destinations is deleted whatever they are; otherwise every occurrence of
   * the destination is taken off that record.
   */
  function RemovedFrom(records: seq<EventRecord>, id: int, destination: string): seq<EventRecord>
  {
    match FirstWithId(records, id)
    case None => records
    case Some(i) =>
      if |records[i].destinations| < 2 then records[..i] + records[i + 1..]
      else records[i := records[i].(destinations := RemoveAll(records[i].destinations, destination))]
  }

  lemma RemovedFromMissing(records: seq<EventRecord>, id: int, destination: string)
    requires forall j :: 0 <= j < |records| ==> records[j].id != id
    ensures RemovedFrom(records, id, destination) == records
  {
  }

  /** The first record with the id is deleted when it lists fewer than two destinations, listed or not. */
  lemma RemovedFromShort(records: seq<EventRecord>, i: nat, destination: string)
    requires i < |records| && forall j :: 0 <= j < i ==> records[j].id != records[i].id
    requires |records[i].destinations| < 2
    ensures var r := RemovedFrom(records, records[i].id, destination);
      && |r| == |records| - 1
      && (forall j :: 0 <= j < i ==> r[j] == records[j])
      && (forall j :: i < j < |records| ==> r[j - 1] == records[j])
  {
  }

  /**
   * Otherwise the first record with the id stays where it is with the same id
   * and body, the destination no longer among its destinations and the others
   * kept in order, and every other record is untouched.
   */
  lemma RemovedFromLong(records: seq<EventRecord>, i: nat, destination: string)
    requires i < |records| && forall j :: 0 <= j < i ==> records[j].id != records[i].id
    requires |records[i].destinations| >= 2
    ensures var r := RemovedFrom(records, records[i].id, destination);
      && |r| == |records|
      && r[i].id == records[i].id && r[i].body == records[i].body
      && r[i].destinations == RemoveAll(records[i].destinations, destination)
      && destination !in r[i].destinations
      && (forall j :: 0 <= j < |records| && j != i ==> r[j] == records[j])
  {
    RemoveAllCounts(records[i].destinations, destination);
  }

  // The workers' range fetch

  /** The records with an id greater than `after`, in table order. */
  function Above(records: seq<EventRecord>, after: int): (r: seq<EventRecord>)
    ensures forall x :: multiset(r)[x] == if x.id > after then multiset(records)[x] else 0
  {
    if records == [] then []
    else
      assert records == [records[0]] + records[1..];
      (if records[0].id > after then [records[0]] else []) + Above(records[1..], after)
  }

  predicate SortedById(s: seq<EventRecord>)
  {
    forall i, j | 0 <= i < j < |s| :: s[i].id <= s[j].id
  }

  /** A record no later than every record of a sorted list can go in front of it. */
  lemma ConsSorted(h: EventRecord, t: seq<EventRecord>)
    requires SortedById(t)
    requires forall y | y in t :: h.id <= y.id
    ensures SortedById([h] + t)
  {
    forall i, j | 0 <= i < j < |[h] + t| ensures ([h] + t)[i].id <= ([h] + t)[j].id {
      assert ([h] + t)[j] == t[j - 1];
      if i > 0 {
        assert ([h] + t)[i] == t[i - 1];
      }
    }
  }

  /** The last record of a sorted list carries the largest id. */
  lemma SortedLastIsMax(s: seq<EventRecord>)
    requires SortedById(s) && s != []
    ensures forall x | x in s :: x.id <= s[|s| - 1].id
  {
    forall x | x in s ensures x.id <= s[|s| - 1].id {
      var k :| 0 <= k < |s| && s[k] == x;
      if k < |s| - 1 {
        assert s[k].id <= s[|s| - 1].id;
      }
    }
  }

  /** Puts `x` into a list before the first record whose id is not smaller. */
  function Insert(x: EventRecord, s: seq<EventRecord>): seq<EventRecord>
  {
    if s == [] || x.id <= s[0].id then [x] + s
    else [s[0]] + Insert(x, s[1..])
  }

  lemma {:induction false} InsertKeepsRecords(x: EventRecord, s: seq<EventRecord>)
    ensures multiset(Insert(x, s)) == multiset(s) + multiset{x}
  {
    if s != [] && x.id > s[0].id {
      InsertKeepsRecords(x, s[1..]);
      assert s == [s[0]] + s[1..];
    }
  }

  lemma {:induction false} InsertSorted(x: EventRecord, s: seq<EventRecord>)
    requires SortedById(s)
    ensures SortedById(Insert(x, s))
  {
    if s == [] || x.id <= s[0].id {
      forall y | y in s ensures x.id <= y.id {
        var k :| 0 <= k < |s| && s[k] == y;
        if k > 0 {
          assert s[0].id <= s[k].id;
        }
      }
      ConsSorted(x, s);
    } else {
      var rest := Insert(x, s[1..]);
      assert SortedById(s[1..]) by {
        forall i, j | 0 <= i < j < |s[1..]| ensures s[1..][i].id <= s[1..][j].id {
          assert s[1..][i] == s[i + 1] && s[1..][j] == s[j + 1];
        }
      }
      InsertSorted(x, s[1..]);
      InsertKeepsRecords(x, s[1..]);
      forall y | y in rest ensures s[0].id <= y.id {
        assert y in multiset(rest);
        if y != x {
          assert y in multiset(s[1..]);
          var k :| 0 <= k < |s[1..]| && s[1..][k] == y;
          assert s[1..][k] == s[k + 1];
        }
      }
      ConsSorted(s[0], rest);
    }
  }

  /** The records ordered by ascending id. */
  function SortById(s: seq<EventRecord>): seq<EventRecord>
  {
    if s == [] then [] else Insert(s[0], SortById(s[1..]))
  }

  /** Sorting orders the records by id and keeps every one of them, as often as it occurs. */
  lemma {:induction false} SortByIdSorts(s: seq<EventRecord>)
    ensures SortedById(SortById(s)) && multiset(SortById(s)) == multiset(s)
  {
    if s != [] {
      SortByIdSorts(s[1..]);
      InsertSorted(s[0], SortById(s[1..]));
      InsertKeepsRecords(s[0], SortById(s[1..]));
      assert s == [s[0]] + s[1..];
    }
  }

  /** The first `limit` records of a sorted list are sorted and end with their largest id. */
  lemma PrefixSorted(s: seq<EventRecord>, limit: nat)
    requires SortedById(s) && limit <= |s|
    ensures SortedById(s[..limit])
  {
    var p := s[..limit];
    forall i, j | 0 <= i < j < |p| ensures p[i].id <= p[j].id {
      assert p[i] == s[i] && p[j] == s[j];
    }
  }

  /** A sequence holds what its first `n` elements and the rest hold together. */
  lemma SplitMultiset(s: seq<EventRecord>, n: nat)
    requires n <= |s|
    ensures multiset(s) == multiset(s[..n]) + multiset(s[n..])
  {
    assert s == s[..n] + s[n..];
  }

  /**
   * The worker's fetch: at most `limit` records with an id greater than
   * `after`, taken from the table in ascending id order, none more often than
   * the table holds it.
   */
  function Scan(records: seq<EventRecord>, after: int, limit: nat): (batch: seq<EventRecord>)
    ensures |batch| <= limit
    ensures forall x | x in batch :: x.id > after && x in records
    ensures multiset(batch) <= multiset(Above(records, after))
  {
    var above := Above(records, after);
    var sorted := SortById(above);
    SortByIdSorts(above);
    var n := if |sorted| <= limit then |sorted| else limit;
    SplitMultiset(sorted, n);
    assert forall x | x in sorted[..n] :: x.id > after && x in records by {
      forall x | x in sorted[..n] ensures x.id > after && x in records {
        assert multiset(above)[x] > 0;
        assert x in multiset(records);
      }
    }
    sorted[..n]
  }

  /** A fetch comes back in ascending id order. */
  lemma ScanSorted(records: seq<EventRecord>, after: int, limit: nat)
    ensures SortedById(Scan(records, after, limit))
  {
    var sorted := SortById(Above(records, after));
    SortByIdSorts(Above(records, after));
    PrefixSorted(sorted, |Scan(records, after, limit)|);
  }

  /**
   * The last record of a non-empty fetch carries its largest id, and that id is
   * greater than `after`: it is where the worker moves its watermark.
   */
  lemma ScanWatermark(records: seq<EventRecord>, after: int, limit: nat)
    requires Scan(records, after, limit) != []
    ensures var batch := Scan(records, after, limit);
      && batch[|batch| - 1].id > after
      && forall x | x in batch :: x.id <= batch[|batch| - 1].id
  {
    ScanSorted(records, after, limit);
    SortedLastIsMax(Scan(records, after, limit));
  }

  /**
   * When the first `n` records of a sorted list hold fewer copies of `x` than
   * the whole list, the list goes on past `n` and `x` sorts no earlier than the
   * last of those `n`.
   */
  lemma TakeMisses(s: seq<EventRecord>, n: nat, x: EventRecord)
    requires SortedById(s) && n <= |s|
    requires multiset(s[..n])[x] < multiset(s)[x]
    ensures n < |s| && (n > 0 ==> x.id >= s[n - 1].id)
  {
    SplitMultiset(s, n);
    assert x in s[n..];
    var j :| 0 <= j < |s[n..]| && s[n..][j] == x;
    if n > 0 {
      assert s[n - 1].id <= s[n + j].id;
    }
  }

  /**
   * A fetch leaves a record out only when the batch is full: when it returns
   * fewer copies of a record with an id greater than `after` than the table
   * holds, the batch is full and the record's id is no smaller than the
   * batch's last id. With repeated ids that record can still be lost; see
   * ScanStrandsSameId.
   */
  lemma ScanOmitsOnlyWhenFull(records: seq<EventRecord>, after: int, limit: nat, x: EventRecord)
    requires limit > 0
    requires x.id > after
    requires multiset(Scan(records, after, limit))[x] < multiset(records)[x]
    ensures var batch := Scan(records, after, limit);
      |batch| == limit && x.id >= batch[|batch| - 1].id
  {
    var above := Above(records, after);
    var sorted := SortById(above);
    SortByIdSorts(above);
    var n := |Scan(records, after, limit)|;
    assert Scan(records, after, limit) == sorted[..n];
    TakeMisses(sorted, n, x);
  }

  /** When every record lies above `after`, all of them are above it, in order. */
  lemma {:induction false} AboveAll(records: seq<EventRecord>, after: int)
    requires forall i | 0 <= i < |records| :: records[i].id > after
    ensures Above(records, after) == records
  {
    if records != [] {
      AboveAll(records[1..], after);
      assert records == [records[0]] + records[1..];
    }
  }

  /** When no record lies above `mark`, none is above it. */
  lemma {:induction false} AboveNone(records: seq<EventRecord>, mark: int)
    requires forall i | 0 <= i < |records| :: records[i].id <= mark
    ensures Above(records, mark) == []
  {
    if records != [] {
      AboveNone(records[1..], mark);
    }
  }

  /**
   * More than `limit` records sharing one id above the watermark: the fetch
   * is full and ends at that id, so once the watermark moves there the next
   * fetch returns nothing, and the records left out are never fetched.
   */
  lemma ScanStrandsSameId(records: seq<EventRecord>, after: int, limit: nat, id: int)
    requires 0 < limit < |records| && id > after
    requires forall i | 0 <= i < |records| :: records[i].id == id
    ensures var batch := Scan(records, after, limit);
      && |batch| == limit && batch[limit - 1].id == id
      && Scan(records, id, limit) == []
  {
    AboveAll(records, after);
    SortByIdSorts(records);
    var sorted := SortById(records);
    assert |sorted| == |multiset(sorted)| == |multiset(records)| == |records|;
    assert Scan(records, after, limit) == sorted[..limit];
    assert sorted[limit - 1] in multiset(records);
    AboveNone(records, id);
  }

  // The removal rule on small tables

  /** A record listing the destination twice keeps an empty destination list. */
  lemma RemovedFromKeepsEmpty()
    ensures RemovedFrom([EventRecord(1, "e", ["a", "a"])], 1, "a") == [EventRecord(1, "e", [])]
  {
    assert RemoveAll(["a", "a"], "a") == [];
  }

  /** A record with one destination is deleted even when that destination is another one. */
  lemma RemovedFromUnlisted()
    ensures RemovedFrom([EventRecord(1, "e", ["b"])], 1, "a") == []
  {
  }
}
