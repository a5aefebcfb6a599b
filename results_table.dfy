/** The results table of the frontend (frontend/pages/index.tsx:117-193):
    offers sorted by ascending reward, then errors sorted by provider name,
    each error text cut to at most 83 characters. The rows are the entries
    the route API returns, whose error texts are never empty, so `!p.error`
    holds exactly on offers. */
module ResultsTable {
  import opened Quotes

  /** `a.localeCompare(b) <= 0`, taken as code-unit lexicographic order. */
  predicate StrLe(a: string, b: string)
    decreases |a|
  {
    |a| == 0 || (|b| > 0 && (a[0] < b[0] || (a[0] == b[0] && StrLe(a[1..], b[1..]))))
  }

  lemma {:induction false} StrLeTotal(a: string, b: string)
    ensures StrLe(a, b) || StrLe(b, a)
    decreases |a|
  {
    if |a| > 0 && |b| > 0 && a[0] == b[0] {
      StrLeTotal(a[1..], b[1..]);
    }
  }

  lemma {:induction false} StrLeTransitive(a: string, b: string, c: string)
    requires StrLe(a, b) && StrLe(b, c)
    ensures StrLe(a, c)
    decreases |a|
  {
    if |a| > 0 && a[0] == b[0] && b[0] == c[0] {
      StrLeTransitive(a[1..], b[1..], c[1..]);
    }
  }

  /** The two comparators of the table. */
  datatype Order = ByReward | ByProvider

  /** An error row has no reward; it is never compared by reward. */
  function RewardOf(e: Entry): real {
    if e.Offer? then e.reward else 0.0
  }

  predicate Le(o: Order, a: Entry, b: Entry) {
    match o
    case ByReward => RewardOf(a) <= RewardOf(b)
    case ByProvider => StrLe(DisplayName(a.provider), DisplayName(b.provider))
  }

  lemma LeTotal(o: Order, a: Entry, b: Entry)
    ensures Le(o, a, b) || Le(o, b, a)
  {
    if o.ByProvider? {
      StrLeTotal(DisplayName(a.provider), DisplayName(b.provider));
    }
  }

  lemma LeTransitive(o: Order, a: Entry, b: Entry, c: Entry)
    requires Le(o, a, b) && Le(o, b, c)
    ensures Le(o, a, c)
  {
    if o.ByProvider? {
      StrLeTransitive(DisplayName(a.provider), DisplayName(b.provider), DisplayName(c.provider));
    }
  }

  /** `compare(a, b) <= 0` of each comparator. */
  function Compare(o: Order): (Entry, Entry) -> bool {
    (a, b) => Le(o, a, b)
  }

  ghost predicate Total<T(!new)>(le: (T, T) -> bool) {
    forall a, b :: le(a, b) || le(b, a)
  }

  ghost predicate Transitive<T(!new)>(le: (T, T) -> bool) {
    forall a, b, c :: le(a, b) && le(b, c) ==> le(a, c)
  }

  /** Both comparators are total preorders, so sorting by them is well defined. */
  lemma ComparePreorder(o: Order)
    ensures Total(Compare(o)) && Transitive(Compare(o))
  {
    forall a, b ensures Compare(o)(a, b) || Compare(o)(b, a) {
      LeTotal(o, a, b);
    }
    forall a, b, c | Compare(o)(a, b) && Compare(o)(b, c) ensures Compare(o)(a, c) {
      LeTransitive(o, a, b, c);
    }
  }

  predicate Sorted<T>(le: (T, T) -> bool, s: seq<T>) {
    forall i, j :: 0 <= i < j < |s| ==> le(s[i], s[j])
  }

  /** Insert `x` into a list, after every element it does not precede. */
  function Insert<T>(le: (T, T) -> bool, x: T, s: seq<T>): seq<T> {
    if |s| == 0 then [x]
    else if le(x, s[0]) then [x] + s
    else [s[0]] + Insert(le, x, s[1..])
  }

  /** Insertion adds `x` and loses nothing. */
  lemma {:induction false} InsertPermutation<T>(le: (T, T) -> bool, x: T, s: seq<T>)
    ensures multiset(Insert(le, x, s)) == multiset(s) + multiset{x}
  {
    if |s| > 0 && !le(x, s[0]) {
      InsertPermutation(le, x, s[1..]);
      assert multiset([s[0]] + Insert(le, x, s[1..])) == multiset{s[0]} + multiset(Insert(le, x, s[1..]));
      assert s == [s[0]] + s[1..];
    } else {
      assert Insert(le, x, s) == [x] + s;
    }
  }

  /** Every element of an insertion is `x` or an element of the list. */
  lemma {:induction false} InsertMembers<T>(le: (T, T) -> bool, x: T, s: seq<T>)
    ensures forall y | y in Insert(le, x, s) :: y == x || y in s
  {
    if |s| > 0 && !le(x, s[0]) {
      InsertMembers(le, x, s[1..]);
    }
  }

  /** An element below every element of a sorted list can head it. */
  lemma ConsSorted<T>(le: (T, T) -> bool, h: T, t: seq<T>)
    requires Sorted(le, t)
    requires forall y | y in t :: le(h, y)
    ensures Sorted(le, [h] + t)
  {
    var s := [h] + t;
    forall i, j | 0 <= i < j < |s| ensures le(s[i], s[j]) {
      assert s[j] == t[j - 1];
      if i > 0 {
        assert s[i] == t[i - 1];
      }
    }
  }

  /** Insertion into a sorted list keeps it sorted. */
  lemma {:induction false} InsertSorted<T(!new)>(le: (T, T) -> bool, x: T, s: seq<T>)
    requires Total(le) && Transitive(le)
    requires Sorted(le, s)
    ensures Sorted(le, Insert(le, x, s))
  {
    if |s| == 0 {
    } else if le(x, s[0]) {
      forall y | y in s ensures le(x, y) {
        var j :| 0 <= j < |s| && s[j] == y;
        if j > 0 {
          assert le(s[0], s[j]);
        }
      }
      ConsSorted(le, x, s);
    } else {
      assert le(s[0], x);
      var rest := Insert(le, x, s[1..]);
      InsertSorted(le, x, s[1..]);
      InsertMembers(le, x, s[1..]);
      forall y | y in rest ensures le(s[0], y) {
        if y != x {
          var k :| 0 <= k < |s[1..]| && s[1..][k] == y;
          assert s[k + 1] == y;
        }
      }
      ConsSorted(le, s[0], rest);
    }
  }

  /** `.sort(compare)`, as an insertion sort. */
  function Sort<T>(le: (T, T) -> bool, s: seq<T>): seq<T> {
    if |s| == 0 then [] else Insert(le, s[0], Sort(le, s[1..]))
  }

  /** Sorting keeps every element, as often as it occurs. */
  lemma {:induction false} SortPermutation<T>(le: (T, T) -> bool, s: seq<T>)
    ensures multiset(Sort(le, s)) == multiset(s)
  {
    if |s| > 0 {
      SortPermutation(le, s[1..]);
      InsertPermutation(le, s[0], Sort(le, s[1..]));
      assert s == [s[0]] + s[1..];
    }
  }

  /** Sorting by a total preorder orders the list. */
  lemma {:induction false} SortSorted<T(!new)>(le: (T, T) -> bool, s: seq<T>)
    requires Total(le) && Transitive(le)
    ensures Sorted(le, Sort(le, s))
  {
    if |s| > 0 {
      SortSorted(le, s[1..]);
      InsertSorted(le, s[0], Sort(le, s[1..]));
    }
  }

  /** A shown row is an error exactly when it carries a (non-empty) error text. */
  predicate IsError(e: Entry) {
    e.Failure? && e.error != ""
  }

  function Offers(rows: seq<Entry>): (r: seq<Entry>)
    ensures forall i :: 0 <= i < |r| ==> !IsError(r[i])
  {
    if |rows| == 0 then []
    else (if IsError(rows[0]) then [] else [rows[0]]) + Offers(rows[1..])
  }

  function Errors(rows: seq<Entry>): (r: seq<Entry>)
    ensures forall i :: 0 <= i < |r| ==> IsError(r[i])
  {
    if |rows| == 0 then []
    else (if IsError(rows[0]) then [rows[0]] else []) + Errors(rows[1..])
  }

  lemma {:induction false} SplitIsPermutation(rows: seq<Entry>)
    ensures multiset(Offers(rows)) + multiset(Errors(rows)) == multiset(rows)
  {
    if |rows| > 0 {
      SplitIsPermutation(rows[1..]);
      assert rows == [rows[0]] + rows[1..];
    }
  }

  /** The rows in display order. */
  function Table(rows: seq<Entry>): seq<Entry> {
    Sort(Compare(ByReward), Offers(rows)) + Sort(Compare(ByProvider), Errors(rows))
  }

  /** The table shows every entry exactly once. */
  lemma TableIsPermutation(rows: seq<Entry>)
    ensures multiset(Table(rows)) == multiset(rows)
  {
    SplitIsPermutation(rows);
    SortPermutation(Compare(ByReward), Offers(rows));
    SortPermutation(Compare(ByProvider), Errors(rows));
  }

  /** Sorting keeps the group: the sorted offers are offers, the sorted
      errors are errors. */
  lemma SortedGroups(rows: seq<Entry>)
    ensures |Sort(Compare(ByReward), Offers(rows))| == |Offers(rows)|
    ensures forall i :: 0 <= i < |Sort(Compare(ByReward), Offers(rows))| ==> !IsError(Sort(Compare(ByReward), Offers(rows))[i])
    ensures forall i :: 0 <= i < |Sort(Compare(ByProvider), Errors(rows))| ==> IsError(Sort(Compare(ByProvider), Errors(rows))[i])
  {
    var offers, errors := Sort(Compare(ByReward), Offers(rows)), Sort(Compare(ByProvider), Errors(rows));
    SortPermutation(Compare(ByReward), Offers(rows));
    SortPermutation(Compare(ByProvider), Errors(rows));
    assert |multiset(offers)| == |multiset(Offers(rows))|;
    forall i | 0 <= i < |offers| ensures !IsError(offers[i]) {
      assert offers[i] in multiset(Offers(rows));
    }
    forall i | 0 <= i < |errors| ensures IsError(errors[i]) {
      assert errors[i] in multiset(Errors(rows));
    }
  }

  /** First the offers by ascending reward, then the errors by provider name. */
  lemma TableLayout(rows: seq<Entry>)
    ensures var k := |Offers(rows)|;
      && k <= |Table(rows)|
      && (forall i :: 0 <= i < k ==> !IsError(Table(rows)[i]))
      && (forall i :: k <= i < |Table(rows)| ==> IsError(Table(rows)[i]))
      && (forall i, j :: 0 <= i < j < k ==> RewardOf(Table(rows)[i]) <= RewardOf(Table(rows)[j]))
      && (forall i, j :: k <= i < j < |Table(rows)| ==>
            StrLe(DisplayName(Table(rows)[i].provider), DisplayName(Table(rows)[j].provider)))
  {
    SortedGroups(rows);
    var offers, errors := Sort(Compare(ByReward), Offers(rows)), Sort(Compare(ByProvider), Errors(rows));
    ComparePreorder(ByReward);
    ComparePreorder(ByProvider);
    SortSorted(Compare(ByReward), Offers(rows));
    SortSorted(Compare(ByProvider), Errors(rows));
    var t := Table(rows);
    assert forall i :: 0 <= i < |offers| ==> t[i] == offers[i];
    assert forall i :: 0 <= i < |errors| ==> t[|offers| + i] == errors[i];
    forall i, j | |offers| <= i < j < |t|
      ensures StrLe(DisplayName(t[i].provider), DisplayName(t[j].provider))
    {
      assert Compare(ByProvider)(errors[i - |offers|], errors[j - |offers|]);
    }
  }

  /** `error.length > 83 ? error.slice(0, 80) + '...' : error`. */
  function Truncate(error: string): (shown: string)
    ensures |shown| <= 83
    ensures shown == error <==> |error| <= 83
    ensures |error| > 83 ==> |shown| == 83 && shown[..80] == error[..80] && shown[80..] == "..."
  {
    if |error| > 83 then error[..80] + "..." else error
  }
}
