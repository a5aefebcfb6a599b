/** The build script that produces the list of solar-system names
    (scripts/generate-system-names.js): `chunks` cuts the ids into requests
    of at most 900, and the replies are filtered down to solar-system names. */
module SystemNames {

  /** The concatenation of a list of slices. */
  function Concat<T>(chunks: seq<seq<T>>): seq<T> {
    if |chunks| == 0 then [] else chunks[0] + Concat(chunks[1..])
  }

  lemma {:induction false} ConcatAppend<T>(a: seq<seq<T>>, b: seq<T>)
    ensures Concat(a + [b]) == Concat(a) + b
  {
    if |a| == 0 {
      assert a + [b] == [b];
    } else {
      assert (a + [b])[1..] == a[1..] + [b];
      ConcatAppend(a[1..], b);
    }
  }

  function Min(a: int, b: int): int {
    if a < b then a else b
  }

  /** `chunks(arr, n)`: slices of `n` elements, the last one possibly
      shorter; none for an empty array. The number of slices is the ceiling
      of `|arr| / n`. */
  method Chunks<T>(arr: seq<T>, n: nat) returns (chunks: seq<seq<T>>)
    requires n > 0
    ensures Concat(chunks) == arr
    ensures (|chunks| - 1) * n < |arr| <= |chunks| * n
    ensures forall k :: 0 <= k < |chunks| ==> 0 < |chunks[k]| <= n
    ensures forall k :: 0 <= k < |chunks| - 1 ==> |chunks[k]| == n
  {
    chunks := [];
    var i := 0;
    while i < |arr|
      invariant 0 <= i < |arr| + n
      invariant Concat(chunks) == arr[..Min(i, |arr|)]
      invariant forall k :: 0 <= k < |chunks| ==> 0 < |chunks[k]| <= n
      invariant i <= |arr| ==> forall k :: 0 <= k < |chunks| ==> |chunks[k]| == n
      invariant forall k :: 0 <= k < |chunks| - 1 ==> |chunks[k]| == n
      decreases |arr| - i
    {
      var slice := arr[i..Min(i + n, |arr|)];
      ConcatAppend(chunks, slice);
      assert arr[..i] + slice == arr[..Min(i + n, |arr|)];
      chunks := chunks + [slice];
      i := i + n;
    }
    assert arr[..Min(i, |arr|)] == arr;
    ChunkCount(chunks, n);
  }

  /** Slices of `n`, all full but the last, number the ceiling of their total over `n`. */
  lemma {:induction false} ChunkCount<T>(chunks: seq<seq<T>>, n: nat)
    requires n > 0
    requires forall k :: 0 <= k < |chunks| ==> 0 < |chunks[k]| <= n
    requires forall k :: 0 <= k < |chunks| - 1 ==> |chunks[k]| == n
    ensures (|chunks| - 1) * n < |Concat(chunks)| <= |chunks| * n
  {
    if |chunks| > 1 {
      ChunkCount(chunks[1..], n);
      assert |Concat(chunks)| == n + |Concat(chunks[1..])|;
      assert |chunks| * n == n + (|chunks| - 1) * n;
      assert (|chunks| - 1) * n == n + (|chunks| - 2) * n;
    } else if |chunks| == 1 {
      assert Concat(chunks) == chunks[0];
    }
  }

  /** One result of ESI's `/universe/names/`. */
  datatype NameEntry = NameEntry(category: string, name: string)

  /** What one entry contributes: its name if it is a solar system. */
  function Kept(e: NameEntry): seq<string> {
    if e.category == "solar_system" then [e.name] else []
  }

  /** `.filter(n => n.category === "solar_system").map(n => n.name)`. */
  function SolarSystemNames(entries: seq<NameEntry>): (names: seq<string>)
    ensures |names| <= |entries|
  {
    if |entries| == 0 then [] else Kept(entries[0]) + SolarSystemNames(entries[1..])
  }

  /** The name list of the replies, `.map(r => r.data).flatMap(x => x)` first. */
  function NamesOfReplies(replies: seq<seq<NameEntry>>): seq<string> {
    SolarSystemNames(Concat(replies))
  }

  /** Filtering keeps the order: it distributes over concatenation. */
  lemma {:induction false} SolarSystemNamesAppend(a: seq<NameEntry>, b: seq<NameEntry>)
    ensures SolarSystemNames(a + b) == SolarSystemNames(a) + SolarSystemNames(b)
  {
    if |a| == 0 {
      assert a + b == b;
    } else {
      assert (a + b)[0] == a[0] && (a + b)[1..] == a[1..] + b;
      SolarSystemNamesAppend(a[1..], b);
      calc {
        SolarSystemNames(a + b);
        Kept(a[0]) + SolarSystemNames(a[1..] + b);
        Kept(a[0]) + (SolarSystemNames(a[1..]) + SolarSystemNames(b));
        (Kept(a[0]) + SolarSystemNames(a[1..])) + SolarSystemNames(b);
        SolarSystemNames(a) + SolarSystemNames(b);
      }
    }
  }

  /** Exactly the names of the solar-system entries come out. */
  lemma {:induction false} SolarSystemNamesExactly(entries: seq<NameEntry>, x: string)
    ensures x in SolarSystemNames(entries) <==>
      exists i :: 0 <= i < |entries| && entries[i].category == "solar_system" && entries[i].name == x
  {
    if |entries| > 0 {
      SolarSystemNamesExactly(entries[1..], x);
      if exists i :: 0 <= i < |entries[1..]| && entries[1..][i].category == "solar_system" && entries[1..][i].name == x {
        var i :| 0 <= i < |entries[1..]| && entries[1..][i].category == "solar_system" && entries[1..][i].name == x;
        assert entries[i + 1] == entries[1..][i];
      }
      if exists i :: 0 <= i < |entries| && entries[i].category == "solar_system" && entries[i].name == x {
        var i :| 0 <= i < |entries| && entries[i].category == "solar_system" && entries[i].name == x;
        if i > 0 {
          assert entries[1..][i - 1] == entries[i];
        }
      }
    }
  }

  /** The names of all replies are the names of each reply, in request order. */
  lemma {:induction false} NamesOfRepliesInOrder(replies: seq<seq<NameEntry>>, last: seq<NameEntry>)
    ensures NamesOfReplies(replies + [last]) == NamesOfReplies(replies) + SolarSystemNames(last)
  {
    ConcatAppend(replies, last);
    SolarSystemNamesAppend(Concat(replies), last);
  }
}
