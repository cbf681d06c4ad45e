/**
 * Counting keys in order of first occurrence: the insertion-ordered `Map<string, number>` the
 * dashboard fills with `map.set(k, (map.get(k) || 0) + 1)` and reads with `Array.from(map.entries())`.
 */
module OrderedCount {

  /** One `[key, count]` pair of the map's entries. */
  datatype Entry = Entry(key: string, count: nat)

  /** The number of times `k` occurs in `s`. */
  function Occurrences(s: seq<string>, k: string): nat
  {
    if s == [] then 0 else Occurrences(s[..|s| - 1], k) + (if s[|s| - 1] == k then 1 else 0)
  }

  predicate NoDuplicates(keys: seq<string>) {
    forall i, j :: 0 <= i < j < |keys| ==> keys[i] != keys[j]
  }

  /** The distinct elements of `s`, each where it first occurs. */
  function FirstOccurrences(s: seq<string>): seq<string>
  {
    if s == [] then []
    else
      var keys := FirstOccurrences(s[..|s| - 1]);
      if s[|s| - 1] in keys then keys else keys + [s[|s| - 1]]
  }

  /** The first occurrences are exactly the elements of `s`, each listed once. */
  lemma {:induction false} FirstOccurrencesDistinct(s: seq<string>)
    ensures forall k :: k in FirstOccurrences(s) <==> k in s
    ensures NoDuplicates(FirstOccurrences(s))
  {
    if s != [] {
      var s0 := s[..|s| - 1];
      assert s == s0 + [s[|s| - 1]];
      FirstOccurrencesDistinct(s0);
    }
  }

  /** The position where `k` first occurs in `s`. */
  function IndexOf(s: seq<string>, k: string): (i: nat)
    requires k in s
    ensures i < |s| && s[i] == k && k !in s[..i]
  {
    if s[0] == k then 0 else 1 + IndexOf(s[1..], k)
  }

  /** The reference result: one entry per distinct key, in first-occurrence order, with its count. */
  function Tally(s: seq<string>): seq<Entry> {
    var keys := FirstOccurrences(s);
    seq(|keys|, i requires 0 <= i < |keys| => Entry(keys[i], Occurrences(s, keys[i])))
  }

  function Keys(entries: seq<Entry>): seq<string> {
    seq(|entries|, i requires 0 <= i < |entries| => entries[i].key)
  }

  /** The sum of the counts of a list of entries. */
  function Total(entries: seq<Entry>): nat {
    if entries == [] then 0 else Total(entries[..|entries| - 1]) + entries[|entries| - 1].count
  }

  /** The insertion-ordered map: its keys in insertion order and the count stored under each. */
  datatype Counter = Counter(keys: seq<string>, counts: map<string, nat>) {

    /** The map holds exactly the tally of `s`. */
    ghost predicate Counts(s: seq<string>) {
      keys == FirstOccurrences(s) && counts == CountMap(s)
    }

    /** `map.set(k, (map.get(k) || 0) + 1)`: a new key goes at the end, a known key keeps its place. */
    function Increment(k: string): (c: Counter)
      ensures c.counts.Keys == counts.Keys + {k}
      ensures c.counts[k] == (if k in counts then counts[k] else 0) + 1
      ensures forall j :: j in counts && j != k ==> c.counts[j] == counts[j]
      ensures k in counts ==> c.keys == keys
      ensures k !in counts ==> c.keys == keys + [k]
    {
      if k in counts then Counter(keys, counts[k := counts[k] + 1])
      else Counter(keys + [k], counts[k := 1])
    }

    /** `Array.from(map.entries())`, each pair as an entry. */
    function Entries(): (entries: seq<Entry>)
      requires forall k :: k in keys ==> k in counts
      ensures Keys(entries) == keys
      ensures forall i :: 0 <= i < |entries| ==> entries[i].key in counts && entries[i].count == counts[entries[i].key]
    {
      seq(|keys|, i requires 0 <= i < |keys| => Entry(keys[i], counts[keys[i]]))
    }
  }

  /** The counts of `s` as a map, one element at a time. */
  function CountMap(s: seq<string>): map<string, nat> {
    if s == [] then map[]
    else
      var m, k := CountMap(s[..|s| - 1]), s[|s| - 1];
      m[k := (if k in m then m[k] else 0) + 1]
  }

  /** The map of counts has exactly the elements of `s` as keys, each with its number of occurrences. */
  lemma {:induction false} CountMapOccurrences(s: seq<string>)
    ensures forall k :: k in CountMap(s) <==> k in s
    ensures forall k :: k in CountMap(s) ==> CountMap(s)[k] == Occurrences(s, k)
  {
    if s != [] {
      var s0 := s[..|s| - 1];
      assert s == s0 + [s[|s| - 1]];
      CountMapOccurrences(s0);
      if s[|s| - 1] !in s0 {
        OccurrencesAbsent(s0, s[|s| - 1]);
      }
    }
  }

  /** The empty map counts the empty sequence. */
  lemma EmptyCounts()
    ensures Counter([], map[]).Counts([])
  {
  }

  /** Setting `k` to its count plus one makes the map count one more occurrence of `k`. */
  lemma IncrementCounts(c: Counter, s: seq<string>, k: string)
    requires c.Counts(s)
    ensures c.Increment(k).Counts(s + [k])
  {
    var s' := s + [k];
    assert s'[..|s'| - 1] == s;
    CountMapOccurrences(s);
    FirstOccurrencesDistinct(s);
    assert k in c.counts <==> k in FirstOccurrences(s);
    assert FirstOccurrences(s') == if k in c.counts then c.keys else c.keys + [k];
    assert CountMap(s') == c.counts[k := (if k in c.counts then c.counts[k] else 0) + 1];
  }

  /** Reading out a map that counts `s` gives the tally of `s`. */
  lemma EntriesTally(c: Counter, s: seq<string>)
    requires c.Counts(s)
    ensures forall k :: k in c.keys ==> k in c.counts
    ensures c.Entries() == Tally(s)
  {
    CountMapOccurrences(s);
    FirstOccurrencesDistinct(s);
  }

  /** Each key of the tally is an element of `s`, each element of `s` is a key, and no key repeats. */
  lemma TallyKeys(s: seq<string>)
    ensures Keys(Tally(s)) == FirstOccurrences(s)
    ensures forall k :: k in Keys(Tally(s)) <==> k in s
    ensures NoDuplicates(Keys(Tally(s)))
  {
    FirstOccurrencesDistinct(s);
  }

  /** Every count of the tally is positive: a key is listed only if it occurs. */
  lemma TallyCountsPositive(s: seq<string>)
    ensures forall i :: 0 <= i < |Tally(s)| ==> Tally(s)[i].count == Occurrences(s, Tally(s)[i].key) >= 1
  {
    var t := Tally(s);
    FirstOccurrencesDistinct(s);
    forall i | 0 <= i < |t| ensures t[i].count >= 1 {
      OccursPositive(s, t[i].key);
    }
  }

  lemma {:induction false} OccursPositive(s: seq<string>, k: string)
    requires k in s
    ensures Occurrences(s, k) >= 1
  {
    if s[|s| - 1] != k {
      assert k in s[..|s| - 1] by {
        var i :| 0 <= i < |s| && s[i] == k;
        assert s[..|s| - 1][i] == k;
      }
      OccursPositive(s[..|s| - 1], k);
    }
  }

  /** The keys of the tally appear in the order in which they first occur in `s`. */
  lemma {:induction false} TallyOrder(s: seq<string>)
    ensures forall i, j :: 0 <= i < j < |FirstOccurrences(s)| ==>
      FirstOccurrences(s)[i] in s && FirstOccurrences(s)[j] in s &&
      IndexOf(s, FirstOccurrences(s)[i]) < IndexOf(s, FirstOccurrences(s)[j])
  {
    FirstOccurrencesDistinct(s);
    if s != [] {
      var s0, x := s[..|s| - 1], s[|s| - 1];
      assert s == s0 + [x];
      TallyOrder(s0);
      var keys0 := FirstOccurrences(s0);
      FirstOccurrencesDistinct(s0);
      forall k | k in s0 ensures IndexOf(s, k) == IndexOf(s0, k) {
        IndexOfExtend(s0, x, k);
      }
      if x !in keys0 {
        assert x !in s0;
        forall i | 0 <= i < |keys0| ensures IndexOf(s, keys0[i]) < IndexOf(s, x) {
          assert IndexOf(s, x) == |s0| by {
            assert forall i :: 0 <= i < |s0| ==> s[i] == s0[i];
          }
        }
      }
    }
  }

  lemma {:induction false} IndexOfExtend(s: seq<string>, x: string, k: string)
    requires k in s
    ensures IndexOf(s + [x], k) == IndexOf(s, k)
  {
    if s[0] != k {
      assert (s + [x])[1..] == s[1..] + [x];
      IndexOfExtend(s[1..], x, k);
    }
  }

  /** The counts of the tally add up to the length of `s`: every element is counted exactly once. */
  lemma TallyTotal(s: seq<string>)
    ensures Total(Tally(s)) == |s|
  {
    TotalOverKeys(FirstOccurrences(s), s);
    CountsOverFirstOccurrences(s);
  }

  /** The total of the entries built from `keys` and the counts in `s`. */
  function CountsOver(keys: seq<string>, s: seq<string>): nat {
    if keys == [] then 0 else CountsOver(keys[..|keys| - 1], s) + Occurrences(s, keys[|keys| - 1])
  }

  lemma {:induction false} TotalOverKeys(keys: seq<string>, s: seq<string>)
    ensures Total(seq(|keys|, i requires 0 <= i < |keys| => Entry(keys[i], Occurrences(s, keys[i])))) == CountsOver(keys, s)
  {
    var e := seq(|keys|, i requires 0 <= i < |keys| => Entry(keys[i], Occurrences(s, keys[i])));
    if keys != [] {
      var k0 := keys[..|keys| - 1];
      assert e[..|e| - 1] == seq(|k0|, i requires 0 <= i < |k0| => Entry(k0[i], Occurrences(s, k0[i])));
      TotalOverKeys(k0, s);
    }
  }

  /** Over the distinct elements of `s`, the counts in `s` add up to the length of `s`. */
  lemma {:induction false} CountsOverFirstOccurrences(s: seq<string>)
    ensures CountsOver(FirstOccurrences(s), s) == |s|
  {
    if s != [] {
      var s0, x := s[..|s| - 1], s[|s| - 1];
      assert s == s0 + [x];
      var keys0 := FirstOccurrences(s0);
      FirstOccurrencesDistinct(s0);
      CountsOverFirstOccurrences(s0);
      CountsExtend(keys0, s0, x);
      if x !in keys0 {
        var keys := keys0 + [x];
        assert keys[..|keys| - 1] == keys0;
        OccurrencesAbsent(s0, x);
      }
    }
  }

  lemma {:induction false} OccurrencesAbsent(s: seq<string>, k: string)
    requires k !in s
    ensures Occurrences(s, k) == 0
  {
    if s != [] {
      assert forall y :: y in s[..|s| - 1] ==> y in s;
      OccurrencesAbsent(s[..|s| - 1], k);
    }
  }

  /** One more element `x` adds one to the counts over `keys` exactly when `x` is a key. */
  lemma {:induction false} CountsExtend(keys: seq<string>, s: seq<string>, x: string)
    requires NoDuplicates(keys)
    ensures CountsOver(keys, s + [x]) == CountsOver(keys, s) + (if x in keys then 1 else 0)
  {
    var s' := s + [x];
    assert s'[..|s'| - 1] == s;
    if keys != [] {
      var k0 := keys[..|keys| - 1];
      assert forall y :: y in k0 ==> y in keys;
      CountsExtend(k0, s, x);
      assert x in keys <==> x in k0 || x == keys[|keys| - 1];
    }
  }

  /** Two keys where the first comes back once: it is listed first, with count two. */
  lemma TallyRepeatFirst(a: string, b: string)
    requires a != b
    ensures Tally([a, b, a]) == [Entry(a, 2), Entry(b, 1)]
    ensures Tally([a, b, a, b]) == [Entry(a, 2), Entry(b, 2)]
  {
    assert [a, b, a, b][..3] == [a, b, a];
    assert [a, b, a][..2] == [a, b] && [a, b][..1] == [a] && [a][..0] == [];
    assert FirstOccurrences([a]) == [a] && Occurrences([a], a) == 1 && Occurrences([a], b) == 0;
    assert FirstOccurrences([a, b]) == [a, b];
    assert FirstOccurrences([a, b, a]) == [a, b];
    assert Occurrences([a, b], a) == 1 && Occurrences([a, b], b) == 1;
    assert Occurrences([a, b, a], a) == 2 && Occurrences([a, b, a], b) == 1;
  }
}
