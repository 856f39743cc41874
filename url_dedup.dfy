/** De-duplication of search results by URL, as `Array.from(new Map(rs.map(r => [r.url, r])).values())`
    does it: a JavaScript Map keeps its keys in first-insertion order, and setting a key that is
    already present replaces its value without moving it. */
module UrlDedup {

  import opened Types
  import opened Seqs

  /** The URLs of the resources, in order. */
  function Urls(rs: seq<LearningResource>): (us: seq<string>)
    ensures |us| == |rs|
    ensures forall i :: 0 <= i < |rs| ==> us[i] == rs[i].url
  {
    if rs == [] then [] else Urls(rs[..|rs| - 1]) + [rs[|rs| - 1].url]
  }

  /** A JavaScript Map from URL to resource: its keys in insertion order and its entries. */
  datatype UrlMap = UrlMap(keys: seq<string>, entries: map<string, LearningResource>)

  ghost predicate Valid(m: UrlMap) {
    && Distinct(m.keys)
    && (forall i :: 0 <= i < |m.keys| ==> m.keys[i] in m.entries)
    && (forall k :: k in m.entries ==> k in m.keys)
    && (forall k :: k in m.entries ==> m.entries[k].url == k)
  }

  /** Map.prototype.set(r.url, r). */
  function Set(m: UrlMap, r: LearningResource): (m': UrlMap)
    ensures Valid(m) ==> Valid(m')
    ensures m'.entries == m.entries[r.url := r]
    ensures r.url in m.entries ==> m'.keys == m.keys
    ensures r.url !in m.entries ==> m'.keys == m.keys + [r.url]
  {
    if r.url in m.entries then m.(entries := m.entries[r.url := r])
    else UrlMap(m.keys + [r.url], m.entries[r.url := r])
  }

  /** `new Map(entries)`: the entries are set one after the other. */
  function FromEntries(rs: seq<LearningResource>): (m: UrlMap)
    ensures Valid(m)
    ensures |m.keys| <= |rs|
    ensures forall k :: k in m.entries <==> k in Urls(rs)
  {
    if rs == [] then UrlMap([], map[])
    else
      var pre := rs[..|rs| - 1];
      assert Urls(rs) == Urls(pre) + [rs[|rs| - 1].url];
      Set(FromEntries(pre), rs[|rs| - 1])
  }

  /** `Array.from(m.values())`: the values in key order. */
  function Values(m: UrlMap): (vs: seq<LearningResource>)
    requires Valid(m)
    ensures |vs| == |m.keys|
    ensures forall i :: 0 <= i < |vs| ==> vs[i] == m.entries[m.keys[i]]
  {
    seq(|m.keys|, i requires 0 <= i < |m.keys| => m.entries[m.keys[i]])
  }

  /** The de-duplicated list: no URL twice, no URL lost, no URL added, never longer than the input. */
  function DedupByUrl(rs: seq<LearningResource>): (out: seq<LearningResource>)
    ensures |out| <= |rs|
    ensures Distinct(Urls(out))
    ensures forall u :: u in Urls(out) <==> u in Urls(rs)
  {
    var m := FromEntries(rs);
    var out := Values(m);
    assert Urls(out) == m.keys;
    out
  }

  /** The map holds, for every URL, the LAST resource set with that URL. */
  lemma {:induction false} FromEntriesHoldsLast(rs: seq<LearningResource>)
    ensures forall k :: k in FromEntries(rs).entries ==> FromEntries(rs).entries[k] == rs[LastIndex(Urls(rs), k)]
  {
    if rs != [] {
      var pre, r := rs[..|rs| - 1], rs[|rs| - 1];
      assert rs == pre + [r];
      assert Urls(rs) == Urls(pre) + [r.url];
      FromEntriesHoldsLast(pre);
      forall k | k in FromEntries(rs).entries
        ensures FromEntries(rs).entries[k] == rs[LastIndex(Urls(rs), k)]
      {
        if k != r.url {
          LastIndexAppend(Urls(pre), r.url, k);
        }
      }
    }
  }

  /** Every element of `keys` occurs in `us`, and earlier keys occur first earlier. */
  ghost predicate InFirstOccurrenceOrder(keys: seq<string>, us: seq<string>) {
    && (forall i :: 0 <= i < |keys| ==> keys[i] in us)
    && (forall i, j :: 0 <= i < j < |keys| && keys[i] in us && keys[j] in us ==>
          FirstIndex(us, keys[i]) < FirstIndex(us, keys[j]))
  }

  /** Appending to the input does not disturb an order already established. */
  lemma OrderSurvivesAppend(keys: seq<string>, us: seq<string>, y: string)
    requires InFirstOccurrenceOrder(keys, us)
    ensures InFirstOccurrenceOrder(keys, us + [y])
  {
    forall k | k in us ensures FirstIndex(us + [y], k) == FirstIndex(us, k) {
      FirstIndexAppend(us, y, k);
    }
  }

  /** A URL seen for the first time goes after every key already present. */
  lemma OrderAppendNew(keys: seq<string>, us: seq<string>, y: string)
    requires InFirstOccurrenceOrder(keys, us)
    requires y !in us
    ensures InFirstOccurrenceOrder(keys + [y], us + [y])
  {
    OrderSurvivesAppend(keys, us, y);
    var us', keys' := us + [y], keys + [y];
    assert FirstIndex(us', y) == |us|;
    forall i | 0 <= i < |keys| ensures FirstIndex(us', keys'[i]) < |us| {
      assert keys'[i] == keys[i];
      FirstIndexAppend(us, y, keys[i]);
    }
  }

  /** The keys are in the order of each URL's first occurrence. */
  lemma {:induction false} FromEntriesFirstOrder(rs: seq<LearningResource>)
    ensures InFirstOccurrenceOrder(FromEntries(rs).keys, Urls(rs))
  {
    if rs != [] {
      var pre, r := rs[..|rs| - 1], rs[|rs| - 1];
      var m0 := FromEntries(pre);
      assert Urls(rs) == Urls(pre) + [r.url];
      FromEntriesFirstOrder(pre);
      if r.url in m0.entries {
        assert FromEntries(rs).keys == m0.keys;
        OrderSurvivesAppend(m0.keys, Urls(pre), r.url);
      } else {
        assert FromEntries(rs).keys == m0.keys + [r.url];
        OrderAppendNew(m0.keys, Urls(pre), r.url);
      }
    }
  }

  /** Each URL stands at the position of its first occurrence in the input. */
  lemma DedupFirstOccurrenceOrder(rs: seq<LearningResource>)
    ensures var out := DedupByUrl(rs);
      forall i, j :: 0 <= i < j < |out| ==> FirstIndex(Urls(rs), out[i].url) < FirstIndex(Urls(rs), out[j].url)
  {
    FromEntriesFirstOrder(rs);
    var m := FromEntries(rs);
    assert Urls(DedupByUrl(rs)) == m.keys;
  }

  /** Each URL carries the last input resource with that URL. */
  lemma DedupKeepsLastEntry(rs: seq<LearningResource>)
    ensures var out := DedupByUrl(rs);
      forall i :: 0 <= i < |out| ==> out[i] == rs[LastIndex(Urls(rs), out[i].url)]
  {
    FromEntriesHoldsLast(rs);
  }

  /** Setting a new key appends its value to the values. */
  lemma ValuesSetNew(m: UrlMap, r: LearningResource)
    requires Valid(m) && Valid(Set(m, r))
    requires r.url !in m.entries
    ensures Values(Set(m, r)) == Values(m) + [r]
  {
    var m' := Set(m, r);
    assert m'.keys == m.keys + [r.url];
    forall i | 0 <= i < |m.keys| ensures m'.entries[m'.keys[i]] == m.entries[m.keys[i]] {
      assert m'.keys[i] == m.keys[i];
    }
  }

  /** The de-duplicated list holds only input resources. */
  lemma DedupSubset(rs: seq<LearningResource>)
    ensures forall r :: r in DedupByUrl(rs) ==> r in rs
  {
    var out := DedupByUrl(rs);
    DedupKeepsLastEntry(rs);
    forall r | r in out ensures r in rs {
      var k := FirstIndex(out, r);
      assert out[k] == rs[LastIndex(Urls(rs), out[k].url)];
    }
  }

  /** A list whose URLs are already distinct passes through unchanged. */
  lemma {:induction false} DedupOfDistinct(rs: seq<LearningResource>)
    requires Distinct(Urls(rs))
    ensures DedupByUrl(rs) == rs
  {
    if rs != [] {
      var pre, r := rs[..|rs| - 1], rs[|rs| - 1];
      assert rs == pre + [r];
      assert Urls(rs) == Urls(pre) + [r.url];
      assert Distinct(Urls(pre));
      assert r.url !in Urls(pre);
      DedupOfDistinct(pre);
      ValuesSetNew(FromEntries(pre), r);
    }
  }

  /** De-duplicating twice is de-duplicating once. */
  lemma DedupIdempotent(rs: seq<LearningResource>)
    ensures DedupByUrl(DedupByUrl(rs)) == DedupByUrl(rs)
  {
    DedupOfDistinct(DedupByUrl(rs));
  }

  /** Two results that share a URL collapse to the later one. */
  lemma DedupSharedUrl(a: LearningResource, b: LearningResource)
    requires a.url == b.url
    ensures DedupByUrl([a, b]) == [b]
  {
    assert [a, b][..1] == [a];
    assert [a][..0] == [];
  }
}
