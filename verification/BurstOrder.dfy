/** `_sort_inbound_burst`: order a burst by provider time when every item has one, else keep FIFO. */
module BurstOrder {
  import opened Prelude
  import opened QueueScripts

  predicate AllTimed(items: seq<Item>) {
    forall i :: 0 <= i < |items| ==> items[i].timestamp.Some?
  }

  ghost predicate Chronological(items: seq<Item>)
    requires AllTimed(items)
  {
    forall i, j :: 0 <= i < j < |items| ==> items[i].timestamp.value <= items[j].timestamp.value
  }

  /** The items sent at one instant, in the order they have in the sequence. */
  ghost function SentAt(items: seq<Item>, instant: int): seq<Item> {
    if items == [] then []
    else if items[0].timestamp == Some(instant) then [items[0]] + SentAt(items[1..], instant)
    else SentAt(items[1..], instant)
  }

  /** Both sequences hold the same items for every instant, in the same relative order. */
  ghost predicate AgreePerInstant(a: seq<Item>, b: seq<Item>) {
    forall v: int :: SentAt(a, v) == SentAt(b, v)
  }

  function Insert(x: Item, sorted: seq<Item>): (r: seq<Item>)
    requires x.timestamp.Some? && AllTimed(sorted)
    ensures AllTimed(r)
  {
    if sorted == [] || x.timestamp.value <= sorted[0].timestamp.value then [x] + sorted
    else [sorted[0]] + Insert(x, sorted[1..])
  }

  /** sorted(enumerate(items), key=(time, index)), read as insertion from the right. */
  function ByTime(items: seq<Item>): (r: seq<Item>)
    requires AllTimed(items)
    ensures AllTimed(r)
  {
    if items == [] then [] else Insert(items[0], ByTime(items[1..]))
  }

  function SortBurst(items: seq<Item>): seq<Item> {
    if items != [] && AllTimed(items) then ByTime(items) else items
  }

  lemma {:induction false} InsertAdds(x: Item, sorted: seq<Item>)
    requires x.timestamp.Some? && AllTimed(sorted)
    ensures multiset(Insert(x, sorted)) == multiset(sorted) + multiset{x}
  {
    if sorted != [] && x.timestamp.value > sorted[0].timestamp.value {
      InsertAdds(x, sorted[1..]);
      assert sorted == [sorted[0]] + sorted[1..];
    }
  }

  lemma {:induction false} InsertChronological(x: Item, sorted: seq<Item>)
    requires x.timestamp.Some? && AllTimed(sorted) && Chronological(sorted)
    ensures Chronological(Insert(x, sorted))
  {
    if sorted != [] && x.timestamp.value > sorted[0].timestamp.value {
      var r := Insert(x, sorted[1..]);
      InsertChronological(x, sorted[1..]);
      InsertAdds(x, sorted[1..]);
      forall y | y in r ensures sorted[0].timestamp.value <= y.timestamp.value {
        assert y in multiset(r);
        if y != x {
          assert y in multiset(sorted[1..]) && y in sorted[1..];
        }
      }
    }
  }

  lemma {:induction false} InsertStable(x: Item, sorted: seq<Item>, instant: int)
    requires x.timestamp.Some? && AllTimed(sorted)
    ensures SentAt(Insert(x, sorted), instant)
         == if x.timestamp == Some(instant) then [x] + SentAt(sorted, instant) else SentAt(sorted, instant)
  {
    if sorted == [] || x.timestamp.value <= sorted[0].timestamp.value {
      assert ([x] + sorted)[1..] == sorted;
    } else {
      InsertStable(x, sorted[1..], instant);
      assert ([sorted[0]] + Insert(x, sorted[1..]))[1..] == Insert(x, sorted[1..]);
    }
  }

  lemma {:induction false} ByTimeSound(items: seq<Item>, instant: int)
    requires AllTimed(items)
    ensures Chronological(ByTime(items))
    ensures multiset(ByTime(items)) == multiset(items)
    ensures SentAt(ByTime(items), instant) == SentAt(items, instant)
  {
    if items != [] {
      ByTimeSound(items[1..], instant);
      InsertAdds(items[0], ByTime(items[1..]));
      InsertChronological(items[0], ByTime(items[1..]));
      InsertStable(items[0], ByTime(items[1..]), instant);
      assert items == [items[0]] + items[1..];
    }
  }

  /** A burst is rearranged, never changed, whether or not it is sorted. */
  lemma SortBurstKeepsItems(items: seq<Item>)
    ensures multiset(SortBurst(items)) == multiset(items)
    ensures |SortBurst(items)| == |items|
  {
    if AllTimed(items) { ByTimeSound(items, 0); }
    assert |multiset(SortBurst(items))| == |multiset(items)|;
  }

  /** Two chronological sequences that agree on every instant are the same sequence. */
  lemma {:induction false} ChronologicalUnique(a: seq<Item>, b: seq<Item>)
    requires AllTimed(a) && Chronological(a) && AllTimed(b) && Chronological(b)
    requires AgreePerInstant(a, b)
    ensures a == b
  {
    assert b != [] ==> SentAt(b, b[0].timestamp.value) != [];
    if a != [] {
      var v := a[0].timestamp.value;
      assert SentAt(b, v) != [];
      FirstNotLater(b, v);
      FirstNotLater(a, b[0].timestamp.value);
      assert a[0] == SentAt(a, v)[0] == SentAt(b, v)[0] == b[0];
      forall w: int ensures SentAt(a[1..], w) == SentAt(b[1..], w) {
        assert SentAt(a, w) == SentAt(b, w);
        if w == v { assert SentAt(a, w)[1..] == SentAt(a[1..], w) && SentAt(b, w)[1..] == SentAt(b[1..], w); }
      }
      ChronologicalUnique(a[1..], b[1..]);
    }
  }

  lemma {:induction false} FirstNotLater(s: seq<Item>, v: int)
    requires AllTimed(s) && Chronological(s) && SentAt(s, v) != []
    ensures s != [] && s[0].timestamp.value <= v
  {
    if s[0].timestamp.value != v {
      FirstNotLater(s[1..], v);
      assert s[0].timestamp.value <= s[1].timestamp.value;
    }
  }

  /**
   With a time on every item, the sorted burst is the one chronological arrangement that keeps
   the arrival order of items sent at the same instant; otherwise the burst is left as it arrived.
   */
  lemma SortBurstIsStableSort(items: seq<Item>, other: seq<Item>)
    requires AllTimed(other)
    ensures !AllTimed(items) ==> SortBurst(items) == items
    ensures AllTimed(items) ==>
              (other == SortBurst(items) <==>
               Chronological(other) && AgreePerInstant(other, items))
  {
    if AllTimed(items) {
      var r := ByTime(items);
      assert AgreePerInstant(r, items) by {
        forall v: int ensures SentAt(r, v) == SentAt(items, v) { ByTimeSound(items, v); }
      }
      ByTimeSound(items, 0);
      if Chronological(other) && AgreePerInstant(other, items) {
        ChronologicalUnique(other, r);
      }
    }
  }
}
