/**
 * The `App` loader (src/App.js:184-201): walk every store entry, build a
 * record `{key, name, data}` for it, copy and sort the records by key, and
 * hand the `data` fields, in that order, to the game.
 *
 * The browser store is an input sequence of `(name, value)` entries in the
 * order `localStorage.key(i)` enumerates them; `getItem(key(i))` is the
 * value of entry i.
 */
module Deck {
  import opened Wrappers
  import opened SortKey

  /** One loaded record: `{key, name, data}`. */
  datatype StoredImage = StoredImage(key: nat, name: string, data: string)

  /** Every name has a key inside the model (digits or nothing before its last '.'). */
  predicate Modelled(store: seq<(string, string)>)
  {
    forall i :: 0 <= i < |store| ==> Key(store[i].0).Some?
  }

  /** The record built for one store entry. */
  function EntryRecord(entry: (string, string)): StoredImage
    requires Key(entry.0).Some?
  {
    StoredImage(Key(entry.0).value, entry.0, entry.1)
  }

  /** The records of a store, one per entry and in store order. */
  function Records(store: seq<(string, string)>): (rs: seq<StoredImage>)
    requires Modelled(store)
    ensures |rs| == |store|
    ensures forall i :: 0 <= i < |store| ==>
      rs[i].name == store[i].0 && rs[i].data == store[i].1 && Some(rs[i].key) == Key(store[i].0)
  {
    if store == [] then []
    else Records(store[..|store| - 1]) + [EntryRecord(store[|store| - 1])]
  }

  /** The stored values, in store order. */
  function Values(store: seq<(string, string)>): (vs: seq<string>)
    ensures |vs| == |store|
    ensures forall i :: 0 <= i < |store| ==> vs[i] == store[i].1
  {
    if store == [] then [] else [store[0].1] + Values(store[1..])
  }

  /** The loop of src/App.js:187-196, pushing one record per entry. */
  method CollectRecords(store: seq<(string, string)>) returns (stored: seq<StoredImage>)
    requires Modelled(store)
    ensures stored == Records(store)
  {
    stored := [];
    var i := 0;
    while i < |store|
      invariant 0 <= i <= |store|
      invariant Modelled(store[..i])
      invariant stored == Records(store[..i])
    {
      var name := store[i].0;
      var base64String := store[i].1;
      assert store[..i + 1][..i] == store[..i];
      stored := stored + [StoredImage(Key(name).value, name, base64String)];
      i := i + 1;
    }
    assert store[..i] == store;
  }

  // ---------------------------------------------------------------------
  // Sorting by key with `(a, b) => a.key - b.key`, stably (section 23.1.3.30
  // of ECMA-262, 2023 edition, requires `Array.prototype.sort` to be stable).

  predicate Sorted(rs: seq<StoredImage>)
  {
    forall i, j :: 0 <= i < j < |rs| ==> rs[i].key <= rs[j].key
  }

  /** The records of `rs` with key k, in their order in `rs`. */
  function WithKey(rs: seq<StoredImage>, k: nat): (r: seq<StoredImage>)
    ensures forall e :: e in r ==> e in rs && e.key == k
  {
    if rs == [] then []
    else (if rs[0].key == k then [rs[0]] else []) + WithKey(rs[1..], k)
  }

  /** No record of key k is missed: WithKey picks every one of them. */
  lemma {:induction false} WithKeyComplete(rs: seq<StoredImage>, k: nat)
    ensures forall e :: e in rs && e.key == k ==> e in WithKey(rs, k)
  {
    if rs != [] {
      WithKeyComplete(rs[1..], k);
      assert forall e :: e in rs ==> e == rs[0] || e in rs[1..];
    }
  }

  /** `out` is what a stable sort by key may return for `rs`: sorted, and each key's records in their original order. */
  ghost predicate IsStableSortOf(out: seq<StoredImage>, rs: seq<StoredImage>)
  {
    Sorted(out) && forall k :: WithKey(out, k) == WithKey(rs, k)
  }

  /** Insert x in front of the first record whose key is not smaller than x's. */
  function Insert(x: StoredImage, rs: seq<StoredImage>): (r: seq<StoredImage>)
    ensures |r| == |rs| + 1
    ensures multiset(r) == multiset(rs) + multiset{x}
  {
    if rs == [] then [x]
    else if x.key <= rs[0].key then [x] + rs
    else
      assert rs == [rs[0]] + rs[1..];
      [rs[0]] + Insert(x, rs[1..])
  }

  /** Every record of rs has key at least b. */
  predicate AllAtLeast(rs: seq<StoredImage>, b: nat)
  {
    forall i :: 0 <= i < |rs| ==> b <= rs[i].key
  }

  lemma {:induction false} SortedCons(h: StoredImage, t: seq<StoredImage>)
    requires AllAtLeast(t, h.key) && Sorted(t)
    ensures Sorted([h] + t)
  {
    var r := [h] + t;
    forall i, j | 0 <= i < j < |r| ensures r[i].key <= r[j].key {
      assert r[j] == t[j - 1];
      if i > 0 {
        assert r[i] == t[i - 1];
      }
    }
  }

  lemma {:induction false} InsertAtLeast(x: StoredImage, rs: seq<StoredImage>, b: nat)
    requires AllAtLeast(rs, b) && b <= x.key
    ensures AllAtLeast(Insert(x, rs), b)
  {
    if rs != [] && x.key > rs[0].key {
      InsertAtLeast(x, rs[1..], b);
      var r := Insert(x, rs);
      assert r == [rs[0]] + Insert(x, rs[1..]);
      forall i | 0 <= i < |r| ensures b <= r[i].key {
        if i > 0 {
          assert r[i] == Insert(x, rs[1..])[i - 1];
        }
      }
    }
  }

  /** Inserting into a sorted sequence keeps it sorted. */
  lemma {:induction false} InsertSorted(x: StoredImage, rs: seq<StoredImage>)
    requires Sorted(rs)
    ensures Sorted(Insert(x, rs))
  {
    if rs == [] {
    } else if x.key <= rs[0].key {
      SortedCons(x, rs);
    } else {
      var tail := Insert(x, rs[1..]);
      assert Sorted(rs[1..]);
      InsertSorted(x, rs[1..]);
      assert AllAtLeast(rs[1..], rs[0].key);
      InsertAtLeast(x, rs[1..], rs[0].key);
      SortedCons(rs[0], tail);
    }
  }

  /** The sorted copy `[...storedImages].sort((a, b) => a.key - b.key)`. */
  function SortByKey(rs: seq<StoredImage>): (r: seq<StoredImage>)
    ensures |r| == |rs|
    ensures Sorted(r)
    ensures multiset(r) == multiset(rs)
  {
    if rs == [] then []
    else
      assert rs == [rs[0]] + rs[1..];
      InsertSorted(rs[0], SortByKey(rs[1..]));
      Insert(rs[0], SortByKey(rs[1..]))
  }

  lemma {:induction false} InsertWithKey(x: StoredImage, rs: seq<StoredImage>, k: nat)
    ensures WithKey(Insert(x, rs), k) == if x.key == k then [x] + WithKey(rs, k) else WithKey(rs, k)
  {
    if rs == [] {
    } else if x.key <= rs[0].key {
      assert ([x] + rs)[1..] == rs;
    } else {
      var tail := Insert(x, rs[1..]);
      assert ([rs[0]] + tail)[1..] == tail;
      InsertWithKey(x, rs[1..], k);
    }
  }

  /** Sorting keeps the records of each key in their original order. */
  lemma {:induction false} SortByKeyStable(rs: seq<StoredImage>, k: nat)
    ensures WithKey(SortByKey(rs), k) == WithKey(rs, k)
  {
    if rs != [] {
      var sortedTail := SortByKey(rs[1..]);
      SortByKeyStable(rs[1..], k);
      InsertWithKey(rs[0], sortedTail, k);
      assert SortByKey(rs) == Insert(rs[0], sortedTail);
      assert WithKey(rs, k) == (if rs[0].key == k then [rs[0]] else []) + WithKey(rs[1..], k);
    }
  }

  lemma SortByKeyIsStableSort(rs: seq<StoredImage>)
    ensures IsStableSortOf(SortByKey(rs), rs)
  {
    forall k ensures WithKey(SortByKey(rs), k) == WithKey(rs, k) {
      SortByKeyStable(rs, k);
    }
  }

  lemma {:induction false} WithKeyHead(rs: seq<StoredImage>)
    requires rs != []
    ensures WithKey(rs, rs[0].key) != [] && WithKey(rs, rs[0].key)[0] == rs[0]
  {
  }

  /**
   * A sorted sequence is fixed by the order of each key's records: two
   * stable sorts of the same records agree.
   */
  lemma {:induction false} StableSortUnique(s: seq<StoredImage>, t: seq<StoredImage>)
    requires Sorted(s) && Sorted(t)
    requires forall k :: WithKey(s, k) == WithKey(t, k)
    ensures s == t
    decreases |s|
  {
    if s == [] || t == [] {
      if t != [] {
        WithKeyHead(t);
      } else if s != [] {
        WithKeyHead(s);
      }
    } else {
      var a, b := s[0].key, t[0].key;
      WithKeyHead(s);
      WithKeyHead(t);
      var ea := WithKey(t, a)[0];
      assert ea in t && ea.key == a;
      var eb := WithKey(s, b)[0];
      assert eb in s && eb.key == b;
      assert a == b;
      assert s[0] == t[0];
      forall k ensures WithKey(s[1..], k) == WithKey(t[1..], k) {
        var head := if s[0].key == k then [s[0]] else [];
        assert WithKey(s, k) == head + WithKey(s[1..], k);
        assert WithKey(t, k) == head + WithKey(t[1..], k);
        assert (head + WithKey(s[1..], k))[|head|..] == WithKey(s[1..], k);
        assert (head + WithKey(t[1..], k))[|head|..] == WithKey(t[1..], k);
      }
      StableSortUnique(s[1..], t[1..]);
      assert s == [s[0]] + s[1..];
      assert t == [t[0]] + t[1..];
    }
  }

  /** Any result a conforming stable sort may give is the one SortByKey gives. */
  lemma StableSortIsSortByKey(rs: seq<StoredImage>, out: seq<StoredImage>)
    requires IsStableSortOf(out, rs)
    ensures out == SortByKey(rs)
  {
    SortByKeyIsStableSort(rs);
    StableSortUnique(out, SortByKey(rs));
  }

  // ---------------------------------------------------------------------
  // The deck handed to the game.

  /** `localImages.map((image, index) => image.data)` (src/App.js:184). */
  function Images(localImages: seq<StoredImage>): (images: seq<string>)
    ensures |images| == |localImages|
    ensures forall i :: 0 <= i < |localImages| ==> images[i] == localImages[i].data
  {
    if localImages == [] then [] else [localImages[0].data] + Images(localImages[1..])
  }

  /** The effect of src/App.js:186-201: load every entry and sort the records. */
  method LoadSorted(store: seq<(string, string)>) returns (sorted: seq<StoredImage>)
    requires Modelled(store)
    ensures |sorted| == |store|
    ensures Sorted(sorted)
    ensures multiset(sorted) == multiset(Records(store))
    ensures forall k :: WithKey(sorted, k) == WithKey(Records(store), k)
  {
    var storedImages := CollectRecords(store);
    sorted := SortByKey(storedImages);
    assert |sorted| == |storedImages| by {
      assert |multiset(sorted)| == |multiset(storedImages)|;
    }
    SortByKeyIsStableSort(storedImages);
  }

  lemma ImagesCons(h: StoredImage, t: seq<StoredImage>)
    ensures Images([h] + t) == [h.data] + Images(t)
  {
    assert ([h] + t)[1..] == t;
  }

  lemma {:induction false} ImagesInsert(x: StoredImage, rs: seq<StoredImage>)
    ensures multiset(Images(Insert(x, rs))) == multiset(Images(rs)) + multiset{x.data}
  {
    if rs != [] {
      assert rs == [rs[0]] + rs[1..];
      ImagesCons(rs[0], rs[1..]);
      if x.key <= rs[0].key {
        ImagesCons(x, rs);
      } else {
        var tail := Insert(x, rs[1..]);
        ImagesInsert(x, rs[1..]);
        ImagesCons(rs[0], tail);
      }
    }
  }

  lemma {:induction false} ImagesSortByKey(rs: seq<StoredImage>)
    ensures multiset(Images(SortByKey(rs))) == multiset(Images(rs))
  {
    if rs != [] {
      ImagesSortByKey(rs[1..]);
      ImagesInsert(rs[0], SortByKey(rs[1..]));
    }
  }

  /** The deck holds exactly the stored values, each as often as it is stored. */
  lemma DeckHoldsStoredValues(store: seq<(string, string)>)
    requires Modelled(store)
    ensures |Images(SortByKey(Records(store)))| == |store|
    ensures multiset(Images(SortByKey(Records(store)))) == multiset(Values(store))
  {
    var rs := Records(store);
    ImagesSortByKey(rs);
    assert Images(rs) == Values(store) by {
      forall i | 0 <= i < |store| ensures Images(rs)[i] == Values(store)[i] {
      }
    }
  }

  lemma RecordsOfPair(a: (string, string), b: (string, string))
    requires Key(a.0).Some? && Key(b.0).Some?
    ensures Modelled([a, b])
    ensures Records([a, b]) == [EntryRecord(a), EntryRecord(b)]
  {
    assert [a, b][..1] == [a];
    assert [a][..0] == [];
  }

  /** Keys compare as numbers: "2.png" is dealt before "10.png". */
  lemma NumericOrderExample()
    ensures Modelled([("10.png", "ten"), ("2.png", "two")])
    ensures Images(SortByKey(Records([("10.png", "ten"), ("2.png", "two")]))) == ["two", "ten"]
  {
    NumericKeys();
    var store := [("10.png", "ten"), ("2.png", "two")];
    var ten, two := StoredImage(10, "10.png", "ten"), StoredImage(2, "2.png", "two");
    RecordsOfPair(store[0], store[1]);
    assert Records(store) == [ten, two];
    SortTwoDescending(ten, two);
  }

  lemma SortTwoDescending(a: StoredImage, b: StoredImage)
    requires b.key < a.key
    ensures SortByKey([a, b]) == [b, a]
    ensures Images([b, a]) == [b.data, a.data]
  {
    assert [a, b][1..] == [b];
    assert [b][1..] == [];
    assert [b, a][1..] == [a];
    assert [a][1..] == [];
  }

  /** Names without a '.' all get key 0 and keep their store order. */
  lemma NoDotKeepsStoreOrder()
    ensures Modelled([("b", "first"), ("a", "second")])
    ensures Images(SortByKey(Records([("b", "first"), ("a", "second")]))) == ["first", "second"]
  {
    var store := [("b", "first"), ("a", "second")];
    RecordsOfPair(store[0], store[1]);
    var rs := Records(store);
    assert rs == [StoredImage(0, "b", "first"), StoredImage(0, "a", "second")];
  }
}
