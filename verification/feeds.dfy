/** The public-feeds list of the chat app (FeedListAdapter): a list of rhizome
    bundles in which each bundle id is shown at most once, and the two display
    fallbacks a row uses when it is bound. */
module Feeds {
  import opened Servaldna

  /** The parts of a rhizome manifest the feed list reads; `name` is null when unset. */
  datatype Manifest = Manifest(id: BundleId, sender: Sid, name: Option<string>)

  /** One entry of a rhizome bundle listing (`RhizomeListBundle`). */
  datatype ListBundle = ListBundle(manifest: Manifest, author: Option<Sid>)

  // ----- The list and its invariant -----

  /** The bundle ids that appear in `s`. */
  function Ids(s: seq<ListBundle>): (ids: set<BundleId>)
  {
    set i | 0 <= i < |s| :: s[i].manifest.id
  }

  /** No bundle id appears twice in `s`. */
  predicate DistinctIds(s: seq<ListBundle>)
  {
    forall i, j :: 0 <= i < j < |s| ==> s[i].manifest.id != s[j].manifest.id
  }

  /** The adapter's invariant: every id is shown at most once, and every shown id
      has been recorded in `bundles`. */
  predicate Inv(items: seq<ListBundle>, bundles: set<BundleId>)
  {
    DistinctIds(items) && Ids(items) <= bundles
  }

  lemma IdsCons(s: seq<ListBundle>)
    requires s != []
    ensures Ids(s) == {s[0].manifest.id} + Ids(s[1..])
  {
  }

  lemma DistinctCons(x: ListBundle, t: seq<ListBundle>)
    ensures DistinctIds([x] + t) <==> x.manifest.id !in Ids(t) && DistinctIds(t)
  {
    var u := [x] + t;
    if x.manifest.id !in Ids(t) && DistinctIds(t) {
      forall i, j | 0 <= i < j < |u| ensures u[i].manifest.id != u[j].manifest.id {
        assert u[j] == t[j - 1];
        if i == 0 {
          assert t[j - 1].manifest.id in Ids(t);
        } else {
          assert u[i] == t[i - 1];
        }
      }
    }
    if DistinctIds(u) {
      forall i, j | 0 <= i < j < |t| ensures t[i].manifest.id != t[j].manifest.id {
        assert u[i + 1] == t[i] && u[j + 1] == t[j];
      }
      forall i | 0 <= i < |t| ensures t[i].manifest.id != x.manifest.id {
        assert u[0] == x && u[i + 1] == t[i];
      }
    }
  }

  // ----- removeItem -----

  /** The list `removeItem(id)` leaves: `s` without its first entry for `id`.
      It is at most one shorter, which is what keeps a later insertion in range. */
  function RemoveFirst(s: seq<ListBundle>, id: BundleId): (r: seq<ListBundle>)
    ensures |s| - 1 <= |r| <= |s|
  {
    if s == [] then []
    else if s[0].manifest.id == id then s[1..]
    else [s[0]] + RemoveFirst(s[1..], id)
  }

  /** When `k` is the first position holding `id`, exactly that entry goes and
      every other entry keeps its relative order. */
  lemma {:induction false} RemoveFirstAt(s: seq<ListBundle>, id: BundleId, k: nat)
    requires k < |s| && s[k].manifest.id == id
    requires forall j :: 0 <= j < k ==> s[j].manifest.id != id
    ensures RemoveFirst(s, id) == s[..k] + s[k + 1..]
  {
    if k > 0 {
      RemoveFirstAt(s[1..], id, k - 1);
      assert s[..k] == [s[0]] + s[1..][..k - 1];
      assert s[k + 1..] == s[1..][k..];
    }
  }

  /** With no entry for `id`, the list is left as it was. */
  lemma {:induction false} RemoveFirstAbsent(s: seq<ListBundle>, id: BundleId)
    requires id !in Ids(s)
    ensures RemoveFirst(s, id) == s
  {
    if s != [] {
      IdsCons(s);
      RemoveFirstAbsent(s[1..], id);
    }
  }

  /** The list shrinks by one exactly when some entry has `id`. */
  lemma {:induction false} RemoveFirstLength(s: seq<ListBundle>, id: BundleId)
    ensures |RemoveFirst(s, id)| == if id in Ids(s) then |s| - 1 else |s|
  {
    if s != [] {
      IdsCons(s);
      RemoveFirstLength(s[1..], id);
    }
  }

  /** On a list without repeated ids, removal keeps the ids distinct and drops
      `id` from the shown ids and nothing else. */
  lemma {:induction false} RemoveFirstDistinct(s: seq<ListBundle>, id: BundleId)
    requires DistinctIds(s)
    ensures DistinctIds(RemoveFirst(s, id))
    ensures Ids(RemoveFirst(s, id)) == Ids(s) - {id}
  {
    if s != [] {
      IdsCons(s);
      DistinctCons(s[0], s[1..]);
      assert [s[0]] + s[1..] == s;
      if s[0].manifest.id != id {
        RemoveFirstDistinct(s[1..], id);
        var r := RemoveFirst(s[1..], id);
        DistinctCons(s[0], r);
        IdsCons([s[0]] + r);
        assert ([s[0]] + r)[1..] == r;
      }
    }
  }

  // ----- addItem -----

  /** The stand-in for `ScrollingAdapter.addItem`: `x` inserted at position `index`. */
  function InsertAt(s: seq<ListBundle>, index: nat, x: ListBundle): (r: seq<ListBundle>)
    requires index <= |s|
  {
    s[..index] + [x] + s[index..]
  }

  lemma InsertAtDistinct(s: seq<ListBundle>, index: nat, x: ListBundle)
    requires index <= |s| && DistinctIds(s) && x.manifest.id !in Ids(s)
    ensures DistinctIds(InsertAt(s, index, x))
    ensures Ids(InsertAt(s, index, x)) == Ids(s) + {x.manifest.id}
  {
    var r := InsertAt(s, index, x);
    assert |r| == |s| + 1;
    assert r[index] == x;
    assert forall k :: 0 <= k < index ==> r[k] == s[k];
    assert forall k :: index < k < |r| ==> r[k] == s[k - 1];
    forall i, j | 0 <= i < j < |r| ensures r[i].manifest.id != r[j].manifest.id {
      if i == index {
        assert s[j - 1].manifest.id in Ids(s);
      } else if j == index {
        assert s[i].manifest.id in Ids(s);
      } else if i < index {
        assert r[i] == s[i];
        assert j < index ==> r[j] == s[j];
        assert j > index ==> r[j] == s[j - 1];
      } else {
        assert r[i] == s[i - 1] && r[j] == s[j - 1];
      }
    }
    forall y ensures y in Ids(r) <==> y in Ids(s) + {x.manifest.id} {
      if y in Ids(s) {
        var k :| 0 <= k < |s| && s[k].manifest.id == y;
        if k < index {
          assert r[k] == s[k];
        } else {
          assert r[k + 1] == s[k];
        }
      }
      if y in Ids(r) {
        var k :| 0 <= k < |r| && r[k].manifest.id == y;
        if k < index {
          assert r[k] == s[k];
        } else if k > index {
          assert r[k] == s[k - 1];
        }
      }
    }
  }

  /** The pair (items, bundles) after `addItem(index, item)`:
      - an unknown id is recorded and the item inserted at `index`;
      - a known id offered at the tail is dropped;
      - a known id offered elsewhere loses its old entry and is re-inserted at `index`. */
  function Added(items: seq<ListBundle>, bundles: set<BundleId>, index: nat, item: ListBundle)
    : (r: (seq<ListBundle>, set<BundleId>))
    requires index <= |items|
    ensures item.manifest.id !in bundles ==>
              && r.1 == bundles + {item.manifest.id}
              && |r.0| == |items| + 1
              && r.0[index] == item
              && r.0[..index] == items[..index]
              && r.0[index + 1..] == items[index..]
    ensures item.manifest.id in bundles && index == |items| ==> r == (items, bundles)
    ensures item.manifest.id in bundles && index < |items| ==>
              && r.1 == bundles
              && index < |r.0|
              && r.0[index] == item
    ensures bundles <= r.1
  {
    var id := item.manifest.id;
    if id !in bundles then (InsertAt(items, index, item), bundles + {id})
    else if index == |items| then (items, bundles)
    else (InsertAt(RemoveFirst(items, id), index, item), bundles)
  }

  /** `addItem` keeps the invariant, and whenever it does not drop the item the
      shown ids gain exactly the item's id. */
  lemma AddedKeepsInvariant(items: seq<ListBundle>, bundles: set<BundleId>, index: nat, item: ListBundle)
    requires index <= |items| && Inv(items, bundles)
    ensures Inv(Added(items, bundles, index, item).0, Added(items, bundles, index, item).1)
    ensures !(item.manifest.id in bundles && index == |items|) ==>
              Ids(Added(items, bundles, index, item).0) == Ids(items) + {item.manifest.id}
  {
    var id := item.manifest.id;
    if id !in bundles {
      InsertAtDistinct(items, index, item);
    } else if index != |items| {
      RemoveFirstDistinct(items, id);
      InsertAtDistinct(RemoveFirst(items, id), index, item);
    }
  }

  /** Re-inserting a bundle that is already shown moves it: the length is unchanged. */
  lemma AddedMovedLength(items: seq<ListBundle>, bundles: set<BundleId>, index: nat, item: ListBundle)
    requires index < |items| && item.manifest.id in bundles && item.manifest.id in Ids(items)
    ensures |Added(items, bundles, index, item).0| == |items|
  {
    RemoveFirstLength(items, item.manifest.id);
  }

  /** Re-adding a known id whose first entry is at `k` removes exactly that entry,
      keeps every other entry in order, and inserts the item at `index`. */
  lemma AddedMoved(items: seq<ListBundle>, bundles: set<BundleId>, index: nat, item: ListBundle, k: nat)
    requires index < |items| && item.manifest.id in bundles
    requires k < |items| && items[k].manifest.id == item.manifest.id
    requires forall j :: 0 <= j < k ==> items[j].manifest.id != item.manifest.id
    ensures Added(items, bundles, index, item).0 == InsertAt(items[..k] + items[k + 1..], index, item)
  {
    RemoveFirstAt(items, item.manifest.id, k);
  }

  /** Re-adding a known id that is no longer shown, below the tail, only inserts the item. */
  lemma AddedKnownNotShown(items: seq<ListBundle>, bundles: set<BundleId>, index: nat, item: ListBundle)
    requires index < |items| && item.manifest.id in bundles && item.manifest.id !in Ids(items)
    ensures Added(items, bundles, index, item) == (InsertAt(items, index, item), bundles)
  {
    RemoveFirstAbsent(items, item.manifest.id);
  }

  // ----- FeedHolder.bind -----

  /** The subscriber a row opens: the bundle's author when known, otherwise the
      manifest's sender, always with the bundle id as signing key. */
  function FeedSubscriber(item: ListBundle): (s: Subscriber)
    ensures item.author.Some? ==> s.sid == item.author.value
    ensures item.author.None? ==> s.sid == item.manifest.sender
    ensures s.signingKey == Some(item.manifest.id) && s.combined
  {
    Subscriber(if item.author.Some? then item.author.value else item.manifest.sender,
               Some(item.manifest.id), true)
  }

  /** A manifest name counts as set when it is neither null nor empty. */
  predicate HasName(name: Option<string>)
  {
    name.Some? && name.value != ""
  }

  /** The text a row shows: the manifest's name, or else the abbreviation of the
      subscriber's sid. `abbreviation` is `SubscriberId.abbreviation`, which is
      not part of this model. */
  function DisplayName(item: ListBundle, abbreviation: Sid -> string): (shown: string)
    ensures HasName(item.manifest.name) ==> shown == item.manifest.name.value
    ensures !HasName(item.manifest.name) ==> shown == abbreviation(FeedSubscriber(item).sid)
  {
    if HasName(item.manifest.name) then item.manifest.name.value
    else abbreviation(FeedSubscriber(item).sid)
  }

  /** A row never shows an empty name as long as abbreviations are never empty. */
  lemma DisplayNameNonEmpty(item: ListBundle, abbreviation: Sid -> string)
    requires forall sid :: abbreviation(sid) != ""
    ensures DisplayName(item, abbreviation) != ""
  {
  }

  /** The feed list adapter: the shown bundles and every id it has been given. */
  class FeedListAdapter {
    /** `ScrollingAdapter.items`: the bundles shown, in order. */
    var items: seq<ListBundle>
    /** Every bundle id ever added; it never shrinks. */
    var bundles: set<BundleId>

    ghost predicate Valid()
      reads this
    {
      Inv(items, bundles)
    }

    constructor ()
      ensures Valid() && items == [] && bundles == {}
    {
      items := [];
      bundles := {};
    }

    /** `removeItem`: scan for the first entry with `id` and remove it. */
    method RemoveItem(id: BundleId)
      modifies this`items
      ensures items == RemoveFirst(old(items), id)
    {
      var i := 0;
      while i < |items|
        invariant 0 <= i <= |items|
        invariant items == old(items)
        invariant forall j :: 0 <= j < i ==> items[j].manifest.id != id
      {
        if items[i].manifest.id == id {
          RemoveFirstAt(items, id, i);
          items := items[..i] + items[i + 1..];
          return;
        }
        i := i + 1;
      }
      RemoveFirstAbsent(items, id);
    }

    /** The stand-in for `ScrollingAdapter.addItem`: insert `item` at `index`. */
    method InsertItem(index: nat, item: ListBundle)
      requires index <= |items|
      modifies this`items
      ensures items == InsertAt(old(items), index, item)
    {
      items := items[..index] + [item] + items[index..];
    }

    /** `addItem`: insert `item` at `index` unless its id is already shown, in
        which case the old entry is moved (or the item dropped at the tail). */
    method AddItem(index: nat, item: ListBundle)
      requires Valid() && index <= |items|
      modifies this
      ensures Valid()
      ensures (items, bundles) == Added(old(items), old(bundles), index, item)
    {
      var id := item.manifest.id;
      if id in bundles {
        if index == |items| {
          return;
        }
        RemoveItem(id);
      } else {
        bundles := bundles + {id};
      }
      InsertItem(index, item);
      AddedKeepsInvariant(old(items), old(bundles), index, item);
    }
  }
}
