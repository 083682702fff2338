/** Income/expense reconciliation, run when an existing product is saved
    (`onSubmit` of components/product/ProductForm.tsx and of
    components/product/ProductEditForm.tsx).

    The handler indexes the previously persisted records by id in a
    JavaScript `Map`, walks the submitted entries in order (an entry whose id
    is still in the map becomes a PATCH and leaves the map, any other entry a
    POST carrying the product id), then issues a DELETE for every id left in
    the map, in the map's key order. The same code runs for incomes (payload:
    the amount) and for expenses (payload: amount and type), so the model is
    generic in the payload `P`. */
module LineItemSync {
  import opened Common

  /** A submitted row: the id it was loaded with, if any, and what it carries. */
  datatype Entry<P> = Entry(id: Option<Id>, payload: P)

  /** A record as it was persisted when the form was opened. */
  datatype Persisted<P> = Persisted(id: Id, payload: P)

  /** The requests the handler sends, in order. */
  datatype Op<P> =
    | Patch(id: Id, payload: P)
    | Post(productId: Id, payload: P)
    | Delete(id: Id)

  function Ids<P>(rs: seq<Persisted<P>>): (r: seq<Id>)
    ensures |r| == |rs| && forall i :: 0 <= i < |rs| ==> r[i] == rs[i].id
  {
    seq(|rs|, i requires 0 <= i < |rs| => rs[i].id)
  }

  /** The key order of `new Map(records.map(r => [r.id, r]))`: each id at
      the position of its first occurrence. */
  function KeyOrder(ids: seq<Id>): (r: seq<Id>)
    ensures Distinct(r)
    ensures forall k :: k in r <==> k in ids
  {
    if ids == [] then []
    else
      var r0 := KeyOrder(ids[..|ids| - 1]);
      var k := ids[|ids| - 1];
      assert ids == ids[..|ids| - 1] + [k];
      if k in r0 then r0 else r0 + [k]
  }

  /** `s` after `Map.delete(k)`: the order of the other keys is kept. */
  function Without(s: seq<Id>, k: Id): (r: seq<Id>)
    ensures forall x :: x in r <==> x in s && x != k
    ensures Distinct(s) ==> Distinct(r)
    ensures Distinct(s) && k in s ==> |r| == |s| - 1
    ensures k !in s ==> r == s
  {
    if s == [] then []
    else
      var rest := Without(s[1..], k);
      assert forall x :: x in s <==> x == s[0] || x in s[1..];
      assert Distinct(s) ==> Distinct(s[1..]) && s[0] !in s[1..];
      if s[0] == k then rest else [s[0]] + rest
  }

  /** The elements of `s` outside `drop`, in their order in `s`. */
  function Keep(s: seq<Id>, drop: set<Id>): (r: seq<Id>)
    ensures forall x :: x in r <==> x in s && x !in drop
    ensures Distinct(s) ==> Distinct(r)
  {
    if s == [] then []
    else
      assert forall x :: x in s <==> x == s[0] || x in s[1..];
      (if s[0] in drop then [] else [s[0]]) + Keep(s[1..], drop)
  }

  lemma {:induction false} KeepNothing(s: seq<Id>)
    ensures Keep(s, {}) == s
  {
    if s != [] {
      KeepNothing(s[1..]);
    }
  }

  lemma {:induction false} KeepAll(s: seq<Id>, drop: set<Id>)
    requires forall x :: x in s ==> x in drop
    ensures Keep(s, drop) == []
  {
    if s != [] {
      KeepAll(s[1..], drop);
    }
  }

  lemma {:induction false} KeepWithout(s: seq<Id>, drop: set<Id>, k: Id)
    ensures Without(Keep(s, drop), k) == Keep(s, drop + {k})
  {
    if s != [] {
      KeepWithout(s[1..], drop, k);
      var t := Keep(s[1..], drop);
      if s[0] in drop {
        assert Keep(s, drop) == t;
        assert Keep(s, drop + {k}) == Keep(s[1..], drop + {k});
      } else {
        var u := [s[0]] + t;
        assert Keep(s, drop) == u;
        assert u[0] == s[0] && u[1..] == t;
        if s[0] == k {
          assert Without(u, k) == Without(t, k);
          assert Keep(s, drop + {k}) == Keep(s[1..], drop + {k});
        } else {
          assert Without(u, k) == [s[0]] + Without(t, k);
          assert Keep(s, drop + {k}) == [s[0]] + Keep(s[1..], drop + {k});
        }
      }
    }
  }

  /** Ids of `keys` that some submitted entry carries. The empty string is
      never one: the handler tests `inc.id` for truthiness. */
  function Claimed<P>(keys: seq<Id>, d: seq<Entry<P>>): set<Id>
  {
    if d == [] then {}
    else
      var e := d[|d| - 1];
      Claimed(keys, d[..|d| - 1]) + if Truthy(e.id) && e.id.value in keys then {e.id.value} else {}
  }

  /** Some entry of `d` carries id `k`. */
  predicate Carried<P>(d: seq<Entry<P>>, k: Id)
  {
    exists j :: 0 <= j < |d| && d[j].id == Some(k)
  }

  lemma {:induction false} ClaimedMembership<P>(keys: seq<Id>, d: seq<Entry<P>>, k: Id)
    ensures k in Claimed(keys, d) <==> k in keys && k != "" && Carried(d, k)
  {
    if d != [] {
      var d0 := d[..|d| - 1];
      ClaimedMembership(keys, d0, k);
      if Carried(d, k) && !Carried(d0, k) {
        assert d[|d| - 1].id == Some(k);
      }
      if Carried(d0, k) {
        var j :| 0 <= j < |d0| && d0[j].id == Some(k);
        assert d[j].id == Some(k);
      }
    }
  }

  /** The loop's membership test `inc.id && map.has(inc.id)`. */
  predicate Matches<P>(e: Entry<P>, pending: seq<Id>)
  {
    Truthy(e.id) && e.id.value in pending
  }

  /** The loop over the submitted entries: the requests issued so far and
      the keys still in the map (in the map's order). */
  function Scan<P>(keys: seq<Id>, d: seq<Entry<P>>, productId: Id): (seq<Op<P>>, seq<Id>)
  {
    if d == [] then ([], keys)
    else
      var (ops, pending) := Scan(keys, d[..|d| - 1], productId);
      var e := d[|d| - 1];
      if Matches(e, pending) then (ops + [Patch(e.id.value, e.payload)], Without(pending, e.id.value))
      else (ops + [Post(productId, e.payload)], pending)
  }

  /** One DELETE per leftover key, in order. */
  function Deletes<P>(ids: seq<Id>): (r: seq<Op<P>>)
    ensures |r| == |ids| && forall i :: 0 <= i < |ids| ==> r[i] == Delete(ids[i])
  {
    seq(|ids|, i requires 0 <= i < |ids| => Delete(ids[i]))
  }

  /** Every request the reconciliation of one collection issues, in order. */
  function Plan<P>(initial: seq<Id>, desired: seq<Entry<P>>, productId: Id): seq<Op<P>>
  {
    var (ops, pending) := Scan(KeyOrder(initial), desired, productId);
    ops + Deletes(pending)
  }

  /** The initial ids that no submitted entry matched, in map order. */
  function Unmatched<P>(initial: seq<Id>, desired: seq<Entry<P>>): seq<Id>
  {
    var keys := KeyOrder(initial);
    Keep(keys, Claimed(keys, desired))
  }

  /** `op` is the request the loop issues for entry `e`: a PATCH of the
      entry's own (non-empty) id, or a POST for the product; either way with
      the entry's payload. */
  ghost predicate Answers<P>(e: Entry<P>, op: Op<P>, productId: Id)
  {
    match op
    case Patch(k, p) => e.id == Some(k) && k != "" && p == e.payload
    case Post(q, p) => q == productId && p == e.payload
    case Delete(_) => false
  }

  /** Entry `i` is the first to carry an id that was persisted. */
  predicate FirstKnown<P>(initial: seq<Id>, d: seq<Entry<P>>, i: int)
    requires 0 <= i < |d|
  {
    Truthy(d[i].id) && d[i].id.value in initial && forall j :: 0 <= j < i ==> d[j].id != d[i].id
  }

  /** The ids the PATCHes in `ops` address. */
  function PatchedIds<P>(ops: seq<Op<P>>): set<Id>
  {
    if ops == [] then {}
    else
      var op := ops[|ops| - 1];
      PatchedIds(ops[..|ops| - 1]) + if op.Patch? then {op.id} else {}
  }

  lemma {:induction false} PatchedIdsMembership<P>(ops: seq<Op<P>>, k: Id)
    ensures k in PatchedIds(ops) <==> exists i :: 0 <= i < |ops| && ops[i].Patch? && ops[i].id == k
  {
    if ops != [] {
      var o0 := ops[..|ops| - 1];
      PatchedIdsMembership(o0, k);
      if exists i :: 0 <= i < |o0| && o0[i].Patch? && o0[i].id == k {
        var i :| 0 <= i < |o0| && o0[i].Patch? && o0[i].id == k;
        assert ops[i] == o0[i];
      }
    }
  }

  /** What the POSTs in `ops` create, in order. */
  function PostedPayloads<P>(ops: seq<Op<P>>): seq<P>
  {
    if ops == [] then []
    else
      var op := ops[|ops| - 1];
      PostedPayloads(ops[..|ops| - 1]) + if op.Post? then [op.payload] else []
  }

  /** The keys the loop leaves in the map are the unclaimed ones, in map
      order. */
  lemma {:induction false} ScanPending<P>(keys: seq<Id>, d: seq<Entry<P>>, productId: Id)
    requires Distinct(keys)
    ensures Scan(keys, d, productId).1 == Keep(keys, Claimed(keys, d))
  {
    if d == [] {
      KeepNothing(keys);
    } else {
      var d0, e := d[..|d| - 1], d[|d| - 1];
      ScanPending(keys, d0, productId);
      var pend0 := Scan(keys, d0, productId).1;
      var pend := Scan(keys, d, productId).1;
      var c0 := Claimed(keys, d0);
      if Matches(e, pend0) {
        var k := e.id.value;
        assert pend == Without(pend0, k);
        KeepWithout(keys, c0, k);
        assert Claimed(keys, d) == c0 + {k};
      } else {
        assert pend == pend0;
        if Truthy(e.id) && e.id.value in keys {
          assert e.id.value in c0;
        }
        assert Claimed(keys, d) == c0;
      }
    }
  }

  /** The loop answers every entry with one request, and patches only keys
      of the map. */
  lemma {:induction false} ScanAnswers<P>(keys: seq<Id>, d: seq<Entry<P>>, productId: Id)
    requires Distinct(keys)
    ensures var ops := Scan(keys, d, productId).0;
      && |ops| == |d|
      && (forall i :: 0 <= i < |d| ==> Answers(d[i], ops[i], productId))
      && (forall i :: 0 <= i < |d| && ops[i].Patch? ==> ops[i].id in keys)
  {
    if d != [] {
      var d0, e := d[..|d| - 1], d[|d| - 1];
      ScanAnswers(keys, d0, productId);
      ScanPending(keys, d0, productId);
      var (ops0, pend0) := Scan(keys, d0, productId);
      var ops := Scan(keys, d, productId).0;
      if Matches(e, pend0) {
        assert ops == ops0 + [Patch(e.id.value, e.payload)];
        assert e.id.value in keys;
      } else {
        assert ops == ops0 + [Post(productId, e.payload)];
      }
      forall i | 0 <= i < |d| - 1
        ensures Answers(d[i], ops[i], productId) && (ops[i].Patch? ==> ops[i].id in keys)
      {
        assert ops[i] == ops0[i] && d[i] == d0[i];
      }
    }
  }

  /** Each POST leaves the map as it is and each PATCH takes one key out:
      the leftovers and the entries together outnumber the keys by the
      POSTs. */
  lemma {:induction false} ScanCount<P>(keys: seq<Id>, d: seq<Entry<P>>, productId: Id)
    requires Distinct(keys)
    ensures var (ops, pending) := Scan(keys, d, productId);
      |pending| + |d| == |keys| + |PostedPayloads(ops)|
  {
    if d != [] {
      var d0, e := d[..|d| - 1], d[|d| - 1];
      ScanCount(keys, d0, productId);
      ScanPending(keys, d0, productId);
      var (ops0, pend0) := Scan(keys, d0, productId);
      var (ops, pend) := Scan(keys, d, productId);
      if Matches(e, pend0) {
        assert ops == ops0 + [Patch(e.id.value, e.payload)] && ops[..|ops| - 1] == ops0;
        assert |pend| == |pend0| - 1;
      } else {
        assert ops == ops0 + [Post(productId, e.payload)] && ops[..|ops| - 1] == ops0;
      }
    }
  }

  /** The loop answers every entry with one request, patches only keys of
      the map, and leaves exactly the unclaimed keys, in map order. */
  lemma ScanFacts<P>(keys: seq<Id>, d: seq<Entry<P>>, productId: Id)
    requires Distinct(keys)
    ensures var (ops, pending) := Scan(keys, d, productId);
      && |ops| == |d|
      && (forall i :: 0 <= i < |d| ==> Answers(d[i], ops[i], productId))
      && (forall i :: 0 <= i < |d| && ops[i].Patch? ==> ops[i].id in keys)
      && pending == Keep(keys, Claimed(keys, d))
      && Distinct(pending)
      && |pending| + |d| == |keys| + |PostedPayloads(ops)|
  {
    ScanPending(keys, d, productId);
    ScanAnswers(keys, d, productId);
    ScanCount(keys, d, productId);
  }

  /** The ids the loop's PATCHes address are the claimed keys. */
  lemma {:induction false} ScanPatchedIds<P>(keys: seq<Id>, d: seq<Entry<P>>, productId: Id)
    requires Distinct(keys)
    ensures PatchedIds(Scan(keys, d, productId).0) == Claimed(keys, d)
  {
    if d != [] {
      var d0, e := d[..|d| - 1], d[|d| - 1];
      ScanPatchedIds(keys, d0, productId);
      ScanFacts(keys, d0, productId);
      var (ops0, pend0) := Scan(keys, d0, productId);
      var ops := Scan(keys, d, productId).0;
      var c0 := Claimed(keys, d0);
      if Matches(e, pend0) {
        var k := e.id.value;
        assert ops == ops0 + [Patch(k, e.payload)] && ops[..|ops| - 1] == ops0;
        assert Claimed(keys, d) == c0 + {k};
      } else {
        assert ops == ops0 + [Post(productId, e.payload)] && ops[..|ops| - 1] == ops0;
        if Truthy(e.id) && e.id.value in keys {
          assert e.id.value in c0;
        }
        assert Claimed(keys, d) == c0;
      }
    }
  }

  /** The loop's PATCHes address exactly the claimed keys, each once. */
  lemma ScanPatches<P>(keys: seq<Id>, d: seq<Entry<P>>, productId: Id)
    requires Distinct(keys)
    ensures var ops := Scan(keys, d, productId).0;
      && |ops| == |d|
      && (forall i, j :: 0 <= i < j < |d| && ops[i].Patch? && ops[j].Patch? ==> ops[i].id != ops[j].id)
      && PatchedIds(ops) == Claimed(keys, d)
  {
    ScanFacts(keys, d, productId);
    ScanPatchedIds(keys, d, productId);
    var ops := Scan(keys, d, productId).0;
    forall i, j | 0 <= i < j < |d| && ops[i].Patch? && ops[j].Patch?
      ensures ops[i].id != ops[j].id
    {
      ScanClassifies(keys, d, productId, j);
      assert Answers(d[i], ops[i], productId) && Answers(d[j], ops[j], productId);
    }
  }

  /** An entry is answered by a PATCH exactly when it is the first to carry
      a persisted id; every other entry (no id, an unknown id, a repeated
      id) is answered by a POST. */
  lemma {:induction false} ScanClassifies<P>(keys: seq<Id>, d: seq<Entry<P>>, productId: Id, i: int)
    requires Distinct(keys) && 0 <= i < |d|
    ensures |Scan(keys, d, productId).0| == |d|
    ensures Scan(keys, d, productId).0[i].Patch? <==> FirstKnown(keys, d, i)
  {
    ScanFacts(keys, d, productId);
    var d0, e := d[..|d| - 1], d[|d| - 1];
    ScanFacts(keys, d0, productId);
    var (ops0, pend0) := Scan(keys, d0, productId);
    var ops := Scan(keys, d, productId).0;
    assert ops[..|ops| - 1] == ops0;
    if i < |d| - 1 {
      ScanClassifies(keys, d0, productId, i);
      assert ops[i] == ops0[i];
      assert FirstKnown(keys, d0, i) <==> FirstKnown(keys, d, i) by {
        assert d[i] == d0[i];
        assert forall j :: 0 <= j < i ==> d[j] == d0[j];
      }
    } else {
      assert ops[i].Patch? <==> Matches(e, pend0);
      if Truthy(e.id) && e.id.value in keys {
        var k := e.id.value;
        ClaimedMembership(keys, d0, k);
        if !FirstKnown(keys, d, i) {
          var j :| 0 <= j < i && d[j].id == d[i].id;
          assert d0[j].id == Some(k);
        }
      }
    }
  }

  /** The whole plan: one request per entry in entry order, then one DELETE
      per leftover id; the leftovers are exactly the persisted ids that no
      entry carries (or the empty id, which never matches). */
  lemma PlanShape<P>(initial: seq<Id>, desired: seq<Entry<P>>, productId: Id)
    ensures var plan := Plan(initial, desired, productId);
            var left := Unmatched(initial, desired);
      && |plan| == |desired| + |left|
      && (forall i :: 0 <= i < |desired| ==> Answers(desired[i], plan[i], productId))
      && (forall i :: |desired| <= i < |plan| ==> plan[i] == Delete(left[i - |desired|]))
      && Distinct(left)
      && (forall k :: k in left <==> k in initial && !(k != "" && Carried(desired, k)))
  {
    var keys := KeyOrder(initial);
    ScanFacts(keys, desired, productId);
    forall k ensures k in Unmatched(initial, desired) <==> k in initial && !(k != "" && Carried(desired, k)) {
      ClaimedMembership(keys, desired, k);
    }
  }

  /** PATCH for the first entry carrying each persisted id, POST otherwise. */
  lemma PlanClassifies<P>(initial: seq<Id>, desired: seq<Entry<P>>, productId: Id, i: int)
    requires 0 <= i < |desired|
    ensures |Plan(initial, desired, productId)| >= |desired|
    ensures Plan(initial, desired, productId)[i].Patch? <==> FirstKnown(initial, desired, i)
    ensures Plan(initial, desired, productId)[i].Post? <==> !FirstKnown(initial, desired, i)
  {
    var keys := KeyOrder(initial);
    ScanFacts(keys, desired, productId);
    ScanClassifies(keys, desired, productId, i);
    assert FirstKnown(keys, desired, i) <==> FirstKnown(initial, desired, i);
  }

  /** `op` is a PATCH or a DELETE of record `k`. */
  predicate Touches<P>(op: Op<P>, k: Id)
  {
    (op.Patch? || op.Delete?) && op.id == k
  }

  /** The smallest index carrying an id is its first carrier. */
  lemma {:induction false} FirstCarrier<P>(initial: seq<Id>, d: seq<Entry<P>>, j: int)
    requires 0 <= j < |d| && Truthy(d[j].id) && d[j].id.value in initial
    ensures exists f :: 0 <= f <= j && d[f].id == d[j].id && FirstKnown(initial, d, f)
  {
    if !FirstKnown(initial, d, j) {
      var j' :| 0 <= j' < j && d[j'].id == d[j].id;
      FirstCarrier(initial, d, j');
    }
  }

  /** The first `|desired|` requests are PATCHes of first carriers and
      POSTs; the rest delete the unmatched ids. */
  lemma PlanParts<P>(initial: seq<Id>, desired: seq<Entry<P>>, productId: Id)
    ensures var plan := Plan(initial, desired, productId);
            var left := Unmatched(initial, desired);
            var n := |desired|;
      && |plan| == n + |left|
      && Distinct(left)
      && (forall k :: k in left <==> k in initial && !(k != "" && Carried(desired, k)))
      && (forall i :: 0 <= i < n ==> !plan[i].Delete?)
      && (forall i :: 0 <= i < n && plan[i].Patch? ==>
            FirstKnown(initial, desired, i) && plan[i].id == desired[i].id.value && plan[i].id !in left)
      && (forall i :: n <= i < |plan| ==> plan[i] == Delete(left[i - n]))
  {
    var plan := Plan(initial, desired, productId);
    var left := Unmatched(initial, desired);
    PlanShape(initial, desired, productId);
    forall i | 0 <= i < |desired|
      ensures !plan[i].Delete?
      ensures plan[i].Patch? ==> FirstKnown(initial, desired, i) && plan[i].id == desired[i].id.value
      ensures plan[i].Patch? ==> plan[i].id !in left
    {
      assert Answers(desired[i], plan[i], productId);
      PlanClassifies(initial, desired, productId, i);
      if plan[i].Patch? {
        assert Carried(desired, plan[i].id);
      }
    }
  }

  /** Every persisted id is touched by some request. */
  lemma PlanTouchesEvery<P>(initial: seq<Id>, desired: seq<Entry<P>>, productId: Id, k: Id)
    requires k in initial
    ensures var plan := Plan(initial, desired, productId);
      exists i :: 0 <= i < |plan| && Touches(plan[i], k)
  {
    var plan := Plan(initial, desired, productId);
    var left := Unmatched(initial, desired);
    var n := |desired|;
    PlanParts(initial, desired, productId);
    if k in left {
      var m :| 0 <= m < |left| && left[m] == k;
      assert plan[n + m] == Delete(left[m]);
      assert Touches(plan[n + m], k);
    } else {
      var j :| 0 <= j < n && desired[j].id == Some(k);
      FirstCarrier(initial, desired, j);
      var f :| 0 <= f <= j && desired[f].id == desired[j].id && FirstKnown(initial, desired, f);
      PlanClassifies(initial, desired, productId, f);
      assert Touches(plan[f], k);
    }
  }

  /** Two requests touching the same id are the same request. */
  lemma PlanTouchesOnce<P>(initial: seq<Id>, desired: seq<Entry<P>>, productId: Id, k: Id, i: int, j: int)
    requires var plan := Plan(initial, desired, productId);
      0 <= i < |plan| && 0 <= j < |plan| && Touches(plan[i], k) && Touches(plan[j], k)
    ensures i == j
  {
    var plan := Plan(initial, desired, productId);
    var left := Unmatched(initial, desired);
    var n := |desired|;
    PlanParts(initial, desired, productId);
    if i < n && j < n {
      assert desired[i].id == desired[j].id;
    } else if i < n || j < n {
      assert false;
    } else {
      assert plan[i] == Delete(left[i - n]) && plan[j] == Delete(left[j - n]);
    }
  }

  /** Every persisted id is touched exactly once (a PATCH or a DELETE, never
      both, never twice), and no other id is touched. */
  lemma PlanTouchesEachOnce<P>(initial: seq<Id>, desired: seq<Entry<P>>, productId: Id)
    ensures var plan := Plan(initial, desired, productId);
      && (forall k :: k in initial ==> exists i :: 0 <= i < |plan| && Touches(plan[i], k))
      && (forall k, i, j :: 0 <= i < |plan| && 0 <= j < |plan| && Touches(plan[i], k) && Touches(plan[j], k) ==> i == j)
      && (forall i :: 0 <= i < |plan| && (plan[i].Patch? || plan[i].Delete?) ==> plan[i].id in initial)
  {
    var plan := Plan(initial, desired, productId);
    var left := Unmatched(initial, desired);
    var n := |desired|;
    PlanParts(initial, desired, productId);
    forall k | k in initial
      ensures exists i :: 0 <= i < |plan| && Touches(plan[i], k)
    {
      PlanTouchesEvery(initial, desired, productId, k);
    }
    forall k, i, j | 0 <= i < |plan| && 0 <= j < |plan| && Touches(plan[i], k) && Touches(plan[j], k)
      ensures i == j
    {
      PlanTouchesOnce(initial, desired, productId, k, i, j);
    }
    forall i | n <= i < |plan|
      ensures plan[i].id in initial
    {
      assert plan[i] == Delete(left[i - n]);
    }
  }

  /** All DELETEs come after every PATCH and POST. */
  lemma PlanDeletesLast<P>(initial: seq<Id>, desired: seq<Entry<P>>, productId: Id)
    ensures var plan := Plan(initial, desired, productId);
      forall i, j :: 0 <= i < j < |plan| && plan[i].Delete? ==> plan[j].Delete?
  {
    PlanShape(initial, desired, productId);
    var plan := Plan(initial, desired, productId);
    forall i | 0 <= i < |desired|
      ensures !plan[i].Delete?
    {
      assert Answers(desired[i], plan[i], productId);
    }
  }

  // ---------------------------------------------------------------------
  // Effect of the requests on the product's stored records.

  /** Applies the requests to the product's stored records (`stored`, by id)
      and to the list of records created so far. A PATCH or DELETE of an id
      that is not stored fails on the server; the handler never reads the
      response, so nothing changes. */
  function Apply<P>(stored: map<Id, P>, created: seq<P>, ops: seq<Op<P>>): (map<Id, P>, seq<P>)
  {
    if ops == [] then (stored, created)
    else
      var (s, c) := Apply(stored, created, ops[..|ops| - 1]);
      match ops[|ops| - 1]
      case Patch(k, p) => (if k in s then s[k := p] else s, c)
      case Post(_, p) => (s, c + [p])
      case Delete(k) => (s - {k}, c)
  }

  lemma {:induction false} ApplyConcat<P>(stored: map<Id, P>, created: seq<P>, a: seq<Op<P>>, b: seq<Op<P>>)
    ensures Apply(stored, created, a + b) == (var (s, c) := Apply(stored, created, a); Apply(s, c, b))
  {
    if b != [] {
      ApplyConcat(stored, created, a, b[..|b| - 1]);
      assert (a + b)[..|a + b| - 1] == a + b[..|b| - 1];
    } else {
      assert a + b == a;
    }
  }

  lemma {:induction false} ApplyDeletes<P>(stored: map<Id, P>, created: seq<P>, ks: seq<Id>)
    ensures Apply(stored, created, Deletes(ks)) == (stored - SetOf(ks), created)
  {
    if ks == [] {
      assert Deletes<P>(ks) == [];
      assert SetOf(ks) == {};
      assert stored - SetOf(ks) == stored;
    } else {
      var k0, last := ks[..|ks| - 1], ks[|ks| - 1];
      ApplyDeletes(stored, created, k0);
      var ds := Deletes<P>(ks);
      assert ds != [] && ds[..|ds| - 1] == Deletes<P>(k0) && ds[|ds| - 1] == Delete(last);
      assert SetOf(ks) == SetOf(k0) + {last};
      assert (stored - SetOf(k0)) - {last} == stored - SetOf(ks);
    }
  }

  /** Requests without DELETEs, whose PATCHes address distinct stored ids:
      the stored ids stay, each PATCHed record holds its new payload, the
      others keep theirs, and the POSTs create their payloads in order. */
  lemma {:induction false} ApplyWithoutDeletes<P>(stored: map<Id, P>, ops: seq<Op<P>>)
    requires forall i :: 0 <= i < |ops| ==> !ops[i].Delete?
    requires forall i :: 0 <= i < |ops| && ops[i].Patch? ==> ops[i].id in stored
    requires forall i, j :: 0 <= i < j < |ops| && ops[i].Patch? && ops[j].Patch? ==> ops[i].id != ops[j].id
    ensures Apply(stored, [], ops).0.Keys == stored.Keys
    ensures Apply(stored, [], ops).1 == PostedPayloads(ops)
    ensures forall i :: 0 <= i < |ops| && ops[i].Patch? ==> Apply(stored, [], ops).0[ops[i].id] == ops[i].payload
    ensures forall k :: k in stored && k !in PatchedIds(ops) ==> Apply(stored, [], ops).0[k] == stored[k]
  {
    if ops != [] {
      var o0, op := ops[..|ops| - 1], ops[|ops| - 1];
      ApplyWithoutDeletes(stored, o0);
      var s := Apply(stored, [], ops).0;
      var s0 := Apply(stored, [], o0).0;
      forall i | 0 <= i < |ops| && ops[i].Patch?
        ensures s[ops[i].id] == ops[i].payload
      {
        if i < |ops| - 1 {
          assert ops[i] == o0[i];
          if op.Patch? {
            assert ops[i].id != op.id;
          }
        }
      }
    }
  }

  lemma {:induction false} PostedIgnoresDeletes<P>(ops: seq<Op<P>>, ks: seq<Id>)
    ensures PostedPayloads(ops + Deletes(ks)) == PostedPayloads(ops)
  {
    if ks == [] {
      assert ops + Deletes<P>(ks) == ops;
    } else {
      var k0 := ks[..|ks| - 1];
      PostedIgnoresDeletes(ops, k0);
      assert (ops + Deletes<P>(ks))[..|ops| + |ks| - 1] == ops + Deletes<P>(k0);
    }
  }

  /** The records after the whole plan, split as the loop and the DELETE
      pass produce them. */
  lemma PlanEffectSplit<P>(stored: map<Id, P>, initial: seq<Id>, desired: seq<Entry<P>>, productId: Id)
    requires stored.Keys == SetOf(initial)
    ensures var keys := KeyOrder(initial);
            var ops := Scan(keys, desired, productId).0;
            var after := Apply(stored, [], ops);
            var result := Apply(stored, [], Plan(initial, desired, productId));
      && |ops| == |desired|
      && after.0.Keys == stored.Keys
      && result.0 == after.0 - SetOf(Unmatched(initial, desired))
      && result.1 == after.1 == PostedPayloads(Plan(initial, desired, productId))
      && (forall i :: 0 <= i < |desired| && ops[i].Patch? ==>
            ops[i].id in after.0 && after.0[ops[i].id] == desired[i].payload)
  {
    var keys := KeyOrder(initial);
    ScanFacts(keys, desired, productId);
    ScanPatches(keys, desired, productId);
    var (ops, pending) := Scan(keys, desired, productId);
    forall i | 0 <= i < |ops|
      ensures !ops[i].Delete?
      ensures ops[i].Patch? ==> ops[i].payload == desired[i].payload && ops[i].id in stored
    {
      assert Answers(desired[i], ops[i], productId);
      if ops[i].Patch? {
        assert ops[i].id in keys;
        assert ops[i].id in SetOf(initial);
      }
    }
    ApplyWithoutDeletes(stored, ops);
    var (s1, c1) := Apply(stored, [], ops);
    ApplyConcat(stored, [], ops, Deletes(pending));
    ApplyDeletes(s1, c1, pending);
    PostedIgnoresDeletes(ops, pending);
  }

  /** After the whole plan the stored ids are exactly the persisted ids
      some entry carries. */
  lemma PlanEffectKeys<P>(stored: map<Id, P>, initial: seq<Id>, desired: seq<Entry<P>>, productId: Id, k: Id)
    requires stored.Keys == SetOf(initial)
    ensures k in Apply(stored, [], Plan(initial, desired, productId)).0 <==> k in initial && k != "" && Carried(desired, k)
  {
    PlanEffectSplit(stored, initial, desired, productId);
    ClaimedMembership(KeyOrder(initial), desired, k);
  }

  /** ... each holding the payload of the first entry carrying it. */
  lemma PlanEffectValues<P>(stored: map<Id, P>, initial: seq<Id>, desired: seq<Entry<P>>, productId: Id, i: int)
    requires stored.Keys == SetOf(initial)
    requires 0 <= i < |desired| && FirstKnown(initial, desired, i)
    ensures var s := Apply(stored, [], Plan(initial, desired, productId)).0;
      desired[i].id.value in s && s[desired[i].id.value] == desired[i].payload
  {
    var keys := KeyOrder(initial);
    PlanEffectSplit(stored, initial, desired, productId);
    ScanFacts(keys, desired, productId);
    ScanClassifies(keys, desired, productId, i);
    assert FirstKnown(keys, desired, i);
    var k := desired[i].id.value;
    PlanEffectKeys(stored, initial, desired, productId, k);
    assert Carried(desired, k);
    var ops := Scan(keys, desired, productId).0;
    assert Answers(desired[i], ops[i], productId);
  }

  lemma MapMinusCard<V>(m: map<Id, V>, t: set<Id>)
    requires t <= m.Keys
    ensures |m - t| == |m| - |t|
  {
    var r := m - t;
    assert r.Keys == m.Keys - t;
    assert m.Keys == r.Keys + t && r.Keys !! t;
  }

  /** ... and the stored plus the created records are as many as the
      submitted entries. */
  lemma PlanEffectCount<P>(stored: map<Id, P>, initial: seq<Id>, desired: seq<Entry<P>>, productId: Id)
    requires stored.Keys == SetOf(initial)
    ensures var result := Apply(stored, [], Plan(initial, desired, productId));
      |result.0| + |result.1| == |desired|
  {
    var keys := KeyOrder(initial);
    ScanFacts(keys, desired, productId);
    PlanEffectSplit(stored, initial, desired, productId);
    var (ops, pending) := Scan(keys, desired, productId);
    PostedIgnoresDeletes(ops, pending);
    var s1 := Apply(stored, [], ops).0;
    var result := Apply(stored, [], Plan(initial, desired, productId));
    assert SetOf(keys) == SetOf(initial);
    DistinctCard(keys);
    DistinctCard(pending);
    assert |stored| == |keys|;
    assert SetOf(pending) <= s1.Keys;
    MapMinusCard(s1, SetOf(pending));
    assert |result.0| == |keys| - |pending|;
    assert |result.1| == |PostedPayloads(ops)|;
  }

  /** After the whole plan, the product's records are exactly what was
      submitted: the stored ids are exactly the persisted ids some entry
      carries, each holding the payload of the first entry carrying it; the
      created records are the POSTed payloads; and there are as many records
      as submitted entries. */
  lemma PlanEffect<P>(stored: map<Id, P>, initial: seq<Id>, desired: seq<Entry<P>>, productId: Id)
    requires stored.Keys == SetOf(initial)
    ensures var plan := Plan(initial, desired, productId);
            var result := Apply(stored, [], plan);
      && (forall k :: k in result.0 <==> k in initial && k != "" && Carried(desired, k))
      && (forall i :: 0 <= i < |desired| && FirstKnown(initial, desired, i) ==>
            desired[i].id.value in result.0 && result.0[desired[i].id.value] == desired[i].payload)
      && result.1 == PostedPayloads(plan)
      && |result.0| + |result.1| == |desired|
  {
    forall k ensures k in Apply(stored, [], Plan(initial, desired, productId)).0 <==> k in initial && k != "" && Carried(desired, k) {
      PlanEffectKeys(stored, initial, desired, productId, k);
    }
    forall i | 0 <= i < |desired| && FirstKnown(initial, desired, i)
      ensures var s := Apply(stored, [], Plan(initial, desired, productId)).0;
        desired[i].id.value in s && s[desired[i].id.value] == desired[i].payload
    {
      PlanEffectValues(stored, initial, desired, productId, i);
    }
    PlanEffectSplit(stored, initial, desired, productId);
    PlanEffectCount(stored, initial, desired, productId);
  }

  // ---------------------------------------------------------------------
  // Saving a list that still holds the records it was loaded with.

  /** The entries a form starts from: one per persisted record, carrying its
      id (ProductForm.tsx 57-65, ProductEditForm.tsx 66-74). */
  function Reloaded<P>(records: seq<Persisted<P>>): (r: seq<Entry<P>>)
    ensures |r| == |records|
    ensures forall i :: 0 <= i < |r| ==> r[i].id == Some(records[i].id) && r[i].payload == records[i].payload
  {
    seq(|records|, i requires 0 <= i < |records| => Entry(Some(records[i].id), records[i].payload))
  }

  /** The records as an id-keyed store. */
  function StoreOf<P>(records: seq<Persisted<P>>): (m: map<Id, P>)
    requires Distinct(Ids(records))
    ensures m.Keys == SetOf(Ids(records))
    ensures forall i :: 0 <= i < |records| ==> m[records[i].id] == records[i].payload
  {
    var m := map i | 0 <= i < |records| :: records[i].id := records[i].payload;
    assert forall i :: 0 <= i < |records| ==> records[i].id in m;
    m
  }

  /** Every entry of a reloaded form is the first to carry its id. */
  lemma ReloadedFirstKnown<P>(records: seq<Persisted<P>>, i: int)
    requires Distinct(Ids(records)) && 0 <= i < |records|
    requires forall i :: 0 <= i < |records| ==> records[i].id != ""
    ensures FirstKnown(Ids(records), Reloaded(records), i)
  {
    var ids := Ids(records);
    assert ids[i] == records[i].id;
  }

  /** Submitting a list that still holds the entries it was loaded with
      re-sends one PATCH per record, with its unchanged payload, and nothing
      else. (ProductForm.tsx keeps a loaded list only while its computed
      figure is at most 0; ProductEditForm.tsx never keeps one.) */
  lemma ResubmitIsPatchOnly<P>(records: seq<Persisted<P>>, productId: Id)
    requires Distinct(Ids(records))
    requires forall i :: 0 <= i < |records| ==> records[i].id != ""
    ensures var plan := Plan(Ids(records), Reloaded(records), productId);
      && |plan| == |records|
      && forall i :: 0 <= i < |records| ==> plan[i] == Patch(records[i].id, records[i].payload)
  {
    var initial, d := Ids(records), Reloaded(records);
    var plan := Plan(initial, d, productId);
    PlanShape(initial, d, productId);
    var left := Unmatched(initial, d);
    forall k | k in KeyOrder(initial) ensures k in Claimed(KeyOrder(initial), d) {
      var i :| 0 <= i < |initial| && initial[i] == k;
      assert d[i].id == Some(k);
      ClaimedMembership(KeyOrder(initial), d, k);
    }
    KeepAll(KeyOrder(initial), Claimed(KeyOrder(initial), d));
    forall i | 0 <= i < |records|
      ensures plan[i] == Patch(records[i].id, records[i].payload)
    {
      PlanClassifies(initial, d, productId, i);
      ReloadedFirstKnown(records, i);
      assert Answers(d[i], plan[i], productId);
    }
  }

  /** PATCHes that re-send what is stored change nothing. */
  lemma {:induction false} ApplyRestating<P>(stored: map<Id, P>, ops: seq<Op<P>>)
    requires forall i :: 0 <= i < |ops| ==> ops[i].Patch? && ops[i].id in stored && ops[i].payload == stored[ops[i].id]
    ensures Apply(stored, [], ops) == (stored, [])
  {
    if ops != [] {
      ApplyRestating(stored, ops[..|ops| - 1]);
      var op := ops[|ops| - 1];
      assert stored[op.id := op.payload] == stored;
    }
  }

  /** ... and leaves the stored records as they were, creating none. */
  lemma ResubmitLeavesStoreUnchanged<P>(records: seq<Persisted<P>>, productId: Id)
    requires Distinct(Ids(records))
    requires forall i :: 0 <= i < |records| ==> records[i].id != ""
    ensures Apply(StoreOf(records), [], Plan(Ids(records), Reloaded(records), productId)) == (StoreOf(records), [])
  {
    var initial, d := Ids(records), Reloaded(records);
    var stored := StoreOf(records);
    var plan := Plan(initial, d, productId);
    ResubmitIsPatchOnly(records, productId);
    forall i | 0 <= i < |plan| ensures plan[i].Patch? && plan[i].id in stored && plan[i].payload == stored[plan[i].id] {
      assert initial[i] == records[i].id;
    }
    ApplyRestating(stored, plan);
  }

  // ---------------------------------------------------------------------
  // The handler as it runs: a JavaScript Map mutated by the loop.

  /** The handler's `initialIncomeMap` / `initialExpenseMap`: a JavaScript
      `Map` from id to persisted record, whose keys keep insertion order. */
  class PendingMap<P> {
    var order: seq<Id>
    var records: map<Id, Persisted<P>>

    ghost predicate Valid()
      reads this
    {
      Distinct(order) && records.Keys == SetOf(order)
    }

    constructor ()
      ensures Valid() && order == [] && records == map[]
    {
      order := [];
      records := map[];
    }

    /** `Map.prototype.has`. */
    function Has(k: Id): (b: bool)
      reads this
      requires Valid()
      ensures b <==> k in order
    {
      k in records
    }

    /** `Map.prototype.set`: a new key goes last, an existing key keeps its place. */
    method Set(k: Id, r: Persisted<P>)
      requires Valid()
      modifies this
      ensures Valid()
      ensures order == if k in old(order) then old(order) else old(order) + [k]
      ensures records == old(records)[k := r]
    {
      if k !in records {
        order := order + [k];
      }
      records := records[k := r];
    }

    /** `Map.prototype.delete`. */
    method Delete(k: Id)
      requires Valid()
      modifies this
      ensures Valid()
      ensures order == Without(old(order), k)
      ensures records == old(records) - {k}
    {
      order := Without(order, k);
      records := records - {k};
    }
  }

  /** The reconciliation loop of `onSubmit` for one collection: builds the
      map, answers each submitted entry, then deletes the leftovers. The
      requests it issues are exactly `Plan`. */
  method Reconcile<P>(initial: seq<Persisted<P>>, desired: seq<Entry<P>>, productId: Id)
    returns (ops: seq<Op<P>>)
    ensures ops == Plan(Ids(initial), desired, productId)
  {
    var ids := Ids(initial);
    var pending := new PendingMap<P>();
    for i := 0 to |initial|
      invariant pending.Valid()
      invariant pending.order == KeyOrder(ids[..i])
    {
      assert ids[..i + 1][..i] == ids[..i];
      pending.Set(initial[i].id, initial[i]);
    }
    assert ids[..|initial|] == ids;
    ops := [];
    for i := 0 to |desired|
      invariant pending.Valid()
      invariant (ops, pending.order) == Scan(KeyOrder(ids), desired[..i], productId)
    {
      assert desired[..i + 1][..i] == desired[..i] && desired[..i + 1][i] == desired[i];
      var e := desired[i];
      assert Matches(e, pending.order) <==> e.id.Some? && e.id.value != "" && e.id.value in pending.order;
      if e.id.Some? && e.id.value != "" && pending.Has(e.id.value) {
        ops := ops + [Patch(e.id.value, e.payload)];
        pending.Delete(e.id.value);
      } else {
        ops := ops + [Post(productId, e.payload)];
      }
    }
    assert desired[..|desired|] == desired;
    ghost var scanned := ops;
    var leftover := pending.order;
    for i := 0 to |leftover|
      invariant ops == scanned + Deletes(leftover[..i])
    {
      assert Deletes<P>(leftover[..i + 1]) == Deletes<P>(leftover[..i]) + [Delete(leftover[i])];
      ops := ops + [Delete(leftover[i])];
    }
    assert leftover[..|leftover|] == leftover;
  }
}
