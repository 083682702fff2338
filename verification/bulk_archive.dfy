/** POST /api/products/bulk-archive (app/api/products/bulk-archive/route.ts):
    validates the `ids` of the request, then sets the archive marker of
    every listed product in one bulk update. The product table is a map
    from id to row; a row's columns other than the marker are a parameter
    `R`, which the update never touches. */
module BulkArchive {
  import opened Common

  /** The request's `ids`: an array of ids, or anything else. */
  datatype IdsField = IdList(ids: seq<Id>) | NotAnArray

  /** The request's `archive` as the update receives it: missing (the
      column is left alone), a value the nullable column accepts, or a value
      of another type, which the database client rejects by throwing. */
  datatype ArchiveArg = Unset | SetTo(flag: Option<bool>) | Rejected

  datatype BulkRequest = BulkRequest(ids: IdsField, archive: ArchiveArg)

  datatype Body = Success | Failure(error: string)

  datatype Response = Response(status: int, body: Body)

  /** A product row: the archive marker (null, true or false) and the rest. */
  datatype ProductRow<R> = ProductRow(archive: Option<bool>, rest: R)

  const InvalidIds: string := "Invalid ids array"
  const UpdateFailed: string := "Failed to update products"

  /** The table after `updateMany({where: {id: {in: ids}}, data: {archive}})`. */
  function Archived<R>(rows: map<Id, ProductRow<R>>, ids: seq<Id>, flag: Option<bool>): map<Id, ProductRow<R>>
  {
    map k | k in rows :: if k in ids then rows[k].(archive := flag) else rows[k]
  }

  /** The ids guard (8-13). */
  predicate ValidIds(ids: IdsField)
  {
    ids.IdList? && |ids.ids| > 0
  }

  /** The handler's answer and the table it leaves. `None` is a body whose
      reading throws: one that is not valid JSON, or `null`, which cannot be
      destructured. Any other JSON value destructures, and one that is not
      an object simply has no `ids` array. A rejected `archive` also throws;
      both throws end in the catch (27-32). */
  function Handle<R>(body: Option<BulkRequest>, rows: map<Id, ProductRow<R>>): (Response, map<Id, ProductRow<R>>)
  {
    if body.None? then (Response(500, Failure(UpdateFailed)), rows)
    else if !ValidIds(body.value.ids) then (Response(400, Failure(InvalidIds)), rows)
    else match body.value.archive
      case Rejected => (Response(500, Failure(UpdateFailed)), rows)
      case Unset => (Response(200, Success), rows)
      case SetTo(f) => (Response(200, Success), Archived(rows, body.value.ids.ids, f))
  }

  /** Archiving one more id on top of a prefix of the list. */
  lemma ArchivedStep<R>(rows: map<Id, ProductRow<R>>, ids: seq<Id>, i: int, flag: Option<bool>)
    requires 0 <= i < |ids|
    ensures var before := Archived(rows, ids[..i], flag);
      Archived(rows, ids[..i + 1], flag) ==
        if ids[i] in rows then before[ids[i] := rows[ids[i]].(archive := flag)] else before
  {
    assert forall k :: k in ids[..i + 1] <==> k in ids[..i] || k == ids[i] by {
      assert ids[..i + 1] == ids[..i] + [ids[i]];
    }
  }

  /** The products table of the database. */
  class ProductTable<R> {
    var rows: map<Id, ProductRow<R>>

    constructor (initial: map<Id, ProductRow<R>>)
      ensures rows == initial
    {
      rows := initial;
    }

    /** The route handler: the guard, then the update of each listed row
      that exists. */
    method BulkArchive(body: Option<BulkRequest>) returns (resp: Response)
      modifies this
      ensures (resp, rows) == Handle(body, old(rows))
    {
      if body.None? {
        return Response(500, Failure(UpdateFailed));
      }
      var req := body.value;
      if !req.ids.IdList? || |req.ids.ids| == 0 {
        return Response(400, Failure(InvalidIds));
      }
      if req.archive.Rejected? {
        return Response(500, Failure(UpdateFailed));
      }
      if req.archive.SetTo? {
        var ids := req.ids.ids;
        var flag := req.archive.flag;
        assert Archived(old(rows), ids[..0], flag) == old(rows);
        for i := 0 to |ids|
          invariant rows == Archived(old(rows), ids[..i], flag)
        {
          ArchivedStep(old(rows), ids, i, flag);
          if ids[i] in rows {
            rows := rows[ids[i] := rows[ids[i]].(archive := flag)];
          }
        }
        assert ids[..|ids|] == ids;
      }
      resp := Response(200, Success);
    }
  }

  // ---------------------------------------------------------------------
  // Properties of the handler.

  /** `ids` that is not an array, or an empty array, is answered with 400
      and "Invalid ids array" before any update. */
  lemma InvalidIdsRejected<R>(body: BulkRequest, rows: map<Id, ProductRow<R>>)
    requires body.ids.NotAnArray? || body.ids.ids == []
    ensures Handle(Some(body), rows) == (Response(400, Failure(InvalidIds)), rows)
  {
  }

  /** With valid ids and a marker value, the answer is success, the table
      keeps its products, exactly the listed products get the marker, and
      nothing else changes in any row. */
  lemma ArchivesExactlyListed<R>(ids: seq<Id>, flag: Option<bool>, rows: map<Id, ProductRow<R>>)
    requires ids != []
    ensures var (resp, after) := Handle(Some(BulkRequest(IdList(ids), SetTo(flag))), rows);
      && resp == Response(200, Success)
      && after.Keys == rows.Keys
      && (forall k :: k in rows ==> after[k].rest == rows[k].rest)
      && (forall k :: k in rows && k in ids ==> after[k].archive == flag)
      && (forall k :: k in rows && k !in ids ==> after[k] == rows[k])
  {
  }

  /** A failing request (unreadable body or rejected marker) is answered with
      500 and leaves the table as it was; a request without a marker
      succeeds and changes nothing. */
  lemma FailuresChangeNothing<R>(body: Option<BulkRequest>, rows: map<Id, ProductRow<R>>)
    ensures Handle(body, rows).0.status == 500 ==> Handle(body, rows).0.body == Failure(UpdateFailed)
    ensures Handle(body, rows).0.status != 200 ==> Handle(body, rows).1 == rows
    ensures body.Some? && ValidIds(body.value.ids) && body.value.archive.Unset? ==>
      Handle(body, rows) == (Response(200, Success), rows)
    ensures Handle(body, rows).0.status in {200, 400, 500}
  {
  }

  /** Sending the same request twice leaves the table as sending it once. */
  lemma HandleIdempotent<R>(body: Option<BulkRequest>, rows: map<Id, ProductRow<R>>)
    ensures Handle(body, Handle(body, rows).1) == Handle(body, rows)
  {
    if body.Some? && ValidIds(body.value.ids) && body.value.archive.SetTo? {
      var ids, f := body.value.ids.ids, body.value.archive.flag;
      var once := Archived(rows, ids, f);
      assert Archived(once, ids, f) == once;
    }
  }

  /** Ids of products that do not exist are ignored. */
  lemma UnknownIdsIgnored<R>(ids: seq<Id>, flag: Option<bool>, rows: map<Id, ProductRow<R>>)
    requires forall k :: k in ids ==> k !in rows
    ensures Archived(rows, ids, flag) == rows
  {
  }
}
