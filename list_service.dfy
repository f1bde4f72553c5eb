/** The list service: translation between rows of the `list_c` table and the
    UI's list records, and the fail-soft contract of each operation, each
    operation taking the replies of the client calls it awaits. */
module ListService {
  import opened Records
  import opened Client

  /** The colour a list gets when none is stored or given. */
  const DefaultColor := "#6366f1"

  /** A row of `list_c` as the client returns it. */
  datatype ListRow = ListRow(
    Id: int,
    name_c: Option<string>,
    color_c: Option<string>,
    order_c: Option<int>,
    CreatedOn: Option<string>)

  /** A list as the UI sees it. */
  datatype List = List(
    Id: int,
    name: string,
    color: string,
    order: int,
    createdAt: Option<string>)

  /** The one translation every read and write of the service applies to a
      row it receives. */
  function Translate(row: ListRow): (l: List)
    ensures l.Id == row.Id && l.createdAt == row.CreatedOn
    ensures Blank(row.name_c) ==> l.name == ""
    ensures !Blank(row.name_c) ==> l.name == row.name_c.value
    ensures Blank(row.color_c) ==> l.color == DefaultColor
    ensures !Blank(row.color_c) ==> l.color == row.color_c.value
    ensures row.order_c.None? ==> l.order == 0
    ensures row.order_c.Some? ==> l.order == row.order_c.value
    ensures l.color != ""
  {
    List(
      Id := row.Id,
      name := TextOr(row.name_c, ""),
      color := TextOr(row.color_c, DefaultColor),
      order := NumberOr(row.order_c),
      createdAt := row.CreatedOn)
  }

  /** The row that stores a UI record's fields under their column names. */
  function Untranslate(l: List): ListRow {
    ListRow(l.Id, Some(l.name), Some(l.color), Some(l.order), l.createdAt)
  }

  /** A UI list survives being stored and read back exactly when it has a
      colour: an empty colour comes back as the default. */
  lemma StoredAndReadBack(l: List)
    ensures Translate(Untranslate(l)) == l <==> l.color != ""
  {
  }

  /** Translating is idempotent: reading back a translated record changes nothing. */
  lemma TranslateIdempotent(row: ListRow)
    ensures Translate(Untranslate(Translate(row))) == Translate(row)
  {
    StoredAndReadBack(Translate(row));
  }

  /** `lists` is what a fail-soft fetch returns for `reply`: every row
      translated, in order, or `[]` when the call threw or was rejected. */
  predicate ListedFrom(reply: Reply<seq<ListRow>>, lists: seq<List>) {
    if reply.Accepted? then
      |lists| == |reply.payload| && forall i :: 0 <= i < |lists| ==> lists[i] == Translate(reply.payload[i])
    else
      lists == []
  }

  /** The list a create or update returns for its write reply: the
      translation of the first successful result, or null when the call threw,
      was rejected, carried no `results`, or no result succeeded. */
  function Written(write: WriteReply<ListRow>): (l: Option<List>)
    ensures l.Some? <==> Acknowledged(write)
    ensures l.Some? ==> l.value == Translate(write.payload.value[FirstSuccess(write.payload.value)].data)
  {
    match write
    case Accepted(Some(results)) =>
      var successful := Successes(results);
      if |successful| > 0 then Some(Translate(successful[0])) else None
    case _ => None
  }

  /** Lists are always requested sorted by `order_c`, ascending. */
  method GetAll(reply: Reply<seq<ListRow>>) returns (sent: Query, lists: seq<List>)
    ensures sent == Query([Sort("order_c", "ASC")], [])
    ensures ListedFrom(reply, lists)
  {
    sent := Query([Sort("order_c", "ASC")], []);
    match reply {
      case Accepted(rows) =>
        lists := seq(|rows|, i requires 0 <= i < |rows| => Translate(rows[i]));
      case _ =>
        lists := [];
    }
  }

  /** Looks up the record with id `id` (`reply` is that lookup's reply). */
  method GetById(id: int, reply: Reply<ListRow>) returns (sent: int, list: Option<List>)
    ensures sent == id
    ensures list.Some? <==> reply.Accepted?
    ensures reply.Accepted? ==> list == Some(Translate(reply.payload))
  {
    sent := id;
    match reply {
      case Accepted(row) =>
        list := Some(Translate(row));
      case _ =>
        list := None;
    }
  }

  /** The fields a caller supplies to create a list. */
  datatype NewList = NewList(name: Option<string>, color: Option<string>)

  /** The record submitted to create a list. */
  datatype ListDraft = ListDraft(name_c: string, color_c: string, order_c: int)

  /** The order `create` gives a list placed after `lists`: one more than
      their largest order, or 1 when there are none. */
  function NewOrder(lists: seq<List>): (n: int)
    ensures forall i :: 0 <= i < |lists| ==> lists[i].order < n
    ensures |lists| == 0 ==> n == 1
    ensures |lists| > 0 ==> exists i :: 0 <= i < |lists| && lists[i].order == n - 1
  {
    var orders := seq(|lists|, i requires 0 <= i < |lists| => NumberOr(Some(lists[i].order)));
    assert forall i :: 0 <= i < |lists| ==> orders[i] == lists[i].order;
    NextOrder(orders)
  }

  /** Creating a list first lists the current ones (`listing` is that
      fetch's reply), then submits one record placed after all of them, and
      returns the created list or null (`write` is the create reply). */
  method Create(data: NewList, listing: Reply<seq<ListRow>>, write: WriteReply<ListRow>)
    returns (sent: seq<ListDraft>, created: Option<List>)
    ensures |sent| == 1
    ensures sent[0].name_c == TextOr(data.name, "")
    ensures sent[0].color_c == TextOr(data.color, DefaultColor)
    ensures listing.Accepted? ==>
      forall i :: 0 <= i < |listing.payload| ==> Translate(listing.payload[i]).order < sent[0].order_c
    ensures listing.Accepted? && |listing.payload| > 0 ==>
      exists i :: 0 <= i < |listing.payload| && Translate(listing.payload[i]).order == sent[0].order_c - 1
    ensures !listing.Accepted? || listing.payload == [] ==> sent[0].order_c == 1
    ensures created == Written(write)
  {
    var _, current := GetAll(listing);
    var draft := ListDraft(
      name_c := TextOr(data.name, ""),
      color_c := TextOr(data.color, DefaultColor),
      order_c := NewOrder(current));
    sent := [draft];
    if listing.Accepted? && |listing.payload| > 0 {
      var i :| 0 <= i < |current| && current[i].order == draft.order_c - 1;
      assert Translate(listing.payload[i]).order == draft.order_c - 1;
    }
    created := Written(write);
  }

  /** The fields a caller may change; an outer `None` is a field left
      `undefined`, an inner `None` an explicit null. */
  datatype ListChanges = ListChanges(
    name: Option<Option<string>>,
    color: Option<Option<string>>,
    order: Option<Option<int>>)

  /** The columns of `list_c` an update may write. */
  datatype Column = IdColumn | NameColumn | ColorColumn | OrderColumn

  /** `patch` is the record an update of list `id` submits: `Id` plus
      exactly the columns of the fields given, falsy values included. */
  predicate PatchOf(id: int, changes: ListChanges, patch: map<Column, Cell>) {
    IdColumn in patch && patch[IdColumn] == Int(id)
    && Sets(patch, NameColumn, NullableTextCell(changes.name))
    && Sets(patch, ColorColumn, NullableTextCell(changes.color))
    && Sets(patch, OrderColumn, NullableIntCell(changes.order))
  }

  /** The patch is determined by the update's arguments. */
  lemma {:induction false} PatchUnique(id: int, changes: ListChanges, p: map<Column, Cell>, q: map<Column, Cell>)
    requires PatchOf(id, changes, p) && PatchOf(id, changes, q)
    ensures p == q
  {
    forall k: Column
      ensures (k in p <==> k in q) && (k in p ==> p[k] == q[k])
    {
      match k
      case IdColumn =>
      case NameColumn =>
      case ColorColumn =>
      case OrderColumn =>
    }
  }

  /** Builds the update record field by field, skipping each field left
      `undefined`. */
  method BuildPatch(id: int, changes: ListChanges) returns (patch: map<Column, Cell>)
    ensures PatchOf(id, changes, patch)
  {
    var updateData: map<Column, Cell> := map[];
    updateData := Put(updateData, NameColumn, NullableTextCell(changes.name));
    updateData := Put(updateData, ColorColumn, NullableTextCell(changes.color));
    updateData := Put(updateData, OrderColumn, NullableIntCell(changes.order));
    patch := map[IdColumn := Int(id)] + updateData;
  }

  method Update(id: int, changes: ListChanges, write: WriteReply<ListRow>)
    returns (sent: seq<map<Column, Cell>>, updated: Option<List>)
    ensures |sent| == 1 && PatchOf(id, changes, sent[0])
    ensures updated == Written(write)
  {
    var patch := BuildPatch(id, changes);
    sent := [patch];
    updated := Written(write);
  }


  /** One record of a reorder batch. */
  datatype OrderUpdate = OrderUpdate(Id: int, order_c: int)

  /** The batch `reorder` submits: the i-th id in the requested sequence gets
      order i + 1. */
  function ReorderRecords(ids: seq<int>): (records: seq<OrderUpdate>)
    ensures |records| == |ids|
    ensures forall i :: 0 <= i < |ids| ==> records[i].Id == ids[i]
    ensures forall i :: 0 <= i < |ids| ==> records[i].order_c == i + 1
  {
    seq(|ids|, i requires 0 <= i < |ids| => OrderUpdate(ids[i], i + 1))
  }

  /** The submitted orders are exactly 1..n in the requested sequence:
      each lies in 1..n and they strictly increase, so no two records share
      an order and none is skipped. */
  lemma ReorderPositions(ids: seq<int>)
    ensures forall i :: 0 <= i < |ids| ==> 1 <= ReorderRecords(ids)[i].order_c <= |ids|
    ensures forall i, j :: 0 <= i < j < |ids| ==> ReorderRecords(ids)[i].order_c < ReorderRecords(ids)[j].order_c
    ensures forall i :: 0 <= i < |ids| ==> ReorderRecords(ids)[i].order_c == i + 1
  {
  }

  /** Reordering [3, 1, 2] submits list 3 at order 1, list 1 at order 2 and
      list 2 at order 3. */
  lemma ReorderExample()
    ensures ReorderRecords([3, 1, 2]) == [OrderUpdate(3, 1), OrderUpdate(1, 2), OrderUpdate(2, 3)]
  {
  }

  /** Reordering submits one batch and then always returns a fresh listing
      (`refetch` is that fetch's reply), whatever became of the batch. */
  method Reorder(ids: seq<int>, write: WriteReply<ListRow>, refetch: Reply<seq<ListRow>>)
    returns (sent: seq<OrderUpdate>, lists: seq<List>)
    ensures sent == ReorderRecords(ids)
    ensures ListedFrom(refetch, lists)
  {
    sent := ReorderRecords(ids);
    match write {
      case Threw =>
        var _, listed := GetAll(refetch);
        lists := listed;
      case Rejected(_) =>
        var _, listed := GetAll(refetch);
        lists := listed;
      case Accepted(_) =>
        var _, listed := GetAll(refetch);
        lists := listed;
    }
  }
}
