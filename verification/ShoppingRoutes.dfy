/** The shopping-list routes: each request acts on the caller's items only,
    and an id the caller does not own is reported as missing. */
module ShoppingRoutes {
  import opened Wrappers
  import opened Models

  /** The request body of add and update. */
  datatype ShoppingItemCreate = ShoppingItemCreate(itemName: string, quantity: Option<string>)

  /** The response shape: the row without its owner. */
  datatype ShoppingItemOut = ShoppingItemOut(id: int, itemName: string, quantity: Option<string>)

  const ItemNotFound := HttpError(404, "Item not found", map[])

  function Out(item: ShoppingItem): ShoppingItemOut {
    ShoppingItemOut(item.id, item.itemName, item.quantity)
  }

  /** Every row is stored under its own id, below the next id to assign. */
  ghost predicate ItemsValid(db: Db) {
    forall id :: id in db.items ==> db.items[id].id == id && id < db.nextItemId
  }

  /** Items owned by someone other than `uid` are the same in both maps. */
  ghost predicate OthersUnchanged(before: map<int, ShoppingItem>, after: map<int, ShoppingItem>, uid: int) {
    && (forall id :: id in before && before[id].userId != uid ==> id in after && after[id] == before[id])
    && (forall id :: id in after && after[id].userId != uid ==> id in before && before[id] == after[id])
  }

  /** The caller owns the row with this id. */
  predicate Owns(db: Db, uid: int, id: int) {
    id in db.items && db.items[id].userId == uid
  }

  /** `POST /shopping-list/`: one new row with a fresh id, the given name and
      quantity and the caller as owner; every existing row is unchanged. */
  function AddItem(db: Db, username: string, item: ShoppingItemCreate): (r: Response<ShoppingItemOut>)
    requires ItemsValid(db)
    ensures CurrentUser(db, username).Failure? ==> r == Response(db, Failure(InternalError))
    ensures CurrentUser(db, username).Success? ==>
      var uid := CurrentUser(db, username).value.id;
      var added := ShoppingItem(db.nextItemId, item.itemName, item.quantity, uid);
      && db.nextItemId !in db.items
      && r.db.items == db.items[db.nextItemId := added]
      && r.db.items.Keys == db.items.Keys + {db.nextItemId}
      && r.db == db.(items := r.db.items, nextItemId := db.nextItemId + 1)
      && r.result == Success(Out(added))
      && OthersUnchanged(db.items, r.db.items, uid)
    ensures ItemsValid(r.db)
  {
    match CurrentUser(db, username)
    case Failure(e) => Response(db, Failure(e))
    case Success(user) =>
      var id := db.nextItemId;
      var added := ShoppingItem(id, item.itemName, item.quantity, user.id);
      Response(db.(items := db.items[id := added], nextItemId := id + 1), Success(Out(added)))
  }

  /** `GET /shopping-list/`: exactly the caller's rows. The query has no
      ORDER BY, so the result is a set. */
  function GetItems(db: Db, username: string): (r: Result<set<ShoppingItemOut>, HttpError>)
    ensures CurrentUser(db, username).Failure? ==> r == Failure(InternalError)
    ensures CurrentUser(db, username).Success? ==> r.Success?
    ensures r.Success? ==>
      forall o :: o in r.value <==>
        exists id :: Owns(db, CurrentUser(db, username).value.id, id) && o == Out(db.items[id])
  {
    match CurrentUser(db, username)
    case Failure(e) => Failure(e)
    case Success(user) => Success(set id | id in db.items && db.items[id].userId == user.id :: Out(db.items[id]))
  }

  /** `DELETE /shopping-list/{id}`: a missing or foreign id is a 404 and
      changes nothing; otherwise exactly that row disappears. */
  function DeleteItem(db: Db, username: string, itemId: int): (r: Response<string>)
    ensures CurrentUser(db, username).Failure? ==> r == Response(db, Failure(InternalError))
    ensures CurrentUser(db, username).Success? && !Owns(db, CurrentUser(db, username).value.id, itemId) ==>
      r == Response(db, Failure(ItemNotFound))
    ensures CurrentUser(db, username).Success? && Owns(db, CurrentUser(db, username).value.id, itemId) ==>
      r.db == db.(items := db.items - {itemId}) && r.result == Success("Item deleted")
    ensures CurrentUser(db, username).Success? ==>
      OthersUnchanged(db.items, r.db.items, CurrentUser(db, username).value.id)
    ensures ItemsValid(db) ==> ItemsValid(r.db)
  {
    match CurrentUser(db, username)
    case Failure(e) => Response(db, Failure(e))
    case Success(user) =>
      if !Owns(db, user.id, itemId) then Response(db, Failure(ItemNotFound))
      else Response(db.(items := db.items - {itemId}), Success("Item deleted"))
  }

  /** `PUT /shopping-list/{id}`: a missing or foreign id is a 404 and changes
      nothing; otherwise name and quantity are both replaced while id and
      owner stay, and every other row is untouched. */
  function UpdateItem(db: Db, username: string, itemId: int, updated: ShoppingItemCreate)
    : (r: Response<ShoppingItemOut>)
    ensures CurrentUser(db, username).Failure? ==> r == Response(db, Failure(InternalError))
    ensures CurrentUser(db, username).Success? ==>
      var uid := CurrentUser(db, username).value.id;
      && (!Owns(db, uid, itemId) ==> r == Response(db, Failure(ItemNotFound)))
      && (Owns(db, uid, itemId) ==>
            var prev := db.items[itemId];
            var next := ShoppingItem(prev.id, updated.itemName, updated.quantity, prev.userId);
            r.db == db.(items := db.items[itemId := next]) && r.result == Success(Out(next)))
      && OthersUnchanged(db.items, r.db.items, uid)
    ensures ItemsValid(db) ==> ItemsValid(r.db)
  {
    match CurrentUser(db, username)
    case Failure(e) => Response(db, Failure(e))
    case Success(user) =>
      if !Owns(db, user.id, itemId) then Response(db, Failure(ItemNotFound))
      else
        var item := db.items[itemId].(itemName := updated.itemName, quantity := updated.quantity);
        Response(db.(items := db.items[itemId := item]), Success(Out(item)))
  }

  /** A request as the router receives it, with the caller's username. */
  datatype Call =
    | Add(item: ShoppingItemCreate)
    | Delete(itemId: int)
    | Update(itemId: int, updated: ShoppingItemCreate)

  function Handle(db: Db, username: string, call: Call): (r: Db)
    requires ItemsValid(db)
    ensures ItemsValid(r) && r.users == db.users
  {
    match call
    case Add(item) => AddItem(db, username, item).db
    case Delete(itemId) => DeleteItem(db, username, itemId).db
    case Update(itemId, updated) => UpdateItem(db, username, itemId, updated).db
  }

  /** The database after a run of calls, each by its own user. */
  function HandleAll(db: Db, calls: seq<(string, Call)>): (r: Db)
    requires ItemsValid(db)
    ensures ItemsValid(r) && r.users == db.users
    decreases |calls|
  {
    if calls == [] then db else HandleAll(Handle(db, calls[0].0, calls[0].1), calls[1..])
  }

  /** No sequence of calls by other users changes a user's items: if no call
      comes from a username whose row has id `uid`, the rows owned by `uid`
      are exactly as before. */
  lemma {:induction false} OthersCannotTouch(db: Db, calls: seq<(string, Call)>, uid: int)
    requires ItemsValid(db)
    requires forall k :: 0 <= k < |calls| ==> FindUser(db.users, calls[k].0).Some? ==>
      FindUser(db.users, calls[k].0).value.id != uid
    ensures var after := HandleAll(db, calls);
      forall id :: (id in db.items && db.items[id].userId == uid) <==>
        (id in after.items && after.items[id].userId == uid)
    ensures var after := HandleAll(db, calls);
      forall id :: id in db.items && db.items[id].userId == uid ==> after.items[id] == db.items[id]
    decreases |calls|
  {
    if calls != [] {
      var next := Handle(db, calls[0].0, calls[0].1);
      assert next.users == db.users;
      OthersCannotTouch(next, calls[1..], uid);
    }
  }

  /** Listing after an add: the caller's list gains exactly the added row. */
  lemma ListAfterAdd(db: Db, username: string, item: ShoppingItemCreate)
    requires ItemsValid(db)
    requires CurrentUser(db, username).Success?
    ensures var added := AddItem(db, username, item);
      GetItems(added.db, username) == Success(GetItems(db, username).value + {added.result.value})
  {
    var added := AddItem(db, username, item);
    var uid := CurrentUser(db, username).value.id;
    var before := GetItems(db, username).value;
    var after := GetItems(added.db, username).value;
    var row := added.result.value;
    forall o | o in after
      ensures o in before || o == row
    {
      var id :| Owns(added.db, uid, id) && o == Out(added.db.items[id]);
      if id != db.nextItemId {
        assert Owns(db, uid, id);
      }
    }
    forall o | o in before
      ensures o in after
    {
      var id :| Owns(db, uid, id) && o == Out(db.items[id]);
      assert Owns(added.db, uid, id) && added.db.items[id] == db.items[id];
    }
    assert Owns(added.db, uid, db.nextItemId);
    assert after == before + {row};
  }

  /** Listing after a delete: a row the caller owns disappears from the
      list and nothing else does; any other id leaves the list as it was. */
  lemma ListAfterDelete(db: Db, username: string, itemId: int)
    requires ItemsValid(db)
    requires CurrentUser(db, username).Success?
    ensures var deleted := DeleteItem(db, username, itemId);
      Owns(db, CurrentUser(db, username).value.id, itemId) ==>
        GetItems(deleted.db, username) == Success(GetItems(db, username).value - {Out(db.items[itemId])})
    ensures var deleted := DeleteItem(db, username, itemId);
      !Owns(db, CurrentUser(db, username).value.id, itemId) ==> GetItems(deleted.db, username) == GetItems(db, username)
  {
    var deleted := DeleteItem(db, username, itemId);
    var uid := CurrentUser(db, username).value.id;
    if Owns(db, uid, itemId) {
      var before := GetItems(db, username).value;
      var after := GetItems(deleted.db, username).value;
      var row := Out(db.items[itemId]);
      forall o | o in after
        ensures o in before && o != row
      {
        var id :| Owns(deleted.db, uid, id) && o == Out(deleted.db.items[id]);
        assert Owns(db, uid, id) && id != itemId;
        assert o.id == id;
      }
      forall o | o in before && o != row
        ensures o in after
      {
        var id :| Owns(db, uid, id) && o == Out(db.items[id]);
        assert Owns(deleted.db, uid, id);
      }
      assert after == before - {row};
    }
  }

  /** Calls by other users leave a user's list exactly as it was. */
  lemma {:induction false} ListUnchangedByOthers(db: Db, calls: seq<(string, Call)>, username: string)
    requires ItemsValid(db)
    requires CurrentUser(db, username).Success?
    requires forall k :: 0 <= k < |calls| ==> FindUser(db.users, calls[k].0).Some? ==>
      FindUser(db.users, calls[k].0).value.id != CurrentUser(db, username).value.id
    ensures GetItems(HandleAll(db, calls), username) == GetItems(db, username)
  {
    var uid := CurrentUser(db, username).value.id;
    var after := HandleAll(db, calls);
    OthersCannotTouch(db, calls, uid);
    forall o | o in GetItems(after, username).value
      ensures o in GetItems(db, username).value
    {
      var id :| Owns(after, uid, id) && o == Out(after.items[id]);
      assert Owns(db, uid, id);
    }
    forall o | o in GetItems(db, username).value
      ensures o in GetItems(after, username).value
    {
      var id :| Owns(db, uid, id) && o == Out(db.items[id]);
      assert Owns(after, uid, id);
    }
    assert GetItems(after, username).value == GetItems(db, username).value;
  }
}
