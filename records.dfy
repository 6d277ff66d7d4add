/**
 * The record store: the three tables the bot writes (users, orders and
 * inquiries), each an append-only sequence of rows whose auto-increment id is
 * assigned on insert, and the queries the handlers run against them.
 */
module Records {
  import opened Wrappers

  /**
   * A Telegram user's id. In a private chat it is also the chat id, and the
   * model uses one number for both.
   */
  type UserId = int

  /** The wall-clock time stamped on a row; the clock is outside the model. */
  type Timestamp = int

  datatype User = User(id: nat, userId: UserId, phoneNumber: string, fullName: string, role: string)

  datatype Order = Order(id: nat, userId: UserId, productType: string, quantity: string, status: string, timestamp: Timestamp)

  datatype Inquiry = Inquiry(id: nat, userId: UserId, topic: string, message: string, status: string, timestamp: Timestamp)

  /** The default of the `role` column; it is written but never read back. */
  const DefaultRole: string := "client"

  /** The status every new order is created with ("being processed"). */
  const NewOrderStatus: string := "в обработке"

  /** The status every new inquiry is created with; note the capital letter. */
  const NewInquiryStatus: string := "В обработке"

  function OrderOwner(o: Order): UserId { o.userId }

  function InquiryOwner(q: Inquiry): UserId { q.userId }

  /**
   * The id SQLite gives the next row of a table: one more than the largest
   * rowid, which for an append-only table numbered from 1 is its length plus one.
   */
  function NextId<R>(rows: seq<R>): nat {
    |rows| + 1
  }

  /** The `unique=True` constraint on the user id column. */
  predicate UniqueUserIds(users: seq<User>) {
    forall i, j :: 0 <= i < j < |users| ==> users[i].userId != users[j].userId
  }

  predicate DenseUserIds(users: seq<User>) {
    forall i :: 0 <= i < |users| ==> users[i].id == i + 1
  }

  predicate DenseOrderIds(orders: seq<Order>) {
    forall i :: 0 <= i < |orders| ==> orders[i].id == i + 1
  }

  predicate DenseInquiryIds(inquiries: seq<Inquiry>) {
    forall i :: 0 <= i < |inquiries| ==> inquiries[i].id == i + 1
  }

  /** `User.select().where(User.user_id == uid).exists()`. */
  predicate HasUser(users: seq<User>, uid: UserId) {
    exists i :: 0 <= i < |users| && users[i].userId == uid
  }

  /** `User.get(User.user_id == uid)`: the first user row with that id, if any. */
  function FindUser(users: seq<User>, uid: UserId): (r: Option<User>)
    ensures r.Some? <==> HasUser(users, uid)
    ensures r.Some? ==> r.value in users && r.value.userId == uid
  {
    if users == [] then
      None
    else if users[0].userId == uid then
      Some(users[0])
    else
      var r := FindUser(users[1..], uid);
      assert HasUser(users, uid) ==> HasUser(users[1..], uid) by {
        if HasUser(users, uid) {
          var i :| 0 <= i < |users| && users[i].userId == uid;
          assert users[1..][i - 1].userId == uid;
        }
      }
      assert r.Some? ==> HasUser(users, uid) by {
        if r.Some? {
          var i :| 0 <= i < |users[1..]| && users[1..][i].userId == uid;
          assert users[i + 1].userId == uid;
        }
      }
      r
  }

  /**
   * `Model.select().where(Model.user_id == uid)`: the rows a user owns, in
   * insertion order.
   */
  function Owned<R>(rows: seq<R>, owner: R -> UserId, uid: UserId): (r: seq<R>)
    ensures |r| <= |rows|
    ensures forall x :: x in r ==> x in rows && owner(x) == uid
  {
    if rows == [] then
      []
    else
      var init := Owned(rows[..|rows| - 1], owner, uid);
      var last := rows[|rows| - 1];
      if owner(last) == uid then init + [last] else init
  }

  /** A row inserted later appears at the end of its owner's listing and nowhere else. */
  lemma OwnedAppend<R>(rows: seq<R>, owner: R -> UserId, uid: UserId, x: R)
    ensures Owned(rows + [x], owner, uid) == Owned(rows, owner, uid) + (if owner(x) == uid then [x] else [])
  {
  }

  /** Every row of the user's is in the listing. */
  lemma {:induction false} OwnedComplete<R>(rows: seq<R>, owner: R -> UserId, uid: UserId, x: R)
    requires x in rows && owner(x) == uid
    ensures x in Owned(rows, owner, uid)
  {
    var init := rows[..|rows| - 1];
    if x != rows[|rows| - 1] {
      assert x in init;
      OwnedComplete(init, owner, uid, x);
    }
  }

  /** The listing is empty exactly when the user owns no row. */
  lemma OwnedEmptyIff<R>(rows: seq<R>, owner: R -> UserId, uid: UserId)
    ensures Owned(rows, owner, uid) == [] <==> forall i :: 0 <= i < |rows| ==> owner(rows[i]) != uid
  {
  }

  /** `Inquiry.get(Inquiry.id == id)`: the first inquiry with that id, if any. */
  function FindInquiry(inquiries: seq<Inquiry>, id: int): (r: Option<Inquiry>)
    ensures r.Some? ==> r.value in inquiries && r.value.id == id
    ensures r.None? ==> forall i :: 0 <= i < |inquiries| ==> inquiries[i].id != id
  {
    if inquiries == [] then
      None
    else if inquiries[0].id == id then
      Some(inquiries[0])
    else
      var r := FindInquiry(inquiries[1..], id);
      assert r.None? ==> forall i :: 1 <= i < |inquiries| ==> inquiries[i].id != id by {
        if r.None? {
          forall i | 1 <= i < |inquiries| ensures inquiries[i].id != id {
            assert inquiries[1..][i - 1] == inquiries[i];
          }
        }
      }
      r
  }

  /** With ids numbered 1, 2, ... every id of the table finds its own row. */
  lemma FindInquiryById(inquiries: seq<Inquiry>, k: int)
    requires DenseInquiryIds(inquiries)
    requires 1 <= k <= |inquiries|
    ensures FindInquiry(inquiries, k) == Some(inquiries[k - 1])
  {
  }
}
