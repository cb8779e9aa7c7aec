/** The two tables of the backend, `Friend` and `GiftHistory`, as an
    in-memory store: each table is the sequence of its rows in insertion
    order, with the id the database would assign to the next row. */
module Store {
  import opened Wrappers

  /** A calendar date, as already parsed from the request. */
  datatype Date = Date(year: int, month: int, day: int)

  /** The body of a new friend: every field but the id. */
  datatype FriendCreate = FriendCreate(name: string, birthday: Date, sentiment: string, email: Option<string>)

  /** A stored friend row. */
  datatype Friend = Friend(id: int, name: string, birthday: Date, sentiment: string, email: Option<string>)

  /** The body of a new gift history row: its id may be given by the caller
      or left to the database. */
  datatype GiftHistoryCreate = GiftHistoryCreate(id: Option<int>, recipient: string, sentiment: string, suggestedGift: string)

  /** A stored gift history row. */
  datatype GiftHistory = GiftHistory(id: int, recipient: string, sentiment: string, suggestedGift: string)

  /** The reply of `save_gift`. */
  datatype SavedGift = SavedGift(message: string, gift: GiftHistory)

  /** Inserting a row whose id is already stored fails the primary-key
      constraint. */
  datatype StoreError = DuplicateId(id: int)

  /** The ids of the friend table, in row order. The gift history table has
      a row type of its own, so its ids come from `GiftIds` below. */
  function FriendIds(rows: seq<Friend>): (ids: seq<int>)
    ensures |ids| == |rows| && forall i :: 0 <= i < |rows| ==> ids[i] == rows[i].id
  {
    seq(|rows|, i requires 0 <= i < |rows| => rows[i].id)
  }

  /** The ids of the gift history table, in row order. */
  function GiftIds(rows: seq<GiftHistory>): (ids: seq<int>)
    ensures |ids| == |rows| && forall i :: 0 <= i < |rows| ==> ids[i] == rows[i].id
  {
    seq(|rows|, i requires 0 <= i < |rows| => rows[i].id)
  }

  /** The ids of a table are distinct, and `next` is the id the database
      assigns to a row inserted without one: one more than the largest
      stored id, or 1 for an empty table. */
  ghost predicate Keyed(ids: seq<int>, next: int)
  {
    && (forall i, j :: 0 <= i < j < |ids| ==> ids[i] != ids[j])
    && (forall i :: 0 <= i < |ids| ==> ids[i] < next)
    && (ids == [] ==> next == 1)
    && (ids != [] ==> next - 1 in ids)
  }

  /** The history rows whose recipient equals the query value. A query
      without a value is the SQL comparison with NULL, which no stored row
      satisfies, since every row has a recipient. */
  function WithRecipient(rows: seq<GiftHistory>, recipient: Option<string>): (r: seq<GiftHistory>)
    ensures forall x :: x in r <==> x in rows && Some(x.recipient) == recipient
    ensures recipient.None? ==> r == []
    ensures |r| <= |rows|
  {
    if rows == [] then []
    else
      var rest := WithRecipient(rows[1..], recipient);
      if Some(rows[0].recipient) == recipient then [rows[0]] + rest else rest
  }

  /** Filtering twice by the same value is filtering once: the second,
      conditional `where` of the query changes nothing. */
  lemma {:induction false} WithRecipientIdempotent(rows: seq<GiftHistory>, recipient: Option<string>)
    ensures WithRecipient(WithRecipient(rows, recipient), recipient) == WithRecipient(rows, recipient)
  {
    if rows != [] {
      WithRecipientIdempotent(rows[1..], recipient);
    }
  }

  /** Appending a row adds it at the end of the rows of its recipient and
      leaves every other query unchanged. */
  lemma {:induction false} WithRecipientAppend(rows: seq<GiftHistory>, x: GiftHistory, recipient: Option<string>)
    ensures WithRecipient(rows + [x], recipient) ==
      WithRecipient(rows, recipient) + (if Some(x.recipient) == recipient then [x] else [])
  {
    if rows == [] {
      assert rows + [x] == [x];
    } else {
      assert (rows + [x])[1..] == rows[1..] + [x];
      WithRecipientAppend(rows[1..], x, recipient);
    }
  }

  /** The database: the two tables and the next automatic id of each. */
  class Database {
    var friends: seq<Friend>
    var history: seq<GiftHistory>
    var nextFriendId: int
    var nextGiftId: int

    ghost predicate Valid()
      reads this
    {
      Keyed(FriendIds(friends), nextFriendId) && Keyed(GiftIds(history), nextGiftId)
    }

    /** The tables as created on a first start, when there is no database
        file yet: empty. On a later start the file keeps its rows; that
        state is any state satisfying `Valid()`. */
    constructor ()
      ensures Valid()
      ensures friends == [] && history == []
    {
      friends, history := [], [];
      nextFriendId, nextGiftId := 1, 1;
    }

    /** `add_friend`: stores the friend under a fresh id and returns the
        stored row, with every other field as given. */
    method AddFriend(f: FriendCreate) returns (row: Friend)
      requires Valid()
      modifies this
      ensures Valid()
      ensures row == Friend(old(nextFriendId), f.name, f.birthday, f.sentiment, f.email)
      ensures row.id !in FriendIds(old(friends))
      ensures friends == old(friends) + [row]
      ensures history == old(history) && nextGiftId == old(nextGiftId)
    {
      row := Friend(nextFriendId, f.name, f.birthday, f.sentiment, f.email);
      assert FriendIds(friends + [row]) == FriendIds(friends) + [row.id];
      friends := friends + [row];
      nextFriendId := nextFriendId + 1;
    }

    /** `get_friends`: every stored friend. */
    method GetFriends() returns (rows: seq<Friend>)
      ensures rows == friends
    {
      rows := friends;
    }

    /** `save_gift`: stores the row under the given id, or under the next
        automatic id when none is given; a given id already in the table is
        rejected and nothing is stored. */
    method SaveGift(g: GiftHistoryCreate) returns (r: Result<SavedGift, StoreError>)
      requires Valid()
      modifies this
      ensures Valid()
      ensures g.id.Some? && g.id.value in GiftIds(old(history)) ==>
        r == Failure(DuplicateId(g.id.value)) && history == old(history) && nextGiftId == old(nextGiftId)
      ensures r.Success? <==> !(g.id.Some? && g.id.value in GiftIds(old(history)))
      ensures r.Success? ==>
        var id := if g.id.Some? then g.id.value else old(nextGiftId);
        && r.value == SavedGift("Gift saved", GiftHistory(id, g.recipient, g.sentiment, g.suggestedGift))
        && id !in GiftIds(old(history))
        && history == old(history) + [r.value.gift]
        && nextGiftId == if old(history) == [] || id >= old(nextGiftId) then id + 1 else old(nextGiftId)
      ensures friends == old(friends) && nextFriendId == old(nextFriendId)
    {
      var id: int;
      if g.id.Some? {
        if g.id.value in GiftIds(history) {
          return Failure(DuplicateId(g.id.value));
        }
        id := g.id.value;
      } else {
        id := nextGiftId;
      }
      var row := GiftHistory(id, g.recipient, g.sentiment, g.suggestedGift);
      assert GiftIds(history + [row]) == GiftIds(history) + [id];
      var wasEmpty := history == [];
      history := history + [row];
      if wasEmpty || id >= nextGiftId {
        nextGiftId := id + 1;
      }
      r := Success(SavedGift("Gift saved", row));
    }

    /** `get_gift_history`: the query always filters on `recipient == value`
        and filters once more on the same value when it is non-empty. */
    method GetGiftHistory(recipient: Option<string>) returns (rows: seq<GiftHistory>)
      ensures forall x :: x in rows <==> x in history && Some(x.recipient) == recipient
      ensures recipient.None? ==> rows == []
      ensures rows == WithRecipient(history, recipient)
    {
      var statement := WithRecipient(history, recipient);
      if recipient.Some? && recipient.value != "" {
        WithRecipientIdempotent(history, recipient);
        statement := WithRecipient(statement, recipient);
      }
      rows := statement;
    }
  }
}
