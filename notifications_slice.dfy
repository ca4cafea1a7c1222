/**
  The notifications slice of the Redux store: a list of notification objects
  with the `loading` and `error` flags of the fetch request. New notifications
  are prepended; a fetch installs the list in the order the server returned.
  Each reducer case changes the state in place, so the slice is a class whose
  methods are the reducer cases.
 */
module NotificationsSlice {
  import opened Js

  /** The entry `addNotification` stores: `{ ...payload, read: false, id: now }`,
      where `now` is the value `Date.now()` returned. */
  function Stamped(payload: Obj, now: int): (n: Obj)
    ensures Get(n, "read") == Bool(false)
    ensures Get(n, "id") == Num(now)
    ensures forall k :: k != "read" && k != "id" ==> Get(n, k) == Get(payload, k)
  {
    With(With(payload, "read", Bool(false)), "id", Num(now))
  }

  /** One notification after `n.read = true`. */
  function MarkedRead(n: Obj): (m: Obj)
    ensures Get(m, "read") == Bool(true)
    ensures forall k :: k != "read" ==> Get(m, k) == Get(n, k)
  {
    With(n, "read", Bool(true))
  }

  /** The list after `items.forEach(n => (n.read = true))`. */
  function AllRead(items: seq<Obj>): (r: seq<Obj>)
    ensures |r| == |items|
    ensures forall i :: 0 <= i < |items| ==> r[i] == MarkedRead(items[i])
  {
    if items == [] then [] else [MarkedRead(items[0])] + AllRead(items[1..])
  }

  /** The list `payload.map(n => ({ ...n, id: n._id }))` that a successful
      fetch installs: same length and order, each entry's `id` copied from its
      `_id` and every other property kept. */
  function WithIds(payload: seq<Obj>): (r: seq<Obj>)
    ensures |r| == |payload|
    ensures forall i :: 0 <= i < |payload| ==> Get(r[i], "id") == Get(payload[i], "_id")
    ensures forall i, k :: 0 <= i < |payload| && k != "id" ==> Get(r[i], k) == Get(payload[i], k)
  {
    if payload == [] then []
    else [With(payload[0], "id", Get(payload[0], "_id"))] + WithIds(payload[1..])
  }

  /** Marking everything read twice is the same as marking it once. */
  lemma {:induction false} AllReadIdempotent(items: seq<Obj>)
    ensures AllRead(AllRead(items)) == AllRead(items)
  {
    if items != [] {
      AllReadIdempotent(items[1..]);
      assert AllRead(items)[1..] == AllRead(items[1..]);
      assert MarkedRead(MarkedRead(items[0])) == MarkedRead(items[0]);
    }
  }

  /** After marking, every entry is read, whatever the list held. */
  lemma {:induction false} AllReadEveryEntryRead(items: seq<Obj>)
    ensures forall n :: n in AllRead(items) ==> Get(n, "read") == Bool(true)
  {
    if items != [] {
      AllReadEveryEntryRead(items[1..]);
      assert AllRead(items) == [MarkedRead(items[0])] + AllRead(items[1..]);
    }
  }

  /** `addNotification` does not deduplicate: the same payload added twice is
      stored twice, the later one first. */
  lemma AddTwiceKeepsBoth(items: seq<Obj>, payload: Obj, t1: int, t2: int)
    ensures var twice := [Stamped(payload, t2)] + ([Stamped(payload, t1)] + items);
      |twice| == |items| + 2 && twice[2..] == items
      && forall k :: k != "id" ==> Get(twice[0], k) == Get(twice[1], k)
  {
  }

  class State {
    var items: seq<Obj>
    var loading: bool
    var error: Value

    /** `initialState`: no items, not loading, `error: null`. */
    constructor ()
      ensures items == [] && !loading && error == Null
    {
      items := [];
      loading := false;
      error := Null;
    }

    /** `addNotification`: `items.unshift({ ...payload, read: false, id: now })`. */
    method AddNotification(payload: Obj, now: int)
      modifies this
      ensures items == [Stamped(payload, now)] + old(items)
      ensures loading == old(loading) && error == old(error)
    {
      items := [Stamped(payload, now)] + items;
    }

    /** `clearNotifications`: `items = []`. */
    method ClearNotifications()
      modifies this
      ensures items == []
      ensures loading == old(loading) && error == old(error)
    {
      items := [];
    }

    /** `markAllRead`: sets `read = true` on every item, one at a time. */
    method MarkAllRead()
      modifies this
      ensures items == AllRead(old(items))
      ensures loading == old(loading) && error == old(error)
    {
      var i := 0;
      while i < |items|
        invariant 0 <= i <= |items| == |old(items)|
        invariant forall k :: 0 <= k < i ==> items[k] == MarkedRead(old(items)[k])
        invariant forall k :: i <= k < |items| ==> items[k] == old(items)[k]
        invariant loading == old(loading) && error == old(error)
      {
        items := items[i := MarkedRead(items[i])];
        i := i + 1;
      }
    }

    /** `fetchNotifications.pending`. */
    method FetchPending()
      modifies this
      ensures loading && error == Null
      ensures items == old(items)
    {
      loading := true;
      error := Null;
    }

    /** `fetchNotifications.fulfilled` with the fetched list as payload. */
    method FetchFulfilled(payload: seq<Obj>)
      modifies this
      ensures !loading && items == WithIds(payload)
      ensures error == old(error)
    {
      loading := false;
      items := WithIds(payload);
    }

    /** `fetchNotifications.rejected` with the rejection value as payload. */
    method FetchRejected(payload: Value)
      modifies this
      ensures !loading && error == payload
      ensures items == old(items)
    {
      loading := false;
      error := payload;
    }

    /** `markNotificationsRead.fulfilled`: the same in-place loop as
        `markAllRead`. */
    method MarkNotificationsReadFulfilled()
      modifies this
      ensures items == AllRead(old(items))
      ensures loading == old(loading) && error == old(error)
    {
      MarkAllRead();
    }
  }
}
