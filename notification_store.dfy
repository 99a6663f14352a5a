/** The toast queue: a newest-first list of at most six notifications. */
module Notifications {
  import opened Js
  import opened Text

  datatype Kind = Info | Success | Failure

  /** A notification; `kind` and `message` are optional fields. */
  datatype Notification = Notification(id: string, kind: Option<Kind>, title: string, message: Option<string>)

  /** The list keeps the six newest entries. */
  const Capacity: nat := 6

  /** The entry `push` creates: the caller's fields plus the id `String(now)`. */
  function Stamped(kind: Option<Kind>, title: string, message: Option<string>, now: nat): Notification {
    Notification(NatToString(now), kind, title, message)
  }

  /** `[n, ...items].slice(0, 6)` */
  function Pushed(items: seq<Notification>, n: Notification): (r: seq<Notification>)
    ensures |r| == if |items| + 1 < Capacity then |items| + 1 else Capacity
    ensures r[0] == n
    ensures forall i :: 1 <= i < |r| ==> r[i] == items[i - 1]
  {
    var all := [n] + items;
    if |all| <= Capacity then all else all[..Capacity]
  }

  /** `items.filter(i => i.id !== id)` */
  function Without(items: seq<Notification>, id: string): (r: seq<Notification>)
    ensures |r| <= |items|
    ensures forall k :: 0 <= k < |r| ==> r[k].id != id && r[k] in items
    decreases |items|
  {
    if items == [] then []
    else (if items[0].id == id then [] else [items[0]]) + Without(items[1..], id)
  }

  /** An entry survives `remove(id)` exactly when it was there and carries another id. */
  lemma {:induction false} WithoutMembers(items: seq<Notification>, id: string, n: Notification)
    ensures n in Without(items, id) <==> n in items && n.id != id
    decreases |items|
  {
    if items != [] {
      WithoutMembers(items[1..], id, n);
      assert items == [items[0]] + items[1..];
    }
  }

  /** Removing an id that no entry carries changes nothing. */
  lemma {:induction false} WithoutAbsent(items: seq<Notification>, id: string)
    requires forall k :: 0 <= k < |items| ==> items[k].id != id
    ensures Without(items, id) == items
    decreases |items|
  {
    if items != [] {
      WithoutAbsent(items[1..], id);
    }
  }

  /** `remove` works element by element: on a concatenation it filters each part and
      keeps their order. */
  lemma {:induction false} WithoutConcat(a: seq<Notification>, b: seq<Notification>, id: string)
    ensures Without(a + b, id) == Without(a, id) + Without(b, id)
    decreases |a|
  {
    if a == [] {
      assert a + b == b;
    } else {
      var head := if a[0].id == id then [] else [a[0]];
      assert (a + b)[0] == a[0] && (a + b)[1..] == a[1..] + b;
      calc {
        Without(a + b, id);
        head + Without(a[1..] + b, id);
        { WithoutConcat(a[1..], b, id); }
        head + (Without(a[1..], id) + Without(b, id));
        (head + Without(a[1..], id)) + Without(b, id);
      }
    }
  }

  /** `remove` is idempotent: a second removal of the same id finds nothing. */
  lemma WithoutTwice(items: seq<Notification>, id: string)
    ensures Without(Without(items, id), id) == Without(items, id)
  {
    WithoutAbsent(Without(items, id), id);
  }

  /** Entries stamped at different milliseconds have different ids, so `remove`
      of one leaves the other. */
  lemma DistinctTimesDistinctIds(kind: Option<Kind>, title: string, message: Option<string>, t1: nat, t2: nat)
    requires t1 != t2
    ensures Stamped(kind, title, message, t1).id != Stamped(kind, title, message, t2).id
  {
    NatToStringInjective(t1, t2);
  }

  /** The store of `useNotificationStore`: one field, replaced by each action. */
  class NotificationStore {
    var items: seq<Notification>

    ghost predicate Valid()
      reads this
    {
      |items| <= Capacity
    }

    constructor ()
      ensures Valid() && items == []
    {
      items := [];
    }

    /** `push(n)`: stamps the entry with `String(now)` and puts it first. */
    method Push(kind: Option<Kind>, title: string, message: Option<string>, now: nat)
      requires Valid()
      modifies this
      ensures Valid()
      ensures items == Pushed(old(items), Stamped(kind, title, message, now))
    {
      items := Pushed(items, Stamped(kind, title, message, now));
    }

    /** `remove(id)`: drops every entry carrying `id`. */
    method Remove(id: string)
      requires Valid()
      modifies this
      ensures Valid()
      ensures items == Without(old(items), id)
    {
      items := Without(items, id);
    }

    /** `clear()` */
    method Clear()
      modifies this
      ensures Valid() && items == []
    {
      items := [];
    }
  }
}
