/**
 * Keyset pagination: tasks and activity newest first, messages oldest first. An id stands for a
 * row; ids are totally ordered and a new row's id is larger than every earlier one.
 */
module KeysetPaging {
  import opened Common

  /** UUIDv7 ids compare by time of creation; `order` is the position in that order. */
  datatype RowId = RowId(order: int)

  datatype Page = Page(items: seq<RowId>, nextCursor: Option<RowId>)

  /** `a` is listed before `b`. */
  predicate Before(desc: bool, a: RowId, b: RowId) { if desc then a.order > b.order else a.order < b.order }

  predicate Ordered(desc: bool, s: seq<RowId>) { forall i, j :: 0 <= i < j < |s| ==> Before(desc, s[i], s[j]) }

  ghost predicate Lists(s: seq<RowId>, rows: set<RowId>) { forall r :: r in rows <==> r in s }

  predicate IsFirst(desc: bool, rows: set<RowId>, first: RowId) {
    first in rows && forall r <- rows :: r == first || Before(desc, first, r)
  }

  lemma Member(rows: set<RowId>) returns (r: RowId)
    requires |rows| > 0
    ensures r in rows
  {
    r :| r in rows;
  }

  lemma {:induction false} FirstExists(desc: bool, rows: set<RowId>)
    requires |rows| > 0
    ensures exists first :: IsFirst(desc, rows, first)
    decreases |rows|
  {
    var r := Member(rows);
    var others := rows - {r};
    if |others| == 0 {
      assert rows == {r};
      assert IsFirst(desc, rows, r);
    } else {
      FirstExists(desc, others);
      var f: RowId :| IsFirst(desc, others, f);
      assert forall x <- rows :: x == r || x in others;
      if Before(desc, r, f) {
        assert IsFirst(desc, rows, r);
      } else {
        assert IsFirst(desc, rows, f);
      }
    }
  }

  /** `orderBy: { id }`. */
  ghost function Sorted(desc: bool, rows: set<RowId>): (s: seq<RowId>)
    ensures Ordered(desc, s) && Lists(s, rows) && |s| == |rows|
  {
    if |rows| == 0 then []
    else
      FirstExists(desc, rows);
      var first :| IsFirst(desc, rows, first);
      var rest := Sorted(desc, rows - {first});
      FirstThenRest(desc, rows, first, rest);
      [first] + rest
  }

  lemma FirstThenRest(desc: bool, rows: set<RowId>, first: RowId, rest: seq<RowId>)
    requires IsFirst(desc, rows, first) && Ordered(desc, rest) && Lists(rest, rows - {first})
    ensures Ordered(desc, [first] + rest) && Lists([first] + rest, rows)
  {
    var all := [first] + rest;
    forall i, j | 0 <= i < j < |all| ensures Before(desc, all[i], all[j]) {
      assert all[j] == rest[j - 1] && rest[j - 1] in rows - {first};
      assert i > 0 ==> all[i] == rest[i - 1];
    }
    forall r ensures r in all <==> r in rows {
      assert r in all <==> r == first || r in rest;
    }
  }

  lemma {:induction false} ListingLength(desc: bool, s: seq<RowId>, rows: set<RowId>)
    requires Ordered(desc, s) && Lists(s, rows)
    ensures |s| == |rows|
  {
    if s == [] {
      assert rows == {};
    } else {
      var others := rows - {s[0]};
      assert s == [s[0]] + s[1..];
      OrderedTail(desc, s, 1);
      forall r ensures r in others <==> r in s[1..] {
        BehindNth(desc, s, 1, r);
        assert s[0] in s;
        FirstIsFirst(desc, s, r);
      }
      ListingLength(desc, s[1..], others);
      assert rows == others + {s[0]};
    }
  }

  lemma FirstIsFirst(desc: bool, s: seq<RowId>, r: RowId)
    requires Ordered(desc, s) && s != []
    ensures r in s <==> r == s[0] || (r in s && Before(desc, s[0], r))
  {
  }

  /** An ordered listing is the only one. */
  lemma {:induction false} SortedIs(desc: bool, rows: set<RowId>, s: seq<RowId>)
    requires Ordered(desc, s) && Lists(s, rows)
    ensures Sorted(desc, rows) == s
  {
    var t := Sorted(desc, rows);
    ListingLength(desc, s, rows);
    SameListing(desc, s, t);
  }

  lemma {:induction false} SameListing(desc: bool, s: seq<RowId>, t: seq<RowId>)
    requires Ordered(desc, s) && Ordered(desc, t) && |s| == |t| && forall r :: r in s <==> r in t
    ensures s == t
  {
    if s != [] {
      assert s[0] in s && t[0] in t;
      FirstIsFirst(desc, s, t[0]);
      FirstIsFirst(desc, t, s[0]);
      assert s[0] == t[0];
      OrderedTail(desc, s, 1);
      OrderedTail(desc, t, 1);
      forall r ensures r in s[1..] <==> r in t[1..] {
        BehindNth(desc, s, 1, r);
        BehindNth(desc, t, 1, r);
      }
      SameListing(desc, s[1..], t[1..]);
      assert s == [s[0]] + s[1..] && t == [t[0]] + t[1..];
    }
  }

  /** The rows that come after the cursor. */
  function Rest(desc: bool, rows: set<RowId>, after: Option<RowId>): set<RowId> {
    set r | r in rows && (after.None? || Before(desc, after.value, r))
  }

  /** One call: fetch one row more than asked for, to learn whether there are more. */
  ghost function List(desc: bool, rows: set<RowId>, after: Option<RowId>, limit: nat): Page
    requires limit >= 1
  {
    var found := Sorted(desc, Rest(desc, rows, after));
    var fetched := if |found| > limit + 1 then found[..limit + 1] else found;
    var hasMore := |fetched| > limit;
    var items := if hasMore then fetched[..limit] else fetched;
    Page(items, if hasMore then Some(items[|items| - 1]) else None)
  }

  /** In an ordered listing, the rows after the n-th are exactly those behind it. */
  lemma BehindNth(desc: bool, found: seq<RowId>, n: nat, r: RowId)
    requires Ordered(desc, found) && 1 <= n <= |found|
    ensures r in found[n..] <==> r in found && Before(desc, found[n - 1], r)
  {
  }

  lemma OrderedTail(desc: bool, found: seq<RowId>, n: nat)
    requires Ordered(desc, found) && n <= |found|
    ensures Ordered(desc, found[n..])
  {
  }

  /** What lies behind the n-th row is what a cursor at it leaves. */
  lemma CursorLeaves(desc: bool, rows: set<RowId>, after: Option<RowId>, found: seq<RowId>, n: nat)
    requires found == Sorted(desc, Rest(desc, rows, after)) && 1 <= n <= |found|
    ensures Sorted(desc, Rest(desc, rows, Some(found[n - 1]))) == found[n..]
    ensures found[n - 1] in Rest(desc, rows, after)
  {
    hide Sorted;
    var cursor := found[n - 1];
    assert cursor in found;
    forall r ensures r in Rest(desc, rows, Some(cursor)) <==> r in found[n..] {
      BehindNth(desc, found, n, r);
      assert r in found <==> r in Rest(desc, rows, after);
      assert Before(desc, cursor, r) && after.Some? ==> Before(desc, after.value, cursor);
    }
    OrderedTail(desc, found, n);
    SortedIs(desc, Rest(desc, rows, Some(cursor)), found[n..]);
  }

  /** A call lists all there is, or the first `limit` rows with a cursor that leaves exactly the others. */
  lemma PageSplits(desc: bool, rows: set<RowId>, after: Option<RowId>, limit: nat)
    requires limit >= 1
    ensures var found, p := Sorted(desc, Rest(desc, rows, after)), List(desc, rows, after, limit);
            && (|found| <= limit ==> p == Page(found, None))
            && (|found| > limit ==>
                  && p == Page(found[..limit], Some(found[limit - 1]))
                  && Sorted(desc, Rest(desc, rows, p.nextCursor)) == found[limit..]
                  && p.nextCursor.value in Rest(desc, rows, after))
  {
    var found := Sorted(desc, Rest(desc, rows, after));
    hide *;
    ListIs(desc, rows, after, limit);
    if |found| > limit {
      CursorLeaves(desc, rows, after, found, limit);
    }
  }

  lemma ListIs(desc: bool, rows: set<RowId>, after: Option<RowId>, limit: nat)
    requires limit >= 1
    ensures var found := Sorted(desc, Rest(desc, rows, after));
            List(desc, rows, after, limit) ==
              if |found| > limit then Page(found[..limit], Some(found[limit - 1])) else Page(found, None)
  {
    var found := Sorted(desc, Rest(desc, rows, after));
    hide Sorted, Rest;
    if |found| > limit {
      var fetched := if |found| > limit + 1 then found[..limit + 1] else found;
      assert fetched[..limit] == found[..limit];
    }
  }

  /** Rows stay, and the new ones have larger ids than all the old. */
  predicate GrowsTo(a: set<RowId>, b: set<RowId>) {
    a <= b && forall r <- b :: r in a || forall o <- a :: o.order < r.order
  }

  /** The rows before successive calls. */
  predicate Grows(snaps: seq<set<RowId>>) {
    forall i, j :: 0 <= i < j < |snaps| ==> GrowsTo(snaps[i], snaps[j])
  }

  /** All the items that a client collects by following the cursor, call by call. */
  ghost function Follow(desc: bool, snaps: seq<set<RowId>>, after: Option<RowId>, limit: nat): seq<RowId>
    requires snaps != [] && limit >= 1
  {
    var p := List(desc, snaps[0], after, limit);
    if p.nextCursor.None? || |snaps| == 1 then p.items else p.items + Follow(desc, snaps[1..], p.nextCursor, limit)
  }

  /** The call that returns no cursor, if it is among these. */
  ghost function LastCall(desc: bool, snaps: seq<set<RowId>>, after: Option<RowId>, limit: nat): (k: Option<nat>)
    requires snaps != [] && limit >= 1
    ensures k.Some? ==> k.value < |snaps|
  {
    var p := List(desc, snaps[0], after, limit);
    if p.nextCursor.None? then Some(0)
    else if |snaps| == 1 then None
    else
      var later := LastCall(desc, snaps[1..], p.nextCursor, limit);
      if later.Some? then Some(later.value + 1) else None
  }

  lemma GrowsOn(snaps: seq<set<RowId>>)
    requires Grows(snaps) && snaps != []
    ensures Grows(snaps[1..]) && (|snaps| >= 2 ==> GrowsTo(snaps[0], snaps[1]))
  {
  }

  /** Newest first, what lies beyond a cursor does not change while rows arrive. */
  lemma BeyondIsStable(a: set<RowId>, b: set<RowId>, cursor: RowId)
    requires GrowsTo(a, b) && cursor in a
    ensures Rest(true, b, Some(cursor)) == Rest(true, a, Some(cursor))
  {
  }

  lemma {:induction false} NewestFirstFrom(snaps: seq<set<RowId>>, after: Option<RowId>, limit: nat)
    requires snaps != [] && limit >= 1 && Grows(snaps)
    requires |snaps| * limit >= |Rest(true, snaps[0], after)|
    ensures LastCall(true, snaps, after, limit).Some?
    ensures Follow(true, snaps, after, limit) == Sorted(true, Rest(true, snaps[0], after))
    decreases |snaps|
  {
    hide *;
    var p, found := List(true, snaps[0], after, limit), Sorted(true, Rest(true, snaps[0], after));
    PageSplits(true, snaps[0], after, limit);
    if |found| > limit {
      var left := Rest(true, snaps[0], p.nextCursor);
      assert |Sorted(true, left)| == |found| - limit;
      CallsLeft(|snaps|, limit, |left|);
      GrowsOn(snaps);
      RestOf(true, snaps[0], after, p.nextCursor.value);
      BeyondIsStable(snaps[0], snaps[1], p.nextCursor.value);
      NewestFirstFrom(snaps[1..], p.nextCursor, limit);
      FollowMore(true, snaps, after, limit);
      assert found == found[..limit] + found[limit..];
    } else {
      FollowEnds(true, snaps, after, limit);
    }
  }

  lemma RestOf(desc: bool, rows: set<RowId>, after: Option<RowId>, r: RowId)
    requires r in Rest(desc, rows, after)
    ensures r in rows
  {
  }

  lemma FollowEnds(desc: bool, snaps: seq<set<RowId>>, after: Option<RowId>, limit: nat)
    requires snaps != [] && limit >= 1 && List(desc, snaps[0], after, limit).nextCursor.None?
    ensures Follow(desc, snaps, after, limit) == List(desc, snaps[0], after, limit).items
    ensures LastCall(desc, snaps, after, limit) == Some(0)
  {
  }

  /** With a cursor, the next call goes on from it. */
  lemma FollowMore(desc: bool, snaps: seq<set<RowId>>, after: Option<RowId>, limit: nat)
    requires |snaps| >= 1 && limit >= 1 && List(desc, snaps[0], after, limit).nextCursor.Some?
    ensures |snaps| >= 2 ==>
              var p := List(desc, snaps[0], after, limit);
              var later := LastCall(desc, snaps[1..], p.nextCursor, limit);
              && Follow(desc, snaps, after, limit) == p.items + Follow(desc, snaps[1..], p.nextCursor, limit)
              && LastCall(desc, snaps, after, limit) == if later.Some? then Some(later.value + 1) else None
    ensures |snaps| == 1 ==> LastCall(desc, snaps, after, limit).None?
  {
  }

  lemma CallsLeft(calls: nat, limit: nat, left: nat)
    requires limit >= 1 && left >= 1 && calls * limit >= limit + left
    ensures calls >= 2 && (calls - 1) * limit >= left
  {
  }

  /**
   * Newest first: following the cursor from the start ends, after at most one call per `limit`
   * rows, and yields exactly the rows of the first call, each once and in order, however many
   * newer rows arrive between the calls.
   */
  lemma NewestFirstComplete(snaps: seq<set<RowId>>, limit: nat)
    requires snaps != [] && limit >= 1 && Grows(snaps) && |snaps| * limit >= |snaps[0]|
    ensures LastCall(true, snaps, None, limit).Some?
    ensures Follow(true, snaps, None, limit) == Sorted(true, snaps[0])
  {
    assert Rest(true, snaps[0], None) == snaps[0];
    NewestFirstFrom(snaps, None, limit);
  }

  /** In an ordered listing the first n rows are exactly those up to the n-th. */
  lemma UpToNth(desc: bool, found: seq<RowId>, n: nat, r: RowId)
    requires Ordered(desc, found) && 1 <= n <= |found|
    ensures r in found[..n] <==> r in found && !Before(desc, found[n - 1], r)
  {
  }

  /** Oldest first, rows that arrive later lie beyond everything already listed. */
  lemma SettledPrefix(a: set<RowId>, b: set<RowId>, after: Option<RowId>, found: seq<RowId>, n: nat)
    requires a == b || GrowsTo(a, b)
    requires found == Sorted(false, Rest(false, a, after)) && 1 <= n <= |found|
    ensures Sorted(false, Rest(false, b, after)) == found[..n] + Sorted(false, Rest(false, b, Some(found[n - 1])))
  {
    hide Sorted;
    var cursor := found[n - 1];
    assert cursor in found;
    assert cursor in Rest(false, a, after);
    var tail := Sorted(false, Rest(false, b, Some(cursor)));
    var s := found[..n] + tail;
    forall r ensures r in Rest(false, b, after) <==> r in s {
      UpToNth(false, found, n, r);
      assert r in found <==> r in Rest(false, a, after);
      assert r in tail <==> r in Rest(false, b, Some(cursor));
      assert r in b && !Before(false, cursor, r) ==> r in a;
    }
    JoinOrdered(false, found, n, tail, cursor);
    SortedIs(false, Rest(false, b, after), s);
  }

  lemma JoinOrdered(desc: bool, found: seq<RowId>, n: nat, tail: seq<RowId>, cursor: RowId)
    requires Ordered(desc, found) && Ordered(desc, tail) && 1 <= n <= |found| && cursor == found[n - 1]
    requires forall r <- tail :: Before(desc, cursor, r)
    ensures Ordered(desc, found[..n] + tail)
  {
    var s := found[..n] + tail;
    forall i, j | 0 <= i < j < |s| ensures Before(desc, s[i], s[j]) {
      if i < n <= j {
        assert tail[j - n] in tail;
        assert i < n - 1 ==> Before(desc, found[i], found[n - 1]);
      }
    }
  }

  lemma {:induction false} OldestFirstFrom(snaps: seq<set<RowId>>, after: Option<RowId>, limit: nat)
    requires snaps != [] && limit >= 1 && Grows(snaps) && LastCall(false, snaps, after, limit).Some?
    ensures Follow(false, snaps, after, limit) ==
            Sorted(false, Rest(false, snaps[LastCall(false, snaps, after, limit).value], after))
    decreases |snaps|
  {
    hide *;
    var p, found := List(false, snaps[0], after, limit), Sorted(false, Rest(false, snaps[0], after));
    PageSplits(false, snaps[0], after, limit);
    if |found| <= limit {
      FollowEnds(false, snaps, after, limit);
    } else {
      GrowsOn(snaps);
      FollowMore(false, snaps, after, limit);
      var k := LastCall(false, snaps, after, limit).value;
      OldestFirstFrom(snaps[1..], p.nextCursor, limit);
      GrowsFromFirst(snaps, k);
      SettledPrefix(snaps[0], snaps[k], after, found, limit);
    }
  }

  lemma GrowsFromFirst(snaps: seq<set<RowId>>, k: nat)
    requires Grows(snaps) && k < |snaps|
    ensures snaps[0] == snaps[k] || GrowsTo(snaps[0], snaps[k])
  {
  }

  /**
   * Oldest first: when a call returns no cursor, the calls together have listed exactly the rows
   * that exist at that call, each once and in order; nothing was lost or repeated on the way.
   */
  lemma OldestFirstComplete(snaps: seq<set<RowId>>, limit: nat)
    requires snaps != [] && limit >= 1 && Grows(snaps) && LastCall(false, snaps, None, limit).Some?
    ensures Follow(false, snaps, None, limit) == Sorted(false, snaps[LastCall(false, snaps, None, limit).value])
  {
    var last := snaps[LastCall(false, snaps, None, limit).value];
    assert Rest(false, last, None) == last;
    OldestFirstFrom(snaps, None, limit);
  }

  /* ---------- Rows that come and go ---------- */

  /** Beyond the cursor: what a call with it may list. */
  predicate Beyond(desc: bool, after: Option<RowId>, r: RowId) { after.None? || Before(desc, after.value, r) }

  lemma FirstItems(desc: bool, found: seq<RowId>, n: nat)
    requires Ordered(desc, found) && 1 <= n <= |found|
    ensures Ordered(desc, found[..n]) && forall r <- found[..n] :: r in found
    ensures forall r <- found :: r in found[..n] || Before(desc, found[n - 1], r)
  {
    forall r | r in found ensures r in found[..n] || Before(desc, found[n - 1], r) {
      UpToNth(desc, found, n, r);
    }
  }

  lemma FoundIs(desc: bool, rows: set<RowId>, after: Option<RowId>, r: RowId)
    ensures r in Sorted(desc, Rest(desc, rows, after)) <==> r in rows && Beyond(desc, after, r)
  {
    assert r in Sorted(desc, Rest(desc, rows, after)) <==> r in Rest(desc, rows, after);
  }

  ghost predicate PageFacts(desc: bool, rows: set<RowId>, after: Option<RowId>, p: Page) {
    && Ordered(desc, p.items)
    && (forall r <- p.items :: r in rows && Beyond(desc, after, r))
    && (p.nextCursor.Some? ==> p.items != [] && p.nextCursor.value == p.items[|p.items| - 1])
    && forall r <- rows :: Beyond(desc, after, r) ==>
         r in p.items || (p.nextCursor.Some? && Beyond(desc, p.nextCursor, r))
  }

  lemma PageOf(desc: bool, rows: set<RowId>, after: Option<RowId>, found: seq<RowId>, limit: nat, p: Page)
    requires limit >= 1 && Ordered(desc, found)
    requires forall r :: r in found <==> r in rows && Beyond(desc, after, r)
    requires p == if |found| > limit then Page(found[..limit], Some(found[limit - 1])) else Page(found, None)
    ensures PageFacts(desc, rows, after, p)
  {
    if |found| > limit {
      FirstItems(desc, found, limit);
    }
    hide Ordered, Before;
  }

  /** The items of one call, and where the next call goes on. */
  lemma OneCall(desc: bool, rows: set<RowId>, after: Option<RowId>, limit: nat)
    requires limit >= 1
    ensures PageFacts(desc, rows, after, List(desc, rows, after, limit))
  {
    hide *;
    var found := Sorted(desc, Rest(desc, rows, after));
    ListIs(desc, rows, after, limit);
    forall r ensures r in found <==> r in rows && Beyond(desc, after, r) {
      FoundIs(desc, rows, after, r);
    }
    PageOf(desc, rows, after, found, limit, List(desc, rows, after, limit));
  }

  lemma FollowSingle(desc: bool, snaps: seq<set<RowId>>, after: Option<RowId>, limit: nat)
    requires |snaps| == 1 && limit >= 1
    ensures Follow(desc, snaps, after, limit) == List(desc, snaps[0], after, limit).items
  {
  }

  /** The items of a walk from a cursor: in order, beyond the cursor, each there at some call. */
  lemma {:induction false} WalkOrdered(desc: bool, snaps: seq<set<RowId>>, after: Option<RowId>, limit: nat)
    requires snaps != [] && limit >= 1
    ensures Ordered(desc, Follow(desc, snaps, after, limit))
    ensures forall r <- Follow(desc, snaps, after, limit) ::
              Beyond(desc, after, r) && exists i :: 0 <= i < |snaps| && r in snaps[i]
    decreases |snaps|
  {
    hide List, Follow, LastCall;
    var p := List(desc, snaps[0], after, limit);
    OneCall(desc, snaps[0], after, limit);
    if p.nextCursor.None? {
      FollowEnds(desc, snaps, after, limit);
    } else if |snaps| == 1 {
      FollowSingle(desc, snaps, after, limit);
    } else {
      var tail := Follow(desc, snaps[1..], p.nextCursor, limit);
      FollowMore(desc, snaps, after, limit);
      WalkOrdered(desc, snaps[1..], p.nextCursor, limit);
      JoinOrdered(desc, p.items, |p.items|, tail, p.nextCursor.value);
      assert p.items[..|p.items|] == p.items;
      forall r | r in tail ensures Beyond(desc, after, r) && exists i :: 0 <= i < |snaps| && r in snaps[i] {
        var i :| 0 <= i < |snaps[1..]| && r in snaps[1..][i];
        assert r in snaps[i + 1];
        assert p.nextCursor.value in p.items;
      }
    }
  }

  /** A row that is there at every call until the walk ends is listed. */
  lemma {:induction false} WalkFinds(desc: bool, snaps: seq<set<RowId>>, after: Option<RowId>, limit: nat, r: RowId)
    requires snaps != [] && limit >= 1 && LastCall(desc, snaps, after, limit).Some?
    requires Beyond(desc, after, r)
    requires forall i :: 0 <= i <= LastCall(desc, snaps, after, limit).value ==> r in snaps[i]
    ensures r in Follow(desc, snaps, after, limit)
    decreases |snaps|
  {
    hide List, Follow;
    var p := List(desc, snaps[0], after, limit);
    OneCall(desc, snaps[0], after, limit);
    if p.nextCursor.None? {
      FollowEnds(desc, snaps, after, limit);
    } else {
      FollowMore(desc, snaps, after, limit);
      if r !in p.items {
        forall i | 0 <= i <= LastCall(desc, snaps[1..], p.nextCursor, limit).value ensures r in snaps[1..][i] {
          assert r in snaps[i + 1];
        }
        WalkFinds(desc, snaps[1..], p.nextCursor, limit, r);
      }
    }
  }

  /**
   * In either order and whatever rows come and go between the calls: the items are strictly in
   * order, so none is repeated; each was there at some call; and when the walk has ended every
   * row that was there at all its calls has been listed.
   */
  lemma AnyWalk(desc: bool, snaps: seq<set<RowId>>, limit: nat)
    requires snaps != [] && limit >= 1
    ensures var items := Follow(desc, snaps, None, limit);
            && Ordered(desc, items)
            && forall r <- items :: exists i :: 0 <= i < |snaps| && r in snaps[i]
    ensures var k := LastCall(desc, snaps, None, limit);
            k.Some? ==>
              forall r | (forall i :: 0 <= i <= k.value ==> r in snaps[i]) :: r in Follow(desc, snaps, None, limit)
  {
    hide Follow, LastCall;
    WalkOrdered(desc, snaps, None, limit);
    var k := LastCall(desc, snaps, None, limit);
    forall r | k.Some? && forall i :: 0 <= i <= k.value ==> r in snaps[i]
      ensures r in Follow(desc, snaps, None, limit)
    {
      WalkFinds(desc, snaps, None, limit, r);
    }
  }
}
