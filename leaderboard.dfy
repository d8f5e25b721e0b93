/**
  The leaderboard view of bot.js (lines 128 and 182): the ledger's entries
  as `{id, ...record}`, sorted by points from high to low and cut to the
  first ten.

  `Object.entries` lists a map in an order the model does not track, and
  the library sort decides the order among equal points, so the properties
  below hold for every listing of the map, and `SortByPoints` is specified
  only by being sorted and a permutation of its input.
*/
module Leaderboard {

  import opened UserData

  /** One row of the view: a user id together with that user's record. */
  datatype Entry = Entry(id: string, user: Record)

  /** The number of rows the leaderboard shows. */
  const SIZE: nat := 10

  /** Points never increase from one row to a later one. */
  predicate Sorted(s: seq<Entry>)
  {
    forall i, j :: 0 <= i < j < |s| ==> s[i].user.points >= s[j].user.points
  }

  /** An entry with at least the points of a sorted sequence's head can go in front of it. */
  lemma SortedCons(e: Entry, s: seq<Entry>)
    requires Sorted(s) && (s == [] || e.user.points >= s[0].user.points)
    ensures Sorted([e] + s)
  {
    var r := [e] + s;
    forall i, j | 0 <= i < j < |r|
      ensures r[i].user.points >= r[j].user.points
    {
      if i == 0 {
        assert r[j] == s[j - 1];
        assert s[0].user.points >= s[j - 1].user.points || j == 1;
      } else {
        assert r[i] == s[i - 1] && r[j] == s[j - 1];
      }
    }
  }

  /** Insert an entry into a sorted sequence, before the first entry with fewer points. */
  function Insert(e: Entry, s: seq<Entry>): (r: seq<Entry>)
    requires Sorted(s)
    ensures Sorted(r)
    ensures multiset(r) == multiset(s) + multiset{e}
    ensures r[0] == e || (s != [] && r[0] == s[0])
  {
    if s == [] || e.user.points >= s[0].user.points then
      SortedCons(e, s);
      [e] + s
    else
      assert s == [s[0]] + s[1..];
      var rest := Insert(e, s[1..]);
      assert rest[0] == e || rest[0] == s[1];
      SortedCons(s[0], rest);
      assert multiset([s[0]] + rest) == multiset{s[0]} + multiset(rest);
      [s[0]] + rest
  }

  /** The sort of `(a, b) => b.points - a.points`: non-increasing points, same entries. */
  function SortByPoints(s: seq<Entry>): (r: seq<Entry>)
    ensures Sorted(r)
    ensures multiset(r) == multiset(s)
    ensures |r| == |s|
  {
    if s == [] then []
    else
      assert s == [s[0]] + s[1..];
      Insert(s[0], SortByPoints(s[1..]))
  }

  /** The tail of a sorted sequence is sorted. */
  lemma SortedTail(s: seq<Entry>)
    requires Sorted(s) && s != []
    ensures Sorted(s[1..])
  {
    assert forall i :: 0 <= i < |s| - 1 ==> s[1..][i] == s[i + 1];
  }

  /** An entry with at least the head's points is inserted in front. */
  lemma InsertFront(e: Entry, s: seq<Entry>)
    requires Sorted(s) && (s == [] || e.user.points >= s[0].user.points)
    ensures Insert(e, s) == [e] + s
  {
  }

  /**
    A sequence already sorted by points sorts to itself. Whatever sorted
    permutation the engine's sort returns is then a listing whose own sort
    is that permutation, so the lemmas below apply to every sort result.
  */
  lemma {:induction false} SortIdOnSorted(s: seq<Entry>)
    requires Sorted(s)
    ensures SortByPoints(s) == s
  {
    if s != [] {
      SortedTail(s);
      SortIdOnSorted(s[1..]);
      InsertFront(s[0], s[1..]);
      assert [s[0]] + s[1..] == s;
    }
  }

  /** `slice(0, n)`: the first n entries, or all of them when there are fewer. */
  function Take(s: seq<Entry>, n: nat): (r: seq<Entry>)
    ensures |r| == (if |s| < n then |s| else n)
    ensures r == s[..|r|]
  {
    if |s| <= n then s else s[..n]
  }

  /** The leaderboard computed from a listing of the ledger. */
  function Board(entries: seq<Entry>): seq<Entry>
  {
    Take(SortByPoints(entries), SIZE)
  }

  /** Every entry is one of the map's pairs, and no id appears twice. */
  predicate Rows(entries: seq<Entry>, users: map<string, Record>)
  {
    && (forall i :: 0 <= i < |entries| ==> entries[i].id in users && users[entries[i].id] == entries[i].user)
    && (forall i, j :: 0 <= i < j < |entries| ==> entries[i].id != entries[j].id)
  }

  /** A sequence lists a map: its rows are the map's pairs, and every key appears. */
  predicate Lists(entries: seq<Entry>, users: map<string, Record>)
  {
    && Rows(entries, users)
    && (forall id :: id in users ==> exists i :: 0 <= i < |entries| && entries[i].id == id)
  }

  /** `Object.entries(allData).map(([id, data]) => ({ id, ...data }))`, in some order. */
  ghost function Entries(users: map<string, Record>): (entries: seq<Entry>)
    ensures Lists(entries, users)
    decreases |users|
  {
    if users == map[] then []
    else
      var k :| k in users;
      var rest := users - {k};
      assert |rest.Keys| < |users.Keys| by {
        assert rest.Keys == users.Keys - {k};
      }
      var tail := Entries(rest);
      ConsListing(k, users, tail);
      [Entry(k, users[k])] + tail
  }

  /** A listing of the map without one key, preceded by that key's entry, lists the map. */
  lemma ConsListing(k: string, users: map<string, Record>, tail: seq<Entry>)
    requires k in users && Lists(tail, users - {k})
    ensures Lists([Entry(k, users[k])] + tail, users)
  {
    var entries := [Entry(k, users[k])] + tail;
    assert forall i :: 0 < i < |entries| ==> entries[i] == tail[i - 1];
    forall id | id in users
      ensures exists i :: 0 <= i < |entries| && entries[i].id == id
    {
      if id == k {
        assert entries[0].id == id;
      } else {
        assert id in users - {k};
        var i :| 0 <= i < |tail| && tail[i].id == id;
        assert entries[i + 1].id == id;
      }
    }
  }

  /** The ids a sequence of entries mentions. */
  function Ids(s: seq<Entry>): (ids: set<string>)
    ensures forall id :: id in ids <==> exists i :: 0 <= i < |s| && s[i].id == id
  {
    if s == [] then {}
    else
      assert forall i :: 0 < i < |s| ==> s[i] == s[1..][i - 1];
      {s[0].id} + Ids(s[1..])
  }

  /** A listing of a map has exactly one entry per key. */
  lemma {:induction false} ListingLength(entries: seq<Entry>, users: map<string, Record>)
    requires Lists(entries, users)
    ensures |entries| == |users|
  {
    DistinctIdsCount(entries);
    assert Ids(entries) == users.Keys;
  }

  lemma {:induction false} DistinctIdsCount(s: seq<Entry>)
    requires forall i, j :: 0 <= i < j < |s| ==> s[i].id != s[j].id
    ensures |Ids(s)| == |s|
  {
    if s != [] {
      DistinctIdsCount(s[1..]);
      assert s[0].id !in Ids(s[1..]);
    }
  }

  /** A sequence whose positions hold distinct values has no value twice. */
  lemma {:induction false} DistinctOnce(s: seq<Entry>)
    requires forall i, j :: 0 <= i < j < |s| ==> s[i] != s[j]
    ensures forall x :: multiset(s)[x] <= 1
  {
    if s != [] {
      DistinctOnce(s[1..]);
      assert s == [s[0]] + s[1..];
      assert s[0] !in s[1..];
    }
  }

  /** A sequence with no value twice holds distinct values at distinct positions. */
  lemma OnceDistinct(s: seq<Entry>)
    requires forall x :: multiset(s)[x] <= 1
    ensures forall i, j :: 0 <= i < j < |s| ==> s[i] != s[j]
  {
    forall i, j | 0 <= i < j < |s|
      ensures s[i] != s[j]
    {
      assert s == s[..i] + [s[i]] + s[i + 1..j] + [s[j]] + s[j + 1..];
      assert multiset(s)[s[i]] >= multiset{s[i], s[j]}[s[i]];
    }
  }

  /** Reordering a listing of a map gives another listing of it. */
  lemma PermutedListing(a: seq<Entry>, b: seq<Entry>, users: map<string, Record>)
    requires Lists(a, users) && multiset(a) == multiset(b)
    ensures Lists(b, users)
  {
    forall i | 0 <= i < |b|
      ensures b[i].id in users && users[b[i].id] == b[i].user
    {
      assert b[i] in multiset(a);
    }
    forall id | id in users
      ensures exists p :: 0 <= p < |b| && b[p].id == id
    {
      var j :| 0 <= j < |a| && a[j].id == id;
      assert a[j] in multiset(b);
      var p :| 0 <= p < |b| && b[p] == a[j];
    }
    DistinctOnce(a);
    OnceDistinct(b);
  }

  /** A prefix of sorted rows of a map is sorted rows of that map. */
  lemma PrefixRows(s: seq<Entry>, k: nat, users: map<string, Record>)
    requires Rows(s, users) && Sorted(s) && k <= |s|
    ensures Rows(s[..k], users) && Sorted(s[..k])
  {
    assert forall i :: 0 <= i < k ==> s[..k][i] == s[i];
  }

  /** The rows are the first rows of a sorted listing of the map. */
  lemma BoardRows(entries: seq<Entry>, users: map<string, Record>)
    requires Lists(entries, users)
    ensures Rows(Board(entries), users) && Sorted(Board(entries))
  {
    var sorted := SortByPoints(entries);
    PermutedListing(entries, sorted, users);
    var r := Board(entries);
    PrefixRows(sorted, |r|, users);
  }

  /** Some row of the board belongs to the given id. */
  predicate Shows(board: seq<Entry>, id: string)
  {
    exists i :: 0 <= i < |board| && board[i].id == id
  }

  /** Every row of the board has at least the given points. */
  predicate Outranks(board: seq<Entry>, points: int)
  {
    forall i :: 0 <= i < |board| ==> board[i].user.points >= points
  }

  /** Every row before position p of a sorted sequence has at least the points at p. */
  lemma PrefixOutranks(s: seq<Entry>, k: nat, p: nat)
    requires Sorted(s) && k <= p < |s|
    ensures Outranks(s[..k], s[p].user.points)
  {
    assert forall i :: 0 <= i < k ==> s[..k][i] == s[i];
  }

  /** A player missing from the rows has no more points than any row. */
  lemma BoardIsTop(entries: seq<Entry>, users: map<string, Record>, id: string)
    requires Lists(entries, users) && id in users
    ensures Shows(Board(entries), id) || Outranks(Board(entries), users[id].points)
  {
    var sorted := SortByPoints(entries);
    PermutedListing(entries, sorted, users);
    var r := Board(entries);
    assert r == sorted[..|r|];
    var p :| 0 <= p < |sorted| && sorted[p].id == id;
    assert users[id] == sorted[p].user;
    if p < |r| {
      assert r[p].id == id;
    } else {
      PrefixOutranks(sorted, |r|, p);
    }
  }

  /**
    For every listing of the ledger, the leaderboard has min(10, number of
    players) rows, sorted by points, each the id and record of a player,
    no player twice, and every player left out has no more points than
    any row shown.
  */
  lemma BoardProperties(entries: seq<Entry>, users: map<string, Record>)
    requires Lists(entries, users)
    ensures |Board(entries)| == (if |users| < SIZE then |users| else SIZE)
    ensures Sorted(Board(entries)) && Rows(Board(entries), users)
    ensures forall id :: id in users ==> Shows(Board(entries), id) || Outranks(Board(entries), users[id].points)
  {
    ListingLength(entries, users);
    BoardRows(entries, users);
    forall id | id in users
      ensures Shows(Board(entries), id) || Outranks(Board(entries), users[id].points)
    {
      BoardIsTop(entries, users, id);
    }
  }

  /** On the ledger itself, whatever order `Object.entries` lists it in. */
  lemma LedgerBoard(users: map<string, Record>)
    ensures var r := Board(Entries(users));
      && |r| <= SIZE
      && (users == map[] <==> r == [])
      && Sorted(r)
      && (forall i :: 0 <= i < |r| ==> r[i].id in users && users[r[i].id] == r[i].user)
  {
    BoardProperties(Entries(users), users);
    if users != map[] {
      var k :| k in users;
      assert |users| > 0;
    }
  }
}
