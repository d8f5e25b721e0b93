/**
  The per-player score ledger behind the game: the object that bot.js keeps
  in userdata.json, mapping a user id to that player's record.

  The pure functions here say what one `getUser` or `updateUserStats` call
  does to the whole map; class `Ledger` holds the map as mutable state and
  its methods change it step by step as the original does, proved against
  those functions. Reading and writing the file is not modelled: the map a
  `Ledger` holds is the snapshot the original loads and saves.
*/
module UserData {

  import opened Game

  /** A player's record: `{points, username, wins, losses, ties}`. */
  datatype Record = Record(points: int, username: string, wins: nat, losses: nat, ties: nat)

  /** The name `getUser` gives a record it has to create. */
  const UNKNOWN: string := "Unknown"

  /** A record with every counter and the points at zero. */
  function Blank(username: string): Record
  {
    Record(0, username, 0, 0, 0)
  }

  /** The change in points for one round: +50 for a win, -10 for a loss, +10 for a tie. */
  function PointsFor(result: Outcome): int
  {
    match result
    case Win => 50
    case Loss => -10
    case Tie => 10
  }

  /** The counter of a record that a given outcome increments. */
  function Counter(r: Record, result: Outcome): nat
  {
    match result
    case Win => r.wins
    case Loss => r.losses
    case Tie => r.ties
  }

  /** The number of rounds a record has counted. */
  function Played(r: Record): nat
  {
    r.wins + r.losses + r.ties
  }

  /** The points a record must hold if its rounds are all it has earned points from. */
  predicate Consistent(r: Record)
  {
    r.points == 50 * r.wins - 10 * r.losses + 10 * r.ties
  }

  /**
    One round applied to a record (bot.js lines 42-52): the name is
    overwritten, exactly the counter of the outcome goes up by one and the
    points change by that outcome's amount.
  */
  function Tally(r: Record, username: string, result: Outcome): (t: Record)
    ensures t.username == username
    ensures forall o :: Counter(t, o) == Counter(r, o) + (if o == result then 1 else 0)
    ensures Played(t) == Played(r) + 1
    ensures t.points == r.points + PointsFor(result)
  {
    var r := r.(username := username);
    match result
    case Win => r.(wins := r.wins + 1, points := r.points + 50)
    case Loss => r.(losses := r.losses + 1, points := r.points - 10)
    case Tie => r.(ties := r.ties + 1, points := r.points + 10)
  }

  /** A round never breaks the tie between the counters and the points. */
  lemma TallyKeepsConsistent(r: Record, username: string, result: Outcome)
    requires Consistent(r)
    ensures Consistent(Tally(r, username, result))
  {
  }

  /** The map after `getUser(id)`: a missing id gets a zero record named "Unknown". */
  function AfterGetUser(users: map<string, Record>, id: string): (m: map<string, Record>)
    ensures id in m && m.Keys == users.Keys + {id}
    ensures forall k :: k in users ==> m[k] == users[k]
    ensures id !in users ==> m[id] == Blank(UNKNOWN)
  {
    if id in users then users else users[id := Blank(UNKNOWN)]
  }

  /** The record `updateUserStats` starts from: the stored one or a fresh zero record. */
  function Current(users: map<string, Record>, id: string, username: string): Record
  {
    if id in users then users[id] else Blank(username)
  }

  /** The map after `updateUserStats(id, username, result)`. */
  function AfterUpdate(users: map<string, Record>, id: string, username: string, result: Outcome)
    : (m: map<string, Record>)
    ensures id in m && m.Keys == users.Keys + {id}
    ensures forall k :: k in users && k != id ==> m[k] == users[k]
    ensures id in users ==> m[id] == Tally(users[id], username, result)
    ensures id !in users ==> m[id] == Tally(Blank(username), username, result)
  {
    users[id := Tally(Current(users, id, username), username, result)]
  }

  /** Every record of a map is consistent. */
  predicate AllConsistent(users: map<string, Record>)
  {
    forall id :: id in users ==> Consistent(users[id])
  }

  /** `getUser` keeps every record consistent. */
  lemma GetUserKeepsConsistent(users: map<string, Record>, id: string)
    requires AllConsistent(users)
    ensures AllConsistent(AfterGetUser(users, id))
  {
    var got := AfterGetUser(users, id);
    forall k | k in got
      ensures Consistent(got[k])
    {
    }
  }

  /** `updateUserStats` keeps every record consistent. */
  lemma UpdateKeepsConsistent(users: map<string, Record>, id: string, username: string, result: Outcome)
    requires AllConsistent(users)
    ensures AllConsistent(AfterUpdate(users, id, username, result))
  {
    var updated := AfterUpdate(users, id, username, result);
    forall k | k in updated
      ensures Consistent(updated[k])
    {
      if k == id {
        TallyKeepsConsistent(Current(users, id, username), username, result);
      }
    }
  }

  /** `getUser` changes nothing for a known id, so a second call sees the first one's result. */
  lemma GetUserIdempotent(users: map<string, Record>, id: string)
    ensures id in users ==> AfterGetUser(users, id) == users
    ensures AfterGetUser(AfterGetUser(users, id), id) == AfterGetUser(users, id)
  {
  }

  /**
    A player absent from the ledger who plays one round is stored under
    the name passed in, with that round's points and with only its
    outcome's counter at one; a win gives `Record(50, name, 1, 0, 0)`.
  */
  lemma FirstRound(users: map<string, Record>, id: string, username: string, result: Outcome)
    requires id !in users
    ensures var r := AfterUpdate(users, id, username, result)[id];
      && r.username == username && r.points == PointsFor(result)
      && (forall o :: Counter(r, o) == (if o == result then 1 else 0))
    ensures result == Win ==> AfterUpdate(users, id, username, result)[id] == Record(50, username, 1, 0, 0)
  {
  }

  /** One game round as the ledger sees it: the player's current name and the outcome. */
  datatype Play = Play(username: string, result: Outcome)

  /** The map after `updateUserStats` has run once for every play, in order, all on one id. */
  function Replay(users: map<string, Record>, id: string, plays: seq<Play>): map<string, Record>
  {
    if plays == [] then users
    else
      var last := plays[|plays| - 1];
      AfterUpdate(Replay(users, id, plays[..|plays| - 1]), id, last.username, last.result)
  }

  /** How many plays had a given outcome. */
  function Count(plays: seq<Play>, result: Outcome): nat
  {
    if plays == [] then 0
    else Count(plays[..|plays| - 1], result) + (if plays[|plays| - 1].result == result then 1 else 0)
  }

  /** The sum of the point changes of the plays. */
  function Score(plays: seq<Play>): int
  {
    if plays == [] then 0
    else Score(plays[..|plays| - 1]) + PointsFor(plays[|plays| - 1].result)
  }

  /** Every play is counted once, and the score is the outcomes weighted by their points. */
  lemma {:induction false} ScoreByCounts(plays: seq<Play>)
    ensures Count(plays, Win) + Count(plays, Loss) + Count(plays, Tie) == |plays|
    ensures Score(plays) == PointsFor(Win) * Count(plays, Win) + PointsFor(Loss) * Count(plays, Loss)
                            + PointsFor(Tie) * Count(plays, Tie)
  {
    if plays != [] {
      ScoreByCounts(plays[..|plays| - 1]);
    }
  }

  /**
    After k updates on one id: the record carries the last name, each
    counter has grown by the number of plays with its outcome, the points
    by the sum of their changes, and no other id's record has changed.
  */
  lemma {:induction false} ReplayRecord(users: map<string, Record>, id: string, plays: seq<Play>)
    ensures var m := Replay(users, id, plays);
      && m.Keys == users.Keys + (if plays == [] then {} else {id})
      && (forall k :: k in users && k != id ==> m[k] == users[k])
      && (plays != [] ==>
            var start := Current(users, id, "");
            && m[id].username == plays[|plays| - 1].username
            && (forall o :: Counter(m[id], o) == Counter(start, o) + Count(plays, o))
            && m[id].points == start.points + Score(plays))
  {
    if plays != [] {
      var init := plays[..|plays| - 1];
      var last := plays[|plays| - 1];
      ReplayRecord(users, id, init);
      var before := Replay(users, id, init);
      var start := Current(users, id, "");
      if init == [] {
        var first := Current(before, id, last.username);
        assert first.points == start.points;
        assert forall o :: Counter(first, o) == Counter(start, o);
      }
    }
  }

  /**
    A player who first appears through k game rounds has played exactly k
    rounds, and holds 50 per win, -10 per loss and +10 per tie.
  */
  lemma NewPlayerHistory(users: map<string, Record>, id: string, plays: seq<Play>)
    requires id !in users && plays != []
    ensures var r := Replay(users, id, plays)[id];
      Played(r) == |plays| && r.points == Score(plays) && Consistent(r)
  {
    ReplayRecord(users, id, plays);
    ScoreByCounts(plays);
    var r := Replay(users, id, plays)[id];
    assert Counter(r, Win) == Count(plays, Win);
    assert Counter(r, Loss) == Count(plays, Loss);
    assert Counter(r, Tie) == Count(plays, Tie);
  }

  /** The in-memory `userdata.json` object and the two functions of bot.js that mutate it. */
  class Ledger {

    var users: map<string, Record>

    /** Every record's points are what its counters earned. */
    ghost predicate Valid()
      reads this
    {
      AllConsistent(users)
    }

    /** The ledger of a first run, when the data file does not exist yet and is created as `{}`. */
    constructor ()
      ensures users == map[] && Valid()
    {
      users := map[];
    }

    /** A ledger over a snapshot read from the data file. */
    constructor Load(data: map<string, Record>)
      ensures users == data
    {
      users := data;
    }

    /** `getUser` (bot.js lines 28-35). */
    method GetUser(id: string) returns (r: Record)
      modifies this
      ensures users == AfterGetUser(old(users), id)
      ensures id in users && r == users[id]
      ensures id in old(users) ==> users == old(users)
      ensures id !in old(users) ==> r == Blank(UNKNOWN)
      ensures old(Valid()) ==> Valid()
    {
      if id !in users {
        users := users[id := Record(0, UNKNOWN, 0, 0, 0)];
      }
      r := users[id];
      if old(Valid()) {
        GetUserKeepsConsistent(old(users), id);
      }
    }

    /** `updateUserStats` (bot.js lines 37-55). */
    method UpdateUserStats(id: string, username: string, result: Outcome) returns (r: Record)
      modifies this
      ensures users == AfterUpdate(old(users), id, username, result)
      ensures id in users && r == users[id] && r.username == username
      ensures forall k :: k in old(users) && k != id ==> k in users && users[k] == old(users)[k]
      ensures var before := Current(old(users), id, username);
        && (forall o :: Counter(r, o) == Counter(before, o) + (if o == result then 1 else 0))
        && r.points == before.points + PointsFor(result)
      ensures old(Valid()) ==> Valid()
    {
      var rec: Record;
      if id !in users {
        rec := Record(0, username, 0, 0, 0);
      } else {
        rec := users[id];
      }
      ghost var before := rec;
      assert before == Current(old(users), id, username);
      rec := rec.(username := username);
      if result == Win {
        rec := rec.(wins := rec.wins + 1, points := rec.points + 50);
      } else if result == Loss {
        rec := rec.(losses := rec.losses + 1, points := rec.points - 10);
      } else if result == Tie {
        rec := rec.(ties := rec.ties + 1, points := rec.points + 10);
      }
      assert rec == Tally(before, username, result);
      users := users[id := rec];
      r := rec;
      if old(Valid()) {
        UpdateKeepsConsistent(old(users), id, username, result);
      }
    }
  }
}
