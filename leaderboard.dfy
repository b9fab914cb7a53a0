/**
 * The ranking of `fetchTimeBasedLeaderboard` in src/lib/data-cache.ts:
 * object-valued user records become standings, sorted by approved works and
 * then by earned money, both descending, and numbered from 1.
 */
module Leaderboard {
  import opened Wrappers
  import opened Json

  datatype Timeframe = Daily | Weekly | Monthly

  /** The `timeframe` argument, accepted only as one of the three names. */
  function ParseTimeframe(name: string): (r: Result<Timeframe>)
    ensures r.Ok? <==> name in {"daily", "weekly", "monthly"}
    ensures r.Err? ==> r.message == "Invalid timeframe provided. Must be daily, weekly, or monthly"
  {
    if name == "daily" then Ok(Daily)
    else if name == "weekly" then Ok(Weekly)
    else if name == "monthly" then Ok(Monthly)
    else Err("Invalid timeframe provided. Must be daily, weekly, or monthly")
  }

  datatype Standing = Standing(
    uid: string,
    fullName: Value,
    profileImage: Value,
    approvedWorks: real,
    earnedMoney: real)

  datatype Ranked = Ranked(standing: Standing, rank: nat)

  /** `userData && typeof userData === 'object'` */
  predicate IsRecord(v: Value) {
    v.Obj? || v.Arr?
  }

  /** `n || 0` on a counter. */
  function CountOr0(v: Value): (r: real)
    ensures v.Num? ==> r == v.n
    ensures !v.Num? ==> r == 0.0
  {
    if v.Num? then v.n else 0.0
  }

  /** `uid.substring(0, 8)` */
  function Prefix8(uid: string): (r: string)
    ensures |r| <= 8 && r <= uid
    ensures |uid| >= 8 ==> |r| == 8
    ensures |uid| < 8 ==> r == uid
  {
    if |uid| <= 8 then uid else uid[..8]
  }

  /** The `.map` step: one user record to its standing. */
  function ToStanding(uid: string, user: Value): (s: Standing)
    ensures s.uid == uid
    ensures Truthy(s.fullName)
    ensures Truthy(Field(user, "fullName")) ==> s.fullName == Field(user, "fullName")
    ensures !Truthy(Field(user, "fullName")) && Truthy(Field(user, "name")) ==> s.fullName == Field(user, "name")
    ensures !Truthy(Field(user, "fullName")) && !Truthy(Field(user, "name")) ==> s.fullName == Str("User " + Prefix8(uid))
    ensures Truthy(Field(user, "profileImage")) ==> s.profileImage == Field(user, "profileImage")
    ensures !Truthy(Field(user, "profileImage")) ==> s.profileImage == Field(user, "avatar")
    ensures s.approvedWorks == CountOr0(Field(user, "approvedWorks"))
    ensures s.earnedMoney == CountOr0(Field(user, "earnedMoney"))
  {
    Standing(
      uid,
      Or(Field(user, "fullName"), Or(Field(user, "name"), Str("User " + Prefix8(uid)))),
      Or(Field(user, "profileImage"), Field(user, "avatar")),
      CountOr0(Field(user, "approvedWorks")),
      CountOr0(Field(user, "earnedMoney")))
  }

  /**
   * The `.filter` step over `Object.entries(users)`: the object-valued
   * entries, in order, each as often as it occurs.
   */
  function RecordEntries(entries: seq<(string, Value)>): (r: seq<(string, Value)>)
    ensures |r| <= |entries|
    ensures forall e :: e in r <==> e in entries && IsRecord(e.1)
    ensures forall e :: multiset(r)[e] == if IsRecord(e.1) then multiset(entries)[e] else 0
  {
    if entries == [] then []
    else
      assert entries == [entries[0]] + entries[1..];
      var rest := RecordEntries(entries[1..]);
      if IsRecord(entries[0].1) then [entries[0]] + rest else rest
  }

  /** The `.filter` and `.map` steps over `Object.entries(users)`. */
  function Standings(entries: seq<(string, Value)>): (r: seq<Standing>)
    ensures |r| == |RecordEntries(entries)|
    ensures forall i :: 0 <= i < |r| ==> r[i] == ToStanding(RecordEntries(entries)[i].0, RecordEntries(entries)[i].1)
    ensures |r| <= |entries|
    ensures forall s :: s in r ==> exists e :: e in entries && IsRecord(e.1) && s == ToStanding(e.0, e.1)
    ensures forall e :: e in entries && IsRecord(e.1) ==> ToStanding(e.0, e.1) in r
  {
    var records := RecordEntries(entries);
    var r := seq(|records|, i requires 0 <= i < |records| => ToStanding(records[i].0, records[i].1));
    MappedMembers(entries, records, r);
    r
  }

  /** Membership both ways for the standings mapped from the record entries. */
  lemma MappedMembers(entries: seq<(string, Value)>, records: seq<(string, Value)>, r: seq<Standing>)
    requires forall e :: e in records <==> e in entries && IsRecord(e.1)
    requires |r| == |records| && forall i :: 0 <= i < |r| ==> r[i] == ToStanding(records[i].0, records[i].1)
    ensures forall s :: s in r ==> exists e :: e in entries && IsRecord(e.1) && s == ToStanding(e.0, e.1)
    ensures forall e :: e in entries && IsRecord(e.1) ==> ToStanding(e.0, e.1) in r
  {
    forall e | e in entries && IsRecord(e.1) ensures ToStanding(e.0, e.1) in r {
      var k :| 0 <= k < |records| && records[k] == e;
      assert r[k] == ToStanding(e.0, e.1);
    }
    forall s | s in r ensures exists e :: e in entries && IsRecord(e.1) && s == ToStanding(e.0, e.1) {
      var k :| 0 <= k < |r| && r[k] == s;
      assert records[k] in records;
    }
  }

  /** The comparator's strict order: more approved works, or as many and more money. */
  predicate Before(a: Standing, b: Standing) {
    a.approvedWorks > b.approvedWorks || (a.approvedWorks == b.approvedWorks && a.earnedMoney > b.earnedMoney)
  }

  predicate Sorted(s: seq<Standing>) {
    forall i, j :: 0 <= i < j < |s| ==> !Before(s[j], s[i])
  }

  /**
   * Puts `x` into `sorted` after every standing it does not strictly
   * precede, so that among equals the earlier one stays first.
   */
  function Insert(sorted: seq<Standing>, x: Standing): (r: seq<Standing>)
    ensures multiset(r) == multiset(sorted) + multiset{x}
    decreases |sorted|
  {
    if sorted == [] then [x]
    else
      var last := sorted[|sorted| - 1];
      var init := sorted[..|sorted| - 1];
      assert sorted == init + [last];
      if Before(x, last) then Insert(init, x) + [last] else sorted + [x]
  }

  /** `!Before` is transitive: it is "at least as high" on the pair of counters. */
  lemma NotBeforeTransitive(a: Standing, b: Standing, c: Standing)
    requires !Before(a, b) && !Before(b, c)
    ensures !Before(a, c)
  {
  }

  /** When `x` goes before `last`, nothing inserted ahead of `last` ranks below it. */
  lemma LastStaysLast(init: seq<Standing>, x: Standing, last: Standing)
    requires Sorted(init + [last]) && Before(x, last)
    ensures forall y :: y in Insert(init, x) ==> !Before(last, y)
  {
    forall y | y in Insert(init, x) ensures !Before(last, y) {
      assert y in multiset(Insert(init, x));
      if y != x {
        assert y in multiset(init);
        var k :| 0 <= k < |init| && init[k] == y;
        assert (init + [last])[k] == y && (init + [last])[|init|] == last;
      }
    }
  }

  lemma AppendSorted(front: seq<Standing>, last: Standing)
    requires Sorted(front) && forall y :: y in front ==> !Before(last, y)
    ensures Sorted(front + [last])
  {
    forall i, j | 0 <= i < j < |front| + 1 ensures !Before((front + [last])[j], (front + [last])[i]) {
      if j == |front| {
        assert (front + [last])[i] in front;
      }
    }
  }

  lemma {:induction false} InsertSorted(sorted: seq<Standing>, x: Standing)
    requires Sorted(sorted)
    ensures Sorted(Insert(sorted, x))
    decreases |sorted|
  {
    if sorted != [] {
      var last := sorted[|sorted| - 1];
      var init := sorted[..|sorted| - 1];
      assert sorted == init + [last];
      if Before(x, last) {
        assert Sorted(init);
        InsertSorted(init, x);
        var front := Insert(init, x);
        assert Insert(sorted, x) == front + [last];
        LastStaysLast(init, x, last);
        AppendSorted(front, last);
      } else {
        forall i | 0 <= i < |sorted| ensures !Before(x, sorted[i]) {
          if i < |sorted| - 1 {
            NotBeforeTransitive(x, last, sorted[i]);
          }
        }
      }
    }
  }

  /** A stable sort of the standings: the `.sort` step. */
  function Sort(s: seq<Standing>): (r: seq<Standing>)
    ensures Sorted(r)
    ensures multiset(r) == multiset(s)
    decreases |s|
  {
    if s == [] then []
    else
      assert s == s[..|s| - 1] + [s[|s| - 1]];
      InsertSorted(Sort(s[..|s| - 1]), s[|s| - 1]);
      Insert(Sort(s[..|s| - 1]), s[|s| - 1])
  }

  /** The final `.map`: rank `index + 1`. */
  function Rank(s: seq<Standing>): (r: seq<Ranked>)
    ensures |r| == |s|
    ensures forall i :: 0 <= i < |r| ==> r[i] == Ranked(s[i], i + 1)
  {
    seq(|s|, i requires 0 <= i < |s| => Ranked(s[i], i + 1))
  }

  function StandingsOf(r: seq<Ranked>): (s: seq<Standing>)
    ensures |s| == |r| && forall i :: 0 <= i < |r| ==> s[i] == r[i].standing
  {
    seq(|r|, i requires 0 <= i < |r| => r[i].standing)
  }

  /**
   * The ranking a leaderboard fetch computes and caches; an unknown
   * timeframe is refused before anything is read. The result holds the
   * object-valued users' standings, each as often as it occurs, in
   * descending order of (approved works, earned money), ranked 1 to n.
   */
  function ComputeLeaderboard(timeframe: string, entries: seq<(string, Value)>): (r: Result<seq<Ranked>>)
    ensures r.Err? <==> ParseTimeframe(timeframe).Err?
    ensures r.Err? ==> r.message == ParseTimeframe(timeframe).message
    ensures r.Ok? ==> forall i :: 0 <= i < |r.value| ==> r.value[i].rank == i + 1
    ensures r.Ok? ==> Sorted(StandingsOf(r.value))
    ensures r.Ok? ==> multiset(StandingsOf(r.value)) == multiset(Standings(entries))
  {
    match ParseTimeframe(timeframe)
    case Err(m) => Err(m)
    case Ok(_) =>
      var sorted := Sort(Standings(entries));
      assert StandingsOf(Rank(sorted)) == sorted;
      Ok(Rank(sorted))
  }

  /** Every object-valued user record appears on the leaderboard. */
  lemma EveryRecordIsRanked(timeframe: string, entries: seq<(string, Value)>, uid: string, user: Value)
    requires ParseTimeframe(timeframe).Ok?
    requires (uid, user) in entries && IsRecord(user)
    ensures exists i ::
              && 0 <= i < |ComputeLeaderboard(timeframe, entries).value|
              && ComputeLeaderboard(timeframe, entries).value[i].standing == ToStanding(uid, user)
  {
    var r := ComputeLeaderboard(timeframe, entries).value;
    var s := StandingsOf(r);
    assert ToStanding(uid, user) in multiset(Standings(entries));
    assert ToStanding(uid, user) in multiset(s);
    var i :| 0 <= i < |s| && s[i] == ToStanding(uid, user);
  }

  /** On the leaderboard, a user with more approved works always ranks above one with fewer. */
  lemma MoreWorksRankHigher(timeframe: string, entries: seq<(string, Value)>, i: nat, j: nat)
    requires ParseTimeframe(timeframe).Ok?
    ensures var r := ComputeLeaderboard(timeframe, entries).value;
      i < |r| && j < |r| && r[i].standing.approvedWorks > r[j].standing.approvedWorks ==>
        i < j && r[i].rank < r[j].rank
  {
    var r := ComputeLeaderboard(timeframe, entries).value;
    if i < |r| && j < |r| && r[i].standing.approvedWorks > r[j].standing.approvedWorks {
      SortedByWorks(StandingsOf(r), i, j);
    }
  }

  lemma SortedByWorks(s: seq<Standing>, i: nat, j: nat)
    requires Sorted(s)
    requires i < |s| && j < |s| && s[i].approvedWorks > s[j].approvedWorks
    ensures i < j
  {
  }
}
