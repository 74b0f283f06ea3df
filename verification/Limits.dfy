/**
 The per-user request limiter: a counter for one minute, replaced when a call comes in another
 minute.  The counter is tied to the history of calls, and the history to how many calls any
 stretch of time can hold.
 */
module Limits {
  import opened Basics

  type UserId = string

  datatype Bucket = Bucket(minute: int, count: nat)

  /** Go's integer division, which truncates toward zero. */
  function MinuteOf(second: int): int {
    if second >= 0 then second / 60 else -((-second) / 60)
  }

  /** From the epoch on, minute m is the seconds 60m to 60m + 59; before it, minutes mirror those after. */
  lemma MinuteHasSixtySeconds(second: int)
    ensures second >= 0 ==> 60 * MinuteOf(second) <= second < 60 * MinuteOf(second) + 60
    ensures MinuteOf(-second) == -MinuteOf(second)
  {
  }

  /** The bucket a call in this minute counts against: a new one unless the user's is of the same minute. */
  function CurrentBucket(buckets: map<UserId, Bucket>, user: UserId, minute: int): Bucket {
    if user in buckets && buckets[user].minute == minute then buckets[user] else Bucket(minute, 0)
  }

  function Admits(perMinute: int, buckets: map<UserId, Bucket>, user: UserId, second: int): bool {
    perMinute <= 0 || CurrentBucket(buckets, user, MinuteOf(second)).count < perMinute
  }

  function BucketsAfter(perMinute: int, buckets: map<UserId, Bucket>, user: UserId, second: int): map<UserId, Bucket> {
    if perMinute <= 0 then buckets
    else
      var b := CurrentBucket(buckets, user, MinuteOf(second));
      buckets[user := if b.count < perMinute then b.(count := b.count + 1) else b]
  }

  class Guard {
    const perMinute: int
    var buckets: map<UserId, Bucket>

    constructor (perMinute: int)
      ensures this.perMinute == perMinute && buckets == map[]
    {
      this.perMinute, buckets := perMinute, map[];
    }

    method AllowAt(user: UserId, second: int) returns (ok: bool)
      modifies this
      ensures ok == Admits(perMinute, old(buckets), user, second)
      ensures buckets == BucketsAfter(perMinute, old(buckets), user, second)
      ensures perMinute <= 0 ==> ok && buckets == old(buckets)
    {
      if perMinute <= 0 {
        return true;
      }
      var minute := MinuteOf(second);
      if user !in buckets || buckets[user].minute != minute {
        buckets := buckets[user := Bucket(minute, 0)];
      }
      var b := buckets[user];
      if b.count >= perMinute {
        return false;
      }
      buckets := buckets[user := b.(count := b.count + 1)];
      ok := true;
    }
  }

  // ---- whole histories ---------------------------------------------------------------

  datatype Request = Request(user: UserId, second: int)

  /** The buckets of a fresh guard after these calls. */
  function BucketsOf(perMinute: int, calls: seq<Request>): map<UserId, Bucket> {
    if calls == [] then map[]
    else
      var last := calls[|calls| - 1];
      BucketsAfter(perMinute, BucketsOf(perMinute, calls[..|calls| - 1]), last.user, last.second)
  }

  /** The answer the last of these calls got. */
  function Answer(perMinute: int, calls: seq<Request>): bool
    requires calls != []
  {
    var last := calls[|calls| - 1];
    Admits(perMinute, BucketsOf(perMinute, calls[..|calls| - 1]), last.user, last.second)
  }

  /** How many of a user's calls in the minutes `m` to `n` were allowed. */
  function AllowedIn(perMinute: int, calls: seq<Request>, user: UserId, m: int, n: int): nat {
    if calls == [] then 0
    else
      var last := calls[|calls| - 1];
      AllowedIn(perMinute, calls[..|calls| - 1], user, m, n)
      + (if last.user == user && m <= MinuteOf(last.second) <= n && Answer(perMinute, calls) then 1 else 0)
  }

  ghost predicate NonDecreasing(calls: seq<Request>) {
    forall i, j :: 0 <= i <= j < |calls| ==> calls[i].second <= calls[j].second
  }

  /** A user's bucket holds the minute of its latest call and how many calls of that minute were allowed. */
  ghost predicate BucketRight(perMinute: int, calls: seq<Request>, user: UserId) {
    var buckets := BucketsOf(perMinute, calls);
    if user in buckets then
      var minute := buckets[user].minute;
      && buckets[user].count == AllowedIn(perMinute, calls, user, minute, minute)
      && (exists i :: 0 <= i < |calls| && calls[i].user == user && MinuteOf(calls[i].second) == minute)
      && (forall i :: 0 <= i < |calls| && calls[i].user == user ==> MinuteOf(calls[i].second) <= minute)
    else
      forall i :: 0 <= i < |calls| ==> calls[i].user != user
  }

  lemma {:induction false} NoneAllowed(perMinute: int, calls: seq<Request>, user: UserId, minute: int)
    requires forall i :: 0 <= i < |calls| && calls[i].user == user ==> MinuteOf(calls[i].second) != minute
    ensures AllowedIn(perMinute, calls, user, minute, minute) == 0
    decreases |calls|
  {
    if calls != [] {
      NoneAllowed(perMinute, calls[..|calls| - 1], user, minute);
    }
  }

  /** A bucket found at another minute belongs to an earlier one: nothing of this minute was counted yet. */
  lemma CurrentCount(perMinute: int, front: seq<Request>, user: UserId, second: int)
    requires BucketRight(perMinute, front, user)
    requires forall i :: 0 <= i < |front| ==> front[i].second <= second
    ensures
      var minute := MinuteOf(second);
      CurrentBucket(BucketsOf(perMinute, front), user, minute).count == AllowedIn(perMinute, front, user, minute, minute)
    ensures forall i :: 0 <= i < |front| ==> MinuteOf(front[i].second) <= MinuteOf(second)
  {
    var buckets, minute := BucketsOf(perMinute, front), MinuteOf(second);
    if user !in buckets || buckets[user].minute != minute {
      NoneAllowed(perMinute, front, user, minute);
    }
  }

  lemma OwnBucketRight(perMinute: int, calls: seq<Request>)
    requires perMinute > 0 && NonDecreasing(calls) && calls != []
    requires BucketRight(perMinute, calls[..|calls| - 1], calls[|calls| - 1].user)
    ensures BucketRight(perMinute, calls, calls[|calls| - 1].user)
  {
    var front, last := calls[..|calls| - 1], calls[|calls| - 1];
    CurrentCount(perMinute, front, last.user, last.second);
    var b := CurrentBucket(BucketsOf(perMinute, front), last.user, MinuteOf(last.second));
    assert Answer(perMinute, calls) <==> b.count < perMinute;
    assert calls[|calls| - 1].user == last.user;
  }

  lemma OtherBucketRight(perMinute: int, calls: seq<Request>, user: UserId)
    requires perMinute > 0 && calls != [] && calls[|calls| - 1].user != user
    requires BucketRight(perMinute, calls[..|calls| - 1], user)
    ensures BucketRight(perMinute, calls, user)
  {
    var front, last := calls[..|calls| - 1], calls[|calls| - 1];
    assert Lookup(BucketsOf(perMinute, calls), user) == Lookup(BucketsOf(perMinute, front), user);
    forall minute ensures AllowedIn(perMinute, calls, user, minute, minute) == AllowedIn(perMinute, front, user, minute, minute) {
    }
    forall i | 0 <= i < |front| ensures calls[i] == front[i] {
    }
    if user in BucketsOf(perMinute, front) {
      var i :| 0 <= i < |front| && front[i].user == user
        && MinuteOf(front[i].second) == BucketsOf(perMinute, front)[user].minute;
      assert calls[i] == front[i];
    }
  }

  lemma {:induction false} BucketsRight(perMinute: int, calls: seq<Request>, user: UserId)
    requires perMinute > 0 && NonDecreasing(calls)
    ensures BucketRight(perMinute, calls, user)
    decreases |calls|
  {
    if calls != [] {
      BucketsRight(perMinute, calls[..|calls| - 1], user);
      if calls[|calls| - 1].user == user {
        OwnBucketRight(perMinute, calls);
      } else {
        OtherBucketRight(perMinute, calls, user);
      }
    }
  }

  /**
   The limiter refines its history: at times that never go back, a call is allowed exactly when fewer
   than perMinute earlier calls of the same user in the same minute were.
   */
  lemma AllowedIffBudgetLeft(perMinute: int, calls: seq<Request>)
    requires perMinute > 0 && NonDecreasing(calls) && calls != []
    ensures
      var last, minute := calls[|calls| - 1], MinuteOf(calls[|calls| - 1].second);
      Answer(perMinute, calls) <==> AllowedIn(perMinute, calls[..|calls| - 1], last.user, minute, minute) < perMinute
  {
    var front, last := calls[..|calls| - 1], calls[|calls| - 1];
    BucketsRight(perMinute, front, last.user);
    CurrentCount(perMinute, front, last.user, last.second);
  }

  function OfUser(calls: seq<Request>, user: UserId): seq<Request> {
    if calls == [] then []
    else
      OfUser(calls[..|calls| - 1], user)
      + (if calls[|calls| - 1].user == user then [calls[|calls| - 1]] else [])
  }

  /** Other users' calls never affect an answer, at any times: it is the one the user's own calls alone would get. */
  lemma {:induction false} OthersIrrelevant(perMinute: int, calls: seq<Request>, user: UserId)
    ensures Lookup(BucketsOf(perMinute, calls), user) == Lookup(BucketsOf(perMinute, OfUser(calls, user)), user)
    ensures calls != [] && calls[|calls| - 1].user == user ==>
      OfUser(calls, user) != [] && Answer(perMinute, calls) == Answer(perMinute, OfUser(calls, user))
    decreases |calls|
  {
    if calls != [] {
      var front, last := calls[..|calls| - 1], calls[|calls| - 1];
      OthersIrrelevant(perMinute, front, user);
      if last.user == user {
        assert OfUser(calls, user)[..|OfUser(calls, user)| - 1] == OfUser(front, user);
      } else {
        assert OfUser(calls, user) == OfUser(front, user);
      }
    }
  }

  /** How many of the user's latest calls in a row, all in this minute, were allowed. */
  function Streak(perMinute: int, calls: seq<Request>, user: UserId, minute: int): nat {
    if calls == [] then 0
    else
      var front, last := calls[..|calls| - 1], calls[|calls| - 1];
      if last.user != user then Streak(perMinute, front, user, minute)
      else if MinuteOf(last.second) != minute then 0
      else Streak(perMinute, front, user, minute) + (if Answer(perMinute, calls) then 1 else 0)
  }

  lemma {:induction false} BucketIsStreak(perMinute: int, calls: seq<Request>, user: UserId, minute: int)
    requires perMinute > 0
    ensures CurrentBucket(BucketsOf(perMinute, calls), user, minute).count == Streak(perMinute, calls, user, minute)
    decreases |calls|
  {
    if calls != [] {
      var front, last := calls[..|calls| - 1], calls[|calls| - 1];
      BucketIsStreak(perMinute, front, user, minute);
      BucketIsStreak(perMinute, front, user, MinuteOf(last.second));
    }
  }

  /**
   Whatever the clock does, a call is allowed exactly when fewer than perMinute of the same user's calls
   in an unbroken row of that minute were: the limiter counts the minute afresh after any call in another.
   */
  lemma AllowedIffStreakLeft(perMinute: int, calls: seq<Request>)
    requires perMinute > 0 && calls != []
    ensures
      var front, last := calls[..|calls| - 1], calls[|calls| - 1];
      Answer(perMinute, calls) <==> Streak(perMinute, front, last.user, MinuteOf(last.second)) < perMinute
  {
    var front, last := calls[..|calls| - 1], calls[|calls| - 1];
    BucketIsStreak(perMinute, front, last.user, MinuteOf(last.second));
  }

  lemma {:induction false} MinuteBound(perMinute: int, calls: seq<Request>, user: UserId, minute: int)
    requires perMinute > 0 && NonDecreasing(calls)
    ensures AllowedIn(perMinute, calls, user, minute, minute) <= perMinute
    decreases |calls|
  {
    if calls != [] {
      MinuteBound(perMinute, calls[..|calls| - 1], user, minute);
      AllowedIffBudgetLeft(perMinute, calls);
    }
  }

  lemma {:induction false} SplitMinutes(perMinute: int, calls: seq<Request>, user: UserId, m: int, n: int)
    requires m <= n
    ensures AllowedIn(perMinute, calls, user, m, n + 1)
         == AllowedIn(perMinute, calls, user, m, n) + AllowedIn(perMinute, calls, user, n + 1, n + 1)
    decreases |calls|
  {
    if calls != [] {
      SplitMinutes(perMinute, calls[..|calls| - 1], user, m, n);
    }
  }

  lemma {:induction false} MinutesBound(perMinute: int, calls: seq<Request>, user: UserId, m: int, n: int)
    requires perMinute > 0 && NonDecreasing(calls) && m <= n
    ensures AllowedIn(perMinute, calls, user, m, n) <= perMinute * (n - m + 1)
    decreases n - m
  {
    hide AllowedIn;
    MinuteBound(perMinute, calls, user, n);
    if m == n {
      assert perMinute * (n - m + 1) == perMinute * 1;
    } else {
      MinutesBound(perMinute, calls, user, m, n - 1);
      SplitMinutes(perMinute, calls, user, m, n - 1);
      Distribute(n - m, perMinute);
    }
  }

  /** How many of a user's calls at seconds `start` to `end` were allowed. */
  function AllowedWithin(perMinute: int, calls: seq<Request>, user: UserId, start: int, end: int): nat {
    if calls == [] then 0
    else
      var last := calls[|calls| - 1];
      AllowedWithin(perMinute, calls[..|calls| - 1], user, start, end)
      + (if last.user == user && start <= last.second <= end && Answer(perMinute, calls) then 1 else 0)
  }

  lemma {:induction false} SecondsInMinutes(perMinute: int, calls: seq<Request>, user: UserId, start: int, end: int)
    ensures AllowedWithin(perMinute, calls, user, start, end)
         <= AllowedIn(perMinute, calls, user, MinuteOf(start), MinuteOf(end))
    decreases |calls|
  {
    if calls != [] {
      SecondsInMinutes(perMinute, calls[..|calls| - 1], user, start, end);
    }
  }

  lemma MinutesTouched(start: nat, length: nat)
    requires length >= 1
    ensures 0 <= MinuteOf(start + length - 1) - MinuteOf(start) <= (length + 58) / 60
  {
  }

  /** Any `length` consecutive seconds hold at most perMinute * ((length + 58) / 60 + 1) allowed calls of a user; any 60, at most twice perMinute. */
  lemma WindowBound(perMinute: int, calls: seq<Request>, user: UserId, start: nat, length: nat)
    requires perMinute > 0 && NonDecreasing(calls) && length >= 1
    ensures AllowedWithin(perMinute, calls, user, start, start + length - 1) <= perMinute * ((length + 58) / 60 + 1)
  {
    hide AllowedIn, AllowedWithin;
    var first, last := MinuteOf(start), MinuteOf(start + length - 1);
    MinutesTouched(start, length);
    SecondsInMinutes(perMinute, calls, user, start, start + length - 1);
    MinutesBound(perMinute, calls, user, first, last);
    FactorMonotone(last - first + 1, (length + 58) / 60 + 1, perMinute);
  }

  /** When the clock goes back a minute and forward again the count starts over: one call per minute admits two in minute 1. */
  lemma ClockGoingBackOverruns(user: UserId)
    ensures AllowedIn(1, [Request(user, 60), Request(user, 0), Request(user, 60)], user, 1, 1) == 2
  {
    var one := [Request(user, 60)];
    var two := one + [Request(user, 0)];
    var three := two + [Request(user, 60)];
    assert three == [Request(user, 60), Request(user, 0), Request(user, 60)];
    assert one[..0] == [] && two[..1] == one && three[..2] == two;
    assert BucketsOf(1, one) == map[user := Bucket(1, 1)];
    assert BucketsOf(1, two) == map[user := Bucket(0, 1)];
    assert AllowedIn(1, one, user, 1, 1) == 1;
    assert AllowedIn(1, two, user, 1, 1) == 1;
    assert Answer(1, three);
    assert AllowedIn(1, three, user, 1, 1) == 2;
  }
}
