/**
 * The attribution block of `initializeMockData`: for every activated session,
 * gather that user's sessions, keep the non-organic ones, and take the first
 * and last of them in array order (falling back to the activating session
 * itself when there are none). There is no time window and no sorting: the
 * order is the order of the session array.
 */
module Attribution {
  import opened JsBuiltins
  import opened Records

  /** The conditions the `Array.prototype.filter` calls select by. */
  datatype Criterion =
    | Activated                       // s.is_activated === 1
    | OfUser(userId: string)          // s.user_id === user.user_id
    | Marketing                       // s.source !== 'organic'
    | MarketingOfUser(userId: string) // both of the last two

  predicate Holds(c: Criterion, s: Session) {
    match c
    case Activated => s.isActivated == 1
    case OfUser(u) => s.userId == u
    case Marketing => IsMarketing(s)
    case MarketingOfUser(u) => s.userId == u && IsMarketing(s)
  }

  /** `ss.filter(...)`: the elements satisfying `c`, in their original order. */
  function Filter(c: Criterion, ss: seq<Session>): seq<Session>
  {
    if ss == [] then []
    else Filter(c, ss[..|ss| - 1]) + (if Holds(c, ss[|ss| - 1]) then [ss[|ss| - 1]] else [])
  }

  /** The positions in `ss` that Filter keeps, in increasing order. */
  function FilterIndices(c: Criterion, ss: seq<Session>): seq<nat>
  {
    if ss == [] then []
    else FilterIndices(c, ss[..|ss| - 1]) + (if Holds(c, ss[|ss| - 1]) then [|ss| - 1] else [])
  }

  /** Filter keeps exactly the elements satisfying `c`, each once, and keeps their order. */
  lemma {:induction false} FilterSelects(c: Criterion, ss: seq<Session>)
    ensures var f, ix := Filter(c, ss), FilterIndices(c, ss);
      && |ix| == |f|
      && (forall j :: 0 <= j < |ix| ==> ix[j] < |ss| && f[j] == ss[ix[j]] && Holds(c, ss[ix[j]]))
      && (forall j, k :: 0 <= j < k < |ix| ==> ix[j] < ix[k])
      && (forall i :: 0 <= i < |ss| && Holds(c, ss[i]) ==> i in ix)
  {
    if ss != [] {
      var init := ss[..|ss| - 1];
      FilterSelects(c, init);
      forall i | 0 <= i < |init| ensures init[i] == ss[i] { }
    }
  }

  /** The positions of `ss` whose session satisfies `c`. */
  function Matches(c: Criterion, ss: seq<Session>): set<nat> {
    set i: nat | i < |ss| && Holds(c, ss[i])
  }

  /** Adding one session to the end adds its position to the matches exactly when it satisfies `c`. */
  lemma MatchesStep(c: Criterion, ss: seq<Session>)
    requires ss != []
    ensures var n := |ss| - 1;
      Matches(c, ss) == Matches(c, ss[..n]) + (if Holds(c, ss[n]) then {n} else {})
      && n !in Matches(c, ss[..n])
  {
    var n := |ss| - 1;
    forall i: nat | i < n ensures ss[..n][i] == ss[i] { }
  }

  /** The number of elements Filter keeps is the number of positions satisfying `c`. */
  lemma {:induction false} FilterCount(c: Criterion, ss: seq<Session>)
    ensures |Filter(c, ss)| == |Matches(c, ss)|
  {
    if ss != [] {
      FilterCount(c, ss[..|ss| - 1]);
      MatchesStep(c, ss);
    }
  }

  /** Filtering a concatenation filters each part. */
  lemma {:induction false} FilterAppend(c: Criterion, a: seq<Session>, b: seq<Session>)
    ensures Filter(c, a + b) == Filter(c, a) + Filter(c, b)
  {
    if b == [] {
      assert a + b == a;
    } else {
      var n := |b| - 1;
      assert (a + b)[..|a + b| - 1] == a + b[..n];
      assert (a + b)[|a + b| - 1] == b[n];
      FilterAppend(c, a, b[..n]);
    }
  }

  /** The first element Filter keeps is the earliest element satisfying `c`. */
  lemma FilterFirst(c: Criterion, ss: seq<Session>)
    ensures |Filter(c, ss)| > 0 <==> exists i :: 0 <= i < |ss| && Holds(c, ss[i])
    ensures |Filter(c, ss)| > 0 ==> exists i :: (0 <= i < |ss| && Holds(c, ss[i])
      && Filter(c, ss)[0] == ss[i] && forall k :: 0 <= k < i ==> !Holds(c, ss[k]))
  {
    FilterSelects(c, ss);
    var ix := FilterIndices(c, ss);
    if |ix| > 0 {
      var i := ix[0];
      assert forall k :: 0 <= k < i ==> !Holds(c, ss[k]);
    }
  }

  /** The last element Filter keeps is the latest element satisfying `c`. */
  lemma FilterLast(c: Criterion, ss: seq<Session>)
    ensures |Filter(c, ss)| > 0 ==> exists i :: (0 <= i < |ss| && Holds(c, ss[i])
      && Filter(c, ss)[|Filter(c, ss)| - 1] == ss[i] && forall k :: i < k < |ss| ==> !Holds(c, ss[k]))
  {
    FilterSelects(c, ss);
    var ix := FilterIndices(c, ss);
    if |ix| > 0 {
      var last := |ix| - 1;
      var i := ix[last];
      assert forall k :: i < k < |ss| ==> !Holds(c, ss[k]);
    }
  }

  /** Filtering a user's sessions for marketing ones is one filter on both conditions. */
  lemma {:induction false} FilterUserThenMarketing(u: string, ss: seq<Session>)
    ensures Filter(Marketing, Filter(OfUser(u), ss)) == Filter(MarketingOfUser(u), ss)
  {
    if ss != [] {
      var init, x := ss[..|ss| - 1], ss[|ss| - 1];
      FilterUserThenMarketing(u, init);
      var users := Filter(OfUser(u), init);
      assert ss[..|ss| - 1] == init;
      if Holds(OfUser(u), x) {
        assert Filter(OfUser(u), ss) == users + [x];
        assert (users + [x])[..|users + [x]| - 1] == users;
      } else {
        assert Filter(OfUser(u), ss) == users;
      }
    }
  }

  /** The user has a session whose source is not `organic` (the source's `hasMarketing`). */
  predicate HasMarketing(all: seq<Session>, userId: string) {
    exists i :: 0 <= i < |all| && Holds(MarketingOfUser(userId), all[i])
  }

  /** The row pushed for one activated session `user`, with `cost` the drawn cost. */
  function AttributeUser(all: seq<Session>, user: Session, cost: real): AttributionRow {
    var userSessions := Filter(OfUser(user.userId), all);
    var marketingSessions := Filter(Marketing, userSessions);
    var hasMarketing := |marketingSessions| > 0;
    var firstTouch := if hasMarketing then marketingSessions[0] else user;
    var lastTouch := if hasMarketing then marketingSessions[|marketingSessions| - 1] else user;
    AttributionRow(
      user.userId,
      user.sessionStartTime,
      firstTouch.source,
      firstTouch.campaignId,
      lastTouch.source,
      lastTouch.campaignId,
      if hasMarketing then Some(cost) else None)
  }

  /** The activated sessions, in array order. */
  function ActivatedSessions(all: seq<Session>): seq<Session> {
    Filter(Activated, all)
  }

  /** All attribution rows: one per activated session, the k-th drawing cost `costs[k]`. */
  function AttributionRows(all: seq<Session>, costs: seq<real>): seq<AttributionRow>
    requires |costs| >= |ActivatedSessions(all)|
  {
    var act := ActivatedSessions(all);
    seq(|act|, k requires 0 <= k < |act| => AttributeUser(all, act[k], costs[k]))
  }

  /**
   * One row per activated session, in the order of those sessions: row k comes from
   * the k-th activated position of the array, copies that session's user id and start
   * time, and every activated position has its row.
   */
  lemma AttributionRowPerActivation(all: seq<Session>, costs: seq<real>)
    requires |costs| >= |ActivatedSessions(all)|
    ensures var rows, ix := AttributionRows(all, costs), FilterIndices(Activated, all);
      && |rows| == |ix|
      && (forall k :: 0 <= k < |ix| ==>
            && ix[k] < |all| && all[ix[k]].isActivated == 1
            && rows[k] == AttributeUser(all, all[ix[k]], costs[k])
            && rows[k].userId == all[ix[k]].userId
            && rows[k].activationSessionStartTime == all[ix[k]].sessionStartTime)
      && (forall j, k :: 0 <= j < k < |ix| ==> ix[j] < ix[k])
      && (forall i :: 0 <= i < |all| && all[i].isActivated == 1 ==> i in ix)
  {
    FilterSelects(Activated, all);
  }

  /** The number of rows equals the number of activated sessions (the demo's correlation check). */
  lemma AttributionCountMatchesActivations(all: seq<Session>, costs: seq<real>)
    requires |costs| >= |ActivatedSessions(all)|
    ensures |AttributionRows(all, costs)| == |set i: nat | i < |all| && all[i].isActivated == 1|
  {
    FilterCount(Activated, all);
    assert Matches(Activated, all) == set i: nat | i < |all| && all[i].isActivated == 1;
  }

  /** A user with two activated sessions gets two rows. */
  lemma TwoActivationsTwoRows(all: seq<Session>, costs: seq<real>, i1: nat, i2: nat)
    requires |costs| >= |ActivatedSessions(all)|
    requires i1 < i2 < |all| && all[i1].isActivated == 1 && all[i2].isActivated == 1
    requires all[i1].userId == all[i2].userId
    ensures var rows := AttributionRows(all, costs);
      exists j1, j2 :: 0 <= j1 < j2 < |rows| && rows[j1].userId == all[i1].userId
        && rows[j2].userId == all[i1].userId
  {
    AttributionRowPerActivation(all, costs);
    var ix := FilterIndices(Activated, all);
    var j1 :| 0 <= j1 < |ix| && ix[j1] == i1;
    var j2 :| 0 <= j2 < |ix| && ix[j2] == i2;
    if j2 <= j1 {
      assert false;
    }
    var rows := AttributionRows(all, costs);
    assert rows[j1].userId == all[i1].userId && rows[j2].userId == all[i1].userId;
  }

  /** First touch is the user's earliest non-organic session in array order. */
  lemma FirstTouchIsEarliestMarketing(all: seq<Session>, user: Session, cost: real)
    requires HasMarketing(all, user.userId)
    ensures var r := AttributeUser(all, user, cost);
      exists i :: 0 <= i < |all| && Holds(MarketingOfUser(user.userId), all[i])
        && (forall k :: 0 <= k < i ==> !Holds(MarketingOfUser(user.userId), all[k]))
        && r.firstTouchAttributionSource == all[i].source
        && r.firstTouchCampaignId == all[i].campaignId
  {
    FilterUserThenMarketing(user.userId, all);
    FilterFirst(MarketingOfUser(user.userId), all);
  }

  /** Last touch is the user's latest non-organic session in array order. */
  lemma LastTouchIsLatestMarketing(all: seq<Session>, user: Session, cost: real)
    requires HasMarketing(all, user.userId)
    ensures var r := AttributeUser(all, user, cost);
      exists i :: 0 <= i < |all| && Holds(MarketingOfUser(user.userId), all[i])
        && (forall k :: i < k < |all| ==> !Holds(MarketingOfUser(user.userId), all[k]))
        && r.lastTouchAttributionSource == all[i].source
        && r.lastTouchCampaignId == all[i].campaignId
  {
    FilterUserThenMarketing(user.userId, all);
    FilterFirst(MarketingOfUser(user.userId), all);
    FilterLast(MarketingOfUser(user.userId), all);
  }

  /** With exactly one non-organic session, first touch and last touch are that session. */
  lemma SingleMarketingTouch(all: seq<Session>, user: Session, cost: real, i: nat)
    requires i < |all| && Holds(MarketingOfUser(user.userId), all[i])
    requires forall k :: 0 <= k < |all| && k != i ==> !Holds(MarketingOfUser(user.userId), all[k])
    ensures var r := AttributeUser(all, user, cost);
      && r.firstTouchAttributionSource == r.lastTouchAttributionSource == all[i].source
      && r.firstTouchCampaignId == r.lastTouchCampaignId == all[i].campaignId
  {
    FirstTouchIsEarliestMarketing(all, user, cost);
    LastTouchIsLatestMarketing(all, user, cost);
  }

  /** Marketing precedence: with any marketing session, neither touch reports `organic`. */
  lemma MarketingPrecedence(all: seq<Session>, user: Session, cost: real)
    requires HasMarketing(all, user.userId)
    ensures var r := AttributeUser(all, user, cost);
      r.firstTouchAttributionSource != Organic && r.lastTouchAttributionSource != Organic
  {
    FirstTouchIsEarliestMarketing(all, user, cost);
    LastTouchIsLatestMarketing(all, user, cost);
  }

  /**
   * Organic fallback: with no marketing session, both touches are the activating
   * session itself; when that session is one of the user's sessions and organic
   * sessions carry no campaign, both touches are `organic` with a null campaign.
   */
  lemma OrganicFallback(all: seq<Session>, user: Session, cost: real)
    requires !HasMarketing(all, user.userId)
    ensures var r := AttributeUser(all, user, cost);
      && r.firstTouchAttributionSource == r.lastTouchAttributionSource == user.source
      && r.firstTouchCampaignId == r.lastTouchCampaignId == user.campaignId
    ensures user in all && OrganicHasNoCampaign(all) ==>
      var r := AttributeUser(all, user, cost);
      && r.firstTouchAttributionSource == r.lastTouchAttributionSource == Organic
      && r.firstTouchCampaignId == r.lastTouchCampaignId == None
  {
    FilterUserThenMarketing(user.userId, all);
    FilterFirst(MarketingOfUser(user.userId), all);
    if user in all {
      var i :| 0 <= i < |all| && all[i] == user;
      assert !Holds(MarketingOfUser(user.userId), all[i]);
    }
  }

  /** The cost per activation is null exactly when the user has no marketing session. */
  lemma CostNullIffNoMarketing(all: seq<Session>, user: Session, cost: real)
    ensures var r := AttributeUser(all, user, cost);
      (r.costPerActivation == None <==> !HasMarketing(all, user.userId))
      && (r.costPerActivation != None ==> r.costPerActivation == Some(cost))
  {
    FilterUserThenMarketing(user.userId, all);
    FilterFirst(MarketingOfUser(user.userId), all);
  }
}
