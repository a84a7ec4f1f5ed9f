/** The activity correlator: which scheduled activities have not ended yet. */
module Correlator {
  import opened Protocol

  datatype ActivityInfo = ActivityInfo(activityID: string, activityType: ActivityType)

  /** The correlator's map, keyed by the decimal text of the scheduling event's ID. */
  type Pending = map<string, ActivityInfo>

  // ----- decimal text of an integer -----

  function Digits(n: nat): (s: string)
    ensures |s| > 0 && forall i :: 0 <= i < |s| ==> '0' <= s[i] <= '9'
  {
    if n < 10 then [('0' as int + n) as char] else Digits(n / 10) + [('0' as int + n % 10) as char]
  }

  function Itoa(n: int): string {
    if n < 0 then ['-'] + Digits(-n) else Digits(n)
  }

  lemma {:induction false} DigitsInjective(m: nat, n: nat)
    requires Digits(m) == Digits(n)
    ensures m == n
  {
    var s, t := Digits(m), Digits(n);
    assert s[|s| - 1] == t[|t| - 1];
    if m >= 10 && n >= 10 {
      assert s[..|s| - 1] == Digits(m / 10) && t[..|t| - 1] == Digits(n / 10);
      DigitsInjective(m / 10, n / 10);
    }
  }

  lemma ItoaInjective(m: int, n: int)
    requires Itoa(m) == Itoa(n)
    ensures m == n
  {
    assert Itoa(m)[0] == Itoa(n)[0];
    if m < 0 && n < 0 {
      assert Itoa(m)[1..] == Digits(-m) && Itoa(n)[1..] == Digits(-n);
      DigitsInjective(-m, -n);
    } else if m >= 0 && n >= 0 {
      DigitsInjective(m, n);
    }
  }

  /** The number that a text of decimal digits stands for. */
  function ValueOf(s: string): nat
    requires forall i :: 0 <= i < |s| ==> '0' <= s[i] <= '9'
  {
    if s == [] then 0 else 10 * ValueOf(s[..|s| - 1]) + (s[|s| - 1] as int - '0' as int)
  }

  /** The text is the decimal numeral of the number: digits without leading zero, after a minus sign if the
      number is negative. */
  predicate DecimalText(s: string, n: int) {
    var digits := if n < 0 && s != [] then s[1..] else s;
    && (n < 0 ==> s != [] && s[0] == '-')
    && digits != [] && (forall i :: 0 <= i < |digits| ==> '0' <= digits[i] <= '9')
    && (|digits| > 1 ==> digits[0] != '0')
    && ValueOf(digits) == if n < 0 then -n else n
  }

  lemma {:induction false} DigitsAreDecimal(n: nat)
    ensures DecimalText(Digits(n), n) && (n > 0 ==> Digits(n)[0] != '0')
  {
    var s := Digits(n);
    if n < 10 {
      assert s[..0] == [];
    } else {
      DigitsAreDecimal(n / 10);
      assert s[..|s| - 1] == Digits(n / 10);
    }
  }

  /** Itoa gives the decimal numeral. */
  lemma ItoaIsDecimal(n: int)
    ensures DecimalText(Itoa(n), n)
  {
    hide Digits, ValueOf;
    if n < 0 {
      DigitsAreDecimal(-n);
      assert Itoa(n)[1..] == Digits(-n);
    } else {
      DigitsAreDecimal(n);
    }
  }

  // ----- tracking -----

  function Removed(p: Pending, e: Event): Pending {
    if e.body.EndsActivity() then p - {Itoa(e.body.scheduledEventID)} else p
  }

  function Correlated(p: Pending, e: Event): Pending {
    if e.body.ActivityTaskScheduled?
    then p[Itoa(e.id) := ActivityInfo(e.body.activityID, e.body.activityType)]
    else p
  }

  function Tracked(p: Pending, e: Event): Pending {
    Correlated(Removed(p, e), e)
  }

  function Lookup(p: Pending, e: Event): Option<ActivityInfo> {
    if e.body.EndsActivity() && Itoa(e.body.scheduledEventID) in p
    then Some(p[Itoa(e.body.scheduledEventID)])
    else None
  }

  /** Tracks a whole newest-first event list, oldest event first. */
  function TrackedAll(p: Pending, events: seq<Event>): Pending {
    if events == [] then p else Tracked(TrackedAll(p, events[1..]), events[0])
  }

  class ActivityCorrelator {
    var activities: Pending

    constructor (activities: Pending)
      ensures this.activities == activities
    {
      this.activities := activities;
    }

    method Track(e: Event)
      modifies this
      ensures activities == Tracked(old(activities), e)
    {
      RemoveCorrelation(e);
      Correlate(e);
    }

    method Correlate(e: Event)
      modifies this
      ensures activities == Correlated(old(activities), e)
    {
      if e.body.ActivityTaskScheduled? {
        activities := activities[Itoa(e.id) := ActivityInfo(e.body.activityID, e.body.activityType)];
      }
    }

    method RemoveCorrelation(e: Event)
      modifies this
      ensures activities == Removed(old(activities), e)
      ensures activities ==
              match e.body
              case ActivityTaskCompleted(id) => old(activities) - {Itoa(id)}
              case ActivityTaskFailed(id) => old(activities) - {Itoa(id)}
              case ActivityTaskTimedOut(id) => old(activities) - {Itoa(id)}
              case ActivityTaskCanceled(id) => old(activities) - {Itoa(id)}
              case _ => old(activities)
    {
      match e.body {
        case ActivityTaskCompleted(id) => activities := activities - {Itoa(id)};
        case ActivityTaskFailed(id) => activities := activities - {Itoa(id)};
        case ActivityTaskTimedOut(id) => activities := activities - {Itoa(id)};
        case ActivityTaskCanceled(id) => activities := activities - {Itoa(id)};
        case _ =>
      }
    }

    /** The info recorded for the activity that an event ends, if there is one. */
    method ActivityType(e: Event) returns (info: Option<ActivityInfo>)
      ensures info == Lookup(activities, e)
      ensures info ==
              match e.body
              case ActivityTaskCompleted(id) => if Itoa(id) in activities then Some(activities[Itoa(id)]) else None
              case ActivityTaskFailed(id) => if Itoa(id) in activities then Some(activities[Itoa(id)]) else None
              case ActivityTaskTimedOut(id) => if Itoa(id) in activities then Some(activities[Itoa(id)]) else None
              case ActivityTaskCanceled(id) => if Itoa(id) in activities then Some(activities[Itoa(id)]) else None
              case _ => None
    {
      match e.body {
        case ActivityTaskCompleted(id) => info := if Itoa(id) in activities then Some(activities[Itoa(id)]) else None;
        case ActivityTaskFailed(id) => info := if Itoa(id) in activities then Some(activities[Itoa(id)]) else None;
        case ActivityTaskTimedOut(id) => info := if Itoa(id) in activities then Some(activities[Itoa(id)]) else None;
        case ActivityTaskCanceled(id) => info := if Itoa(id) in activities then Some(activities[Itoa(id)]) else None;
        case _ => info := None;
      }
    }
  }

  // ----- what the map means -----

  /** `q` is `p` without that key, and otherwise the same. */
  predicate DropsOnly(p: Pending, q: Pending, key: string) {
    && key !in q
    && (forall k :: k in p && k != key ==> k in q && q[k] == p[k])
    && (forall k :: k in q ==> k in p)
  }

  /** Tracking and lookup, constructor by constructor: each of the four endings drops the entry of the event
      that it names and nothing else, and finds that entry as long as it is there; a scheduling adds its own;
      and every other event does and finds nothing. */
  lemma TrackingByConstructor(p: Pending, e: Event)
    ensures forall k :: e.body == ActivityTaskCompleted(k) ==> DropsOnly(p, Tracked(p, e), Itoa(k))
    ensures forall k :: e.body == ActivityTaskFailed(k) ==> DropsOnly(p, Tracked(p, e), Itoa(k))
    ensures forall k :: e.body == ActivityTaskTimedOut(k) ==> DropsOnly(p, Tracked(p, e), Itoa(k))
    ensures forall k :: e.body == ActivityTaskCanceled(k) ==> DropsOnly(p, Tracked(p, e), Itoa(k))
    ensures forall k :: e.body == ActivityTaskCompleted(k) || e.body == ActivityTaskFailed(k)
                        || e.body == ActivityTaskTimedOut(k) || e.body == ActivityTaskCanceled(k) ==>
              Lookup(p, e) == if Itoa(k) in p then Some(p[Itoa(k)]) else None
    ensures forall id, t :: e.body == ActivityTaskScheduled(id, t) ==>
              Tracked(p, e) == p[Itoa(e.id) := ActivityInfo(id, t)] && Lookup(p, e) == None
    ensures !e.body.ActivityTaskCompleted? && !e.body.ActivityTaskFailed? && !e.body.ActivityTaskTimedOut?
            && !e.body.ActivityTaskCanceled? && !e.body.ActivityTaskScheduled? ==>
              Tracked(p, e) == p && Lookup(p, e) == None
  {
  }

  /** The engine tracks every event twice; the second time changes nothing. */
  lemma TrackTwice(p: Pending, e: Event)
    ensures Tracked(Tracked(p, e), e) == Tracked(p, e)
  {
  }

  lemma {:induction false} TrackedAllAppend(p: Pending, newer: seq<Event>, older: seq<Event>)
    ensures TrackedAll(p, newer + older) == TrackedAll(TrackedAll(p, older), newer)
  {
    if newer == [] {
      assert newer + older == older;
    } else {
      assert (newer + older)[1..] == newer[1..] + older;
      TrackedAllAppend(p, newer[1..], older);
    }
  }

  predicate Ends(e: Event, id: int) {
    e.body.EndsActivity() && e.body.scheduledEventID == id
  }

  /** `events[i]` scheduled an activity that no later event of the list ended. */
  ghost predicate OpenAt(events: seq<Event>, i: int) {
    && 0 <= i < |events|
    && events[i].body.ActivityTaskScheduled?
    && forall j :: 0 <= j < i ==> !Ends(events[j], events[i].id)
  }

  ghost predicate DistinctIDs(events: seq<Event>) {
    forall i, j :: 0 <= i < j < |events| ==> events[i].id != events[j].id
  }

  function InfoOf(e: Event): ActivityInfo
    requires e.body.ActivityTaskScheduled?
  {
    ActivityInfo(e.body.activityID, e.body.activityType)
  }

  /** Starting from nothing, the map holds exactly the open activities, each under its own scheduling
      event with its own ID and type. */
  ghost predicate HoldsExactlyOpen(p: Pending, events: seq<Event>) {
    && (forall i :: OpenAt(events, i) ==> Itoa(events[i].id) in p && p[Itoa(events[i].id)] == InfoOf(events[i]))
    && (forall key :: key in p ==> exists i :: OpenAt(events, i) && key == Itoa(events[i].id))
  }

  /** Tracking one more event keeps exactly the open activities. */
  lemma OpenOnesAreHeld(p: Pending, e: Event, older: seq<Event>, i: int)
    requires DistinctIDs([e] + older) && HoldsExactlyOpen(p, older) && OpenAt([e] + older, i)
    ensures var events, q := [e] + older, Tracked(p, e);
            Itoa(events[i].id) in q && q[Itoa(events[i].id)] == InfoOf(events[i])
  {
    hide Digits, Itoa;
    var events := [e] + older;
    if i > 0 {
      var id := events[i].id;
      assert OpenAt(older, i - 1) by {
        assert forall j :: 0 <= j < i - 1 ==> older[j] == events[j + 1];
      }
      assert e == events[0] && id != e.id && !Ends(events[0], id);
      if e.body.EndsActivity() && Itoa(e.body.scheduledEventID) == Itoa(id) {
        ItoaInjective(e.body.scheduledEventID, id);
      }
      if Itoa(e.id) == Itoa(id) {
        ItoaInjective(e.id, id);
      }
    }
  }

  lemma HeldOnesAreOpen(p: Pending, e: Event, older: seq<Event>, key: string)
    requires HoldsExactlyOpen(p, older) && key in Tracked(p, e)
    ensures exists i :: OpenAt([e] + older, i) && key == Itoa(([e] + older)[i].id)
  {
    hide Digits, Itoa;
    var events := [e] + older;
    if e.body.ActivityTaskScheduled? && key == Itoa(e.id) {
      OpensAtOnce(e, older);
    } else {
      var i :| OpenAt(older, i) && key == Itoa(older[i].id);
      StaysOpen(e, older, i);
    }
  }

  lemma OpensAtOnce(e: Event, older: seq<Event>)
    requires e.body.ActivityTaskScheduled?
    ensures OpenAt([e] + older, 0) && ([e] + older)[0] == e
  {
  }

  lemma StaysOpen(e: Event, older: seq<Event>, i: int)
    requires OpenAt(older, i) && !Ends(e, older[i].id)
    ensures OpenAt([e] + older, i + 1) && ([e] + older)[i + 1] == older[i]
  {
    var events := [e] + older;
    forall j | 0 <= j < i + 1
      ensures !Ends(events[j], events[i + 1].id)
    {
      if j > 0 {
        assert events[j] == older[j - 1];
      }
    }
  }

  lemma {:induction false} PendingIsExactlyOpen(events: seq<Event>)
    requires DistinctIDs(events)
    ensures HoldsExactlyOpen(TrackedAll(map[], events), events)
  {
    if events != [] {
      var e, older := events[0], events[1..];
      var p := TrackedAll(map[], older);
      PendingIsExactlyOpen(older);
      assert events == [e] + older;
      forall i | OpenAt(events, i)
        ensures Itoa(events[i].id) in Tracked(p, e) && Tracked(p, e)[Itoa(events[i].id)] == InfoOf(events[i])
      {
        OpenOnesAreHeld(p, e, older, i);
      }
      forall key | key in Tracked(p, e)
        ensures exists i :: OpenAt(events, i) && key == Itoa(events[i].id)
      {
        HeldOnesAreOpen(p, e, older, key);
      }
    }
  }

  /** A history names only earlier events as the ones that scheduled an ended activity. */
  ghost predicate EndsFollowSchedules(events: seq<Event>) {
    forall i, j :: 0 <= i < |events| && 0 <= j < |events| && Ends(events[j], events[i].id) ==> j < i
  }

  /** On such a history the map holds a scheduled activity exactly when no event at all ended it. */
  lemma PendingIffNeverEnded(events: seq<Event>, i: nat)
    requires DistinctIDs(events) && EndsFollowSchedules(events)
    requires i < |events| && events[i].body.ActivityTaskScheduled?
    ensures Itoa(events[i].id) in TrackedAll(map[], events) <==>
            !exists j :: 0 <= j < |events| && Ends(events[j], events[i].id)
  {
    PendingIsExactlyOpen(events);
    if Itoa(events[i].id) in TrackedAll(map[], events) {
      var k :| OpenAt(events, k) && Itoa(events[i].id) == Itoa(events[k].id);
      ItoaInjective(events[i].id, events[k].id);
      assert k == i;
    } else {
      assert !OpenAt(events, i);
    }
  }

  /** The decider of the event that ends an open activity still finds that activity's info. */
  lemma EndingEventFindsItsActivity(events: seq<Event>, i: nat, e: Event)
    requires DistinctIDs(events) && OpenAt(events, i) && Ends(e, events[i].id)
    ensures Lookup(TrackedAll(map[], events), e) == Some(InfoOf(events[i]))
  {
    PendingIsExactlyOpen(events);
  }
}
