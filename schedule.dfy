/** The pickup schedule page: splitting the fetched pickups into upcoming and completed ones. */
module SchedulePage {
  import opened Remote
  import opened JsStrings

  datatype Pickup = Pickup(
    id: string,
    pickupDate: string,       // `YYYY-MM-DD`
    pickupTimeStart: string,
    pickupTimeEnd: string,
    wasteTypes: seq<string>,
    status: string,
    notes: Option<string>,
    createdAt: string)

  /** The statuses the page treats as closed: `['completed', 'cancelled'].includes(status)`. */
  predicate IsClosed(status: string) {
    status == "completed" || status == "cancelled"
  }

  /** The `upcoming` filter: dated today or later and not closed. */
  predicate IsUpcoming(p: Pickup, today: string) {
    !LexLess(p.pickupDate, today) && !IsClosed(p.status)
  }

  /** The `completed` filter: dated before today or closed. */
  predicate IsCompleted(p: Pickup, today: string) {
    LexLess(p.pickupDate, today) || IsClosed(p.status)
  }

  /** `pickups.filter(IsUpcoming)`, keeping the fetched order. */
  function Upcoming(ps: seq<Pickup>, today: string): (r: seq<Pickup>)
    ensures |r| <= |ps|
    ensures forall p :: p in r <==> p in ps && IsUpcoming(p, today)
  {
    if ps == [] then []
    else if IsUpcoming(ps[0], today) then [ps[0]] + Upcoming(ps[1..], today)
    else Upcoming(ps[1..], today)
  }

  /** `pickups.filter(IsCompleted)`, keeping the fetched order. */
  function Completed(ps: seq<Pickup>, today: string): (r: seq<Pickup>)
    ensures |r| <= |ps|
    ensures forall p :: p in r <==> p in ps && IsCompleted(p, today)
  {
    if ps == [] then []
    else if IsCompleted(ps[0], today) then [ps[0]] + Completed(ps[1..], today)
    else Completed(ps[1..], today)
  }

  /** The two filters are complements: each pickup satisfies exactly one of them. */
  lemma ClassifiedExactlyOnce(p: Pickup, today: string)
    ensures IsUpcoming(p, today) <==> !IsCompleted(p, today)
    ensures IsClosed(p.status) ==> !IsUpcoming(p, today) && IsCompleted(p, today)
    ensures LexLess(p.pickupDate, today) ==> IsCompleted(p, today)
    ensures !LexLess(p.pickupDate, today) && p.status in {"scheduled", "confirmed", "pending"}
            ==> IsUpcoming(p, today)
  {
  }

  /** A pickup dated today itself that is still open is upcoming: `>=` admits the equal date. */
  lemma TodayIsUpcoming(p: Pickup, today: string)
    requires p.pickupDate == today && !IsClosed(p.status)
    ensures IsUpcoming(p, today) && !IsCompleted(p, today)
  {
    LexLessIrreflexive(today);
  }

  /** A pickup that is past on one day is still past, and so completed, on every later day. */
  lemma PastStaysCompleted(p: Pickup, today: string, later: string)
    requires LexLess(p.pickupDate, today) && !LexLess(later, today)
    ensures IsCompleted(p, later) && !IsUpcoming(p, later)
  {
    if later != today {
      LexLessTotal(today, later);
      LexLessTransitive(p.pickupDate, today, later);
    }
  }

  /** Every fetched pickup lands in exactly one of the two lists, with its multiplicity. */
  lemma {:induction false} PartitionOfFetched(ps: seq<Pickup>, today: string)
    ensures multiset(Upcoming(ps, today)) + multiset(Completed(ps, today)) == multiset(ps)
    ensures |Upcoming(ps, today)| + |Completed(ps, today)| == |ps|
  {
    if ps != [] {
      PartitionOfFetched(ps[1..], today);
      assert ps == [ps[0]] + ps[1..];
      assert multiset(ps) == multiset{ps[0]} + multiset(ps[1..]);
    }
  }

  /** Ascending by `pickup_date`, as the query's `order('pickup_date', { ascending: true })` returns them. */
  predicate SortedByDate(ps: seq<Pickup>) {
    forall i, j :: 0 <= i < j < |ps| ==> !LexLess(ps[j].pickupDate, ps[i].pickupDate)
  }

  lemma {:induction false} UpcomingKeepsOrder(ps: seq<Pickup>, today: string)
    requires SortedByDate(ps)
    ensures SortedByDate(Upcoming(ps, today))
  {
    if ps != [] {
      assert SortedByDate(ps[1..]) by {
        forall i, j | 0 <= i < j < |ps[1..]|
          ensures !LexLess(ps[1..][j].pickupDate, ps[1..][i].pickupDate)
        {
          assert ps[1..][i] == ps[i + 1] && ps[1..][j] == ps[j + 1];
        }
      }
      UpcomingKeepsOrder(ps[1..], today);
      HeadBeforeRest(ps);
    }
  }

  lemma {:induction false} CompletedKeepsOrder(ps: seq<Pickup>, today: string)
    requires SortedByDate(ps)
    ensures SortedByDate(Completed(ps, today))
  {
    if ps != [] {
      assert SortedByDate(ps[1..]) by {
        forall i, j | 0 <= i < j < |ps[1..]|
          ensures !LexLess(ps[1..][j].pickupDate, ps[1..][i].pickupDate)
        {
          assert ps[1..][i] == ps[i + 1] && ps[1..][j] == ps[j + 1];
        }
      }
      CompletedKeepsOrder(ps[1..], today);
      HeadBeforeRest(ps);
    }
  }

  /** In a sorted list, no later pickup is dated before the first one. */
  lemma HeadBeforeRest(ps: seq<Pickup>)
    requires SortedByDate(ps) && ps != []
    ensures forall p :: p in ps[1..] ==> !LexLess(p.pickupDate, ps[0].pickupDate)
  {
    forall p | p in ps[1..] ensures !LexLess(p.pickupDate, ps[0].pickupDate) {
      var k :| 0 <= k < |ps[1..]| && ps[1..][k] == p;
      assert ps[k + 1] == p;
    }
  }

  /** What `supabase.auth.getUser()` gave the page. */
  datatype UserLookup = LookupThrew | NoUser | SignedIn(userId: string)

  /** What the `pickups` query gave the page; `data` may be null without an error. */
  datatype PickupQuery = QueryThrew | QueryError(message: string) | QueryData(data: Option<seq<Pickup>>)

  /** `pickups || []`. */
  function RowsOf(data: Option<seq<Pickup>>): seq<Pickup> {
    match data
    case Some(rows) => rows
    case None => []
  }

  /** The backend calls the page makes: the user lookup, then the user's `pickups` ordered by date. */
  datatype ScheduleCall = GetUser | SelectPickups(userId: string)

  class Schedules {
    var upcomingSchedules: seq<Pickup>
    var completedSchedules: seq<Pickup>
    var loading: bool
    /** The backend calls made so far, oldest first. */
    var calls: seq<ScheduleCall>

    constructor ()
      ensures upcomingSchedules == [] && completedSchedules == [] && loading && calls == []
    {
      upcomingSchedules, completedSchedules, loading, calls := [], [], true, [];
    }

    /**
     * `fetchSchedules`: `now` stands for `new Date().toISOString()`. Only a
     * signed-in user and a query without error replace the two lists; every
     * path ends with `loading` false.
     */
    method FetchSchedules(user: UserLookup, query: PickupQuery, now: string)
      modifies this
      ensures !loading
      ensures calls == old(calls) + [GetUser] + (if user.SignedIn? then [SelectPickups(user.userId)] else [])
      ensures user.SignedIn? && query.QueryData? ==>
        var today := BeforeFirst(now, 'T');
        && upcomingSchedules == Upcoming(RowsOf(query.data), today)
        && completedSchedules == Completed(RowsOf(query.data), today)
      ensures !(user.SignedIn? && query.QueryData?) ==>
        upcomingSchedules == old(upcomingSchedules) && completedSchedules == old(completedSchedules)
    {
      loading := true;
      calls := calls + [GetUser];
      if !user.SignedIn? {
        loading := false;
        return;
      }
      calls := calls + [SelectPickups(user.userId)];
      if !query.QueryData? {
        loading := false;
        return;
      }
      var today := BeforeFirst(now, 'T');
      var pickups := RowsOf(query.data);
      upcomingSchedules := Upcoming(pickups, today);
      completedSchedules := Completed(pickups, today);
      loading := false;
    }
  }

  const Blue := "bg-blue-100 text-blue-800"
  const Green := "bg-green-100 text-green-800"
  const Yellow := "bg-yellow-100 text-yellow-800"
  const Gray := "bg-gray-100 text-gray-800"
  const Red := "bg-red-100 text-red-800"

  /** `getStatusColor`: the badge classes of a status; every other status looks like `completed`. */
  function StatusColor(status: string): (r: string)
    ensures r in {Blue, Green, Yellow, Gray, Red}
    ensures r == Gray <==> status !in {"scheduled", "confirmed", "pending", "cancelled"}
  {
    match status
    case "scheduled" => Blue
    case "confirmed" => Green
    case "pending" => Yellow
    case "completed" => Gray
    case "cancelled" => Red
    case _ => Gray
  }

  /** Any status outside the five known ones gets the same badge as `completed`. */
  lemma UnknownStatusLooksCompleted(status: string)
    requires status !in {"scheduled", "confirmed", "pending", "completed", "cancelled"}
    ensures StatusColor(status) == StatusColor("completed")
  {
  }

  /** The five known statuses get pairwise different badges. */
  lemma KnownStatusesDistinct(s: string, t: string)
    requires s in {"scheduled", "confirmed", "pending", "completed", "cancelled"}
    requires t in {"scheduled", "confirmed", "pending", "completed", "cancelled"}
    requires s != t
    ensures StatusColor(s) != StatusColor(t)
  {
  }

  /** `status.charAt(0).toUpperCase() + status.slice(1)`. */
  function StatusLabel(status: string): (r: string)
    ensures |r| == |status|
    ensures r == [] || (r[0] == UpperChar(status[0]) && r[1..] == status[1..])
  {
    if status == "" then "" else Upper(status[..1]) + status[1..]
  }

  /** Labelling an already labelled status changes nothing more. */
  lemma StatusLabelIdempotent(status: string)
    ensures StatusLabel(StatusLabel(status)) == StatusLabel(status)
  {
    if status != "" {
      var r := StatusLabel(status);
      assert r[0] == UpperChar(status[0]);
      assert UpperChar(r[0]) == r[0];
      assert StatusLabel(r) == [UpperChar(r[0])] + r[1..];
      assert r == [r[0]] + r[1..];
    }
  }

  lemma KnownStatusLabels()
    ensures StatusLabel("scheduled") == "Scheduled"
    ensures StatusLabel("completed") == "Completed"
    ensures StatusLabel("cancelled") == "Cancelled"
  {
  }
}
