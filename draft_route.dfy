/**
 * The records `/api/create-draft-route` writes: the attractions it selects,
 * the draft trip seeded from the first of them, and one point per attraction,
 * numbered by position. The handler's loop (class `Server.Backend`) is proved
 * against `Planned` and `Committed`.
 */
module DraftRoute {
  import opened JsValues

  /** `.limit(6)` on the attractions query. */
  const AttractionLimit: nat := 6
  const UserIdRequired := "user_id is required"
  const AttractionsUnavailable := "Не удалось получить достопримечательности"
  const TripInsertFailedPrefix := "Ошибка при создании маршрута: "
  const DraftTitle := "Маршрут от AI"
  const UnknownCountry := "Не указана"

  /** A row of the `attractions` table, with the columns the handler reads. */
  datatype Attraction = Attraction(
    name: Value, country: Value, latitude: Value, longitude: Value,
    description: Value, workingStatus: Value, photos: Value)

  /** A row of the `trips` table as the handler inserts it. */
  datatype Trip = Trip(
    id: nat, userId: Value, title: string, country: Value, photoUrl: Value,
    isDraft: bool, likes: nat, comments: nat)

  /** A row of the `points` table as the handler inserts it. */
  datatype Point = Point(
    tripId: nat, name: Value, latitude: Value, longitude: Value,
    howToGet: Value, impressions: Value, order: nat)

  /** The first `AttractionLimit` rows of the query, in the query's order (descending rating). */
  function TopAttractions(ranked: seq<Attraction>): (r: seq<Attraction>)
    ensures |r| == if |ranked| < AttractionLimit then |ranked| else AttractionLimit
    ensures r == ranked[..|r|]
  {
    if |ranked| < AttractionLimit then ranked else ranked[..AttractionLimit]
  }

  /** `photos?.[0]`: undefined when `photos` is null or undefined, or has no element 0. */
  function FirstPhoto(photos: Value): (r: Value)
    ensures photos.Null? || photos.Undefined? ==> r == Undefined
    ensures photos.Arr? ==> r == if photos.items == [] then Undefined else photos.items[0]
    ensures photos.Str? && photos.s != "" ==> r == Str(photos.s[..1])
    ensures photos.Obj? ==> r == if "0" in photos.props then photos.props["0"] else Undefined
  {
    match photos
    case Arr(items) => if items == [] then Undefined else items[0]
    case Str(s) => if s == "" then Undefined else Str(s[..1])
    case Obj(props) => if "0" in props then props["0"] else Undefined
    case _ => Undefined
  }

  /**
   * The trip inserted for `userId`, seeded from the first attraction. It is an
   * unpublished draft with no likes or comments, its country is never blank, and
   * its photo is a real value or null.
   */
  function DraftTrip(id: nat, userId: Value, first: Attraction): (t: Trip)
    ensures t.id == id && t.userId == userId && t.title == DraftTitle
    ensures t.isDraft && t.likes == 0 && t.comments == 0
    ensures Truthy(t.country)
    ensures t.country == first.country || t.country == Str(UnknownCountry)
    ensures t.photoUrl == Null || (Truthy(t.photoUrl) && t.photoUrl == FirstPhoto(first.photos))
    ensures Truthy(first.country) ==> t.country == first.country
    ensures Truthy(FirstPhoto(first.photos)) ==> t.photoUrl == FirstPhoto(first.photos)
  {
    Trip(id, userId, DraftTitle,
         Or(first.country, Str(UnknownCountry)),
         Or(FirstPhoto(first.photos), Null),
         true, 0, 0)
  }

  /** The point the loop inserts for attraction `a` at position `order`. */
  function PointFor(tripId: nat, a: Attraction, order: nat): Point
  {
    Point(tripId, a.name, a.latitude, a.longitude,
          Or(a.workingStatus, Str("")), Or(a.description, Str("")), order)
  }

  /** The points the loop tries to insert, one per attraction, in order. */
  function Planned(tripId: nat, attrs: seq<Attraction>): (r: seq<Point>)
    ensures |r| == |attrs|
  {
    if attrs == [] then []
    else Planned(tripId, attrs[..|attrs| - 1]) + [PointFor(tripId, attrs[|attrs| - 1], |attrs| - 1)]
  }

  /**
   * Point `i` of the plan belongs to the trip, has `order == i`, copies the
   * attraction's name and coordinates, and takes its `working_status` and
   * `description`, or `''` where those are falsy.
   */
  lemma {:induction false} PlannedPoints(tripId: nat, attrs: seq<Attraction>)
    ensures var r := Planned(tripId, attrs);
      forall i :: 0 <= i < |r| ==>
        && r[i] == PointFor(tripId, attrs[i], i)
        && r[i].tripId == tripId && r[i].order == i
        && r[i].name == attrs[i].name
        && r[i].latitude == attrs[i].latitude && r[i].longitude == attrs[i].longitude
        && r[i].howToGet == (if Truthy(attrs[i].workingStatus) then attrs[i].workingStatus else Str(""))
        && r[i].impressions == (if Truthy(attrs[i].description) then attrs[i].description else Str(""))
  {
    if attrs != [] {
      var n := |attrs| - 1;
      PlannedPoints(tripId, attrs[..n]);
      var r := Planned(tripId, attrs);
      forall i | 0 <= i < n
        ensures r[i] == PointFor(tripId, attrs[i], i)
      {
        assert r[i] == Planned(tripId, attrs[..n])[i];
      }
    }
  }

  /** Planning one more attraction appends exactly its point. */
  lemma PlannedSnoc(tripId: nat, attrs: seq<Attraction>, i: nat)
    requires i < |attrs|
    ensures Planned(tripId, attrs[..i + 1]) == Planned(tripId, attrs[..i]) + [PointFor(tripId, attrs[i], i)]
  {
    assert attrs[..i + 1][..i] == attrs[..i];
  }

  /** The inserts that succeed: every planned point except those whose insert fails, in order. */
  function Committed(ps: seq<Point>, failed: set<nat>): (r: seq<Point>)
    ensures |r| <= |ps|
  {
    if ps == [] then []
    else
      var last := ps[|ps| - 1];
      Committed(ps[..|ps| - 1], failed) + (if last.order in failed then [] else [last])
  }

  /** A point is written exactly when it was planned and its insert did not fail. */
  lemma {:induction false} CommittedMembers(ps: seq<Point>, failed: set<nat>)
    ensures forall p :: p in Committed(ps, failed) <==> p in ps && p.order !in failed
  {
    if ps != [] {
      var init := ps[..|ps| - 1];
      CommittedMembers(init, failed);
      assert ps == init + [ps[|ps| - 1]];
    }
  }

  /** One more loop iteration: the point for attraction `i` is written unless its insert fails. */
  lemma CommittedSnoc(tripId: nat, attrs: seq<Attraction>, i: nat, failed: set<nat>)
    requires i < |attrs|
    ensures Committed(Planned(tripId, attrs[..i + 1]), failed)
            == Committed(Planned(tripId, attrs[..i]), failed)
               + (if i in failed then [] else [PointFor(tripId, attrs[i], i)])
  {
    var ps := Planned(tripId, attrs[..i + 1]);
    PlannedSnoc(tripId, attrs, i);
    assert ps[..|ps| - 1] == Planned(tripId, attrs[..i]);
  }

  /** When no insert fails, every planned point is written, in order. */
  lemma {:induction false} CommittedAll(ps: seq<Point>)
    ensures Committed(ps, {}) == ps
  {
    if ps != [] {
      CommittedAll(ps[..|ps| - 1]);
    }
  }

  /**
   * Whatever inserts fail, each point written for the trip belongs to it, has an
   * order below the number of attractions and not among the failed ones, and every
   * attraction whose insert succeeds has its point written: a failure does not
   * stop the later inserts.
   */
  lemma CommittedPoints(tripId: nat, attrs: seq<Attraction>, failed: set<nat>)
    ensures forall p :: p in Committed(Planned(tripId, attrs), failed) ==>
      p.tripId == tripId && p.order < |attrs| && p.order !in failed
    ensures forall i :: 0 <= i < |attrs| && i !in failed ==>
      PointFor(tripId, attrs[i], i) in Committed(Planned(tripId, attrs), failed)
  {
    var ps := Planned(tripId, attrs);
    PlannedPoints(tripId, attrs);
    CommittedMembers(ps, failed);
    forall p | p in Committed(ps, failed)
      ensures p.tripId == tripId && p.order < |attrs| && p.order !in failed
    {
      var i :| 0 <= i < |ps| && ps[i] == p;
    }
    forall i | 0 <= i < |attrs| && i !in failed
      ensures PointFor(tripId, attrs[i], i) in Committed(ps, failed)
    {
      assert ps[i] == PointFor(tripId, attrs[i], i);
    }
  }

  /** The points' orders strictly increase along the sequence. */
  predicate OrdersIncrease(ps: seq<Point>)
  {
    forall i, j :: 0 <= i < j < |ps| ==> ps[i].order < ps[j].order
  }

  /** Dropping the failed inserts keeps the remaining points in their order. */
  lemma {:induction false} CommittedKeepsOrder(ps: seq<Point>, failed: set<nat>)
    requires OrdersIncrease(ps)
    ensures OrdersIncrease(Committed(ps, failed))
  {
    if ps != [] {
      var n := |ps| - 1;
      var init := ps[..n];
      CommittedKeepsOrder(init, failed);
      var r0 := Committed(init, failed);
      var r := Committed(ps, failed);
      assert r == r0 + (if ps[n].order in failed then [] else [ps[n]]);
      forall i, j | 0 <= i < j < |r|
        ensures r[i].order < r[j].order
      {
        assert r[i] == r0[i];
        if j < |r0| {
          assert r[j] == r0[j];
        } else {
          CommittedMembers(init, failed);
          assert r0[i] in init;
          var k :| 0 <= k < n && init[k] == r0[i];
          assert init[k] == ps[k] && r[j] == ps[n];
        }
      }
    }
  }

  /** The orders of the points written for a trip are strictly increasing: input order, no order repeated. */
  lemma CommittedOrdersIncrease(tripId: nat, attrs: seq<Attraction>, failed: set<nat>)
    ensures OrdersIncrease(Committed(Planned(tripId, attrs), failed))
  {
    PlannedPoints(tripId, attrs);
    CommittedKeepsOrder(Planned(tripId, attrs), failed);
  }

  /** Trip ids are row positions, and every point refers to a trip that exists. */
  predicate TablesValid(trips: seq<Trip>, points: seq<Point>)
  {
    && (forall i :: 0 <= i < |trips| ==> trips[i].id == i)
    && (forall p :: p in points ==> p.tripId < |trips|)
  }

  /**
   * Creating a draft keeps the tables consistent: the new trip's id is its row
   * position and every point written refers to it, whatever inserts fail.
   */
  lemma DraftKeepsTablesValid(trips: seq<Trip>, points: seq<Point>, userId: Value,
                              attrs: seq<Attraction>, failed: set<nat>)
    requires TablesValid(trips, points)
    requires attrs != []
    ensures var id := |trips|;
      TablesValid(trips + [DraftTrip(id, userId, attrs[0])], points + Committed(Planned(id, attrs), failed))
  {
    var id := |trips|;
    var trips' := trips + [DraftTrip(id, userId, attrs[0])];
    var added := Committed(Planned(id, attrs), failed);
    CommittedPoints(id, attrs, failed);
    forall p | p in points + added
      ensures p.tripId < |trips'|
    {
      if p in points {
        assert p.tripId < |trips|;
      } else {
        assert p in added;
      }
    }
    forall i | 0 <= i < |trips'|
      ensures trips'[i].id == i
    {
      if i < |trips| { assert trips'[i] == trips[i]; }
    }
  }
}
