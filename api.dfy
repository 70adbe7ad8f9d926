/** The service as one in-memory store of the `users` and `costs`
    collections, with the three handlers as its methods. */
module Api {
  import opened Wrappers
  import opened CostSchema
  import opened UserSchema
  import opened Http
  import opened CostRoute
  import opened UserRoute

  class Store {
    var users: seq<User>
    var costs: seq<Cost>

    /** What the two schemas guarantee of the stored collections. */
    ghost predicate Valid()
      reads this
    {
      DistinctIds(users)
      && (forall u :: u in users ==> UserSchema.Valid(u))
      && (forall c :: c in costs ==> CostSchema.Valid(c))
    }

    constructor ()
      ensures Valid() && users == [] && costs == []
    {
      users := [];
      costs := [];
    }

    /** `User.findOne({ id })`: a scan of the user collection. */
    method FindUser(id: int) returns (found: Option<User>)
      ensures found == Lookup(users, id)
      ensures found.Some? ==> found.value in users && found.value.id == id
    {
      var i := 0;
      while i < |users|
        invariant 0 <= i <= |users|
        invariant Lookup(users[i..], id) == Lookup(users, id)
      {
        if users[i].id == id {
          return Some(users[i]);
        }
        assert users[i..][1..] == users[i + 1..];
        i := i + 1;
      }
      return None;
    }

    /** `Cost.aggregate([{ $match: { userid } }, { $group: { _id: null, total: { $sum: "$sum" } } }])`:
        no row when no cost matches, otherwise one row holding the total. */
    method AggregateTotal(id: int) returns (rows: seq<int>)
      ensures rows == if Match(costs, id) == [] then [] else [Total(costs, id)]
    {
      var matched, total := 0, 0;
      var i := 0;
      while i < |costs|
        invariant 0 <= i <= |costs|
        invariant matched == |Match(costs[..i], id)|
        invariant total == Total(costs[..i], id)
      {
        assert costs[..i + 1] == costs[..i] + [costs[i]];
        MatchSnoc(costs[..i], costs[i], id);
        TotalAfterAppend(costs[..i], costs[i], id);
        if costs[i].userid == id {
          matched := matched + 1;
          total := total + costs[i].sum;
        }
        i := i + 1;
      }
      assert costs[..i] == costs;
      rows := if matched == 0 then [] else [total];
    }

    /** `GET /api/users/:id`. Reads both collections and changes neither. */
    method GetUser(id: int) returns (resp: Response)
      ensures resp == Details(users, costs, id)
      ensures resp.status == 404 <==> forall u :: u in users ==> u.id != id
    {
      var user := FindUser(id);
      if user.None? {
        return Response(404, Failure(Text("User not found")));
      }
      var rows := AggregateTotal(id);
      var total := if |rows| > 0 && rows[0] != 0 then rows[0] else 0;
      assert Match(costs, id) == [] ==> Total(costs, id) == 0;
      var u := user.value;
      resp := Response(200, UserDetails(u.firstName, u.lastName, u.id, total));
    }

    /** `POST /api/users`. `fault` is the storage's refusal of the write, if any. */
    method Register(req: UserDraft, fault: Option<string>) returns (resp: Response)
      requires Valid()
      modifies this`users
      ensures Valid()
      ensures Step(resp, users) == Registration(old(users), req, fault)
    {
      RegistrationKeepsIdsDistinct(users, req, fault);
      if req.id.Some? {
        var existing := FindUser(req.id.value);
        if existing.Some? {
          return Response(400, Failure(Text("User already exists")));
        }
      }
      match UserSchema.Validate(req)
      case Err(errs) =>
        resp := Response(500, Failure(ValidationFailed("User", errs)));
      case Ok(u) =>
        if fault.Some? {
          resp := Response(500, Failure(Text(fault.value)));
        } else {
          users := users + [u];
          resp := Response(201, CreatedUser(u));
        }
    }

    /** `POST /api/add`. `now` is the clock reading; `fault` is the storage's
        refusal of the write, if any. The users are neither read nor changed. */
    method AddCost(req: CostRequest, now: int, fault: Option<string>) returns (resp: Response)
      requires Valid()
      modifies this`costs
      ensures Valid()
      ensures Step(resp, costs) == Recording(old(costs), req, now, fault)
    {
      RecordingKeepsValid(costs, req, now, fault);
      match CostSchema.Validate(DraftOf(req, now), now)
      case Err(errs) =>
        resp := Response(500, Failure(ValidationFailed("Cost", errs)));
      case Ok(c) =>
        if fault.Some? {
          resp := Response(500, Failure(Text(fault.value)));
        } else {
          costs := costs + [c];
          resp := Response(200, SavedCost(c));
        }
    }
  }

  /** A recorded cost raises its owner's total by its sum, whether or not
      the owner is registered, and leaves every other total alone. */
  lemma RecordingRaisesTotal(costs: seq<Cost>, req: CostRequest, now: int, fault: Option<string>, id: int)
    ensures var s := Recording(costs, req, now, fault);
      Total(s.records, id) ==
        Total(costs, id) + (if s.response.status == 200 && req.userid == Some(id) then req.sum.value else 0)
  {
    var s := Recording(costs, req, now, fault);
    RecordingSuccess(costs, req, now, fault);
    if s.response.status == 200 {
      TotalAfterAppend(costs, EntryOf(req, now), id);
    }
  }

  /** Two successful records of 10 and 20 for a user with no costs give that
      user a total of 30. */
  lemma TwoCostsTotal(users: seq<User>, costs: seq<Cost>, u: User, r1: CostRequest, r2: CostRequest, now: int)
    requires DistinctIds(users) && u in users
    requires forall c :: c in costs ==> c.userid != u.id
    requires r1.userid == Some(u.id) && r1.sum == Some(10)
    requires r2.userid == Some(u.id) && r2.sum == Some(20)
    requires Recording(costs, r1, now, None).response.status == 200
    requires Recording(Recording(costs, r1, now, None).records, r2, now, None).response.status == 200
    ensures var after := Recording(Recording(costs, r1, now, None).records, r2, now, None).records;
      Details(users, after, u.id) == Response(200, UserDetails(u.firstName, u.lastName, u.id, 30))
  {
    var mid := Recording(costs, r1, now, None).records;
    var after := Recording(mid, r2, now, None).records;
    TotalWithoutCosts(costs, u.id);
    RecordingRaisesTotal(costs, r1, now, None, u.id);
    RecordingRaisesTotal(mid, r2, now, None, u.id);
    DetailsOfStoredUser(users, after, u);
  }

  /** The user test as a client: a registered id 123123 is answered with 200
      and its id, an unknown id 999999 with 404, and the gym membership shows
      in the total. */
  method UserApiScenario()
  {
    var store := new Store();
    var created := store.Register(UserDraft(Some(123123), Some("First"), Some("Last"),
                                            Some("1990-01-01"), Some("single")), None);
    assert created.status == 201;
    var added := store.AddCost(CostRequest(Some("Gym Membership"), Some("sport"), Some(123123), Some(50),
                                           None, Some(2025), Some(2), Some(1)), 0, None);
    assert added.status == 200;
    var known := store.GetUser(123123);
    var c := Cost("Gym Membership", "sport", 123123, 50, UtcNoon(2025, 2, 1));
    assert store.costs == [c];
    assert Total([c], 123123) == 50 by {
      TotalAfterAppend([], c, 123123);
      assert [] + [c] == [c];
    }
    assert known == Response(200, UserDetails("First", "Last", 123123, 50));
    var unknown := store.GetUser(999999);
    assert unknown.status == 404;
  }
}
