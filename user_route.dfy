/** `GET /api/users/:id` (a user with the total of their costs) and
    `POST /api/users` (registration), as functions of the two collections. */
module UserRoute {
  import opened Wrappers
  import opened Schema
  import opened CostSchema
  import opened UserSchema
  import opened Http

  /** `findOne({ id })`: the first stored user with that id, if any. */
  function Lookup(us: seq<User>, id: int): (r: Option<User>)
    ensures r.Some? ==> r.value in us && r.value.id == id
    ensures r.None? <==> forall u :: u in us ==> u.id != id
  {
    if us == [] then None
    else if us[0].id == id then Some(us[0])
    else Lookup(us[1..], id)
  }

  /** With unique ids, the lookup finds the one stored user holding the id. */
  lemma LookupUnique(us: seq<User>, u: User)
    requires DistinctIds(us) && u in us
    ensures Lookup(us, u.id) == Some(u)
  {
  }

  /** The `$match: { userid }` stage: the costs of one user, in stored order. */
  function Match(cs: seq<Cost>, id: int): (m: seq<Cost>)
    ensures forall c :: c in m <==> c in cs && c.userid == id
    ensures |m| <= |cs|
  {
    if cs == [] then []
    else (if cs[0].userid == id then [cs[0]] else []) + Match(cs[1..], id)
  }

  /** The match keeps every copy of a user's cost: two equal entries are two
      documents, and both are summed. */
  lemma {:induction false} MatchCounts(cs: seq<Cost>, id: int, c: Cost)
    ensures multiset(Match(cs, id))[c] == if c.userid == id then multiset(cs)[c] else 0
  {
    if cs != [] {
      assert cs == [cs[0]] + cs[1..];
      MatchCounts(cs[1..], id, c);
    }
  }

  /** The `$group: { total: { $sum: "$sum" } }` stage over the matched costs. */
  function GroupSum(cs: seq<Cost>): int
  {
    if cs == [] then 0 else cs[0].sum + GroupSum(cs[1..])
  }

  lemma {:induction false} MatchAppend(a: seq<Cost>, b: seq<Cost>, id: int)
    ensures Match(a + b, id) == Match(a, id) + Match(b, id)
  {
    if a == [] {
      assert a + b == b;
    } else {
      assert (a + b)[1..] == a[1..] + b;
      MatchAppend(a[1..], b, id);
    }
  }

  lemma {:induction false} GroupSumAppend(a: seq<Cost>, b: seq<Cost>)
    ensures GroupSum(a + b) == GroupSum(a) + GroupSum(b)
  {
    if a == [] {
      assert a + b == b;
    } else {
      assert (a + b)[1..] == a[1..] + b;
      GroupSumAppend(a[1..], b);
    }
  }

  /** A user's total: the sum of `sum` over every cost whose `userid` is theirs. */
  function Total(cs: seq<Cost>, id: int): int
  {
    GroupSum(Match(cs, id))
  }

  /** Totals add up over a split of the cost collection. */
  lemma TotalAppend(a: seq<Cost>, b: seq<Cost>, id: int)
    ensures Total(a + b, id) == Total(a, id) + Total(b, id)
  {
    MatchAppend(a, b, id);
    GroupSumAppend(Match(a, id), Match(b, id));
  }

  /** A user without costs has total 0. */
  lemma TotalWithoutCosts(cs: seq<Cost>, id: int)
    requires forall c :: c in cs ==> c.userid != id
    ensures Total(cs, id) == 0
  {
  }

  /** Appending one cost adds it to the match exactly when it is the user's. */
  lemma MatchSnoc(cs: seq<Cost>, c: Cost, id: int)
    ensures Match(cs + [c], id) == Match(cs, id) + (if c.userid == id then [c] else [])
  {
    MatchAppend(cs, [c], id);
    assert [c][1..] == [];
    assert Match([c], id) == (if c.userid == id then [c] else []) + Match([], id);
  }

  /** Appending one cost raises its owner's total by its sum and leaves
      every other user's total alone. */
  lemma TotalAfterAppend(cs: seq<Cost>, c: Cost, id: int)
    ensures Total(cs + [c], id) == Total(cs, id) + (if c.userid == id then c.sum else 0)
  {
    MatchSnoc(cs, c, id);
    GroupSumAppend(Match(cs, id), if c.userid == id then [c] else []);
    assert [c][1..] == [];
  }

  /** The GET handler: 404 for an id no user holds, otherwise the stored
      names and id with the user's total. */
  function Details(users: seq<User>, costs: seq<Cost>, id: int): Response
  {
    match Lookup(users, id)
    case None => Response(404, Failure(Text("User not found")))
    case Some(u) => Response(200, UserDetails(u.firstName, u.lastName, u.id, Total(costs, id)))
  }

  /** A stored user is answered with 200, their names and id unchanged and
      the sum of their costs. */
  lemma DetailsOfStoredUser(users: seq<User>, costs: seq<Cost>, u: User)
    requires DistinctIds(users) && u in users
    ensures Details(users, costs, u.id) ==
      Response(200, UserDetails(u.firstName, u.lastName, u.id, Total(costs, u.id)))
  {
  }

  /** An id that no user holds is answered with 404 "User not found". */
  lemma DetailsOfUnknownId(users: seq<User>, costs: seq<Cost>, id: int)
    requires forall u :: u in users ==> u.id != id
    ensures Details(users, costs, id) == Response(404, Failure(Text("User not found")))
  {
  }

  /** A stored user without costs is answered with total 0, never an absent total. */
  lemma DetailsWithoutCosts(users: seq<User>, costs: seq<Cost>, u: User)
    requires DistinctIds(users) && u in users
    requires forall c :: c in costs ==> c.userid != u.id
    ensures Details(users, costs, u.id) == Response(200, UserDetails(u.firstName, u.lastName, u.id, 0))
  {
  }

  /** Whether the duplicate check finds a user with the requested id. A
      request without an id matches no stored user. */
  predicate Taken(users: seq<User>, req: UserDraft)
  {
    req.id.Some? && Lookup(users, req.id.value).Some?
  }

  /** The POST handler on the user collection. `fault` is the storage's
      refusal of the write, if any. */
  function Registration(users: seq<User>, req: UserDraft, fault: Option<string>): Step<User>
  {
    if Taken(users, req) then Step(Response(400, Failure(Text("User already exists"))), users)
    else match UserSchema.Validate(req)
      case Err(errs) => Step(Response(500, Failure(ValidationFailed("User", errs))), users)
      case Ok(u) =>
        if fault.Some? then Step(Response(500, Failure(Text(fault.value))), users)
        else Step(Response(201, CreatedUser(u)), users + [u])
  }

  /** An id that is already registered is answered with 400 and changes nothing. */
  lemma RegistrationOfTakenId(users: seq<User>, req: UserDraft, fault: Option<string>)
    requires req.id.Some? && exists u :: u in users && u.id == req.id.value
    ensures Registration(users, req, fault) ==
      Step(Response(400, Failure(Text("User already exists"))), users)
  {
  }

  /** A fresh id with a complete document and a working store adds exactly
      one user, holding the request's fields, and answers 201 with it. */
  lemma RegistrationOfFreshId(users: seq<User>, req: UserDraft)
    requires req.id.Some? && forall u :: u in users ==> u.id != req.id.value
    requires UserSchema.Errors(req) == []
    ensures var u := User(req.id.value, req.firstName.value, req.lastName.value,
                          req.birthday.value, req.maritalStatus.value);
      Registration(users, req, None) == Step(Response(201, CreatedUser(u)), users + [u])
  {
  }

  /** A registration that does not answer 201 answers 400 or 500 and stores nothing. */
  lemma RegistrationFailure(users: seq<User>, req: UserDraft, fault: Option<string>)
    ensures var s := Registration(users, req, fault);
      s.response.status != 201 ==>
        (s.response.status == 400 || s.response.status == 500) && s.records == users
    ensures var s := Registration(users, req, fault);
      s.response.status == 201 <==> !Taken(users, req) && UserSchema.Errors(req) == [] && fault.None?
  {
  }

  /** Registration keeps every stored user valid and the ids pairwise distinct. */
  lemma RegistrationKeepsIdsDistinct(users: seq<User>, req: UserDraft, fault: Option<string>)
    requires DistinctIds(users) && forall u :: u in users ==> UserSchema.Valid(u)
    ensures var after := Registration(users, req, fault).records;
      DistinctIds(after) && forall u :: u in after ==> UserSchema.Valid(u)
  {
  }

  /** Registering the same id a second time is refused with 400. */
  lemma RegisteringTwiceConflicts(users: seq<User>, req: UserDraft, fault1: Option<string>, fault2: Option<string>)
    requires Registration(users, req, fault1).response.status == 201
    ensures var again := Registration(Registration(users, req, fault1).records, req, fault2);
      again == Step(Response(400, Failure(Text("User already exists"))),
                    Registration(users, req, fault1).records)
  {
  }
}
