/** `POST /api/add`: resolve the entry's date, build the cost document and
    save it. The handler never consults the users. */
module CostRoute {
  import opened Wrappers
  import opened Schema
  import opened CostSchema
  import opened Http

  /** The request body; any path may be absent. */
  datatype CostRequest = CostRequest(
    description: Option<string>,
    category: Option<string>,
    userid: Option<int>,
    sum: Option<int>,
    createdAt: Option<string>,
    year: Option<int>,
    month: Option<int>,
    day: Option<int>)

  /** JavaScript truthiness of an optional text: present and non-empty. */
  predicate TruthyText(v: Option<string>)
  {
    v.Some? && v.value != ""
  }

  /** JavaScript truthiness of an optional number: present and non-zero. */
  predicate TruthyNumber(v: Option<int>)
  {
    v.Some? && v.value != 0
  }

  /** `year && month && day`: all three parts are given and non-zero. */
  predicate AllParts(req: CostRequest)
  {
    TruthyNumber(req.year) && TruthyNumber(req.month) && TruthyNumber(req.day)
  }

  /** The date of the new entry, by fixed precedence: `created_at` if it is
      given, else noon UTC of `year`/`month`/`day` if all three are given,
      else the clock reading `now`. */
  function ResolveDate(req: CostRequest, now: int): (date: Date)
    ensures date.FromTimestamp? <==> TruthyText(req.createdAt)
    ensures date.FromTimestamp? ==> date.text == req.createdAt.value
    ensures date.UtcNoon? <==> !TruthyText(req.createdAt) && AllParts(req)
    ensures date.UtcNoon? ==>
      date.year == req.year.value && date.month == req.month.value && date.day == req.day.value
    ensures date.Now? ==> date.instant == now
  {
    if TruthyText(req.createdAt) then FromTimestamp(req.createdAt.value)
    else if AllParts(req) then UtcNoon(req.year.value, req.month.value, req.day.value)
    else Now(now)
  }

  /** A given `created_at` decides the date whatever `year`/`month`/`day` say. */
  lemma CreatedAtOverridesParts(req: CostRequest, year: Option<int>, month: Option<int>, day: Option<int>, now: int)
    requires TruthyText(req.createdAt)
    ensures ResolveDate(req.(year := year, month := month, day := day), now) == ResolveDate(req, now)
  {
  }

  /** A partial `year`/`month`/`day` is ignored as a whole: the date is the
      same as with none of them given. */
  lemma PartialPartsIgnored(req: CostRequest, now: int)
    requires !AllParts(req)
    ensures ResolveDate(req, now) == ResolveDate(req.(year := None, month := None, day := None), now)
    ensures !TruthyText(req.createdAt) ==> ResolveDate(req, now) == Now(now)
  {
  }

  /** The document the handler builds from the request. */
  function DraftOf(req: CostRequest, now: int): CostDraft
  {
    CostDraft(req.description, req.category, req.userid, req.sum, Some(ResolveDate(req, now)))
  }

  /** The whole handler on a cost collection. `fault` is the storage's
      refusal of the write, if any; `now` is the clock reading. */
  function Recording(costs: seq<Cost>, req: CostRequest, now: int, fault: Option<string>): Step<Cost>
  {
    match Validate(DraftOf(req, now), now)
    case Err(errs) => Step(Response(500, Failure(ValidationFailed("Cost", errs))), costs)
    case Ok(c) =>
      if fault.Some? then Step(Response(500, Failure(Text(fault.value))), costs)
      else Step(Response(200, SavedCost(c)), costs + [c])
  }

  /** The entry a successful call stores: the request's fields and the resolved date. */
  function EntryOf(req: CostRequest, now: int): Cost
    requires req.description.Some? && req.category.Some? && req.userid.Some? && req.sum.Some?
  {
    Cost(req.description.value, req.category.value, req.userid.value, req.sum.value, ResolveDate(req, now))
  }

  /** A call succeeds exactly when the document passes the schema and the
      write goes through; it then appends exactly one entry, carrying the
      request's fields and the resolved date, and echoes it. */
  lemma RecordingSuccess(costs: seq<Cost>, req: CostRequest, now: int, fault: Option<string>)
    ensures var s := Recording(costs, req, now, fault);
      s.response.status == 200 <==> Errors(DraftOf(req, now)) == [] && fault.None?
    ensures var s := Recording(costs, req, now, fault);
      s.response.status == 200 ==>
        var c := EntryOf(req, now);
        Valid(c) && s.records == costs + [c] && s.response.body == SavedCost(c)
  {
  }

  /** A call that fails answers 500 with the error and stores nothing. */
  lemma RecordingFailure(costs: seq<Cost>, req: CostRequest, now: int, fault: Option<string>)
    ensures var s := Recording(costs, req, now, fault);
      s.response.status != 200 ==>
        s.response.status == 500 && s.records == costs && s.response.body.Failure?
    ensures var s := Recording(costs, req, now, fault);
      Errors(DraftOf(req, now)) != [] ==>
        s.response.body == Failure(ValidationFailed("Cost", Errors(DraftOf(req, now))))
    ensures var s := Recording(costs, req, now, fault);
      Errors(DraftOf(req, now)) == [] && fault.Some? ==>
        s.response == Response(500, Failure(Text(fault.value)))
  {
  }

  /** A category outside the enumeration is answered with 500 and nothing is stored. */
  lemma ForeignCategoryNotStored(costs: seq<Cost>, req: CostRequest, now: int, fault: Option<string>)
    requires req.category.Some? && !IsCategory(req.category.value)
    ensures Recording(costs, req, now, fault).response.status == 500
    ensures Recording(costs, req, now, fault).records == costs
  {
  }

  /** Every stored entry satisfies the schema, before and after a call. */
  lemma RecordingKeepsValid(costs: seq<Cost>, req: CostRequest, now: int, fault: Option<string>)
    requires forall c :: c in costs ==> Valid(c)
    ensures forall c :: c in Recording(costs, req, now, fault).records ==> Valid(c)
  {
  }

  /** The request of the cost test: the gym membership of user 123123. */
  lemma GymMembership(costs: seq<Cost>, now: int)
    ensures var req := CostRequest(Some("Gym Membership"), Some("sport"), Some(123123), Some(50),
                                   None, Some(2025), Some(2), Some(1));
      var s := Recording(costs, req, now, None);
      s.response == Response(200, SavedCost(Cost("Gym Membership", "sport", 123123, 50, UtcNoon(2025, 2, 1))))
      && s.records == costs + [Cost("Gym Membership", "sport", 123123, 50, UtcNoon(2025, 2, 1))]
  {
  }
}
