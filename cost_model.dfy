/** The `Cost` model: one recorded expense and the schema that gates its
    storage (required paths, the category enumeration, the date default). */
module CostSchema {
  import opened Wrappers
  import opened Schema

  /** The values the `category` path admits, in the schema's order. */
  const Categories: seq<string> := ["food", "health", "housing", "sport", "education"]

  predicate IsCategory(s: string)
  {
    s in Categories
  }

  /** A point in time, kept abstract: the text a caller sent as a timestamp
      (parsing it is not modelled), noon UTC of a calendar day (`month` is
      1-based, as callers send it), or the wall clock at the moment of the
      call. */
  datatype Date =
    | FromTimestamp(text: string)
    | UtcNoon(year: int, month: int, day: int)
    | Now(instant: int)

  /** A cost document before validation: every path may be absent. */
  datatype CostDraft = CostDraft(
    description: Option<string>,
    category: Option<string>,
    userid: Option<int>,
    sum: Option<int>,
    date: Option<Date>)

  /** A stored cost entry. `userid` is a plain number: nothing ties it to a
      registered user. */
  datatype Cost = Cost(
    description: string,
    category: string,
    userid: int,
    sum: int,
    date: Date)

  /** What the schema demands of a stored entry. */
  predicate Valid(c: Cost)
  {
    c.description != "" && IsCategory(c.category)
  }

  /** The document a stored entry came from, every path present. */
  function Draft(c: Cost): CostDraft
  {
    CostDraft(Some(c.description), Some(c.category), Some(c.userid), Some(c.sum), Some(c.date))
  }

  /** The validator of the `category` path: `required` first, then `enum`. */
  function CheckCategory(v: Option<string>): (errs: seq<FieldError>)
    ensures errs == [] <==> RequiredText(v) && IsCategory(v.value)
    ensures |errs| <= 1
  {
    if !RequiredText(v) then [Required("category")]
    else if IsCategory(v.value) then []
    else [NotInEnum("category", v.value)]
  }

  /** Every validation error of a draft, in the schema's path order. */
  function Errors(d: CostDraft): (errs: seq<FieldError>)
    ensures errs == [] <==>
      RequiredText(d.description) && RequiredText(d.category) && IsCategory(d.category.value)
      && d.userid.Some? && d.sum.Some?
    ensures Required("description") in errs <==> !RequiredText(d.description)
    ensures Required("category") in errs <==> !RequiredText(d.category)
    ensures RequiredText(d.category) ==>
      (NotInEnum("category", d.category.value) in errs <==> !IsCategory(d.category.value))
    ensures Required("userid") in errs <==> d.userid.None?
    ensures Required("sum") in errs <==> d.sum.None?
  {
    CheckText("description", d.description)
    + CheckCategory(d.category)
    + CheckNumber("userid", d.userid)
    + CheckNumber("sum", d.sum)
  }

  /** Validation as `save` runs it: a draft without a date gets the clock
      reading `now` (the path's `default: Date.now`); a draft with any error
      is refused with the whole error list. */
  function Validate(d: CostDraft, now: int): (r: Result<Cost, seq<FieldError>>)
    ensures r.Ok? <==> Errors(d) == []
    ensures r.Err? ==> r.error == Errors(d) && r.error != []
    ensures r.Ok? ==> Valid(r.value) && Draft(r.value) == d.(date := Some(r.value.date))
    ensures r.Ok? ==> r.value.date == if d.date.Some? then d.date.value else Now(now)
  {
    if Errors(d) != [] then Err(Errors(d))
    else
      var date := if d.date.Some? then d.date.value else Now(now);
      Ok(Cost(d.description.value, d.category.value, d.userid.value, d.sum.value, date))
  }

  /** A stored entry passes validation unchanged exactly when it is valid. */
  lemma ValidateDraft(c: Cost, now: int)
    ensures Validate(Draft(c), now) == Ok(c) <==> Valid(c)
  {
  }

  /** A category outside the enumeration is refused, whatever else the draft holds. */
  lemma ForeignCategoryRefused(d: CostDraft, now: int)
    requires d.category.Some? && !IsCategory(d.category.value)
    ensures Validate(d, now).Err?
  {
  }
}
