/** The company aggregate: validation and field-wise patches. */
module Domain {
  import opened Wrappers
  import opened Text

  type Uuid = nat
  const NIL: Uuid := 0

  /** Microseconds, the precision of timestamptz. */
  type Time = int

  const MAX_NAME_LENGTH := 15
  const MAX_DESCRIPTION_LENGTH := 3000

  const REQUIRED := "is required"
  const NAME_TOO_LONG := "must be at most 15 characters"
  const DESCRIPTION_TOO_LONG := "must be at most 3000 characters"
  const NEGATIVE := "must be greater than or equal to 0"
  const UNKNOWN_TYPE := "must be one of Corporations, NonProfit, Cooperative, Sole Proprietorship"

  /** The value of a company at one moment: a table row, or what an event carries. */
  datatype Snapshot = Snapshot(
    id: Uuid, name: string, description: string, employees: int,
    registered: bool, kind: string, createdAt: Time, updatedAt: Time)

  datatype Patch = Patch(
    name: Option<string>, description: Option<string>, employees: Option<int>,
    registered: Option<bool>, kind: Option<string>)
  {
    predicate IsEmpty() {
      this == Patch(None, None, None, None, None)
    }
  }

  datatype Error =
    | NotFound
    | DuplicateID
    | DuplicateName
    | EmptyPatch
    | Invalid(fields: map<string, string>)
    | Infrastructure(what: string)
    | CommitFailed

  // ----- What a valid company is -----

  predicate NameOk(name: string) {
    TrimSpace(name) != "" && |name| <= MAX_NAME_LENGTH
  }

  predicate DescriptionOk(description: string) {
    |description| <= MAX_DESCRIPTION_LENGTH
  }

  predicate KnownType(kind: string) {
    kind in {"Corporations", "NonProfit", "Cooperative", "Sole Proprietorship"}
  }

  predicate Valid(c: Snapshot) {
    && c.id != NIL
    && NameOk(c.name)
    && DescriptionOk(c.description)
    && c.employees >= 0
    && KnownType(c.kind)
  }

  /** Valid, and trimmed the way every stored company is. */
  predicate WellFormed(c: Snapshot) {
    Valid(c) && Trimmed(c.name) && Trimmed(c.description)
  }

  // ----- What the field errors are -----

  function IdErrors(id: Uuid): map<string, string> {
    if id == NIL then map["id" := REQUIRED] else map[]
  }

  function NameErrors(name: string): map<string, string> {
    if TrimSpace(name) == "" then map["name" := REQUIRED]
    else if |name| > MAX_NAME_LENGTH then map["name" := NAME_TOO_LONG]
    else map[]
  }

  function DescriptionErrors(description: string): map<string, string> {
    if |description| > MAX_DESCRIPTION_LENGTH then map["description" := DESCRIPTION_TOO_LONG] else map[]
  }

  function EmployeesErrors(employees: int): map<string, string> {
    if employees < 0 then map["amount_of_employees" := NEGATIVE] else map[]
  }

  function TypeErrors(kind: string): map<string, string> {
    if !KnownType(kind) then map["type" := UNKNOWN_TYPE] else map[]
  }

  function FieldErrors(c: Snapshot): map<string, string> {
    IdErrors(c.id) + NameErrors(c.name)
    + DescriptionErrors(c.description) + EmployeesErrors(c.employees) + TypeErrors(c.kind)
  }

  lemma FieldNamesDiffer()
    ensures var names := ["id", "name", "description", "amount_of_employees", "type"];
            forall i, j :: 0 <= i < j < 5 ==> names[i] != names[j]
  {
    assert "name"[0] != "type"[0];
  }

  /** Each validator reports its own field. */
  lemma ErrorsByField(c: Snapshot)
    ensures FieldErrors(c).Keys <= {"id", "name", "description", "amount_of_employees", "type"}
    ensures Get(FieldErrors(c), "id") == Get(IdErrors(c.id), "id")
    ensures Get(FieldErrors(c), "name") == Get(NameErrors(c.name), "name")
    ensures Get(FieldErrors(c), "description") == Get(DescriptionErrors(c.description), "description")
    ensures Get(FieldErrors(c), "amount_of_employees") == Get(EmployeesErrors(c.employees), "amount_of_employees")
    ensures Get(FieldErrors(c), "type") == Get(TypeErrors(c.kind), "type")
  {
    FieldNamesDiffer();
    OwnFieldsOnly(c);
  }

  lemma OwnFieldsOnly(c: Snapshot)
    ensures IdErrors(c.id).Keys <= {"id"} && NameErrors(c.name).Keys <= {"name"}
    ensures DescriptionErrors(c.description).Keys <= {"description"} && TypeErrors(c.kind).Keys <= {"type"}
    ensures EmployeesErrors(c.employees).Keys <= {"amount_of_employees"}
  {
  }

  function Get(fields: map<string, string>, field: string): Option<string> {
    if field in fields then Some(fields[field]) else None
  }

  /** What the validation reports, in words. */
  lemma ReportedInWords(c: Snapshot)
    ensures FieldErrors(c).Keys <= {"id", "name", "description", "amount_of_employees", "type"}
    ensures Get(FieldErrors(c), "id") == if c.id == 0 then Some("is required") else None
    ensures Get(FieldErrors(c), "name") ==
              if TrimSpace(c.name) == "" then Some("is required")
              else if |c.name| > 15 then Some("must be at most 15 characters") else None
    ensures Get(FieldErrors(c), "description") ==
              if |c.description| > 3000 then Some("must be at most 3000 characters") else None
    ensures Get(FieldErrors(c), "amount_of_employees") ==
              if c.employees < 0 then Some("must be greater than or equal to 0") else None
    ensures Get(FieldErrors(c), "type") ==
              if c.kind in {"Corporations", "NonProfit", "Cooperative", "Sole Proprietorship"} then None
              else Some("must be one of Corporations, NonProfit, Cooperative, Sole Proprietorship")
  {
    ErrorsByField(c);
  }

  lemma ValidIffNoFieldErrors(c: Snapshot)
    ensures Valid(c) <==> FieldErrors(c) == map[]
  {
    if !Valid(c) {
      var field :=
        if c.id == NIL then "id" else if !NameOk(c.name) then "name"
        else if !DescriptionOk(c.description) then "description"
        else if c.employees < 0 then "amount_of_employees" else "type";
      assert field in FieldErrors(c);
    }
  }

  /** The fields map the validators fill in. */
  class FieldMap {
    var fields: map<string, string>

    constructor ()
      ensures fields == map[]
    {
      fields := map[];
    }

    method Put(field: string, message: string)
      modifies this
      ensures fields == old(fields)[field := message]
    {
      fields := fields[field := message];
    }

    method ValidateName(name: string)
      modifies this
      ensures fields == old(fields) + NameErrors(name)
    {
      if TrimSpace(name) == "" {
        Put("name", REQUIRED);
        return;
      }
      if |name| > MAX_NAME_LENGTH {
        Put("name", NAME_TOO_LONG);
      }
    }

    method ValidateDescription(description: string)
      modifies this
      ensures fields == old(fields) + DescriptionErrors(description)
    {
      if |description| > MAX_DESCRIPTION_LENGTH {
        Put("description", DESCRIPTION_TOO_LONG);
      }
    }

    method ValidateEmployees(employees: int)
      modifies this
      ensures fields == old(fields) + EmployeesErrors(employees)
    {
      if employees < 0 {
        Put("amount_of_employees", NEGATIVE);
      }
    }

    method ValidateType(kind: string)
      modifies this
      ensures fields == old(fields) + TypeErrors(kind)
    {
      if !KnownType(kind) {
        Put("type", UNKNOWN_TYPE);
      }
    }

    method AsError() returns (e: Option<Error>)
      ensures e == if fields == map[] then None else Some(Invalid(fields))
    {
      e := if fields == map[] then None else Some(Invalid(fields));
    }
  }

  // The validators as ApplyPatch uses them: one fresh map for one field.

  method CheckName(name: string) returns (e: Option<Error>)
    ensures e == if NameOk(name) then None else Some(Invalid(NameErrors(name)))
  {
    var errors := new FieldMap();
    errors.ValidateName(name);
    assert errors.fields == NameErrors(name);
    assert !NameOk(name) ==> "name" in errors.fields;
    e := errors.AsError();
  }

  method CheckDescription(description: string) returns (e: Option<Error>)
    ensures e == if DescriptionOk(description) then None else Some(Invalid(DescriptionErrors(description)))
  {
    var errors := new FieldMap();
    errors.ValidateDescription(description);
    assert errors.fields == DescriptionErrors(description);
    assert !DescriptionOk(description) ==> "description" in errors.fields;
    e := errors.AsError();
  }

  method CheckEmployees(employees: int) returns (e: Option<Error>)
    ensures e == if employees >= 0 then None else Some(Invalid(EmployeesErrors(employees)))
  {
    var errors := new FieldMap();
    errors.ValidateEmployees(employees);
    assert errors.fields == EmployeesErrors(employees);
    assert employees < 0 ==> "amount_of_employees" in errors.fields;
    e := errors.AsError();
  }

  method CheckType(kind: string) returns (e: Option<Error>)
    ensures e == if KnownType(kind) then None else Some(Invalid(TypeErrors(kind)))
  {
    var errors := new FieldMap();
    errors.ValidateType(kind);
    assert errors.fields == TypeErrors(kind);
    assert !KnownType(kind) ==> "type" in errors.fields;
    e := errors.AsError();
  }

  // ----- Patches as values -----

  predicate PatchOk(p: Patch) {
    && (p.name.Some? ==> NameOk(TrimSpace(p.name.value)))
    && (p.description.Some? ==> DescriptionOk(TrimSpace(p.description.value)))
    && (p.employees.Some? ==> p.employees.value >= 0)
    && (p.kind.Some? ==> KnownType(p.kind.value))
  }

  /** Every present field replaces the old one; strings are trimmed first. */
  function Overlay(c: Snapshot, p: Patch): Snapshot {
    c.(name := if p.name.Some? then TrimSpace(p.name.value) else c.name,
       description := if p.description.Some? then TrimSpace(p.description.value) else c.description,
       employees := p.employees.GetOr(c.employees),
       registered := p.registered.GetOr(c.registered),
       kind := p.kind.GetOr(c.kind))
  }

  /** Right-biased merge. */
  function Merge(p: Patch, q: Patch): Patch {
    Patch(q.name.Or(p.name), q.description.Or(p.description), q.employees.Or(p.employees),
          q.registered.Or(p.registered), q.kind.Or(p.kind))
  }

  /** The fields in front of the first invalid one: what a failing ApplyPatch has already assigned. */
  function GoodPrefix(p: Patch): Patch {
    if p.name.Some? && !NameOk(TrimSpace(p.name.value)) then Patch(None, None, None, None, None)
    else if p.description.Some? && !DescriptionOk(TrimSpace(p.description.value)) then
      Patch(p.name, None, None, None, None)
    else if p.employees.Some? && p.employees.value < 0 then Patch(p.name, p.description, None, None, None)
    else if p.kind.Some? && !KnownType(p.kind.value) then p.(kind := None)
    else p
  }

  /** What a failing ApplyPatch reports: the errors of the first invalid field. */
  function PatchErrors(p: Patch): map<string, string> {
    if p.name.Some? && !NameOk(TrimSpace(p.name.value)) then NameErrors(TrimSpace(p.name.value))
    else if p.description.Some? && !DescriptionOk(TrimSpace(p.description.value)) then
      DescriptionErrors(TrimSpace(p.description.value))
    else if p.employees.Some? && p.employees.value < 0 then EmployeesErrors(p.employees.value)
    else if p.kind.Some? && !KnownType(p.kind.value) then TypeErrors(p.kind.value)
    else map[]
  }

  lemma TrimSpaceTwice(s: string)
    ensures TrimSpace(TrimSpace(s)) == TrimSpace(s)
  {
    TrimSpaceTrims(s);
    TrimSpaceIsTheOnlyCut(TrimSpace(s), 0, |TrimSpace(s)|);
  }

  /** A patch of every field. */
  function FullPatch(b: Snapshot): Patch {
    Patch(Some(b.name), Some(b.description), Some(b.employees), Some(b.registered), Some(b.kind))
  }

  lemma WellFormedIsTrimmed(b: Snapshot)
    requires WellFormed(b)
    ensures TrimSpace(b.name) == b.name && TrimSpace(b.description) == b.description
  {
    TrimSpaceIsTheOnlyCut(b.name, 0, |b.name|);
    TrimSpaceIsTheOnlyCut(b.description, 0, |b.description|);
  }

  /** A patch of every field turns any row into the one it was taken from, but for its identity and times. */
  lemma FullPatchMakesTheRow(a: Snapshot, b: Snapshot)
    requires WellFormed(b)
    ensures PatchOk(FullPatch(b)) && FullPatch(b) != Patch(None, None, None, None, None)
    ensures Overlay(a, FullPatch(b)) == b.(id := a.id, createdAt := a.createdAt, updatedAt := a.updatedAt)
  {
    WellFormedIsTrimmed(b);
  }

  /** A patch of one field sets that field and leaves the others alone. */
  lemma OneFieldPatches(a: Snapshot, name: string, description: string, employees: int, registered: bool, kind: string)
    ensures Overlay(a, Patch(Some(name), None, None, None, None)) == a.(name := TrimSpace(name))
    ensures Overlay(a, Patch(None, Some(description), None, None, None)) == a.(description := TrimSpace(description))
    ensures Overlay(a, Patch(None, None, Some(employees), None, None)) == a.(employees := employees)
    ensures Overlay(a, Patch(None, None, None, Some(registered), None)) == a.(registered := registered)
    ensures Overlay(a, Patch(None, None, None, None, Some(kind))) == a.(kind := kind)
  {
  }

  /** Which patches have valid fields. */
  lemma PatchOkInWords(p: Patch)
    ensures PatchOk(p) <==>
              && (p.name.Some? ==> 1 <= |TrimSpace(p.name.value)| <= 15)
              && (p.description.Some? ==> |TrimSpace(p.description.value)| <= 3000)
              && (p.employees.Some? ==> p.employees.value >= 0)
              && (p.kind.Some? ==> p.kind.value in {"Corporations", "NonProfit", "Cooperative", "Sole Proprietorship"})
  {
    if p.name.Some? {
      TrimSpaceTwice(p.name.value);
    }
  }

  /** What a patch has assigned by the time it succeeds or fails, field by field. */
  lemma GoodPrefixFields(c: Snapshot, p: Patch)
    ensures var nameGood := p.name.None? || 1 <= |TrimSpace(p.name.value)| <= 15;
            var descriptionGood := p.description.None? || |TrimSpace(p.description.value)| <= 3000;
            var employeesGood := p.employees.None? || p.employees.value >= 0;
            var kindGood :=
              p.kind.None? || p.kind.value in {"Corporations", "NonProfit", "Cooperative", "Sole Proprietorship"};
            var d := Overlay(c, GoodPrefix(p));
            && (PatchOk(p) <==> nameGood && descriptionGood && employeesGood && kindGood)
            && d.id == c.id && d.createdAt == c.createdAt && d.updatedAt == c.updatedAt
            && d.name == (if p.name.Some? && nameGood then TrimSpace(p.name.value) else c.name)
            && d.description
               == (if p.description.Some? && nameGood && descriptionGood then TrimSpace(p.description.value)
                   else c.description)
            && d.employees
               == (if p.employees.Some? && nameGood && descriptionGood && employeesGood then p.employees.value
                   else c.employees)
            && d.registered
               == (if p.registered.Some? && nameGood && descriptionGood && employeesGood then p.registered.value
                   else c.registered)
            && d.kind
               == (if p.kind.Some? && nameGood && descriptionGood && employeesGood && kindGood then p.kind.value
                   else c.kind)
            && (PatchOk(p) ==> GoodPrefix(p) == p)
  {
    if p.name.Some? {
      TrimSpaceTwice(p.name.value);
    }
  }

  /** The aggregate: a mutable record whose methods assign its fields one at a time. */
  class Company {
    var id: Uuid
    var name: string
    var description: string
    var employees: int
    var registered: bool
    var kind: string
    var createdAt: Time
    var updatedAt: Time

    function Row(): Snapshot
      reads this
    {
      Snapshot(id, name, description, employees, registered, kind, createdAt, updatedAt)
    }

    constructor (row: Snapshot)
      ensures Row() == row
    {
      id, name, description, employees := row.id, row.name, row.description, row.employees;
      registered, kind, createdAt, updatedAt := row.registered, row.kind, row.createdAt, row.updatedAt;
    }

    method Validate() returns (e: Option<Error>)
      ensures e.None? <==> Valid(Row())
      ensures e.Some? ==> e.value == Invalid(FieldErrors(Row()))
    {
      var errors := new FieldMap();
      if id == NIL {
        errors.Put("id", REQUIRED);
      }
      errors.ValidateName(name);
      errors.ValidateDescription(description);
      errors.ValidateEmployees(employees);
      errors.ValidateType(kind);
      e := errors.AsError();
      ValidIffNoFieldErrors(Row());
    }

    // ApplyPatch one field at a time: a present field is checked and then assigned.

    method PatchName(patch: Option<string>) returns (e: Option<Error>)
      modifies `name
      ensures e == if patch.None? || NameOk(TrimSpace(patch.value)) then None
                   else Some(Invalid(NameErrors(TrimSpace(patch.value))))
      ensures name == if patch.Some? && e.None? then TrimSpace(patch.value) else old(name)
    {
      e := None;
      if patch.Some? {
        var trimmed := TrimSpace(patch.value);
        e := CheckName(trimmed);
        if e.None? {
          name := trimmed;
        }
      }
    }

    method PatchDescription(patch: Option<string>) returns (e: Option<Error>)
      modifies `description
      ensures e == if patch.None? || DescriptionOk(TrimSpace(patch.value)) then None
                   else Some(Invalid(DescriptionErrors(TrimSpace(patch.value))))
      ensures description == if patch.Some? && e.None? then TrimSpace(patch.value) else old(description)
    {
      e := None;
      if patch.Some? {
        var trimmed := TrimSpace(patch.value);
        e := CheckDescription(trimmed);
        if e.None? {
          description := trimmed;
        }
      }
    }

    method PatchEmployees(patch: Option<int>) returns (e: Option<Error>)
      modifies `employees
      ensures e == if patch.None? || patch.value >= 0 then None else Some(Invalid(EmployeesErrors(patch.value)))
      ensures employees == if patch.Some? && e.None? then patch.value else old(employees)
    {
      e := None;
      if patch.Some? {
        e := CheckEmployees(patch.value);
        if e.None? {
          employees := patch.value;
        }
      }
    }

    method PatchType(patch: Option<string>) returns (e: Option<Error>)
      modifies `kind
      ensures e == if patch.None? || KnownType(patch.value) then None else Some(Invalid(TypeErrors(patch.value)))
      ensures kind == if patch.Some? && e.None? then patch.value else old(kind)
    {
      e := None;
      if patch.Some? {
        e := CheckType(patch.value);
        if e.None? {
          kind := patch.value;
        }
      }
    }

    /** The fields in order, up to the first invalid one. */
    method PatchFields(p: Patch) returns (e: Option<Error>)
      modifies this
      ensures e == if PatchOk(p) then None else Some(Invalid(PatchErrors(p)))
      ensures Row() == Overlay(old(Row()), GoodPrefix(p))
    {
      e := PatchName(p.name);
      if e.Some? {
        assert GoodPrefix(p) == Patch(None, None, None, None, None);
        return;
      }
      e := PatchDescription(p.description);
      if e.Some? {
        assert GoodPrefix(p) == Patch(p.name, None, None, None, None);
        return;
      }
      e := PatchEmployees(p.employees);
      if e.Some? {
        assert GoodPrefix(p) == Patch(p.name, p.description, None, None, None);
        return;
      }
      if p.registered.Some? {
        registered := p.registered.value;
      }
      e := PatchType(p.kind);
      assert GoodPrefix(p) == if e.None? then p else p.(kind := None);
    }

    /** Assigns the patched fields in order and stops at the first invalid one, which it reports, leaving
        the earlier assignments in place. A call that fails in the final validation has assigned everything. */
    method ApplyPatch(p: Patch, now: Time) returns (e: Option<Error>)
      modifies this
      ensures id == old(id) && createdAt == old(createdAt)
      ensures e.None? ==> updatedAt == now
      ensures var nameGood := p.name.None? || 1 <= |TrimSpace(p.name.value)| <= 15;
              var descriptionGood := p.description.None? || |TrimSpace(p.description.value)| <= 3000;
              var employeesGood := p.employees.None? || p.employees.value >= 0;
              var kindGood :=
                p.kind.None? || p.kind.value in {"Corporations", "NonProfit", "Cooperative", "Sole Proprietorship"};
              && name == (if p.name.Some? && nameGood then TrimSpace(p.name.value) else old(name))
              && description
                 == (if p.description.Some? && nameGood && descriptionGood then TrimSpace(p.description.value)
                     else old(description))
              && employees
                 == (if p.employees.Some? && nameGood && descriptionGood && employeesGood then p.employees.value
                     else old(employees))
              && registered
                 == (if p.registered.Some? && nameGood && descriptionGood && employeesGood then p.registered.value
                     else old(registered))
              && kind
                 == (if p.kind.Some? && nameGood && descriptionGood && employeesGood && kindGood then p.kind.value
                     else old(kind))
              && (WellFormed(old(Row())) ==>
                    (e.None? <==> p != Patch(None, None, None, None, None)
                                  && nameGood && descriptionGood && employeesGood && kindGood))
      ensures forall b :: WellFormed(b) && WellFormed(old(Row())) && p == FullPatch(b) ==>
                e.None? && Row() == b.(id := old(id), createdAt := old(createdAt), updatedAt := now)
      ensures p.IsEmpty() ==> e == Some(EmptyPatch) && Row() == old(Row())
      ensures !p.IsEmpty() && !PatchOk(p) ==>
                e == Some(Invalid(PatchErrors(p))) && Row() == Overlay(old(Row()), GoodPrefix(p))
      ensures !p.IsEmpty() && PatchOk(p) ==>
                && Row() == Overlay(old(Row()), p).(updatedAt := now)
                && e == if Valid(Row()) then None else Some(Invalid(FieldErrors(Row())))
    {
      if p.IsEmpty() {
        return Some(EmptyPatch);
      }
      GoodPrefixFields(Row(), p);
      if WellFormed(Row()) {
        PatchAcceptedIffFieldsOk(Row(), p, now);
      }
      forall b | WellFormed(b) && p == FullPatch(b)
        ensures PatchOk(p) && Overlay(Row(), p) == b.(id := id, createdAt := createdAt, updatedAt := updatedAt)
      {
        FullPatchMakesTheRow(Row(), b);
      }
      e := PatchFields(p);
      if e.None? {
        updatedAt := now;
        e := Validate();
      }
    }
  }

  function NewRow(id: Uuid, name: string, description: string, employees: int,
                  registered: bool, kind: string, now: Time): Snapshot {
    Snapshot(id, TrimSpace(name), TrimSpace(description), employees, registered, kind, now, now)
  }

  /** The constructor gives back the row whose fields it is given. */
  lemma RowIsMadeOfItsFields(b: Snapshot, now: Time)
    requires WellFormed(b) && b.createdAt == b.updatedAt == now
    ensures Valid(b) && NewRow(b.id, b.name, b.description, b.employees, b.registered, b.kind, now) == b
  {
    WellFormedIsTrimmed(b);
  }

  method NewWithID(id: Uuid, name: string, description: string, employees: int,
                   registered: bool, kind: string, now: Time)
    returns (r: Result<Company, Error>)
    ensures r.Success? <==>
              && id != 0 && 1 <= |TrimSpace(name)| <= 15 && |TrimSpace(description)| <= 3000 && employees >= 0
              && kind in {"Corporations", "NonProfit", "Cooperative", "Sole Proprietorship"}
    ensures r.Success? ==> fresh(r.value) && WellFormed(r.value.Row())
    ensures r.Success? ==>
              && r.value.id == id && r.value.name == TrimSpace(name) && r.value.description == TrimSpace(description)
              && r.value.employees == employees && r.value.registered == registered && r.value.kind == kind
              && r.value.createdAt == r.value.updatedAt == now
    ensures r.Success? ==> r.value.Row() == NewRow(id, name, description, employees, registered, kind, now)
    ensures r.Failure? ==>
              r.error == Invalid(FieldErrors(NewRow(id, name, description, employees, registered, kind, now)))
  {
    TrimSpaceTwice(name);
    var c := new Company(NewRow(id, name, description, employees, registered, kind, now));
    var e := c.Validate();
    if e.Some? {
      return Failure(e.value);
    }
    TrimSpaceTrims(name);
    TrimSpaceTrims(description);
    return Success(c);
  }

  // ----- Patch algebra -----

  lemma OverlayKeepsTrimmed(c: Snapshot, p: Patch)
    requires Trimmed(c.name) && Trimmed(c.description)
    ensures Trimmed(Overlay(c, p).name) && Trimmed(Overlay(c, p).description)
  {
    if p.name.Some? { TrimSpaceTrims(p.name.value); }
    if p.description.Some? { TrimSpaceTrims(p.description.value); }
  }

  /** On a stored company the final Validate of ApplyPatch never adds a failure: a patch is accepted
      exactly when its own fields are valid, and then the result is again fit to be stored. */
  lemma PatchAcceptedIffFieldsOk(c: Snapshot, p: Patch, now: Time)
    requires WellFormed(c)
    ensures Valid(Overlay(c, p)) <==> PatchOk(p)
    ensures PatchOk(p) ==> WellFormed(Overlay(c, p).(updatedAt := now))
    ensures GoodPrefix(p) == p <==> PatchOk(p)
  {
    OverlayKeepsTrimmed(c, p);
  }

  /** Two accepted patches in a row are one accepted patch: the right-biased merge. */
  lemma PatchesCompose(c: Snapshot, p: Patch, q: Patch)
    requires WellFormed(c) && PatchOk(p) && PatchOk(q)
    ensures PatchOk(Merge(p, q))
    ensures Overlay(Overlay(c, p), q) == Overlay(c, Merge(p, q))
    ensures Merge(p, q).IsEmpty() <==> p.IsEmpty() && q.IsEmpty()
  {
    MergedPatchIsOk(p, q);
    var r := Merge(p, q);
    assert r.name == if q.name.Some? then q.name else p.name;
    assert r.description == if q.description.Some? then q.description else p.description;
  }

  lemma MergedPatchIsOk(p: Patch, q: Patch)
    requires PatchOk(p) && PatchOk(q)
    ensures PatchOk(Merge(p, q))
  {
    var r := Merge(p, q);
    assert (r.name == p.name || r.name == q.name) && (r.description == p.description || r.description == q.description);
    assert (r.employees == p.employees || r.employees == q.employees) && (r.kind == p.kind || r.kind == q.kind);
  }

  /** The merge is associative, so any number of accepted patches collapses to one. */
  function MergeAll(ps: seq<Patch>): Patch {
    if ps == [] then Patch(None, None, None, None, None)
    else Merge(MergeAll(ps[..|ps| - 1]), ps[|ps| - 1])
  }

  function OverlayAll(c: Snapshot, ps: seq<Patch>): Snapshot {
    if ps == [] then c else Overlay(OverlayAll(c, ps[..|ps| - 1]), ps[|ps| - 1])
  }

  lemma {:induction false} PatchSequenceIsOnePatch(c: Snapshot, ps: seq<Patch>)
    requires WellFormed(c) && forall k :: 0 <= k < |ps| ==> PatchOk(ps[k])
    ensures PatchOk(MergeAll(ps)) && WellFormed(OverlayAll(c, ps))
    ensures OverlayAll(c, ps) == Overlay(c, MergeAll(ps))
  {
    if ps != [] {
      var front, last := ps[..|ps| - 1], ps[|ps| - 1];
      PatchSequenceIsOnePatch(c, front);
      PatchesCompose(c, MergeAll(front), last);
      PatchAcceptedIffFieldsOk(OverlayAll(c, front), last, OverlayAll(c, front).updatedAt);
    }
  }
}
