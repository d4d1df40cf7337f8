/** The field-by-field merge of a conflict, against the server's own score recomputation. */
module ConflictMerge {
  import opened Protocol
  import Decimal

  /** A JSON value; `Other` is anything the merge never looks into. */
  datatype Value = Null | Flag(on: bool) | Number(n: int) | Text(s: string) | Other(repr: string, truthy: bool)

  /** The field names this module treats specially; any other key is an `OtherField`. */
  datatype Field =
    | Id | IsDeleted | Title | Code | Description | Category | Threat | Triggers | MitigationPlan | DocumentUrl
    | OwnerUserId | Status | IdentifiedAt | ResponseAt | OccurredAt | Probability | Impact
    | ImpactCost | ImpactTime | ImpactScope | ImpactQuality
    | ActionKind | Notes | Priority | ReporterEmail | ItemId | RiskId | OpportunityId | Score | AssessorUserId
    | OtherField(name: string)

  type Rec = map<Field, Value>

  predicate Dimension(key: Field) {
    key.ImpactCost? || key.ImpactTime? || key.ImpactScope? || key.ImpactQuality?
  }

  predicate Scoring(key: Field) {
    key.Probability? || key.Impact? || Dimension(key)
  }

  predicate Date(key: Field) {
    key.IdentifiedAt? || key.ResponseAt? || key.OccurredAt?
  }

  function MergeFields(kind: Kind): set<Field> {
    match kind
    case Action => {ActionKind, Title, Description, Status, OwnerUserId}
    case Assessment => {Probability, Impact, Notes}
    case Ticket => {Title, Description, Category, Priority, Status, ReporterEmail}
    case _ =>
      {Title, Code, Description, Category, Threat, Triggers, MitigationPlan, DocumentUrl, OwnerUserId, Status,
       IdentifiedAt, ResponseAt, OccurredAt, Probability, Impact, ImpactCost, ImpactTime, ImpactScope, ImpactQuality}
  }

  // ----- Values -----

  function Get(r: Rec, key: Field): Value {
    if key in r then r[key] else Null
  }

  predicate Truthy(v: Value) {
    match v
    case Null => false
    case Flag(on) => on
    case Number(n) => n != 0
    case Text(s) => s != ""
    case Other(_, truthy) => truthy
  }

  function Str(v: Value): string {
    match v
    case Null => "None"
    case Flag(on) => if on then "True" else "False"
    case Number(n) => if n < 0 then "-" + Decimal.Print(-n) else Decimal.Print(n)
    case Text(s) => s
    case Other(repr, _) => repr
  }

  /** A flag compares equal to the number it stands for. */
  predicate Equal(a: Value, b: Value) {
    a == b
    || (a.Flag? && b.Number? && b.n == if a.on then 1 else 0)
    || (a.Number? && b.Flag? && a.n == if b.on then 1 else 0)
  }

  function Lower(s: string): string {
    seq(|s|, i requires 0 <= i < |s| => if 'A' <= s[i] <= 'Z' then (s[i] as int + 32) as char else s[i])
  }

  predicate Deleted(r: Rec) {
    Truthy(Get(r, IsDeleted)) || (Truthy(Get(r, Status)) && Lower(Str(Get(r, Status))) == "deleted")
  }

  // ----- Which fields may be merged -----

  datatype Saved = Saved(
    op: Op, kind: Option<Kind>, entityId: string, local: Option<Rec>, server: Option<Rec>, serverVersion: Value)

  /** A live upsert whose saved server copy is this item at a real version. */
  predicate CanMerge(c: Saved) {
    && c.op.Upsert? && c.kind.Some? && c.local.Some? && c.server.Some? && c.server.value != map[]
    && !Deleted(c.local.value) && !Deleted(c.server.value)
    && Truthy(Get(c.server.value, Id)) && Str(Get(c.server.value, Id)) == c.entityId
    && c.serverVersion.Number? && c.serverVersion.n >= 1
  }

  predicate DimensionsActive(c: Saved)
    requires CanMerge(c)
  {
    Scored(c.kind.value) &&
    exists d :: d in {ImpactCost, ImpactTime, ImpactScope, ImpactQuality} && (!Get(c.server.value, d).Null? || !Get(c.local.value, d).Null?)
  }

  /** Differing, user-editable fields present in both copies; impact only if nothing derives it. */
  predicate Mergeable(c: Saved, key: Field) {
    && CanMerge(c) && key in MergeFields(c.kind.value)
    && key in c.local.value && key in c.server.value && !Equal(c.local.value[key], c.server.value[key])
    && !(key == Impact && DimensionsActive(c))
  }

  function MergeableFields(c: Saved): set<Field> {
    if CanMerge(c) then set key | key in MergeFields(c.kind.value) && Mergeable(c, key) else {}
  }

  // ----- Values the server would refuse -----

  /** Formats decided outside this model: identifiers and dates. */
  datatype Formats = Formats(isUuid: string -> bool, isDate: string -> bool)

  function Choices(kind: Kind, key: Field): Option<set<string>> {
    match kind
    case Risk => if key == Status then Some({"concept", "active", "closed", "happened"}) else None
    case Opportunity => if key == Status then Some({"concept", "active", "closed", "happened"}) else None
    case Action =>
      if key == Status then Some({"open", "doing", "done"})
      else if key == ActionKind then Some({"mitigation", "contingency", "exploit"}) else None
    case Assessment => None
    case Ticket =>
      if key == Status then Some({"open", "in_progress", "resolved", "closed"})
      else if key == Priority then Some({"low", "medium", "high", "critical"})
      else if key == Category then Some({"bug", "question", "feature_request", "access", "other"}) else None
  }

  function MaxLength(key: Field): nat {
    if key == Category then 200
    else if key == DocumentUrl then 2000
    else if key == ReporterEmail then 320
    else if key == Notes then 5000
    else 10000
  }

  predicate Blank(s: string) {
    forall i :: 0 <= i < |s| ==> s[i] in " \t\n\r"
  }

  predicate ScoreOk(key: Field, v: Value) {
    (v.Null? && Dimension(key)) || (v.Number? && 1 <= v.n <= 5)
  }

  predicate TextOk(f: Formats, key: Field, s: string) {
    if key == OwnerUserId then f.isUuid(s)
    else if Date(key) then f.isDate(s)
    else if key == Code then 1 <= |s| <= 64
    else |s| <= MaxLength(key)
  }

  predicate SelectedOk(f: Formats, kind: Kind, key: Field, v: Value) {
    if Scoring(key) then ScoreOk(key, v)
    else if key == Title then v.Text? && !Blank(v.s) && |v.s| <= 300
    else if !v.Null? && !v.Text? then false
    else if Choices(kind, key).Some? then v.Text? && v.s in Choices(kind, key).value
    else v.Null? || TextOk(f, key, v.s)
  }

  // ----- The merge -----

  datatype Side = Mine | Theirs | Neither

  datatype Refusal = NotMergeable | WrongFields | InvalidChoice | NothingMine | InvalidValue(key: Field)

  datatype Outcome = Merged(record: Rec, selected: Rec) | Rejected(why: Refusal)

  function Carried(kind: Kind): set<Field> {
    {Id} + MergeFields(kind) + {ItemId, RiskId, OpportunityId}
  }

  function Highest(a: Option<int>, v: Value): Option<int> {
    if !v.Number? then a else if a.None? || a.value < v.n then Some(v.n) else a
  }

  /** The highest dimension that is set, if any is. */
  function MaxDimension(r: Rec): Option<int> {
    Highest(Highest(Highest(Highest(None, Get(r, ImpactCost)), Get(r, ImpactTime)),
                    Get(r, ImpactScope)), Get(r, ImpactQuality))
  }

  lemma MaxDimensionIsMax(r: Rec)
    ensures MaxDimension(r).None? <==> forall d :: Dimension(d) ==> !Get(r, d).Number?
    ensures MaxDimension(r).Some? ==>
      && (exists d :: Dimension(d) && Get(r, d) == Number(MaxDimension(r).value))
      && (forall d :: Dimension(d) && Get(r, d).Number? ==> Get(r, d).n <= MaxDimension(r).value)
  {
    assert Dimension(ImpactCost) && Dimension(ImpactTime) && Dimension(ImpactScope) && Dimension(ImpactQuality);
  }

  /** When the choices are complete, keep something of mine, and pick only acceptable values. */
  ghost predicate Acceptable(f: Formats, c: Saved, choices: map<Field, Side>) {
    && MergeableFields(c) != {} && choices.Keys == MergeableFields(c)
    && (forall key :: key in choices ==> !choices[key].Neither?)
    && (exists key :: key in choices && choices[key].Mine?)
    && (forall key :: key in choices && choices[key].Mine? ==> SelectedOk(f, c.kind.value, key, c.local.value[key]))
  }

  /** Each chosen field is mine, every other carried field is the server's, and a scored item's
    * impact is its highest dimension whenever one is set. */
  ghost predicate IsMerge(c: Saved, choices: map<Field, Side>, record: Rec) {
    && CanMerge(c)
    && (forall key :: key in choices ==> key in c.local.value)
    && (Scored(c.kind.value) && MaxDimension(record).Some? ==> Get(record, Impact) == Number(MaxDimension(record).value))
    && (forall key :: key in record <==>
        (key in c.server.value && key in Carried(c.kind.value)) || (key == Impact && Scored(c.kind.value) && MaxDimension(record).Some?))
    && (forall key :: key in record && (key != Impact || !Scored(c.kind.value) || MaxDimension(record).None?) ==>
        record[key] == if key in choices && choices[key].Mine? then c.local.value[key]
                       else if key == Id then Text(Str(c.server.value[key])) else c.server.value[key])
  }

  lemma ImpactIsNoDimension(r: Rec, v: Value)
    ensures MaxDimension(r[Impact := v]) == MaxDimension(r)
  {
  }

  lemma CarriedFields(kind: Kind, server: Rec, local: Rec, choices: map<Field, Side>)
    requires Id in server && Id !in choices
    requires forall key :: key in choices ==> key in local && key in server && key in Carried(kind)
    ensures var selected := map key | key in choices && choices[key].Mine? :: local[key];
      var record := (map key | key in server && key in Carried(kind) :: server[key])[Id := Text(Str(server[Id]))] + selected;
      && (forall key :: key in record <==> key in server && key in Carried(kind))
      && (forall key :: key in record ==>
          record[key] == if key in choices && choices[key].Mine? then local[key]
                         else if key == Id then Text(Str(server[key])) else server[key])
  {
    assert Id in Carried(kind);
    hide Carried, Str;
  }

  lemma MergeableIsCarried(c: Saved)
    requires CanMerge(c)
    ensures Id in c.server.value && Id !in MergeableFields(c)
    ensures forall key :: key in MergeableFields(c) ==>
      key in c.local.value && key in c.server.value && key in Carried(c.kind.value)
  {
    hide DimensionsActive;
  }

  function Derived(kind: Kind, record: Rec): Rec {
    if Scored(kind) && MaxDimension(record).Some? then record[Impact := Number(MaxDimension(record).value)] else record
  }

  lemma DerivedIsMerge(c: Saved, choices: map<Field, Side>, record: Rec)
    requires CanMerge(c) && forall key :: key in choices ==> key in c.local.value
    requires forall key :: key in record <==> key in c.server.value && key in Carried(c.kind.value)
    requires forall key :: key in record ==>
      record[key] == if key in choices && choices[key].Mine? then c.local.value[key]
                     else if key == Id then Text(Str(c.server.value[key])) else c.server.value[key]
    ensures IsMerge(c, choices, Derived(c.kind.value, record))
  {
    hide MaxDimension, CanMerge, Carried, Str;
    if MaxDimension(record).Some? {
      ImpactIsNoDimension(record, Number(MaxDimension(record).value));
    }
  }

  method AllSelectedOk(f: Formats, kind: Kind, selected: Rec) returns (bad: Option<Field>)
    ensures bad.None? ==> forall key :: key in selected ==> SelectedOk(f, kind, key, selected[key])
    ensures bad.Some? ==> bad.value in selected && !SelectedOk(f, kind, bad.value, selected[bad.value])
  {
    hide SelectedOk;
    var left := selected.Keys;
    while left != {}
      invariant left <= selected.Keys
      invariant forall key :: key in selected && key !in left ==> SelectedOk(f, kind, key, selected[key])
      decreases |left|
    {
      var key :| key in left;
      if !SelectedOk(f, kind, key, selected[key]) {
        return Some(key);
      }
      left := left - {key};
    }
    bad := None;
  }

  lemma NonemptyCanMerge(c: Saved)
    requires MergeableFields(c) != {}
    ensures CanMerge(c) && Id in c.server.value
    ensures forall key :: key in MergeableFields(c) ==> key in c.local.value
  {
  }

  /** Accepts exactly the acceptable choices, and then builds exactly the merge. */
  method MergedRecord(f: Formats, c: Saved, choices: map<Field, Side>) returns (r: Outcome)
    ensures r.Merged? <==> Acceptable(f, c, choices)
    ensures r.Merged? ==> IsMerge(c, choices, r.record)
    ensures r.Merged? ==> r.selected == map key | key in choices && choices[key].Mine? :: c.local.value[key]
  {
    hide SelectedOk, MergeableFields, CanMerge, MaxDimension, IsMerge, Carried, Str;
    var fields := MergeableFields(c);
    if fields == {} {
      return Rejected(NotMergeable);
    }
    NonemptyCanMerge(c);
    if choices.Keys != fields {
      return Rejected(WrongFields);
    }
    if exists key :: key in choices && choices[key].Neither? {
      return Rejected(InvalidChoice);
    }
    if forall key :: key in choices ==> !choices[key].Mine? {
      return Rejected(NothingMine);
    }
    var kind, local, server := c.kind.value, c.local.value, c.server.value;
    var record := map key | key in server && key in Carried(kind) :: server[key];
    record := record[Id := Text(Str(server[Id]))];
    var selected := map key | key in choices && choices[key].Mine? :: local[key];
    var bad := AllSelectedOk(f, kind, selected);
    if bad.Some? {
      return Rejected(InvalidValue(bad.value));
    }
    record := record + selected;
    MergeableIsCarried(c);
    CarriedFields(kind, server, local, choices);
    DerivedIsMerge(c, choices, record);
    if Scored(kind) && MaxDimension(record).Some? {
      record := record[Impact := Number(MaxDimension(record).value)];
    }
    r := Merged(record, selected);
  }

  // ----- The server's recomputation -----

  /** The merged fields laid over the stored row, as far as the row has them. */
  function Overlay(row: Rec, record: Rec): Rec {
    map key | key in row :: if key in record && key != Score && key != AssessorUserId then record[key] else row[key]
  }

  function NumberOr(v: Value, default: int): int {
    if v.Number? && v.n != 0 then v.n else default
  }

  /** Impact from the highest set dimension, then score as probability times impact. */
  function Recalculated(row: Rec): Rec {
    if Probability !in row || Impact !in row then row
    else
      var withImpact := if MaxDimension(row).Some? then row[Impact := Number(MaxDimension(row).value)] else row;
      withImpact[Score := Number(NumberOr(withImpact[Probability], 1) * NumberOr(withImpact[Impact], 1))]
  }

  /** The server copy is this row, as far as the merge carries it. */
  ghost predicate CopyOf(server: Rec, row: Rec) {
    && (forall key :: Scoring(key) ==> key in row && key in server)
    && (forall key :: key in server && key in row && key != Id ==> server[key] == row[key])
  }

  lemma ScoresCarried(c: Saved, choices: map<Field, Side>, record: Rec, row: Rec)
    requires IsMerge(c, choices, record) && Scored(c.kind.value) && CopyOf(c.server.value, row)
    ensures forall d :: Scoring(d) ==> d in record && d in Overlay(row, record) && Overlay(row, record)[d] == record[d]
  {
    ScoredCarries(c.kind.value);
    hide CanMerge, MaxDimension, Carried;
  }

  /** The server stores the very impact the merge computed, and the merged dimensions. */
  lemma ServerAgrees(c: Saved, choices: map<Field, Side>, record: Rec, row: Rec)
    requires IsMerge(c, choices, record) && Scored(c.kind.value) && CopyOf(c.server.value, row)
    ensures Probability in record && Impact in record
    ensures var stored := Recalculated(Overlay(row, record));
      && Probability in stored && Impact in stored
      && stored[Impact] == record[Impact] && stored[Probability] == record[Probability]
      && (forall d :: Dimension(d) ==> d in stored && d in record && stored[d] == record[d])
  {
    ScoresCarried(c, choices, record, row);
    var over := Overlay(row, record);
    SameDimensions(over, record);
    assert Scoring(Probability) && Scoring(Impact);
    hide CanMerge, MaxDimension, Overlay, CopyOf, Carried;
  }

  lemma SameDimensions(a: Rec, b: Rec)
    requires forall d :: Dimension(d) ==> Get(a, d) == Get(b, d)
    ensures MaxDimension(a) == MaxDimension(b)
  {
    assert Dimension(ImpactCost) && Dimension(ImpactTime) && Dimension(ImpactScope) && Dimension(ImpactQuality);
  }

  lemma ScoredCarries(kind: Kind)
    requires Scored(kind)
    ensures forall key :: Scoring(key) ==> key in Carried(kind)
  {
  }

  /** All scores of a row are between one and five; dimensions may be unset. */
  ghost predicate ScoresOk(r: Rec) {
    forall key :: Scoring(key) && key in r ==> ScoreOk(key, r[key])
  }

  /** A merge of in-range copies stays in range. */
  lemma ScoresStayInRange(f: Formats, c: Saved, choices: map<Field, Side>, record: Rec)
    requires Acceptable(f, c, choices) && IsMerge(c, choices, record) && ScoresOk(c.server.value)
    ensures ScoresOk(record)
  {
    hide CanMerge, MaxDimension, MergeableFields, Carried;
    MaxDimensionIsMax(record);
    if MaxDimension(record).Some? {
      var d :| Dimension(d) && Get(record, d) == Number(MaxDimension(record).value);
      assert ScoreOk(d, record[d]);
    }
  }

  /** The score the server then stores is the product, between one and twenty-five. */
  lemma StoredScoreInRange(c: Saved, choices: map<Field, Side>, record: Rec, row: Rec)
    requires IsMerge(c, choices, record) && Scored(c.kind.value) && CopyOf(c.server.value, row) && ScoresOk(record)
    ensures var stored := Recalculated(Overlay(row, record));
      && Score in stored && Probability in record && Impact in record
      && record[Probability].Number? && record[Impact].Number?
      && stored[Score] == Number(record[Probability].n * record[Impact].n) && 1 <= stored[Score].n <= 25
  {
    ServerAgrees(c, choices, record, row);
    hide IsMerge, MaxDimension, Overlay;
    assert ScoreOk(Probability, record[Probability]) && ScoreOk(Impact, record[Impact]);
    Products(record[Probability].n, record[Impact].n);
  }

  lemma Products(a: int, b: int)
    requires 1 <= a <= 5 && 1 <= b <= 5
    ensures 1 <= a * b <= 25
  {
  }
}
