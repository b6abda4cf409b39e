/** The foreign-key check of scripts/clean_development_demo_data.py.

    Before fixtures are deleted, one count query per foreign key and fixture row looks for child rows
    that refer to the fixture and are not fixtures themselves.  The check is compared with what the delete
    would really do: remove rows along the keys that cascade, and touch rows along the others. */
module CascadeClosure {
  import opened Common

  type Table = string
  type Column = string
  type Value = string

  /** A stored row; a cell may be NULL. */
  type Row = map<Column, Option<Value>>

  /** A fixture row as the script describes it. */
  type Description = map<Column, Value>

  type Fixtures = map<Table, seq<Description>>

  type Database = map<Table, seq<Row>>

  /** What a key does to the child rows of a deleted row. */
  datatype OnDelete = Cascade | SetNull | NoAction

  /** The probes read every key alike; `onDelete` is what the delete itself goes by. */
  datatype ForeignKey = ForeignKey(name: string, child: Table, parent: Table,
                                   childColumns: seq<Column>, parentColumns: seq<Column>, onDelete: OnDelete)

  function Cell(row: Row, column: Column): Option<Value> {
    if column in row then row[column] else None
  }

  function Rows<T>(tables: map<Table, seq<T>>, table: Table): seq<T> {
    if table in tables then tables[table] else []
  }

  // ---- SQL conditions -----------------------------------------------------------------------------

  datatype Truth = True | False | Unknown
  {
    function And(other: Truth): Truth {
      if this == False || other == False then False
      else if this == Unknown || other == Unknown then Unknown
      else True
    }

    function Not(): Truth {
      match this
      case True => False
      case False => True
      case Unknown => Unknown
    }

    function Or(other: Truth): Truth {
      Not().And(other.Not()).Not()
    }
  }

  /** `column = :parameter`; a comparison with NULL is unknown. */
  function Equals(row: Row, column: Column, value: Value): Truth {
    match Cell(row, column)
    case None => Unknown
    case Some(v) => if v == value then True else False
  }

  predicate Matches(row: Row, d: Description) {
    forall c :: c in d ==> Cell(row, c) == Some(d[c])
  }

  /** Nothing in the row contradicts the description; NULL cells leave it open. */
  predicate MayMatch(row: Row, d: Description) {
    forall c :: c in d ==> Cell(row, c) == Some(d[c]) || Cell(row, c) == None
  }

  /** The conjunction of `column = :value` over the items of a description. */
  function KnownTerm(row: Row, d: Description): Truth {
    if Matches(row, d) then True else if MayMatch(row, d) then Unknown else False
  }

  function AnyKnown(row: Row, known: seq<Description>): Truth {
    if known == [] then False else KnownTerm(row, known[0]).Or(AnyKnown(row, known[1..]))
  }

  function AllReferences(row: Row, terms: seq<(Column, Value)>): Truth {
    if terms == [] then True else Equals(row, terms[0].0, terms[0].1).And(AllReferences(row, terms[1..]))
  }

  // ---- _reference_probe ---------------------------------------------------------------------------

  datatype Probe = Probe(references: seq<(Column, Value)>, known: seq<Description>)

  /** `WHERE references AND NOT (known)`, without the second part when no child row is known. */
  function Where(row: Row, probe: Probe): Truth {
    var references := AllReferences(row, probe.references);
    if probe.known == [] then references else references.And(AnyKnown(row, probe.known).Not())
  }

  function CountRows(rows: seq<Row>, probe: Probe): nat {
    if rows == [] then 0
    else CountRows(rows[..|rows| - 1], probe) + (if Where(rows[|rows| - 1], probe) == True then 1 else 0)
  }

  datatype Result<T> = Ok(value: T) | MalformedKey(constraint: string) | MissingColumn(constraint: string)

  predicate WellFormed(fk: ForeignKey) {
    |fk.childColumns| == |fk.parentColumns| && fk.childColumns != []
  }

  predicate Inspectable(fk: ForeignKey, parentRow: Description) {
    forall c :: c in fk.parentColumns ==> c in parentRow
  }

  method ReferenceProbe(fk: ForeignKey, parentRow: Description, fixtures: Fixtures) returns (r: Result<Probe>)
    ensures !WellFormed(fk) ==> r == MalformedKey(fk.name)
    ensures WellFormed(fk) && !Inspectable(fk, parentRow) ==> r == MissingColumn(fk.name)
    ensures WellFormed(fk) && Inspectable(fk, parentRow) ==> r == Ok(ProbeFor(fk, parentRow, fixtures))
  {
    if |fk.childColumns| != |fk.parentColumns| || fk.childColumns == [] {
      return MalformedKey(fk.name);
    }
    if exists i :: 0 <= i < |fk.parentColumns| && fk.parentColumns[i] !in parentRow {
      return MissingColumn(fk.name);
    }
    var references: seq<(Column, Value)> := [];
    var position := 0;
    while position < |fk.childColumns|
      invariant 0 <= position == |references| <= |fk.childColumns|
      invariant forall i :: 0 <= i < position ==> references[i] == (fk.childColumns[i], parentRow[fk.parentColumns[i]])
    {
      references := references + [(fk.childColumns[position], parentRow[fk.parentColumns[position]])];
      position := position + 1;
    }
    assert references == ProbeFor(fk, parentRow, fixtures).references;
    r := Ok(Probe(references, Rows(fixtures, fk.child)));
  }

  function ProbeFor(fk: ForeignKey, parentRow: Description, fixtures: Fixtures): Probe
    requires WellFormed(fk) && Inspectable(fk, parentRow)
  {
    Probe(seq(|fk.childColumns|, i requires 0 <= i < |fk.childColumns| => (fk.childColumns[i], parentRow[fk.parentColumns[i]])),
          Rows(fixtures, fk.child))
  }

  // ---- _unexpected_primary_fixture_references -----------------------------------------------------

  predicate Readable(fk: ForeignKey, fixtures: Fixtures) {
    var parents := Rows(fixtures, fk.parent);
    parents != [] ==> WellFormed(fk) && forall i :: 0 <= i < |parents| ==> Inspectable(fk, parents[i])
  }

  /** No probe of the first n fixture rows of the parent counts anything. */
  predicate Clean(db: Database, fk: ForeignKey, fixtures: Fixtures, n: nat)
    requires Readable(fk, fixtures) && n <= |Rows(fixtures, fk.parent)|
  {
    forall i :: 0 <= i < n ==>
      CountRows(Rows(db, fk.child), ProbeFor(fk, Rows(fixtures, fk.parent)[i], fixtures)) == 0
  }

  /** The key can be inspected and its probes count zero. */
  predicate ProbesZero(db: Database, fk: ForeignKey, fixtures: Fixtures) {
    Readable(fk, fixtures) && Clean(db, fk, fixtures, |Rows(fixtures, fk.parent)|)
  }

  /** Every key can be inspected and every probe counts zero. */
  predicate AllProbesZero(db: Database, fks: seq<ForeignKey>, fixtures: Fixtures) {
    forall k :: 0 <= k < |fks| ==> ProbesZero(db, fks[k], fixtures)
  }

  /** A nonzero count: the constraint, the fixture by its place from 1 on, and the count. */
  type Finding = (string, nat, nat)

  function Findings(db: Database, fk: ForeignKey, fixtures: Fixtures, n: nat): seq<Finding>
    requires Readable(fk, fixtures) && n <= |Rows(fixtures, fk.parent)|
  {
    if n == 0 then []
    else
      var count := CountRows(Rows(db, fk.child), ProbeFor(fk, Rows(fixtures, fk.parent)[n - 1], fixtures));
      Findings(db, fk, fixtures, n - 1) + if count > 0 then [(fk.name, n, count)] else []
  }

  function Inspected(db: Database, fk: ForeignKey, fixtures: Fixtures): Result<seq<Finding>> {
    if Readable(fk, fixtures) then Ok(Findings(db, fk, fixtures, |Rows(fixtures, fk.parent)|))
    else if WellFormed(fk) then MissingColumn(fk.name)
    else MalformedKey(fk.name)
  }

  /** Key by key; the first that cannot be inspected ends the check. */
  function InspectedAll(db: Database, fks: seq<ForeignKey>, fixtures: Fixtures): Result<seq<Finding>> {
    if fks == [] then Ok([])
    else
      var n := |fks| - 1;
      var before := InspectedAll(db, fks[..n], fixtures);
      if !before.Ok? then before
      else
        var found := Inspected(db, fks[n], fixtures);
        if found.Ok? then Ok(before.value + found.value) else found
  }

  method UnexpectedFor(db: Database, fk: ForeignKey, fixtures: Fixtures) returns (r: Result<seq<Finding>>)
    ensures r == Inspected(db, fk, fixtures)
  {
    var parents := Rows(fixtures, fk.parent);
    var unexpected: seq<Finding> := [];
    var p := 0;
    while p < |parents|
      invariant 0 <= p <= |parents|
      invariant p > 0 ==> WellFormed(fk)
      invariant forall i :: 0 <= i < p ==> Inspectable(fk, parents[i])
      invariant Readable(fk, fixtures) ==> unexpected == Findings(db, fk, fixtures, p)
    {
      var probe := ReferenceProbe(fk, parents[p], fixtures);
      match probe {
        case MalformedKey(name) => return MalformedKey(name);
        case MissingColumn(name) => return MissingColumn(name);
        case Ok(statement) =>
          var count := CountRows(Rows(db, fk.child), statement);
          if count > 0 {
            unexpected := unexpected + [(fk.name, p + 1, count)];
          }
      }
      p := p + 1;
    }
    r := Ok(unexpected);
  }

  /** All nonzero counts, key by key. */
  method UnexpectedReferences(db: Database, fks: seq<ForeignKey>, fixtures: Fixtures) returns (r: Result<seq<Finding>>)
    ensures r == InspectedAll(db, fks, fixtures)
    ensures r.Ok? && r.value == [] <==> AllProbesZero(db, fks, fixtures)
  {
    var unexpected: seq<Finding> := [];
    var k := 0;
    while k < |fks|
      invariant 0 <= k <= |fks|
      invariant InspectedAll(db, fks[..k], fixtures) == Ok(unexpected)
    {
      assert fks[..k + 1][..k] == fks[..k];
      var found := UnexpectedFor(db, fks[k], fixtures);
      if !found.Ok? {
        FirstErrorStays(db, fks, fixtures, k + 1);
        PassesIff(db, fks, fixtures);
        return found;
      }
      unexpected := unexpected + found.value;
      k := k + 1;
    }
    assert fks[..k] == fks;
    PassesIff(db, fks, fixtures);
    r := Ok(unexpected);
  }

  lemma {:induction false} FirstErrorStays(db: Database, fks: seq<ForeignKey>, fixtures: Fixtures, n: nat)
    requires n <= |fks| && !InspectedAll(db, fks[..n], fixtures).Ok?
    ensures InspectedAll(db, fks, fixtures) == InspectedAll(db, fks[..n], fixtures)
    decreases |fks|
  {
    if n < |fks| {
      assert fks[..|fks| - 1][..n] == fks[..n];
      FirstErrorStays(db, fks[..|fks| - 1], fixtures, n);
    } else {
      assert fks[..n] == fks;
    }
  }

  /** A finding names a fixture and how many rows its probe counts, and no nonzero count is left out. */
  lemma {:induction false} FindingsMean(db: Database, fk: ForeignKey, fixtures: Fixtures, n: nat, place: nat, count: nat)
    requires Readable(fk, fixtures) && n <= |Rows(fixtures, fk.parent)|
    ensures (fk.name, place, count) in Findings(db, fk, fixtures, n) <==>
              && 1 <= place <= n && count > 0
              && count == CountRows(Rows(db, fk.child), ProbeFor(fk, Rows(fixtures, fk.parent)[place - 1], fixtures))
    ensures forall finding :: finding in Findings(db, fk, fixtures, n) ==> finding.0 == fk.name
  {
    if n > 0 {
      FindingsMean(db, fk, fixtures, n - 1, place, count);
    }
  }

  lemma {:induction false} NoFindingsIff(db: Database, fk: ForeignKey, fixtures: Fixtures, n: nat)
    requires Readable(fk, fixtures) && n <= |Rows(fixtures, fk.parent)|
    ensures Findings(db, fk, fixtures, n) == [] <==> Clean(db, fk, fixtures, n)
  {
    if n > 0 {
      NoFindingsIff(db, fk, fixtures, n - 1);
    }
  }

  lemma {:induction false} ReportIffReadable(db: Database, fks: seq<ForeignKey>, fixtures: Fixtures)
    ensures InspectedAll(db, fks, fixtures).Ok? <==> forall k :: 0 <= k < |fks| ==> Readable(fks[k], fixtures)
    decreases |fks|
  {
    if fks != [] {
      var n := |fks| - 1;
      ReportIffReadable(db, fks[..n], fixtures);
      assert forall k :: 0 <= k < n ==> fks[..n][k] == fks[k];
    }
  }

  lemma KeyPassesIff(db: Database, fk: ForeignKey, fixtures: Fixtures)
    ensures Inspected(db, fk, fixtures) == Ok([]) <==> ProbesZero(db, fk, fixtures)
  {
    if Readable(fk, fixtures) {
      NoFindingsIff(db, fk, fixtures, |Rows(fixtures, fk.parent)|);
    }
  }

  lemma LastKeyCounts(db: Database, fks: seq<ForeignKey>, fixtures: Fixtures)
    requires fks != []
    ensures AllProbesZero(db, fks, fixtures) <==>
            AllProbesZero(db, fks[..|fks| - 1], fixtures) && ProbesZero(db, fks[|fks| - 1], fixtures)
  {
    var n := |fks| - 1;
    if AllProbesZero(db, fks, fixtures) {
      assert ProbesZero(db, fks[n], fixtures);
      forall k | 0 <= k < n ensures ProbesZero(db, fks[..n][k], fixtures) {
        assert ProbesZero(db, fks[k], fixtures);
      }
    }
    if AllProbesZero(db, fks[..n], fixtures) && ProbesZero(db, fks[n], fixtures) {
      forall k | 0 <= k < |fks| ensures ProbesZero(db, fks[k], fixtures) {
        if k < n { assert ProbesZero(db, fks[..n][k], fixtures); }
      }
    }
  }

  /** The check passes when every key can be inspected and every count is zero. */
  lemma {:induction false} PassesIff(db: Database, fks: seq<ForeignKey>, fixtures: Fixtures)
    ensures InspectedAll(db, fks, fixtures) == Ok([]) <==> AllProbesZero(db, fks, fixtures)
    decreases |fks|
  {
    if fks != [] {
      PassesIff(db, fks[..|fks| - 1], fixtures);
      KeyPassesIff(db, fks[|fks| - 1], fixtures);
      LastKeyCounts(db, fks, fixtures);
      var before, found := InspectedAll(db, fks[..|fks| - 1], fixtures), Inspected(db, fks[|fks| - 1], fixtures);
      if before.Ok? && found.Ok? {
        assert |before.value + found.value| == |before.value| + |found.value|;
      }
    }
  }

  /** The key whose name the error has is the first that cannot be inspected: malformed, or a fixture lacks a
      column that it refers to. */
  lemma {:induction false} FirstUnreadable(db: Database, fks: seq<ForeignKey>, fixtures: Fixtures) returns (k: nat)
    requires !InspectedAll(db, fks, fixtures).Ok?
    ensures k < |fks| && !Readable(fks[k], fixtures) && forall j :: 0 <= j < k ==> Readable(fks[j], fixtures)
    ensures InspectedAll(db, fks, fixtures) ==
              if |fks[k].childColumns| == |fks[k].parentColumns| && |fks[k].childColumns| > 0 then MissingColumn(fks[k].name)
              else MalformedKey(fks[k].name)
    decreases |fks|
  {
    k := |fks| - 1;
    if InspectedAll(db, fks[..k], fixtures).Ok? {
      ReportIffReadable(db, fks[..k], fixtures);
      assert forall j :: 0 <= j < k ==> fks[..k][j] == fks[j];
    } else {
      k := FirstUnreadable(db, fks[..k], fixtures);
    }
  }

  /** A key cannot be inspected when there are fixtures of its parent and it pairs no columns, or one of them lacks a
      column that it refers to. */
  lemma UnreadableIff(fk: ForeignKey, fixtures: Fixtures)
    ensures !Readable(fk, fixtures) <==>
              && Rows(fixtures, fk.parent) != []
              && (|fk.childColumns| != |fk.parentColumns| || fk.childColumns == []
                  || exists d, c :: d in Rows(fixtures, fk.parent) && c in fk.parentColumns && c !in d)
  {
    var parents := Rows(fixtures, fk.parent);
    if i :| 0 <= i < |parents| && !Inspectable(fk, parents[i]) {
      var c :| c in fk.parentColumns && c !in parents[i];
      assert parents[i] in parents;
    }
  }

  predicate Reports(db: Database, fk: ForeignKey, fixtures: Fixtures, finding: Finding) {
    Readable(fk, fixtures) && finding in Inspected(db, fk, fixtures).value
  }

  /** The report holds the findings of every key. */
  lemma {:induction false} ReportHolds(db: Database, fks: seq<ForeignKey>, fixtures: Fixtures, finding: Finding)
    requires InspectedAll(db, fks, fixtures).Ok?
    ensures finding in InspectedAll(db, fks, fixtures).value <==>
              exists k :: 0 <= k < |fks| && Reports(db, fks[k], fixtures, finding)
    decreases |fks|
  {
    if fks != [] {
      var n := |fks| - 1;
      ReportHolds(db, fks[..n], fixtures, finding);
      if finding in InspectedAll(db, fks[..n], fixtures).value {
        var k :| 0 <= k < n && Reports(db, fks[..n][k], fixtures, finding);
        assert Reports(db, fks[k], fixtures, finding);
      }
      if k :| 0 <= k < n && Reports(db, fks[k], fixtures, finding) {
        assert Reports(db, fks[..n][k], fixtures, finding);
      }
    }
  }

  // ---- what a cascading delete removes --------------------------------------------------------------

  /** The child row refers to the parent row through the key; NULL refers to nothing. */
  predicate Refers(fk: ForeignKey, child: Row, parent: Row) {
    && |fk.childColumns| == |fk.parentColumns|
    && forall i :: 0 <= i < |fk.childColumns| ==>
         Cell(child, fk.childColumns[i]).Some? && Cell(child, fk.childColumns[i]) == Cell(parent, fk.parentColumns[i])
  }

  predicate Stored(db: Database, entry: (Table, Row)) {
    entry.1 in Rows(db, entry.0)
  }

  predicate RefersBy(fk: ForeignKey, parent: (Table, Row), child: (Table, Row)) {
    fk.parent == parent.0 && fk.child == child.0 && Refers(fk, child.1, parent.1)
  }

  /** Deleting the parent row deletes the child row. */
  ghost predicate Cascades(fks: seq<ForeignKey>, parent: (Table, Row), child: (Table, Row)) {
    exists fk :: fk in fks && fk.onDelete == Cascade && RefersBy(fk, parent, child)
  }

  /** The child row refers to the parent row, whatever the key does on delete. */
  ghost predicate References(fks: seq<ForeignKey>, parent: (Table, Row), child: (Table, Row)) {
    exists fk :: fk in fks && RefersBy(fk, parent, child)
  }

  ghost predicate IsFixture(fixtures: Fixtures, entry: (Table, Row)) {
    exists d :: d in Rows(fixtures, entry.0) && Matches(entry.1, d)
  }

  ghost predicate MayBeFixture(fixtures: Fixtures, entry: (Table, Row)) {
    exists d :: d in Rows(fixtures, entry.0) && MayMatch(entry.1, d)
  }

  /** A deleted fixture row followed by rows that each cascade from the one before. */
  ghost predicate Chain(db: Database, fks: seq<ForeignKey>, fixtures: Fixtures, chain: seq<(Table, Row)>) {
    && chain != [] && IsFixture(fixtures, chain[0])
    && (forall i :: 0 <= i < |chain| ==> Stored(db, chain[i]))
    && (forall i, j :: 0 <= i < j < |chain| && j == i + 1 ==> Cascades(fks, chain[i], chain[j]))
  }

  /** The row is in the cascade closure of deleting the fixtures. */
  ghost predicate Removed(db: Database, fks: seq<ForeignKey>, fixtures: Fixtures, entry: (Table, Row)) {
    exists chain :: Chain(db, fks, fixtures, chain) && chain[|chain| - 1] == entry
  }

  /** Deleting the fixtures removes the row, or meets it as one that refers to a removed row: it loses its
      reference, or the delete fails. */
  ghost predicate Touched(db: Database, fks: seq<ForeignKey>, fixtures: Fixtures, entry: (Table, Row)) {
    || Removed(db, fks, fixtures, entry)
    || (Stored(db, entry) && exists parent :: Removed(db, fks, fixtures, parent) && References(fks, parent, entry))
  }

  lemma {:induction false} ReferencesHold(row: Row, terms: seq<(Column, Value)>)
    ensures AllReferences(row, terms) == True <==> forall i :: 0 <= i < |terms| ==> Cell(row, terms[i].0) == Some(terms[i].1)
  {
    if terms != [] {
      ReferencesHold(row, terms[1..]);
      assert forall i :: 1 <= i < |terms| ==> terms[i] == terms[1..][i - 1];
    }
  }

  lemma OrIsFalse(a: Truth, b: Truth)
    ensures a.Or(b) == False <==> a == False && b == False
  {
  }

  lemma MatchingMayMatch(row: Row, d: Description)
    ensures Matches(row, d) ==> MayMatch(row, d)
  {
  }

  lemma {:induction false} NoneKnown(row: Row, known: seq<Description>)
    ensures AnyKnown(row, known) == False <==> forall d :: d in known ==> !MayMatch(row, d)
  {
    if known != [] {
      NoneKnown(row, known[1..]);
      assert forall d :: d in known <==> d == known[0] || d in known[1..];
      OrIsFalse(KnownTerm(row, known[0]), AnyKnown(row, known[1..]));
      MatchingMayMatch(row, known[0]);
    }
  }

  lemma {:induction false} CountIsZero(rows: seq<Row>, probe: Probe)
    ensures CountRows(rows, probe) == 0 <==> forall row :: row in rows ==> Where(row, probe) != True
  {
    if rows != [] {
      CountIsZero(rows[..|rows| - 1], probe);
      assert forall row :: row in rows <==> row in rows[..|rows| - 1] || row == rows[|rows| - 1];
    }
  }

  function Hits(rows: seq<Row>, probe: Probe): set<nat> {
    set i | 0 <= i < |rows| && Where(rows[i], probe) == True
  }

  /** The count is the number of stored rows for which the condition is true. */
  lemma {:induction false} CountIsCardinality(rows: seq<Row>, probe: Probe)
    ensures CountRows(rows, probe) == |Hits(rows, probe)|
  {
    if rows == [] {
      assert Hits(rows, probe) == {};
    } else {
      var n := |rows| - 1;
      CountIsCardinality(rows[..n], probe);
      LastRowHits(rows, probe);
    }
  }

  lemma LastRowHits(rows: seq<Row>, probe: Probe)
    requires rows != []
    ensures var n := |rows| - 1; Hits(rows, probe) == Hits(rows[..n], probe) + if Where(rows[n], probe) == True then {n} else {}
  {
  }

  /** The probe counts a row exactly when it refers to the fixture's key and contradicts every known
      description of its table. */
  lemma ProbeMeans(fk: ForeignKey, d: Description, fixtures: Fixtures, row: Row)
    requires WellFormed(fk) && Inspectable(fk, d)
    ensures Where(row, ProbeFor(fk, d, fixtures)) == True <==>
              && (forall i :: 0 <= i < |fk.childColumns| ==> Cell(row, fk.childColumns[i]) == Some(d[fk.parentColumns[i]]))
              && (forall k :: k in Rows(fixtures, fk.child) ==> !MayMatch(row, k))
  {
    var probe := ProbeFor(fk, d, fixtures);
    ReferencesHold(row, probe.references);
    NoneKnown(row, probe.known);
    assert forall i :: 0 <= i < |fk.childColumns| ==> probe.references[i] == (fk.childColumns[i], d[fk.parentColumns[i]]);
    assert AnyKnown(row, probe.known).Not() == True <==> AnyKnown(row, probe.known) == False;
  }

  /** What one probe that counts zero says. */
  lemma ZeroProbe(db: Database, fks: seq<ForeignKey>, fixtures: Fixtures, fk: ForeignKey, d: Description, row: Row)
    requires AllProbesZero(db, fks, fixtures) && fk in fks && d in Rows(fixtures, fk.parent) && row in Rows(db, fk.child)
    ensures WellFormed(fk) && Inspectable(fk, d) && Where(row, ProbeFor(fk, d, fixtures)) != True
  {
    var k :| 0 <= k < |fks| && fks[k] == fk;
    var p :| 0 <= p < |Rows(fixtures, fk.parent)| && Rows(fixtures, fk.parent)[p] == d;
    assert Readable(fks[k], fixtures) && Clean(db, fks[k], fixtures, |Rows(fixtures, fks[k].parent)|);
    CountIsZero(Rows(db, fk.child), ProbeFor(fk, d, fixtures));
  }

  lemma ReferenceMeets(fk: ForeignKey, child: Row, parent: Row, d: Description)
    requires Refers(fk, child, parent) && MayMatch(parent, d) && Inspectable(fk, d)
    ensures forall i :: 0 <= i < |fk.childColumns| ==> Cell(child, fk.childColumns[i]) == Some(d[fk.parentColumns[i]])
  {
    forall i | 0 <= i < |fk.childColumns| ensures Cell(child, fk.childColumns[i]) == Some(d[fk.parentColumns[i]]) {
      assert fk.parentColumns[i] in d && Cell(parent, fk.parentColumns[i]).Some?;
    }
  }

  /** One reference to a row that may be a fixture. */
  lemma StepStaysInside(db: Database, fks: seq<ForeignKey>, fixtures: Fixtures, parent: (Table, Row), child: (Table, Row))
    requires AllProbesZero(db, fks, fixtures)
    requires MayBeFixture(fixtures, parent) && Stored(db, child) && References(fks, parent, child)
    ensures MayBeFixture(fixtures, child)
  {
    var fk :| fk in fks && RefersBy(fk, parent, child);
    var d :| d in Rows(fixtures, parent.0) && MayMatch(parent.1, d);
    ZeroProbe(db, fks, fixtures, fk, d, child.1);
    ReferenceMeets(fk, child.1, parent.1, d);
    ProbeMeans(fk, d, fixtures, child.1);
  }

  lemma {:induction false} ChainStaysInside(db: Database, fks: seq<ForeignKey>, fixtures: Fixtures, chain: seq<(Table, Row)>)
    requires AllProbesZero(db, fks, fixtures) && Chain(db, fks, fixtures, chain)
    ensures MayBeFixture(fixtures, chain[|chain| - 1])
  {
    var n := |chain| - 1;
    if n > 0 {
      ChainStaysInside(db, fks, fixtures, chain[..n]);
      assert Cascades(fks, chain[n - 1], chain[n]) && Stored(db, chain[n]);
      assert References(fks, chain[n - 1], chain[n]);
      StepStaysInside(db, fks, fixtures, chain[n - 1], chain[n]);
    } else {
      var d :| d in Rows(fixtures, chain[0].0) && Matches(chain[0].1, d);
      assert MayMatch(chain[0].1, d);
    }
  }

  lemma RemovedStaysInside(db: Database, fks: seq<ForeignKey>, fixtures: Fixtures, entry: (Table, Row))
    requires AllProbesZero(db, fks, fixtures) && Removed(db, fks, fixtures, entry)
    ensures Stored(db, entry) && MayBeFixture(fixtures, entry)
  {
    var chain :| Chain(db, fks, fixtures, chain) && chain[|chain| - 1] == entry;
    ChainStaysInside(db, fks, fixtures, chain);
  }

  /** Over any graph of foreign keys and any rows: when every probe counts zero, deleting the fixtures
      removes, changes and runs into no row that contradicts every fixture description of its table. */
  lemma CascadeStaysInside(db: Database, fks: seq<ForeignKey>, fixtures: Fixtures, entry: (Table, Row))
    requires AllProbesZero(db, fks, fixtures) && Touched(db, fks, fixtures, entry)
    ensures Stored(db, entry) && MayBeFixture(fixtures, entry)
  {
    if Removed(db, fks, fixtures, entry) {
      RemovedStaysInside(db, fks, fixtures, entry);
    } else {
      var parent :| Removed(db, fks, fixtures, parent) && References(fks, parent, entry);
      RemovedStaysInside(db, fks, fixtures, parent);
      StepStaysInside(db, fks, fixtures, parent, entry);
    }
  }

  /** The described columns hold no NULL. */
  ghost predicate KeysPresent(db: Database, fixtures: Fixtures) {
    forall table, row, d, c :: row in Rows(db, table) && d in Rows(fixtures, table) && c in d ==> Cell(row, c).Some?
  }

  /** Every description used as a parent stands for a stored row. */
  ghost predicate AllPresent(db: Database, fixtures: Fixtures) {
    forall table, d :: d in Rows(fixtures, table) ==> exists row :: row in Rows(db, table) && Matches(row, d)
  }

  /** What the exactness of the check takes: stored fixtures with readable, non-null keys. */
  ghost predicate Described(db: Database, fks: seq<ForeignKey>, fixtures: Fixtures) {
    KeysPresent(db, fixtures) && AllPresent(db, fixtures) && forall k :: 0 <= k < |fks| ==> Readable(fks[k], fixtures)
  }

  /** The check is exact: it passes if and only if deleting the fixtures touches fixtures only. */
  lemma CheckIsExact(db: Database, fks: seq<ForeignKey>, fixtures: Fixtures)
    requires Described(db, fks, fixtures)
    ensures AllProbesZero(db, fks, fixtures) <==>
            forall entry :: Touched(db, fks, fixtures, entry) ==> IsFixture(fixtures, entry)
  {
    if AllProbesZero(db, fks, fixtures) {
      forall entry | Touched(db, fks, fixtures, entry) ensures IsFixture(fixtures, entry) {
        CascadeStaysInside(db, fks, fixtures, entry);
        var d :| d in Rows(fixtures, entry.0) && MayMatch(entry.1, d);
        assert Matches(entry.1, d);
      }
    } else {
      var _, entry := RefusalIsJustified(db, fks, fixtures);
      FixturesMayBeFixtures(fixtures, entry);
    }
  }

  /** Where every key cascades, it passes if and only if deleting the fixtures removes fixtures only. */
  lemma CheckIsExactForCascades(db: Database, fks: seq<ForeignKey>, fixtures: Fixtures)
    requires Described(db, fks, fixtures) && forall fk :: fk in fks ==> fk.onDelete == Cascade
    ensures AllProbesZero(db, fks, fixtures) <==>
            forall entry :: Removed(db, fks, fixtures, entry) ==> IsFixture(fixtures, entry)
  {
    CheckIsExact(db, fks, fixtures);
    if !AllProbesZero(db, fks, fixtures) {
      var fk, entry := RefusalIsJustified(db, fks, fixtures);
      FixturesMayBeFixtures(fixtures, entry);
    }
  }

  /** Where deleting the fixtures removes fixtures only, the check still refuses if and only if a row that is
      no fixture refers to a removed one, which no cascading key then does. */
  lemma RefusesTooMuchIff(db: Database, fks: seq<ForeignKey>, fixtures: Fixtures)
    requires Described(db, fks, fixtures)
    requires forall entry :: Removed(db, fks, fixtures, entry) ==> IsFixture(fixtures, entry)
    ensures !AllProbesZero(db, fks, fixtures) <==>
            exists parent, child :: Removed(db, fks, fixtures, parent) && Stored(db, child) && !IsFixture(fixtures, child)
                                    && References(fks, parent, child) && !Cascades(fks, parent, child)
  {
    CheckIsExact(db, fks, fixtures);
    if !AllProbesZero(db, fks, fixtures) {
      var child :| Touched(db, fks, fixtures, child) && !IsFixture(fixtures, child);
      var parent :| Removed(db, fks, fixtures, parent) && References(fks, parent, child);
      if Cascades(fks, parent, child) {
        RemovedOn(db, fks, fixtures, parent, child);
      }
    }
  }

  lemma ChainOn(db: Database, fks: seq<ForeignKey>, fixtures: Fixtures, chain: seq<(Table, Row)>, child: (Table, Row))
    requires Chain(db, fks, fixtures, chain) && Stored(db, child) && Cascades(fks, chain[|chain| - 1], child)
    ensures Chain(db, fks, fixtures, chain + [child])
  {
    var longer := chain + [child];
    forall i, j | 0 <= i < j < |longer| && j == i + 1 ensures Cascades(fks, longer[i], longer[j]) {
      assert longer[i] == chain[i];
      if j < |chain| {
        assert Cascades(fks, chain[i], chain[j]);
      }
    }
    assert longer[0] == chain[0];
  }

  /** What cascades from a removed row is removed. */
  lemma RemovedOn(db: Database, fks: seq<ForeignKey>, fixtures: Fixtures, parent: (Table, Row), child: (Table, Row))
    requires Removed(db, fks, fixtures, parent) && Stored(db, child) && Cascades(fks, parent, child)
    ensures Removed(db, fks, fixtures, child)
  {
    var chain :| Chain(db, fks, fixtures, chain) && chain[|chain| - 1] == parent;
    ChainOn(db, fks, fixtures, chain, child);
    assert (chain + [child])[|chain + [child]| - 1] == child;
  }

  lemma FixtureIsRemoved(db: Database, fks: seq<ForeignKey>, fixtures: Fixtures, entry: (Table, Row))
    requires IsFixture(fixtures, entry) && Stored(db, entry)
    ensures Removed(db, fks, fixtures, entry)
  {
    assert Chain(db, fks, fixtures, [entry]) && [entry][|[entry]| - 1] == entry;
  }

  /** A row that a probe counts refers to a removed fixture, and every fixture description contradicts it. */
  lemma CountedIsTouched(db: Database, fks: seq<ForeignKey>, fixtures: Fixtures, fk: ForeignKey, d: Description, row: Row)
    requires AllPresent(db, fixtures) && fk in fks && WellFormed(fk) && Inspectable(fk, d)
    requires d in Rows(fixtures, fk.parent) && row in Rows(db, fk.child)
    requires Where(row, ProbeFor(fk, d, fixtures)) == True
    ensures Touched(db, fks, fixtures, (fk.child, row)) && !MayBeFixture(fixtures, (fk.child, row))
    ensures fk.onDelete == Cascade ==> Removed(db, fks, fixtures, (fk.child, row))
  {
    ProbeMeans(fk, d, fixtures, row);
    var parent :| parent in Rows(db, fk.parent) && Matches(parent, d);
    assert Refers(fk, row, parent) by {
      forall i | 0 <= i < |fk.childColumns|
        ensures Cell(row, fk.childColumns[i]).Some? && Cell(row, fk.childColumns[i]) == Cell(parent, fk.parentColumns[i])
      {
        assert fk.parentColumns[i] in d;
      }
    }
    FixtureIsRemoved(db, fks, fixtures, (fk.parent, parent));
    assert RefersBy(fk, (fk.parent, parent), (fk.child, row));
    assert References(fks, (fk.parent, parent), (fk.child, row));
    if fk.onDelete == Cascade {
      assert Cascades(fks, (fk.parent, parent), (fk.child, row));
      RemovedOn(db, fks, fixtures, (fk.parent, parent), (fk.child, row));
    }
  }

  /** A nonzero count names a row that is no fixture although deleting the fixtures touches it; through a
      cascading key it is removed. */
  lemma RefusalIsJustified(db: Database, fks: seq<ForeignKey>, fixtures: Fixtures) returns (fk: ForeignKey, entry: (Table, Row))
    requires AllPresent(db, fixtures)
    requires forall k :: 0 <= k < |fks| ==> Readable(fks[k], fixtures)
    requires !AllProbesZero(db, fks, fixtures)
    ensures fk in fks && Touched(db, fks, fixtures, entry) && !MayBeFixture(fixtures, entry)
    ensures fk.onDelete == Cascade ==> Removed(db, fks, fixtures, entry)
  {
    var k :| 0 <= k < |fks| && !ProbesZero(db, fks[k], fixtures);
    fk := fks[k];
    var p :| 0 <= p < |Rows(fixtures, fk.parent)|
             && CountRows(Rows(db, fk.child), ProbeFor(fk, Rows(fixtures, fk.parent)[p], fixtures)) != 0;
    var d := Rows(fixtures, fk.parent)[p];
    CountIsZero(Rows(db, fk.child), ProbeFor(fk, d, fixtures));
    var row :| row in Rows(db, fk.child) && Where(row, ProbeFor(fk, d, fixtures)) == True;
    CountedIsTouched(db, fks, fixtures, fk, d, row);
    entry := (fk.child, row);
  }

  lemma FixturesMayBeFixtures(fixtures: Fixtures, entry: (Table, Row))
    ensures IsFixture(fixtures, entry) ==> MayBeFixture(fixtures, entry)
  {
  }

  /** A key from `child.parent_id` to `parent.id`, a fixture in each table. */
  const EXAMPLE_KEY := ForeignKey("fk", "child", "parent", ["parent_id"], ["id"], Cascade)
  const EXAMPLE_FIXTURES: Fixtures := map["parent" := [map["id" := "1"]], "child" := [map["code" := "a"]]]
  const EXAMPLE_CHILD: Row := map["parent_id" := Some("1"), "code" := None]
  const EXAMPLE_ROWS: Database := map["parent" := [map["id" := Some("1")]], "child" := [EXAMPLE_CHILD]]

  lemma ExampleChildStaysOpen()
    ensures MayMatch(EXAMPLE_CHILD, map["code" := "a"])
    ensures !IsFixture(EXAMPLE_FIXTURES, ("child", EXAMPLE_CHILD))
  {
    var d: Description := map["code" := "a"];
    assert "code" in d && !Matches(EXAMPLE_CHILD, d);
    assert Rows(EXAMPLE_FIXTURES, "child") == [d];
  }

  lemma ExampleProbesCountZero()
    ensures AllProbesZero(EXAMPLE_ROWS, [EXAMPLE_KEY], EXAMPLE_FIXTURES)
  {
    var d: Description := map["id" := "1"];
    assert Rows(EXAMPLE_FIXTURES, "parent") == [d];
    assert Rows(EXAMPLE_ROWS, "child") == [EXAMPLE_CHILD];
    assert Inspectable(EXAMPLE_KEY, d);
    ExampleChildStaysOpen();
    assert map["code" := "a"] in Rows(EXAMPLE_FIXTURES, "child");
    ProbeMeans(EXAMPLE_KEY, d, EXAMPLE_FIXTURES, EXAMPLE_CHILD);
    CountIsZero([EXAMPLE_CHILD], ProbeFor(EXAMPLE_KEY, d, EXAMPLE_FIXTURES));
    assert Readable(EXAMPLE_KEY, EXAMPLE_FIXTURES) && Clean(EXAMPLE_ROWS, EXAMPLE_KEY, EXAMPLE_FIXTURES, 1);
  }

  lemma ExampleChildIsRemoved()
    ensures Removed(EXAMPLE_ROWS, [EXAMPLE_KEY], EXAMPLE_FIXTURES, ("child", EXAMPLE_CHILD))
  {
    var parent: Row := map["id" := Some("1")];
    var d: Description := map["id" := "1"];
    assert Matches(parent, d) && d in Rows(EXAMPLE_FIXTURES, "parent");
    assert Refers(EXAMPLE_KEY, EXAMPLE_CHILD, parent);
    assert EXAMPLE_KEY in [EXAMPLE_KEY] && RefersBy(EXAMPLE_KEY, ("parent", parent), ("child", EXAMPLE_CHILD));
    assert Rows(EXAMPLE_ROWS, "child") == [EXAMPLE_CHILD] && Rows(EXAMPLE_ROWS, "parent") == [parent];
    FixtureIsRemoved(EXAMPLE_ROWS, [EXAMPLE_KEY], EXAMPLE_FIXTURES, ("parent", parent));
    RemovedOn(EXAMPLE_ROWS, [EXAMPLE_KEY], EXAMPLE_FIXTURES, ("parent", parent), ("child", EXAMPLE_CHILD));
  }

  /** With a NULL in a described column the probe's `NOT (...)` is unknown: a row that is no fixture is
      removed although every probe counts zero. */
  lemma NullEscapesTheProbe()
    ensures exists db: Database, fks: seq<ForeignKey>, fixtures: Fixtures, entry: (Table, Row) ::
              AllProbesZero(db, fks, fixtures) && Removed(db, fks, fixtures, entry) && !IsFixture(fixtures, entry)
  {
    ExampleChildStaysOpen();
    ExampleProbesCountZero();
    ExampleChildIsRemoved();
  }

  /** The same key with ON DELETE SET NULL, and a child that is no fixture. */
  const SET_NULL_KEY := EXAMPLE_KEY.(onDelete := SetNull)
  const OTHER_CHILD: Row := map["parent_id" := Some("1"), "code" := Some("b")]
  const OTHER_ROWS: Database := map["parent" := [map["id" := Some("1")]], "child" := [OTHER_CHILD]]

  lemma NothingCascades(fks: seq<ForeignKey>, parent: (Table, Row), child: (Table, Row))
    requires forall fk :: fk in fks ==> fk.onDelete != Cascade
    ensures !Cascades(fks, parent, child)
  {
  }

  lemma OnlyFixturesGoWithoutCascades(db: Database, fks: seq<ForeignKey>, fixtures: Fixtures, entry: (Table, Row))
    requires forall fk :: fk in fks ==> fk.onDelete != Cascade
    requires Removed(db, fks, fixtures, entry)
    ensures IsFixture(fixtures, entry)
  {
    var chain :| Chain(db, fks, fixtures, chain) && chain[|chain| - 1] == entry;
    if |chain| > 1 {
      NothingCascades(fks, chain[|chain| - 2], chain[|chain| - 1]);
      assert false;
    }
  }

  lemma SetNullProbeCounts()
    ensures !AllProbesZero(OTHER_ROWS, [SET_NULL_KEY], EXAMPLE_FIXTURES)
  {
    var d: Description := map["id" := "1"];
    var known: Description := map["code" := "a"];
    assert "code" in known && !MayMatch(OTHER_CHILD, known);
    assert Rows(EXAMPLE_FIXTURES, "parent") == [d] && Rows(EXAMPLE_FIXTURES, "child") == [known];
    assert Rows(OTHER_ROWS, "child") == [OTHER_CHILD];
    ProbeMeans(SET_NULL_KEY, d, EXAMPLE_FIXTURES, OTHER_CHILD);
    CountIsZero([OTHER_CHILD], ProbeFor(SET_NULL_KEY, d, EXAMPLE_FIXTURES));
    assert Inspectable(SET_NULL_KEY, d);
    assert Readable(SET_NULL_KEY, EXAMPLE_FIXTURES);
    assert !Clean(OTHER_ROWS, SET_NULL_KEY, EXAMPLE_FIXTURES, 1) by {
      assert Rows(EXAMPLE_FIXTURES, SET_NULL_KEY.parent)[0] == d;
    }
    assert [SET_NULL_KEY][0] == SET_NULL_KEY;
  }

  /** Through a SET NULL key the check refuses although the delete removes fixtures only. */
  lemma SetNullIsRefused()
    ensures exists db: Database, fks: seq<ForeignKey>, fixtures: Fixtures ::
              !AllProbesZero(db, fks, fixtures) && forall entry :: Removed(db, fks, fixtures, entry) ==> IsFixture(fixtures, entry)
  {
    SetNullProbeCounts();
    forall entry | Removed(OTHER_ROWS, [SET_NULL_KEY], EXAMPLE_FIXTURES, entry) ensures IsFixture(EXAMPLE_FIXTURES, entry) {
      OnlyFixturesGoWithoutCascades(OTHER_ROWS, [SET_NULL_KEY], EXAMPLE_FIXTURES, entry);
    }
  }
}
