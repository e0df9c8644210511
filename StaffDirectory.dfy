/** The staff directory: the single expanded row, the vacancies created by
    a staff member, and the spreadsheet rows exported for them. */
module StaffDirectory {
  import opened Wrappers
  import opened StaffTypes

  /** The expanded row after the View/Hide button of row `id` is pressed:
      hiding the row that is open, otherwise opening `id`, which closes
      whatever row was open before. */
  function Toggle(expanded: Option<int>, id: int): (r: Option<int>)
    ensures r == None <==> expanded == Some(id)
    ensures r != None ==> r == Some(id)
  {
    if expanded == Some(id) then None else Some(id)
  }

  /** Pressing the same button twice restores the state, provided no
      other row was open before. */
  lemma ToggleTwiceRestores(expanded: Option<int>, id: int)
    requires expanded == None || expanded == Some(id)
    ensures Toggle(Toggle(expanded, id), id) == expanded
  {
  }

  /** When another row was open, the first press replaces it and the
      second closes everything: the other row is not reopened. */
  lemma ToggleTwiceFromOtherRow(other: int, id: int)
    requires other != id
    ensures Toggle(Some(other), id) == Some(id)
    ensures Toggle(Toggle(Some(other), id), id) == None
  {
  }

  /** The vacancies whose creator is `staffId`, in the order of `vs`. */
  function VacanciesByStaff(vs: seq<VacancyRecord>, staffId: int): (r: seq<VacancyRecord>)
    ensures |r| <= |vs|
    ensures forall v :: v in r ==> v in vs && v.createdByStaffId == Some(staffId)
  {
    if vs == [] then []
    else if vs[0].createdByStaffId == Some(staffId) then [vs[0]] + VacanciesByStaff(vs[1..], staffId)
    else VacanciesByStaff(vs[1..], staffId)
  }

  /** No vacancy created by `staffId` is missed. */
  lemma {:induction false} VacanciesByStaffComplete(vs: seq<VacancyRecord>, staffId: int, v: VacancyRecord)
    requires v in vs && v.createdByStaffId == Some(staffId)
    ensures v in VacanciesByStaff(vs, staffId)
  {
    if vs[0] != v {
      VacanciesByStaffComplete(vs[1..], staffId, v);
    }
  }

  /** The filter keeps source order: filtering a concatenation is the
      concatenation of the filtered parts. */
  lemma {:induction false} VacanciesByStaffAppend(a: seq<VacancyRecord>, b: seq<VacancyRecord>, staffId: int)
    ensures VacanciesByStaff(a + b, staffId) == VacanciesByStaff(a, staffId) + VacanciesByStaff(b, staffId)
  {
    if a == [] {
      assert a + b == b;
    } else {
      assert (a + b)[1..] == a[1..] + b;
      VacanciesByStaffAppend(a[1..], b, staffId);
    }
  }

  /** A list whose vacancies were all created by `staffId` is returned
      whole. */
  lemma {:induction false} VacanciesByStaffKeepsAll(vs: seq<VacancyRecord>, staffId: int)
    requires forall i :: 0 <= i < |vs| ==> vs[i].createdByStaffId == Some(staffId)
    ensures VacanciesByStaff(vs, staffId) == vs
  {
    if vs != [] {
      VacanciesByStaffKeepsAll(vs[1..], staffId);
    }
  }

  /** Filtering twice is filtering once. */
  lemma VacanciesByStaffIdempotent(vs: seq<VacancyRecord>, staffId: int)
    ensures VacanciesByStaff(VacanciesByStaff(vs, staffId), staffId) == VacanciesByStaff(vs, staffId)
  {
  }

  /** A spreadsheet cell: numbers stay numbers, they are not rounded or
      turned into text. */
  datatype Cell = Text(text: string) | Number(number: real)

  /** One spreadsheet row: its keys, in column order, with their cells. */
  type Row = seq<(string, Cell)>

  /** The fixed columns of the vacancy export, in order. */
  const ExportKeys: seq<string> :=
    ["JobTitle", "Department", "Type", "Openings", "MatchThreshold", "McqQuestions", "McqPassThreshold", "Status"]

  /** The keys of a row, in column order. */
  function Keys(row: Row): seq<string> {
    seq(|row|, i requires 0 <= i < |row| => row[i].0)
  }

  /** The cell under the first occurrence of `key`, if any. */
  function Lookup(row: Row, key: string): Option<Cell> {
    if row == [] then None
    else if row[0].0 == key then Some(row[0].1)
    else Lookup(row[1..], key)
  }

  /** The cell found for `key` is the one at the first index carrying it. */
  lemma {:induction false} LookupFirst(row: Row, i: nat, key: string)
    requires i < |row| && row[i].0 == key
    requires forall j :: 0 <= j < i ==> row[j].0 != key
    ensures Lookup(row, key) == Some(row[i].1)
  {
    if i > 0 {
      LookupFirst(row[1..], i - 1, key);
    }
  }

  /** The exported row of one vacancy: the eight columns, each holding the
      vacancy's field unchanged. */
  function ExportRow(v: VacancyRecord): (row: Row)
    ensures Keys(row) == ExportKeys
    ensures Lookup(row, "JobTitle") == Some(Text(v.jobTitle))
    ensures Lookup(row, "Department") == Some(Text(v.department))
    ensures Lookup(row, "Type") == Some(Text(v.employmentType))
    ensures Lookup(row, "Openings") == Some(Number(v.openings as real))
    ensures Lookup(row, "MatchThreshold") == Some(Number(v.matchThreshold))
    ensures Lookup(row, "McqQuestions") == Some(Number(v.mcqQuestionCount as real))
    ensures Lookup(row, "McqPassThreshold") == Some(Number(v.mcqPassThreshold))
    ensures Lookup(row, "Status") == Some(Text(v.status))
  {
    var row := [("JobTitle", Text(v.jobTitle)),
                ("Department", Text(v.department)),
                ("Type", Text(v.employmentType)),
                ("Openings", Number(v.openings as real)),
                ("MatchThreshold", Number(v.matchThreshold)),
                ("McqQuestions", Number(v.mcqQuestionCount as real)),
                ("McqPassThreshold", Number(v.mcqPassThreshold)),
                ("Status", Text(v.status))];
    LookupFirst(row, 2, "Type");
    LookupFirst(row, 3, "Openings");
    LookupFirst(row, 4, "MatchThreshold");
    LookupFirst(row, 5, "McqQuestions");
    LookupFirst(row, 6, "McqPassThreshold");
    LookupFirst(row, 7, "Status");
    row
  }

  /** The rows exported for a list of vacancies: one per vacancy, in the
      same order, each with the fixed columns and the vacancy's values. */
  function ExportRows(vs: seq<VacancyRecord>): (rows: seq<Row>)
    ensures |rows| == |vs|
    ensures forall i :: 0 <= i < |vs| ==> Keys(rows[i]) == ExportKeys
    ensures forall i :: 0 <= i < |vs| ==> ReadRow(rows[i]) == Some(Exported(vs[i]))
  {
    seq(|vs|, i requires 0 <= i < |vs| => ExportRow(vs[i]))
  }

  /** Exporting keeps the order of the list. */
  lemma ExportRowsAppend(a: seq<VacancyRecord>, b: seq<VacancyRecord>)
    ensures ExportRows(a + b) == ExportRows(a) + ExportRows(b)
  {
  }

  /** The eight exported fields of a vacancy. */
  datatype ExportedFields = ExportedFields(
    jobTitle: string, department: string, employmentType: string, openings: int,
    matchThreshold: real, mcqQuestionCount: int, mcqPassThreshold: real, status: string)

  function Exported(v: VacancyRecord): ExportedFields {
    ExportedFields(v.jobTitle, v.department, v.employmentType, v.openings,
                   v.matchThreshold, v.mcqQuestionCount, v.mcqPassThreshold, v.status)
  }

  function TextCell(c: Option<Cell>): Option<string> {
    if c.Some? && c.value.Text? then Some(c.value.text) else None
  }

  function RealCell(c: Option<Cell>): Option<real> {
    if c.Some? && c.value.Number? then Some(c.value.number) else None
  }

  function IntCell(c: Option<Cell>): Option<int> {
    if c.Some? && c.value.Number? && c.value.number == c.value.number.Floor as real
    then Some(c.value.number.Floor) else None
  }

  /** Reads an exported row back, as a consumer of the spreadsheet would:
      the inverse of `ExportRow` on the exported fields. */
  function ReadRow(row: Row): Option<ExportedFields> {
    var jobTitle := TextCell(Lookup(row, "JobTitle"));
    var department := TextCell(Lookup(row, "Department"));
    var employmentType := TextCell(Lookup(row, "Type"));
    var openings := IntCell(Lookup(row, "Openings"));
    var matchThreshold := RealCell(Lookup(row, "MatchThreshold"));
    var mcqQuestions := IntCell(Lookup(row, "McqQuestions"));
    var mcqPassThreshold := RealCell(Lookup(row, "McqPassThreshold"));
    var status := TextCell(Lookup(row, "Status"));
    if jobTitle.Some? && department.Some? && employmentType.Some? && openings.Some?
       && matchThreshold.Some? && mcqQuestions.Some? && mcqPassThreshold.Some? && status.Some?
    then Some(ExportedFields(jobTitle.value, department.value, employmentType.value, openings.value,
                             matchThreshold.value, mcqQuestions.value, mcqPassThreshold.value, status.value))
    else None
  }

  /** Reading an exported row back gives the vacancy's eight fields. */
  lemma ReadRowInvertsExport(v: VacancyRecord)
    ensures ReadRow(ExportRow(v)) == Some(Exported(v))
  {
  }

  /** One staff member with one vacancy: expanding the member lists that
      vacancy, and the export carries its match threshold of 82.6
      unrounded. */
  lemma ExportScenario()
    ensures var v := VacancyRecord(10, "Engineer", "Engineering", "full-time", 2, 82.6, 10, 60.0,
                                   "open", Some(1), "E1");
            var rows := ExportRows(VacanciesByStaff([v], 1));
            |rows| == 1 && Lookup(rows[0], "MatchThreshold") == Some(Number(82.6))
  {
  }
}
