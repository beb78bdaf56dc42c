/**
 * The rows of the patient record store, as plain values: the columns of
 * `database/schema.py` that the modelled code reads, and the queries of
 * `database/db_manager.py` that the modelled code calls.  A query returns
 * the rows sorted by its `ORDER BY` column, newest first; the order of rows
 * with equal dates is left to the store.  Sessions, commits and detaching
 * are not part of this model.
 */
module Records {
  import opened Wrappers
  import opened Text
  import opened Sorting
  import opened Lists

  /**
   * A timestamp: `key` orders timestamps (later is larger) and `text` is
   * its `strftime("%Y-%m-%d")` rendering.
   */
  datatype Date = Date(key: nat, text: string)

  datatype Patient = Patient(
    id: int,                     // primary key
    code: string,                // the clinic-assigned `patient_id` column
    firstName: string,
    lastName: string,
    dateOfBirth: Option<Date>,
    gender: Option<string>)

  datatype Visit = Visit(
    id: int,
    visitDate: Date,
    visitType: Option<string>,
    transcription: Option<string>,
    summary: Option<string>,
    cleanedSummary: Option<string>,
    topics: Option<seq<string>>,
    chiefComplaint: Option<string>,
    diagnosis: Option<string>,
    recommendations: Option<string>)

  datatype Medication = Medication(
    name: string,
    dosage: Option<string>,
    frequency: Option<string>,
    startDate: Option<Date>,
    endDate: Option<Date>,
    isActive: bool)

  /** An ordered JSON object whose values are already rendered as text. */
  type KeyValues = seq<(string, string)>

  /**
   * The JSON `results_data` column, reduced to the keys the code looks at:
   * each field is `None` when the key is absent.
   */
  datatype ResultsData = ResultsData(
    values: Option<KeyValues>,
    results: Option<KeyValues>,
    modality: Option<string>,
    studyDescription: Option<string>)

  datatype TestResult = TestResult(
    testType: string,
    testName: string,
    testDate: Date,
    resultsData: Option<ResultsData>,
    interpretation: Option<string>,
    notes: Option<string>)

  /** Everything the store holds for one patient, in the order the store returns it. */
  datatype PatientRows = PatientRows(
    patient: Patient,
    visits: seq<Visit>,
    medications: seq<Medication>,
    tests: seq<TestResult>)

  /** The record store, keyed by the patient primary key. */
  datatype Store = Store(rows: map<int, PatientRows>)

  /** `db_manager.get_patient(patient_id=id)`: a zero id is falsy and finds nobody. */
  function GetPatient(store: Store, id: int): (r: Option<Patient>)
    ensures r.Some? <==> id != 0 && id in store.rows
    ensures r.Some? ==> r.value == store.rows[id].patient
  {
    if id != 0 && id in store.rows then Some(store.rows[id].patient) else None
  }

  function VisitKey(v: Visit): int { v.visitDate.key }

  function TestKey(t: TestResult): int { t.testDate.key }

  /** The `start_date` order key: SQLite sorts NULL below every date. */
  function StartKey(m: Medication): int {
    match m.startDate
    case Some(d) => d.key
    case None => -1
  }

  predicate IsActive(m: Medication) { m.isActive }

  /** `db_manager.get_patient_visits(id)`: `ORDER BY visit_date DESC` */
  function GetPatientVisits(store: Store, id: int): (r: seq<Visit>)
    ensures SortedDesc(r, VisitKey)
    ensures id in store.rows ==> multiset(r) == multiset(store.rows[id].visits)
    ensures id !in store.rows ==> r == []
  {
    SortDesc(if id in store.rows then store.rows[id].visits else [], VisitKey)
  }

  /** `db_manager.get_patient_medications(id, active_only)`: `ORDER BY start_date DESC` */
  function GetPatientMedications(store: Store, id: int, activeOnly: bool): (r: seq<Medication>)
    ensures SortedDesc(r, StartKey)
    ensures activeOnly ==> forall k :: 0 <= k < |r| ==> r[k].isActive
    ensures id in store.rows ==> forall k :: 0 <= k < |r| ==> r[k] in store.rows[id].medications
    ensures id in store.rows ==>
              forall k :: 0 <= k < |store.rows[id].medications| && (store.rows[id].medications[k].isActive || !activeOnly)
                          ==> store.rows[id].medications[k] in r
    ensures id in store.rows && !activeOnly ==> multiset(r) == multiset(store.rows[id].medications)
    ensures id !in store.rows ==> r == []
  {
    var all := if id in store.rows then store.rows[id].medications else [];
    var kept := if activeOnly then Filter(all, IsActive) else all;
    var r := SortDesc(kept, StartKey);
    forall k | 0 <= k < |r| ensures r[k] in kept && (activeOnly ==> r[k].isActive) {
      assert r[k] in multiset(kept);
    }
    forall k | 0 <= k < |all| && (all[k].isActive || !activeOnly) ensures all[k] in r {
      assert all[k] in kept;
      assert all[k] in multiset(r);
    }
    r
  }

  /** `db_manager.get_patient_test_results(id)`: `ORDER BY test_date DESC` */
  function GetPatientTestResults(store: Store, id: int): (r: seq<TestResult>)
    ensures SortedDesc(r, TestKey)
    ensures id in store.rows ==> multiset(r) == multiset(store.rows[id].tests)
    ensures id !in store.rows ==> r == []
  {
    SortDesc(if id in store.rows then store.rows[id].tests else [], TestKey)
  }
}
