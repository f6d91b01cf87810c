/** The patient list screen: the saved-or-sample choice when loading, the
    search and status filter with the column sort, the sort-toggle state,
    and the delete, update and add edits of the shown list. */
module PatientList {
  import opened Common
  import Billing

  // ---------------------------------------------------------------------
  // fetchPatients: saved patients or the sample list
  // ---------------------------------------------------------------------

  function Sample(id: string, name: string, age: int, gender: string, contact: string, address: string,
                  diagnosis: string, admitted: int, discharged: Option<int>, status: string,
                  doctor: string, department: string): Patient {
    Patient(id, name, age, gender, contact, address, diagnosis, admitted, discharged, status, doctor, Some(department))
  }

  /** The sample patients; dates are day numbers (19492 is 2023-05-15). */
  const SamplePatients: seq<Patient> := [
    Sample("P1001", "John Doe", 45, "male", "555-123-4567", "123 Main St, Cityville", "Hypertension",
           19492, None, "Admitted", "Dr. Smith", "Cardiology"),
    Sample("P1002", "Emma Johnson", 35, "female", "555-234-5678", "456 Oak Ave, Townsville", "Diabetes Type 2",
           19526, None, "Admitted", "Dr. Garcia", "Endocrinology"),
    Sample("P1003", "Robert Davis", 60, "male", "555-345-6789", "789 Pine Rd, Villageton", "Arthritis",
           19518, Some(19525), "Discharged", "Dr. Lopez", "Orthopedics"),
    Sample("P1004", "Sarah Wilson", 28, "female", "555-456-7890", "101 Cedar Ln, Hamletville", "Bronchitis",
           19522, Some(19527), "Discharged", "Dr. Patel", "Pulmonology"),
    Sample("P1005", "Michael Brown", 52, "male", "555-567-8901", "202 Elm St, Boroughton", "Heart Disease",
           19528, None, "Admitted", "Dr. Wilson", "Cardiology")
  ]

  /** What loading leaves behind: the shown list and the stored list. */
  datatype Loaded = Loaded(patients: seq<Patient>, storage: seq<Patient>)

  /** `saved` is the stored `registeredPatients` list (absent reads as []).
      A non-empty saved list is shown and left as stored; otherwise the
      samples are shown and written to storage. */
  function FetchPatients(saved: seq<Patient>): (r: Loaded)
    ensures saved != [] ==> r.patients == saved && r.storage == saved
    ensures saved == [] ==> r.patients == SamplePatients && r.storage == SamplePatients
    ensures r.patients == r.storage && r.patients != []
  {
    if |saved| > 0 then Loaded(saved, saved) else Loaded(SamplePatients, SamplePatients)
  }

  /** Loading again (the 20-second poll) from what loading stored shows the
      same list and stores nothing new. */
  lemma FetchPatientsIsStable(saved: seq<Patient>)
    ensures FetchPatients(FetchPatients(saved).storage) == FetchPatients(saved)
  {
  }

  // ---------------------------------------------------------------------
  // handleSort: the sort column and direction
  // ---------------------------------------------------------------------

  datatype SortState = SortState(field: string, direction: string)

  const InitialSort: SortState := SortState("id", "asc")

  predicate ValidDirection(d: string) { d == "asc" || d == "desc" }

  /** The same column again flips the direction; a new column starts 'asc'. */
  function HandleSort(st: SortState, field: string): (r: SortState)
    ensures r.field == field && ValidDirection(r.direction)
    ensures st.field == field && st.direction == "asc" ==> r.direction == "desc"
    ensures st.field == field && st.direction != "asc" ==> r.direction == "asc"
    ensures st.field != field ==> r.direction == "asc"
  {
    if st.field == field then st.(direction := if st.direction == "asc" then "desc" else "asc")
    else SortState(field, "asc")
  }

  /** Clicking the sorted column twice restores the sort. */
  lemma ToggleTwiceRestores(st: SortState, field: string)
    requires st.field == field && ValidDirection(st.direction)
    ensures HandleSort(HandleSort(st, field), field) == st
  {
  }

  /** Clicking a new column twice sorts it descending. */
  lemma NewColumnTwiceIsDescending(st: SortState, field: string)
    requires st.field != field
    ensures HandleSort(HandleSort(st, field), field) == SortState(field, "desc")
  {
  }

  // ---------------------------------------------------------------------
  // filteredPatients
  // ---------------------------------------------------------------------

  /** The search term occurs, ignoring case, in the name, the id or the diagnosis. */
  function SearchMatch(term: string): Patient -> bool {
    (p: Patient) => ContainsIgnoreCase(p.name, term) || ContainsIgnoreCase(p.id, term) ||
                    ContainsIgnoreCase(p.diagnosis, term)
  }

  function StatusMatch(filterStatus: string): Patient -> bool {
    (p: Patient) => filterStatus == "all" || (filterStatus == "admitted" && p.status == "Admitted") ||
                    (filterStatus == "discharged" && p.status == "Discharged")
  }

  function Shown(term: string, filterStatus: string): Patient -> bool {
    (p: Patient) => SearchMatch(term)(p) && StatusMatch(filterStatus)(p)
  }

  /** The sort key of a column: age and admission date as numbers; every
      other column by `collate`, the rank a locale comparison gives the
      lower-cased text. */
  function ColumnKey(field: string, collate: string -> int, p: Patient): int {
    if field == "age" then p.age
    else if field == "admissionDate" then p.admissionDate
    else collate(Lower(if field == "name" then p.name
                       else if field == "gender" then p.gender
                       else if field == "diagnosis" then p.diagnosis
                       else if field == "status" then p.status
                       else p.id))
  }

  function SortKey(field: string, collate: string -> int): Patient -> int {
    (p: Patient) => ColumnKey(field, collate, p)
  }

  /** The shown rows: some of the patients, each matching the search and
      the status filter, every matching patient among them as often as in the list, ordered by the
      sort column (descending unless the direction is 'asc'). */
  function FilteredPatients(ps: seq<Patient>, term: string, filterStatus: string,
                            sort: SortState, collate: string -> int): (r: seq<Patient>)
    ensures multiset(r) <= multiset(ps)
    ensures forall i :: 0 <= i < |r| ==> SearchMatch(term)(r[i]) && StatusMatch(filterStatus)(r[i])
    ensures forall i :: 0 <= i < |ps| && Shown(term, filterStatus)(ps[i]) ==>
              ps[i] in r && multiset(r)[ps[i]] == multiset(ps)[ps[i]]
    ensures Ordered(r, SortKey(sort.field, collate), sort.direction != "asc")
  {
    FilterSort(ps, Shown(term, filterStatus), SortKey(sort.field, collate), sort.direction != "asc")
  }

  /** With an empty search and 'all', every patient is shown: the rows are
      the list reordered. */
  lemma UnfilteredShowsEveryone(ps: seq<Patient>, sort: SortState, collate: string -> int)
    ensures multiset(FilteredPatients(ps, "", "all", sort, collate)) == multiset(ps)
  {
    assert Lower("") == "";
    forall i | 0 <= i < |ps| ensures Shown("", "all")(ps[i]) {
      ContainsEmpty(Lower(ps[i].name));
      assert SearchMatch("")(ps[i]);
      assert StatusMatch("all")(ps[i]);
    }
    FilterAll(ps, Shown("", "all"));
  }

  /** Sorted by age the rows run from youngest to oldest for 'asc', and from
      oldest to youngest for 'desc'. */
  lemma SortedByAge(ps: seq<Patient>, term: string, filterStatus: string, direction: string, collate: string -> int)
    ensures var r := FilteredPatients(ps, term, filterStatus, SortState("age", direction), collate);
            forall i, j :: 0 <= i < j < |r| ==> (if direction == "asc" then r[i].age <= r[j].age else r[i].age >= r[j].age)
  {
    var r := FilteredPatients(ps, term, filterStatus, SortState("age", direction), collate);
    var key := SortKey("age", collate);
    forall i, j | 0 <= i < j < |r|
      ensures if direction == "asc" then r[i].age <= r[j].age else r[i].age >= r[j].age
    {
      assert InOrder(key(r[i]), key(r[j]), direction != "asc");
    }
  }

  // ---------------------------------------------------------------------
  // Delete, update and add (the shown list only; storage is not written)
  // ---------------------------------------------------------------------

  function KeepsPatient(id: string): Patient -> bool { (p: Patient) => p.id != id }

  /** `confirmDeletePatient`: every record with that id goes; the others stay. */
  function DeletePatient(ps: seq<Patient>, id: string): (r: seq<Patient>)
    ensures forall i :: 0 <= i < |r| ==> r[i].id != id
    ensures forall i :: 0 <= i < |ps| && ps[i].id != id ==> ps[i] in r
    ensures multiset(r) <= multiset(ps)
    ensures |r| == |ps| - |Filter(ps, Billing.HasId(id))|
  {
    CountDisjoint(ps, KeepsPatient(id), Billing.HasId(id));
    SplitCount(ps, id);
    Filter(ps, KeepsPatient(id))
  }

  lemma {:induction false} SplitCount(ps: seq<Patient>, id: string)
    ensures |Filter(ps, KeepsPatient(id))| + |Filter(ps, Billing.HasId(id))| == |ps|
  {
    if ps != [] {
      SplitCount(ps[1..], id);
    }
  }

  /** Deleting keeps the order: it works on each part of a list alone. */
  lemma DeleteKeepsOrder(a: seq<Patient>, b: seq<Patient>, id: string)
    ensures DeletePatient(a + b, id) == DeletePatient(a, id) + DeletePatient(b, id)
  {
    FilterAppend(a, b, KeepsPatient(id));
  }

  /** `handleUpdatePatient`: each record with the edited id becomes the edit. */
  function UpdatePatient(ps: seq<Patient>, edited: Patient): (r: seq<Patient>)
    ensures |r| == |ps|
    ensures forall i :: 0 <= i < |ps| ==> r[i] == (if ps[i].id == edited.id then edited else ps[i])
  {
    seq(|ps|, i requires 0 <= i < |ps| => if ps[i].id == edited.id then edited else ps[i])
  }

  /** An update keeps every id in its place, so no record appears or goes. */
  lemma UpdateKeepsIds(ps: seq<Patient>, edited: Patient)
    ensures Billing.Ids(UpdatePatient(ps, edited)) == Billing.Ids(ps)
  {
  }

  /** Applying the same edit twice is applying it once. */
  lemma UpdateIdempotent(ps: seq<Patient>, edited: Patient)
    ensures UpdatePatient(UpdatePatient(ps, edited), edited) == UpdatePatient(ps, edited)
  {
  }

  /** An edit of an id nobody has changes nothing. */
  lemma UpdateOfUnknownId(ps: seq<Patient>, edited: Patient)
    requires edited.id !in Billing.Ids(ps)
    ensures UpdatePatient(ps, edited) == ps
  {
    assert forall i :: 0 <= i < |ps| ==> ps[i].id == Billing.Ids(ps)[i];
  }

  /** `handleSavePatient`: the new record goes at the end. */
  function SavePatient(ps: seq<Patient>, p: Patient): (r: seq<Patient>)
    ensures |r| == |ps| + 1 && r[..|ps|] == ps && r[|ps|] == p
  {
    ps + [p]
  }

  /** Deleting a just-added patient whose id was new gives the list back. */
  lemma DeleteUndoesSave(ps: seq<Patient>, p: Patient)
    requires p.id !in Billing.Ids(ps)
    ensures DeletePatient(SavePatient(ps, p), p.id) == ps
  {
    FilterAppend(ps, [p], KeepsPatient(p.id));
    forall i | 0 <= i < |ps| ensures KeepsPatient(p.id)(ps[i]) {
      assert ps[i].id == Billing.Ids(ps)[i];
    }
    FilterAll(ps, KeepsPatient(p.id));
    assert Filter([p], KeepsPatient(p.id)) == [] by { assert [p][1..] == []; }
  }

  /** Updating a just-added patient edits the new last record only. */
  lemma UpdateAfterSave(ps: seq<Patient>, p: Patient, edited: Patient)
    requires p.id !in Billing.Ids(ps) && edited.id == p.id
    ensures UpdatePatient(SavePatient(ps, p), edited) == SavePatient(ps, edited)
  {
    assert forall i :: 0 <= i < |ps| ==> ps[i].id == Billing.Ids(ps)[i];
  }
}
