/** The billing screen: bills built line by line from a fixed price table,
    patient registration, the revenue counters kept for the dashboard, the
    patient list merged from built-in and registered patients, the history
    filter, and the renaming of legacy supply names. Bill and admission
    dates are day numbers; `nowMs` is the clock in milliseconds. */
module Billing {
  import opened Common

  // ---------------------------------------------------------------------
  // The price table
  // ---------------------------------------------------------------------

  datatype Service = Service(name: string, price: int, category: string)

  const MedicalServices: seq<Service> := [
    Service("Consultation", 50, "General"),
    Service("Blood Test", 75, "Laboratory"),
    Service("X-Ray Scan", 120, "Radiology"),
    Service("MRI Scan", 450, "Radiology"),
    Service("ECG", 90, "Cardiology"),
    Service("Surgery - Minor", 1200, "Surgical"),
    Service("Surgery - Major", 5000, "Surgical"),
    Service("Room Charges - General (per day)", 200, "Accommodation"),
    Service("Room Charges - Private (per day)", 500, "Accommodation"),
    Service("Room Charges - ICU (per day)", 1000, "Accommodation"),
    Service("Medication", 45, "Pharmacy")
  ]

  /** `medicalServices.find(service => service.name === name)` */
  function FindService(name: string): (r: Option<Service>)
    ensures r.Some? ==> r.value.name == name
  {
    match FirstIndex(MedicalServices, (s: Service) => s.name == name)
    case None => None
    case Some(k) => Some(MedicalServices[k])
  }

  /** A found service is the first entry of the table with that name; the
      lookup fails only when no entry has it. */
  lemma FindServiceInTable(name: string)
    ensures FindService(name).Some? ==>
              exists k :: 0 <= k < |MedicalServices| && MedicalServices[k] == FindService(name).value &&
                          forall j :: 0 <= j < k ==> MedicalServices[j].name != name
    ensures FindService(name).None? <==> forall i :: 0 <= i < |MedicalServices| ==> MedicalServices[i].name != name
  {
  }

  // ---------------------------------------------------------------------
  // Bill lines and totals
  // ---------------------------------------------------------------------

  function LineTotal(l: BillLine): int { l.totalPrice }

  /** `calculateTotal`, and the bill's `total`. */
  function BillTotal(lines: seq<BillLine>): int {
    SumOf(lines, LineTotal)
  }

  /** Adding a line adds its price to the total. */
  lemma BillTotalAppend(lines: seq<BillLine>, l: BillLine)
    ensures BillTotal(lines + [l]) == BillTotal(lines) + l.totalPrice
  {
    SumAppend(lines, [l], LineTotal);
  }

  /** A total of lines each priced at least 0 is at least 0. */
  lemma {:induction false} BillTotalNonNegative(lines: seq<BillLine>)
    requires forall i :: 0 <= i < |lines| ==> lines[i].totalPrice >= 0
    ensures BillTotal(lines) >= 0
  {
    if lines != [] {
      BillTotalNonNegative(lines[1..]);
    }
  }

  function KeepsLine(id: int): BillLine -> bool { (l: BillLine) => l.id != id }

  function DropsLine(id: int): BillLine -> bool { (l: BillLine) => l.id == id }

  /** `removeBillItem`: every line with that id goes, the rest stay in order. */
  function RemoveBillItem(lines: seq<BillLine>, id: int): (r: seq<BillLine>)
    ensures forall i :: 0 <= i < |r| ==> r[i].id != id && r[i] in lines
    ensures forall i :: 0 <= i < |lines| && lines[i].id != id ==> lines[i] in r
  {
    Filter(lines, KeepsLine(id))
  }

  /** Removing the lines with an id takes exactly their prices off the total. */
  lemma {:induction false} RemoveBillItemTotal(lines: seq<BillLine>, id: int)
    ensures BillTotal(lines) == BillTotal(RemoveBillItem(lines, id)) + BillTotal(Filter(lines, DropsLine(id)))
  {
    if lines != [] {
      RemoveBillItemTotal(lines[1..], id);
      var h := lines[0];
      var keep := if h.id != id then [h] else [];
      var drop := if h.id == id then [h] else [];
      assert RemoveBillItem(lines, id) == keep + RemoveBillItem(lines[1..], id);
      assert Filter(lines, DropsLine(id)) == drop + Filter(lines[1..], DropsLine(id));
      SumAppend(keep, RemoveBillItem(lines[1..], id), LineTotal);
      SumAppend(drop, Filter(lines[1..], DropsLine(id)), LineTotal);
    }
  }

  /** A line made from the price table: `totalPrice = unitPrice * quantity`. */
  function MakeLine(id: int, s: Service, quantity: int): (l: BillLine)
    ensures l.service == s.name && l.category == s.category && l.unitPrice == s.price
    ensures l.quantity == quantity && l.totalPrice == l.unitPrice * l.quantity
  {
    BillLine(id, s.name, s.category, s.price, quantity, s.price * quantity)
  }

  /** `handleAddToBill`'s checks, in order: the error to show, or None. */
  function AddToBillError(selectedPatient: string, selectedService: string, quantity: Option<int>): (r: Option<string>)
    ensures r.None? <==> selectedPatient != "" && selectedService != "" && quantity.Some? && quantity.value >= 1 &&
                         FindService(selectedService).Some?
    ensures selectedPatient == "" ==> r == Some("Please select a patient")
    ensures selectedPatient != "" && selectedService == "" ==> r == Some("Please select a service or treatment")
    ensures selectedPatient != "" && selectedService != "" && (quantity.None? || quantity.value < 1) ==>
              r == Some("Please enter a valid quantity")
    ensures (selectedPatient != "" && selectedService != "" && quantity.Some? && quantity.value >= 1 &&
             FindService(selectedService).None?) ==>
              r == Some("Selected service not found")
  {
    if selectedPatient == "" then Some("Please select a patient")
    else if selectedService == "" then Some("Please select a service or treatment")
    else if quantity.None? || quantity.value < 1 then Some("Please enter a valid quantity")
    else if FindService(selectedService).None? then Some("Selected service not found")
    else None
  }

  // ---------------------------------------------------------------------
  // Discharge on the final bill
  // ---------------------------------------------------------------------

  /** A service whose name, in lower case, mentions a discharge or a final bill. */
  predicate IsDischargeService(service: string) {
    Contains(Lower(service), "discharge") || Contains(Lower(service), "final")
  }

  /** `billItems.some(...)` over the discharge test. */
  predicate IncludesDischarge(lines: seq<BillLine>) {
    exists i :: 0 <= i < |lines| && IsDischargeService(lines[i].service)
  }

  /** The patients with that id become 'Discharged' on that day; every other
      patient is left as it was. */
  function MarkDischarged(ps: seq<Patient>, id: string, day: int): (r: seq<Patient>)
    ensures |r| == |ps|
    ensures forall i :: 0 <= i < |ps| && ps[i].id == id ==>
              r[i] == ps[i].(status := "Discharged", dischargeDate := Some(day))
    ensures forall i :: 0 <= i < |ps| && ps[i].id != id ==> r[i] == ps[i]
  {
    seq(|ps|, i requires 0 <= i < |ps| =>
      if ps[i].id == id then ps[i].(status := "Discharged", dischargeDate := Some(day)) else ps[i])
  }

  /** Discharging twice is discharging once. */
  lemma MarkDischargedIdempotent(ps: seq<Patient>, id: string, day: int)
    ensures MarkDischarged(MarkDischarged(ps, id, day), id, day) == MarkDischarged(ps, id, day)
  {
  }

  /** A name lacking, in either case, one letter of each keyword mentions neither. */
  lemma LacksKeywords(name: string, c: char)
    requires c in "discharge" && c !in name && (c as int - 32) as char !in name
    requires 'f' !in name && 'F' !in name
    ensures !IsDischargeService(name)
  {
    LowerLacks(name, c);
    MissingCharNotContains(Lower(name), "discharge", c);
    LowerLacks(name, 'f');
    MissingCharNotContains(Lower(name), "final", 'f');
  }

  lemma LowerRoomCharges(rest: string)
    ensures Lower("Room" + [' '] + ("Charges" + [' '] + rest)) ==
            Lower("Room") + [' '] + (Lower("Charges") + [' '] + Lower(rest))
  {
    LowerAppend("Charges" + [' '], rest);
    LowerAppend("Charges", [' ']);
    LowerAppend("Room" + [' '], "Charges" + [' '] + rest);
    LowerAppend("Room", [' ']);
    assert Lower([' ']) == [' '];
  }

  /** Words each lacking a letter of "discharge", joined by spaces, do not
      contain it: the keyword cannot straddle a space. */
  lemma SpacedWordsLackDischarge(room: string, charges: string, rest: string, c: char)
    requires 'd' !in room && 'd' !in charges && c in "discharge" && c !in rest
    ensures !Contains(room + [' '] + (charges + [' '] + rest), "discharge")
  {
    MissingCharNotContains(rest, "discharge", c);
    MissingCharNotContains(charges, "discharge", 'd');
    SplitNotContains(charges, ' ', rest, "discharge");
    MissingCharNotContains(room, "discharge", 'd');
    SplitNotContains(room, ' ', charges + [' '] + rest, "discharge");
  }

  /** "Room Charges <rest>": a space parts words that each lack a letter of
      "discharge", so the keyword cannot straddle them. */
  lemma RoomChargeLacksKeywords(rest: string, c: char)
    requires c in "discharge" && c !in rest && (c as int - 32) as char !in rest
    requires 'f' !in rest && 'F' !in rest
    ensures !IsDischargeService("Room" + [' '] + ("Charges" + [' '] + rest))
  {
    var name := "Room" + [' '] + ("Charges" + [' '] + rest);
    LowerRoomCharges(rest);
    LowerLacks(rest, c);
    LowerLacks("Charges", 'd');
    LowerLacks("Room", 'd');
    SpacedWordsLackDischarge(Lower("Room"), Lower("Charges"), Lower(rest), c);
    LowerLacks(name, 'f');
    MissingCharNotContains(Lower(name), "final", 'f');
  }

  lemma GeneralRoomSpelled()
    ensures "Room" + [' '] + ("Charges" + [' '] + "- General (per day)") == "Room Charges - General (per day)"
  {
  }

  lemma GeneralRoomPartsLackKeywords()
    ensures !IsDischargeService("Room" + [' '] + ("Charges" + [' '] + "- General (per day)"))
  {
    RoomChargeLacksKeywords("- General (per day)", 'i');
  }

  lemma GeneralRoomLacksKeywords(name: string)
    requires name == "Room Charges - General (per day)"
    ensures !IsDischargeService(name)
  {
    GeneralRoomSpelled();
    GeneralRoomPartsLackKeywords();
  }

  lemma PrivateRoomSpelled()
    ensures "Room" + [' '] + ("Charges" + [' '] + "- Private (per day)") == "Room Charges - Private (per day)"
  {
  }

  lemma PrivateRoomPartsLackKeywords()
    ensures !IsDischargeService("Room" + [' '] + ("Charges" + [' '] + "- Private (per day)"))
  {
    RoomChargeLacksKeywords("- Private (per day)", 's');
  }

  lemma PrivateRoomLacksKeywords(name: string)
    requires name == "Room Charges - Private (per day)"
    ensures !IsDischargeService(name)
  {
    PrivateRoomSpelled();
    PrivateRoomPartsLackKeywords();
  }

  lemma IcuRoomSpelled()
    ensures "Room" + [' '] + ("Charges" + [' '] + "- ICU (per day)") == "Room Charges - ICU (per day)"
  {
  }

  lemma IcuRoomPartsLackKeywords()
    ensures !IsDischargeService("Room" + [' '] + ("Charges" + [' '] + "- ICU (per day)"))
  {
    RoomChargeLacksKeywords("- ICU (per day)", 's');
  }

  lemma IcuRoomLacksKeywords(name: string)
    requires name == "Room Charges - ICU (per day)"
    ensures !IsDischargeService(name)
  {
    IcuRoomSpelled();
    IcuRoomPartsLackKeywords();
  }

  lemma ConsultationLacksKeywords(name: string)
    requires name == "Consultation"
    ensures !IsDischargeService(name)
  {
    LacksKeywords(name, 'd');
  }

  lemma BloodTestLacksKeywords(name: string)
    requires name == "Blood Test"
    ensures !IsDischargeService(name)
  {
    LacksKeywords(name, 'i');
  }

  lemma XRayLacksKeywords(name: string)
    requires name == "X-Ray Scan"
    ensures !IsDischargeService(name)
  {
    LacksKeywords(name, 'd');
  }

  lemma MriLacksKeywords(name: string)
    requires name == "MRI Scan"
    ensures !IsDischargeService(name)
  {
    LacksKeywords(name, 'd');
  }

  lemma EcgLacksKeywords(name: string)
    requires name == "ECG"
    ensures !IsDischargeService(name)
  {
    LacksKeywords(name, 'd');
  }

  lemma MinorSurgeryLacksKeywords(name: string)
    requires name == "Surgery - Minor"
    ensures !IsDischargeService(name)
  {
    LacksKeywords(name, 'd');
  }

  lemma MajorSurgeryLacksKeywords(name: string)
    requires name == "Surgery - Major"
    ensures !IsDischargeService(name)
  {
    LacksKeywords(name, 'd');
  }

  lemma MedicationLacksKeywords(name: string)
    requires name == "Medication"
    ensures !IsDischargeService(name)
  {
    LacksKeywords(name, 's');
  }

  /** Neither keyword occurs in any service of the price table, so a bill built
      from it never discharges anyone. */
  lemma NoTableServiceDischarges()
    ensures forall i :: 0 <= i < |MedicalServices| ==> !IsDischargeService(MedicalServices[i].name)
  {
    forall i | 0 <= i < |MedicalServices| ensures !IsDischargeService(MedicalServices[i].name) {
      var n := MedicalServices[i].name;
      if i == 0 {
        ConsultationLacksKeywords(n);
      } else if i == 1 {
        BloodTestLacksKeywords(n);
      } else if i == 2 {
        XRayLacksKeywords(n);
      } else if i == 3 {
        MriLacksKeywords(n);
      } else if i == 4 {
        EcgLacksKeywords(n);
      } else if i == 5 {
        MinorSurgeryLacksKeywords(n);
      } else if i == 6 {
        MajorSurgeryLacksKeywords(n);
      } else if i == 7 {
        GeneralRoomLacksKeywords(n);
      } else if i == 8 {
        PrivateRoomLacksKeywords(n);
      } else if i == 9 {
        IcuRoomLacksKeywords(n);
      } else {
        MedicationLacksKeywords(n);
      }
    }
  }

  /** Hence a bill whose every line names a service of the table leaves every
      patient as it was. */
  lemma TableBillNeverDischarges(lines: seq<BillLine>)
    requires forall i :: 0 <= i < |lines| ==> FindService(lines[i].service).Some?
    ensures !IncludesDischarge(lines)
  {
    NoTableServiceDischarges();
    forall i | 0 <= i < |lines| ensures !IsDischargeService(lines[i].service) {
      FindServiceInTable(lines[i].service);
      var s := FindService(lines[i].service).value;
      var k :| 0 <= k < |MedicalServices| && MedicalServices[k] == s;
    }
  }

  // ---------------------------------------------------------------------
  // Legacy supply names (the rewrite in `fetchInventory`)
  // ---------------------------------------------------------------------

  /** Whether a name contains one of the legacy keywords the rewrite looks for. */
  predicate HasLegacyKeyword(name: string) {
    Contains(name, "Shirt") || Contains(name, "Bastar") || Contains(name, "Bottle") ||
    Contains(name, "Keyring") || Contains(name, "Canvas") || Contains(name, "Stationery")
  }

  /** The first keyword found, in the order the chain tests them, decides the
      medical name; a name without a keyword is kept. */
  function RewriteName(name: string): (r: string)
    ensures !HasLegacyKeyword(name) ==> r == name
    ensures Contains(name, "Shirt") ==> r == "Surgical Bandages"
    ensures !Contains(name, "Shirt") && Contains(name, "Bastar") ==> r == "Syringes (10ml)"
    ensures (!Contains(name, "Shirt") && !Contains(name, "Bastar") && Contains(name, "Bottle")) ==>
              r == "IV Fluids (1L)"
    ensures (!Contains(name, "Shirt") && !Contains(name, "Bastar") && !Contains(name, "Bottle") &&
             Contains(name, "Keyring")) ==>
              r == "Medical Gloves"
    ensures (!Contains(name, "Shirt") && !Contains(name, "Bastar") && !Contains(name, "Bottle") &&
             !Contains(name, "Keyring") && Contains(name, "Canvas")) ==>
              r == "Surgical Masks"
    ensures (!Contains(name, "Shirt") && !Contains(name, "Bastar") && !Contains(name, "Bottle") &&
             !Contains(name, "Keyring") && !Contains(name, "Canvas") && Contains(name, "Stationery")) ==>
              r == "Sterile Gauze"
  {
    if Contains(name, "Shirt") then "Surgical Bandages"
    else if Contains(name, "Bastar") then "Syringes (10ml)"
    else if Contains(name, "Bottle") then "IV Fluids (1L)"
    else if Contains(name, "Keyring") then "Medical Gloves"
    else if Contains(name, "Canvas") then "Surgical Masks"
    else if Contains(name, "Stationery") then "Sterile Gauze"
    else name
  }

  /** A name lacking a letter of each keyword contains none of them. */
  lemma LacksLegacyKeywords(name: string, b: char, st: char)
    requires 'h' !in name && 'K' !in name && 'C' !in name
    requires b in "Bastar" && b in "Bottle" && b !in name
    requires st in "Stationery" && st !in name
    ensures !HasLegacyKeyword(name)
  {
    MissingCharNotContains(name, "Shirt", 'h');
    MissingCharNotContains(name, "Bastar", b);
    MissingCharNotContains(name, "Bottle", b);
    MissingCharNotContains(name, "Keyring", 'K');
    MissingCharNotContains(name, "Canvas", 'C');
    MissingCharNotContains(name, "Stationery", st);
  }

  lemma BandagesLackKeywords(name: string)
    requires name == "Surgical Bandages"
    ensures !HasLegacyKeyword(name)
  {
    LacksLegacyKeywords(name, 't', 't');
  }

  lemma SyringesLackKeywords(name: string)
    requires name == "Syringes (10ml)"
    ensures !HasLegacyKeyword(name)
  {
    LacksLegacyKeywords(name, 'B', 't');
  }

  lemma FluidsLackKeywords(name: string)
    requires name == "IV Fluids (1L)"
    ensures !HasLegacyKeyword(name)
  {
    LacksLegacyKeywords(name, 'B', 'S');
  }

  lemma GlovesLackKeywords(name: string)
    requires name == "Medical Gloves"
    ensures !HasLegacyKeyword(name)
  {
    LacksLegacyKeywords(name, 'B', 'S');
  }

  lemma MasksLackKeywords(name: string)
    requires name == "Surgical Masks"
    ensures !HasLegacyKeyword(name)
  {
    LacksLegacyKeywords(name, 'B', 't');
  }

  lemma GauzeLacksKeywords(name: string)
    requires name == "Sterile Gauze"
    ensures !HasLegacyKeyword(name)
  {
    LacksLegacyKeywords(name, 'B', 'y');
  }

  /** A rewritten name never contains a keyword, so rewriting again keeps it. */
  lemma RewriteNameIdempotent(name: string)
    ensures HasLegacyKeyword(name) ==> !HasLegacyKeyword(RewriteName(name))
    ensures RewriteName(RewriteName(name)) == RewriteName(name)
  {
    var r := RewriteName(name);
    if Contains(name, "Shirt") {
      BandagesLackKeywords(r);
    } else if Contains(name, "Bastar") {
      SyringesLackKeywords(r);
    } else if Contains(name, "Bottle") {
      FluidsLackKeywords(r);
    } else if Contains(name, "Keyring") {
      GlovesLackKeywords(r);
    } else if Contains(name, "Canvas") {
      MasksLackKeywords(r);
    } else if Contains(name, "Stationery") {
      GauzeLacksKeywords(r);
    }
  }

  function RewriteSupply(s: Supply): Supply {
    s.(name := RewriteName(s.name))
  }

  /** `data.map(item => ({ ...item, name }))`: only names change. */
  function RewriteInventory(xs: seq<Supply>): (r: seq<Supply>)
    ensures |r| == |xs|
    ensures forall i :: 0 <= i < |xs| ==> r[i] == xs[i].(name := RewriteName(xs[i].name))
  {
    seq(|xs|, i requires 0 <= i < |xs| => RewriteSupply(xs[i]))
  }

  /** Rewriting a rewritten inventory changes nothing. */
  lemma RewriteInventoryIdempotent(xs: seq<Supply>)
    ensures RewriteInventory(RewriteInventory(xs)) == RewriteInventory(xs)
  {
    var r := RewriteInventory(xs);
    forall i | 0 <= i < |xs| ensures RewriteSupply(r[i]) == r[i] {
      RewriteNameIdempotent(xs[i].name);
    }
  }

  // ---------------------------------------------------------------------
  // The patient list: built-in patients merged with registered ones
  // ---------------------------------------------------------------------

  /** A built-in patient: only id, name, age, gender and diagnosis are given. */
  function MockPatient(id: string, name: string, age: int, gender: string, diagnosis: string): Patient {
    Patient(id, name, age, gender, "", "", diagnosis, 0, None, "", "", None)
  }

  const MockPatients: seq<Patient> := [
    MockPatient("P1001", "John Smith", 45, "male", "Hypertension"),
    MockPatient("P1002", "Emma Johnson", 35, "female", "Diabetes Type 2"),
    MockPatient("P1003", "Robert Davis", 60, "male", "Arthritis"),
    MockPatient("P1004", "Sarah Wilson", 28, "female", "Bronchitis"),
    MockPatient("P1005", "Michael Brown", 52, "male", "Heart Disease"),
    MockPatient("P1006", "Jennifer Taylor", 32, "female", "Migraine"),
    MockPatient("P1007", "William Thomas", 71, "male", "Parkinson's Disease"),
    MockPatient("P1008", "Lisa Anderson", 40, "female", "Asthma")
  ]

  function Ids(ps: seq<Patient>): (r: seq<string>)
    ensures |r| == |ps| && forall k :: 0 <= k < |ps| ==> r[k] == ps[k].id
  {
    seq(|ps|, k requires 0 <= k < |ps| => ps[k].id)
  }

  predicate UniqueIds(ps: seq<Patient>) {
    forall j, k :: 0 <= j < k < |ps| ==> ps[j].id != ps[k].id
  }

  /** The last patient in the list with that id: the one a `Map` keeps. */
  function LastWithId(ps: seq<Patient>, id: string): (r: Option<Patient>)
    ensures r.Some? ==> r.value in ps && r.value.id == id
    ensures r.None? <==> id !in Ids(ps)
  {
    if ps == [] then None
    else if ps[|ps| - 1].id == id then Some(ps[|ps| - 1])
    else
      var r := LastWithId(ps[..|ps| - 1], id);
      assert Ids(ps) == Ids(ps[..|ps| - 1]) + [ps[|ps| - 1].id];
      r
  }

  function HasId(id: string): Patient -> bool { (p: Patient) => p.id == id }

  /** `map.set(p.id, p)`: an existing id keeps its place and takes the new
      record; a new id goes at the end. */
  function Upsert(acc: seq<Patient>, p: Patient): seq<Patient> {
    match FirstIndex(acc, HasId(p.id))
    case Some(j) => acc[j := p]
    case None => acc + [p]
  }

  /** `Array.from(map.values())` after setting every patient in turn. */
  function Merged(ps: seq<Patient>): seq<Patient>
    decreases |ps|
  {
    if ps == [] then [] else Upsert(Merged(ps[..|ps| - 1]), ps[|ps| - 1])
  }

  /** r is a merge of ps: one record per id, every id of ps present, and for
      each id the last record ps gives with it. */
  predicate MergeOf(ps: seq<Patient>, r: seq<Patient>) {
    UniqueIds(r) &&
    (forall i :: 0 <= i < |ps| ==> ps[i].id in Ids(r)) &&
    (forall k :: 0 <= k < |r| ==> LastWithId(ps, r[k].id) == Some(r[k]))
  }

  lemma UpsertReplaces(front: seq<Patient>, acc: seq<Patient>, p: Patient, j: nat)
    requires MergeOf(front, acc) && j < |acc| && acc[j].id == p.id
    ensures MergeOf(front + [p], acc[j := p])
  {
    var ps := front + [p];
    var r := acc[j := p];
    assert ps[..|ps| - 1] == front;
    forall k | 0 <= k < |r| ensures LastWithId(ps, r[k].id) == Some(r[k]) {
      if k != j {
        assert r[k] == acc[k] && acc[k].id != p.id;
      }
    }
    forall i | 0 <= i < |ps| ensures ps[i].id in Ids(r) {
      if i < |front| {
        assert front[i] == ps[i];
        var k :| 0 <= k < |acc| && Ids(acc)[k] == ps[i].id;
        assert Ids(r)[k] == ps[i].id;
      } else {
        assert Ids(r)[j] == p.id;
      }
    }
  }

  lemma UpsertAppends(front: seq<Patient>, acc: seq<Patient>, p: Patient)
    requires MergeOf(front, acc) && p.id !in Ids(acc)
    ensures MergeOf(front + [p], acc + [p])
  {
    var ps := front + [p];
    var r := acc + [p];
    assert ps[..|ps| - 1] == front;
    forall k | 0 <= k < |r| ensures LastWithId(ps, r[k].id) == Some(r[k]) {
      if k < |acc| {
        assert r[k] == acc[k] && Ids(acc)[k] != p.id;
      }
    }
    forall i | 0 <= i < |ps| ensures ps[i].id in Ids(r) {
      if i < |front| {
        assert front[i] == ps[i];
        var k :| 0 <= k < |acc| && Ids(acc)[k] == ps[i].id;
        assert Ids(r)[k] == ps[i].id;
      } else {
        assert Ids(r)[|acc|] == p.id;
      }
    }
    forall j, k | 0 <= j < k < |r| ensures r[j].id != r[k].id {
      if k == |acc| {
        assert Ids(acc)[j] == r[j].id;
      }
    }
  }

  /** The merge has one record per id, covers every id of the input, and keeps
      for each id the last record given with it. */
  lemma {:induction false} MergedIsLastPerId(ps: seq<Patient>)
    ensures MergeOf(ps, Merged(ps))
    decreases |ps|
  {
    if ps != [] {
      var front := ps[..|ps| - 1];
      var p := ps[|ps| - 1];
      assert ps == front + [p];
      MergedIsLastPerId(front);
      var acc := Merged(front);
      match FirstIndex(acc, HasId(p.id))
      case Some(j) =>
        UpsertReplaces(front, acc, p, j);
      case None =>
        assert forall k :: 0 <= k < |acc| ==> Ids(acc)[k] != p.id;
        UpsertAppends(front, acc, p);
    }
  }

  /** A later list overrides an earlier one: with the registered patients after
      the built-in ones, a registered record replaces a built-in one with its id. */
  lemma RegisteredWins(mocks: seq<Patient>, registered: seq<Patient>, id: string)
    requires id in Ids(registered)
    ensures LastWithId(mocks + registered, id) == LastWithId(registered, id)
  {
    LastWithIdAppend(mocks, registered, id);
  }

  lemma {:induction false} LastWithIdAppend(a: seq<Patient>, b: seq<Patient>, id: string)
    ensures LastWithId(a + b, id) == if id in Ids(b) then LastWithId(b, id) else LastWithId(a, id)
    decreases |b|
  {
    if b == [] {
      assert a + b == a;
    } else {
      var b' := b[..|b| - 1];
      assert (a + b)[..|a + b| - 1] == a + b';
      assert Ids(b) == Ids(b') + [b[|b| - 1].id];
      LastWithIdAppend(a, b', id);
    }
  }

  /** `loadPatients`: a loop setting each patient in a map keyed by id. */
  method MergeById(ps: seq<Patient>) returns (r: seq<Patient>)
    ensures r == Merged(ps)
    ensures UniqueIds(r)
    ensures forall i :: 0 <= i < |ps| ==> ps[i].id in Ids(r)
    ensures forall k :: 0 <= k < |r| ==> LastWithId(ps, r[k].id) == Some(r[k])
  {
    r := [];
    var i := 0;
    while i < |ps|
      invariant 0 <= i <= |ps|
      invariant r == Merged(ps[..i])
    {
      assert ps[..i + 1][..i] == ps[..i];
      var p := ps[i];
      match FirstIndex(r, HasId(p.id)) {
        case Some(j) =>
          r := r[j := p];
        case None =>
          r := r + [p];
      }
      i := i + 1;
    }
    assert ps[..i] == ps;
    MergedIsLastPerId(ps);
  }

  // ---------------------------------------------------------------------
  // Registration
  // ---------------------------------------------------------------------

  /** The age field as typed: empty, not a number (`isNaN`), or a number whose
      `parseInt` is n. */
  datatype AgeField = Blank | NotNumber | Number(n: int)

  datatype PatientForm = PatientForm(
    name: string, age: AgeField, gender: string, contact: string,
    address: string, diagnosis: string)

  /** `handleRegisterPatient`'s checks: the error to show, or None. */
  function RegistrationError(f: PatientForm): (r: Option<string>)
    ensures r.None? <==> f.name != "" && f.contact != "" && f.diagnosis != "" &&
                         f.age.Number? && 1 <= f.age.n <= 120
    ensures (f.name == "" || f.age.Blank? || f.contact == "" || f.diagnosis == "") ==>
              r == Some("Name, age, contact, and diagnosis are required fields")
    ensures (f.name != "" && !f.age.Blank? && f.contact != "" && f.diagnosis != "" &&
             (f.age.NotNumber? || (f.age.Number? && (f.age.n <= 0 || f.age.n > 120)))) ==>
              r == Some("Please enter a valid age")
  {
    if f.name == "" || f.age.Blank? || f.contact == "" || f.diagnosis == "" then
      Some("Name, age, contact, and diagnosis are required fields")
    else if f.age.NotNumber? || f.age.n <= 0 || f.age.n > 120 then
      Some("Please enter a valid age")
    else None
  }

  /** `P${1000 + patients.length + 1}` */
  function PatientIdFor(count: nat): string {
    "P" + DecimalString(1000 + count + 1)
  }

  /** Different counts give different ids. */
  lemma PatientIdInjective(a: nat, b: nat)
    ensures PatientIdFor(a) == PatientIdFor(b) ==> a == b
  {
    if PatientIdFor(a) == PatientIdFor(b) {
      assert PatientIdFor(a)[1..] == DecimalString(1000 + a + 1);
      assert PatientIdFor(b)[1..] == DecimalString(1000 + b + 1);
      DecimalStringInjective(1000 + a + 1, 1000 + b + 1);
    }
  }

  /** The doctor of a new patient: the signed-in doctor, or 'Unassigned'. */
  function AssignedDoctor(user: Option<SessionUser>): (r: string)
    ensures user.Some? && user.value.userType == "doctor" ==> r == user.value.username
    ensures !(user.Some? && user.value.userType == "doctor") ==> r == "Unassigned"
  {
    if user.Some? && user.value.userType == "doctor" then user.value.username else "Unassigned"
  }

  /** The record registered from a valid form when `count` patients are listed. */
  function NewPatient(f: PatientForm, count: nat, user: Option<SessionUser>, today: int): (p: Patient)
    requires f.age.Number?
    ensures p.id == PatientIdFor(count) && p.status == "Admitted" && p.dischargeDate == None
    ensures p.admissionDate == today && p.age == f.age.n
    ensures p.name == f.name && p.contact == f.contact && p.diagnosis == f.diagnosis
    ensures p.doctor == AssignedDoctor(user)
  {
    Patient(PatientIdFor(count), f.name, f.age.n, f.gender, f.contact, f.address,
            f.diagnosis, today, None, "Admitted", AssignedDoctor(user), None)
  }

  /** Patients numbered in order: the k-th has the id for count k. */
  predicate NumberedIds(ps: seq<Patient>) {
    forall k :: 0 <= k < |ps| ==> ps[k].id == PatientIdFor(k)
  }

  lemma FirstMockIds()
    ensures PatientIdFor(0) == "P1001" && PatientIdFor(1) == "P1002"
  {
  }

  lemma SecondMockIds()
    ensures PatientIdFor(2) == "P1003" && PatientIdFor(3) == "P1004"
  {
  }

  lemma ThirdMockIds()
    ensures PatientIdFor(4) == "P1005" && PatientIdFor(5) == "P1006"
  {
  }

  lemma LastMockIds()
    ensures PatientIdFor(6) == "P1007" && PatientIdFor(7) == "P1008"
  {
  }

  /** The built-in patients are numbered P1001 to P1008. */
  lemma MockPatientsNumbered()
    ensures NumberedIds(MockPatients)
  {
    FirstMockIds();
    SecondMockIds();
    ThirdMockIds();
    LastMockIds();
    forall k | 0 <= k < |MockPatients| ensures MockPatients[k].id == PatientIdFor(k) {
      if k < 4 {
        assert k == 0 || k == 1 || k == 2 || k == 3;
      } else {
        assert k == 4 || k == 5 || k == 6 || k == 7;
      }
    }
  }

  /** While the list is numbered in order, the id given to the next patient
      is new, and appending that patient keeps the numbering. */
  lemma NextIdIsFresh(ps: seq<Patient>, f: PatientForm, user: Option<SessionUser>, today: int)
    requires NumberedIds(ps) && f.age.Number?
    ensures PatientIdFor(|ps|) !in Ids(ps)
    ensures NumberedIds(ps + [NewPatient(f, |ps|, user, today)])
  {
    forall k | 0 <= k < |ps| ensures Ids(ps)[k] != PatientIdFor(|ps|) {
      PatientIdInjective(k, |ps|);
    }
  }

  // ---------------------------------------------------------------------
  // Revenue counters
  // ---------------------------------------------------------------------

  /** `updateRevenueStatistics(amount, type)` */
  function RevenueUpdate(r: RevenueStats, amount: int, kind: string): (s: RevenueStats)
    ensures kind == "bill" ==> s == RevenueStats(r.totalRevenue + amount, r.patientCount, r.billCount + 1)
    ensures kind == "new_patient" ==> s == r.(patientCount := r.patientCount + 1)
    ensures kind != "bill" && kind != "new_patient" ==> s == r
  {
    if kind == "bill" then r.(totalRevenue := r.totalRevenue + amount, billCount := r.billCount + 1)
    else if kind == "new_patient" then r.(patientCount := r.patientCount + 1)
    else r
  }

  function BillAmount(b: Bill): int { b.total }

  /** Recording the bills one after another in the counters. */
  function RecordBills(r: RevenueStats, bills: seq<Bill>): RevenueStats
    decreases |bills|
  {
    if bills == [] then r
    else RevenueUpdate(RecordBills(r, bills[..|bills| - 1]), bills[|bills| - 1].total, "bill")
  }

  /** The counters then hold the sum of the totals and the number of bills;
      the patient count is untouched. */
  lemma {:induction false} RecordBillsSums(r: RevenueStats, bills: seq<Bill>)
    ensures RecordBills(r, bills).totalRevenue == r.totalRevenue + SumOf(bills, BillAmount)
    ensures RecordBills(r, bills).billCount == r.billCount + |bills|
    ensures RecordBills(r, bills).patientCount == r.patientCount
    decreases |bills|
  {
    if bills != [] {
      var front := bills[..|bills| - 1];
      RecordBillsSums(r, front);
      assert bills == front + [bills[|bills| - 1]];
      SumAppend(front, [bills[|bills| - 1]], BillAmount);
    }
  }

  // ---------------------------------------------------------------------
  // Bill ids: `B${Date.now().toString().slice(-6)}`
  // ---------------------------------------------------------------------

  function Pow10(k: nat): (r: nat)
    ensures r >= 1
  {
    if k == 0 then 1 else 10 * Pow10(k - 1)
  }

  /** `s.slice(-k)`: the last k characters, or all of a shorter string. */
  function Suffix(s: string, k: nat): (r: string)
    ensures |r| == if |s| <= k then |s| else k
  {
    if |s| <= k then s else s[|s| - k..]
  }

  /** The last k decimal digits of n, zero-padded. */
  function Padded(n: nat, k: nat): (r: string)
    ensures |r| == k
  {
    if k == 0 then [] else Padded(n / 10, k - 1) + [DigitChar(n % 10)]
  }

  function BillId(nowMs: nat): (r: string)
    ensures 2 <= |r| <= 7 && r[0] == 'B'
  {
    "B" + Suffix(DecimalString(nowMs), 6)
  }

  lemma SuffixSnoc(s: string, c: char, k: nat)
    requires k >= 1
    ensures Suffix(s + [c], k) == Suffix(s, k - 1) + [c]
  {
  }

  /** The last k characters of a number of at least k digits are its last
      k digits. */
  lemma {:induction false} SuffixIsPadded(n: nat, k: nat)
    requires k >= 1 && n >= Pow10(k - 1)
    ensures Suffix(DecimalString(n), k) == Padded(n, k)
  {
    if k >= 2 {
      assert Pow10(k - 1) == 10 * Pow10(k - 2) >= 10;
    }
    if n >= 10 {
      SuffixSnoc(DecimalString(n / 10), DigitChar(n % 10), k);
      if k >= 2 {
        SuffixIsPadded(n / 10, k - 1);
      }
    }
  }

  /** The last k digits ignore multiples of 10^k. */
  lemma {:induction false} PaddedShift(n: nat, c: nat, k: nat)
    ensures Padded(n + Pow10(k) * c, k) == Padded(n, k)
  {
    if k >= 1 {
      var m := Pow10(k - 1) * c;
      assert Pow10(k) * c == 10 * m;
      assert (n + 10 * m) / 10 == n / 10 + m;
      assert (n + 10 * m) % 10 == n % 10;
      PaddedShift(n / 10, c, k - 1);
    }
  }

  /** Bill ids repeat: two bills made a multiple of 1,000,000 ms apart (about
      16.7 minutes) get the same id. */
  lemma BillIdsRepeat(t: nat, c: nat)
    requires t >= 100000
    ensures BillId(t + 1000000 * c) == BillId(t)
  {
    assert Pow10(5) == 100000 && Pow10(6) == 1000000;
    SuffixIsPadded(t, 6);
    SuffixIsPadded(t + 1000000 * c, 6);
    PaddedShift(t, c, 6);
  }

  // ---------------------------------------------------------------------
  // The history filter
  // ---------------------------------------------------------------------

  /** The date filter: 'today' is the same calendar day; 'week' and 'month'
      keep bills whose day starts at most 7 or 30 days before now; any other
      value keeps everything. */
  predicate DateMatch(b: Bill, dateFilter: string, nowMs: int) {
    if dateFilter == "today" then b.date == DayOf(nowMs)
    else if dateFilter == "week" then b.date * DayMs >= nowMs - 7 * DayMs
    else if dateFilter == "month" then b.date * DayMs >= nowMs - 30 * DayMs
    else true
  }

  /** The search text in the patient name, patient id or bill id, ignoring case. */
  predicate SearchMatch(b: Bill, term: string) {
    ContainsIgnoreCase(b.patientName, term) || ContainsIgnoreCase(b.patientId, term) ||
    ContainsIgnoreCase(b.id, term)
  }

  /** A bill is listed when it matches both the search and the date filter. */
  function HistoryMatch(term: string, dateFilter: string, nowMs: int): Bill -> bool {
    (b: Bill) => SearchMatch(b, term) && DateMatch(b, dateFilter, nowMs)
  }

  function BillDate(b: Bill): int { b.date }

  /** `filteredBillingHistory`: exactly the matching bills, each as often
      as in the history, newest first; bills of the same date stay in
      history order (FilteredHistoryStable). */
  function FilteredHistory(history: seq<Bill>, term: string, dateFilter: string, nowMs: int): (r: seq<Bill>)
    ensures multiset(r) <= multiset(history)
    ensures forall i :: 0 <= i < |r| ==> HistoryMatch(term, dateFilter, nowMs)(r[i])
    ensures forall j :: 0 <= j < |history| && HistoryMatch(term, dateFilter, nowMs)(history[j])
              ==> history[j] in r && multiset(r)[history[j]] == multiset(history)[history[j]]
    ensures forall i, j :: 0 <= i < j < |r| ==> r[i].date >= r[j].date
  {
    var r := FilterSort(history, HistoryMatch(term, dateFilter, nowMs), BillDate, true);
    assert forall i, j :: 0 <= i < j < |r| ==> InOrder(BillDate(r[i]), BillDate(r[j]), true);
    r
  }

  /** The sort is stable: bills of one date keep their history order. */
  lemma FilteredHistoryStable(history: seq<Bill>, term: string, dateFilter: string, nowMs: int)
    ensures forall d :: Filter(FilteredHistory(history, term, dateFilter, nowMs), KeyIs(BillDate, d)) ==
                        Filter(Filter(history, HistoryMatch(term, dateFilter, nowMs)), KeyIs(BillDate, d))
  {
    FilterSortStable(history, HistoryMatch(term, dateFilter, nowMs), BillDate, true);
  }

  /** The date filters are nested: today within the week within the month. */
  lemma DateFiltersNested(b: Bill, nowMs: int)
    ensures DateMatch(b, "today", nowMs) ==> DateMatch(b, "week", nowMs)
    ensures DateMatch(b, "week", nowMs) ==> DateMatch(b, "month", nowMs)
  {
    if b.date == DayOf(nowMs) {
      assert b.date * DayMs > nowMs - DayMs;
    }
  }

  /** An empty search with the 'all' filter shows the whole history. */
  lemma UnfilteredHistoryIsWhole(history: seq<Bill>, nowMs: int)
    ensures multiset(FilteredHistory(history, "", "all", nowMs)) == multiset(history)
  {
    forall b: Bill ensures HistoryMatch("", "all", nowMs)(b) {
      ContainsEmpty(Lower(b.patientName));
    }
    FilterAll(history, HistoryMatch("", "all", nowMs));
  }

  // ---------------------------------------------------------------------
  // The billing desk: the screen's state and its handlers
  // ---------------------------------------------------------------------

  /** Everything the handlers read or write: the screen state, with the
      stored `registeredPatients`, `billingHistory` and `revenueStatistics`. */
  datatype DeskState = DeskState(
    patients: seq<Patient>, registered: seq<Patient>, billItems: seq<BillLine>,
    history: seq<Bill>, revenue: RevenueStats, selectedPatient: string,
    selectedService: string, quantity: Option<int>, error: Option<string>,
    successMessage: string)

  /** `handleAddToBill`, with `Date.now()` as the new line's id. */
  function AddToBillStep(st: DeskState, nowMs: int): (r: DeskState)
    ensures r.error == AddToBillError(st.selectedPatient, st.selectedService, st.quantity)
    ensures r.error.Some? ==> r == st.(error := r.error)
    ensures r.error.None? ==>
              r == st.(error := None, billItems := st.billItems + [LineFor(st, nowMs)],
                       selectedService := "", quantity := Some(1))
  {
    var e := AddToBillError(st.selectedPatient, st.selectedService, st.quantity);
    if e.Some? then st.(error := e)
    else st.(error := None, billItems := st.billItems + [LineFor(st, nowMs)], selectedService := "", quantity := Some(1))
  }

  /** The line an accepted request adds: the selected service, priced from
      the table, times the quantity. */
  function LineFor(st: DeskState, nowMs: int): (l: BillLine)
    requires AddToBillError(st.selectedPatient, st.selectedService, st.quantity).None?
    ensures l.service == st.selectedService && l.quantity == st.quantity.value
    ensures l.unitPrice == FindService(st.selectedService).value.price
    ensures l.totalPrice == l.unitPrice * l.quantity
  {
    MakeLine(nowMs, FindService(st.selectedService).value, st.quantity.value)
  }

  /** An accepted line raises the bill total by unit price times quantity;
      a rejected one leaves the bill as it was. */
  lemma AddToBillTotal(st: DeskState, nowMs: int)
    ensures var r := AddToBillStep(st, nowMs);
            if r.error.None? then
              BillTotal(r.billItems) == BillTotal(st.billItems) + LineFor(st, nowMs).unitPrice * st.quantity.value
            else r.billItems == st.billItems
  {
    if AddToBillError(st.selectedPatient, st.selectedService, st.quantity).None? {
      BillTotalAppend(st.billItems, LineFor(st, nowMs));
    }
  }

  /** `handleRegisterPatient`, on the day of `nowMs`, by the signed-in user. */
  function RegisterStep(st: DeskState, f: PatientForm, user: Option<SessionUser>, nowMs: int): (r: DeskState)
    ensures RegistrationError(f).Some? ==> r == st.(error := RegistrationError(f), successMessage := "")
    ensures RegistrationError(f).None? ==>
              var p := NewPatient(f, |st.patients|, user, DayOf(nowMs));
              r == st.(patients := st.patients + [p], registered := st.registered + [p],
                       revenue := st.revenue.(patientCount := st.revenue.patientCount + 1),
                       error := None,
                       successMessage := "Patient " + f.name + " registered successfully with ID: " + p.id)
  {
    var e := RegistrationError(f);
    if e.Some? then st.(error := e, successMessage := "")
    else
      var p := NewPatient(f, |st.patients|, user, DayOf(nowMs));
      st.(patients := st.patients + [p], registered := st.registered + [p],
          revenue := RevenueUpdate(st.revenue, 0, "new_patient"), error := None,
          successMessage := "Patient " + f.name + " registered successfully with ID: " + p.id)
  }

  /** Registering into a list numbered in order gives a new id and keeps the
      numbering. */
  lemma RegisterKeepsIdsNumbered(st: DeskState, f: PatientForm, user: Option<SessionUser>, nowMs: int)
    requires NumberedIds(st.patients)
    ensures NumberedIds(RegisterStep(st, f, user, nowMs).patients)
    ensures RegistrationError(f).None? ==> PatientIdFor(|st.patients|) !in Ids(st.patients)
  {
    if RegistrationError(f).None? {
      NextIdIsFresh(st.patients, f, user, DayOf(nowMs));
    }
  }

  /** `handleBillGeneration`'s checks: the error to show, or None. */
  function BillError(st: DeskState): (r: Option<string>)
    ensures r.None? <==> st.billItems != [] && st.selectedPatient != "" &&
                         FirstIndex(st.patients, HasId(st.selectedPatient)).Some?
    ensures st.billItems == [] ==> r == Some("Cannot generate bill with no items")
  {
    if st.billItems == [] then Some("Cannot generate bill with no items")
    else if st.selectedPatient == "" then Some("Please select a patient for billing")
    else if FirstIndex(st.patients, HasId(st.selectedPatient)).None? then Some("Selected patient not found")
    else None
  }

  /** The record kept for a paid bill. */
  function MakeBill(id: string, patient: Patient, day: int, items: seq<BillLine>): (b: Bill)
    ensures b.patientId == patient.id && b.patientName == patient.name && b.date == day
    ensures b.items == items && b.total == BillTotal(items)
    ensures b.status == "Paid" && b.paymentMethod == "Cash"
  {
    Bill(id, patient.id, patient.name, day, items, BillTotal(items), "Paid", "Cash")
  }

  /** The bill paid for the selected patient, dated the day of `nowMs`. */
  function PaidBill(st: DeskState, nowMs: nat): Bill
    requires BillError(st).None?
  {
    var patient := st.patients[FirstIndex(st.patients, HasId(st.selectedPatient)).value];
    MakeBill(BillId(nowMs), patient, DayOf(nowMs), st.billItems)
  }

  /** A patient list after a bill: discharged when a line is a discharge. */
  function AfterBill(ps: seq<Patient>, lines: seq<BillLine>, id: string, day: int): seq<Patient> {
    if IncludesDischarge(lines) then MarkDischarged(ps, id, day) else ps
  }

  /** `handleBillGeneration` at `nowMs`. */
  function GenerateBillStep(st: DeskState, nowMs: nat): DeskState
  {
    var e := BillError(st);
    if e.Some? then st.(error := e)
    else
      var bill := PaidBill(st, nowMs);
      st.(history := st.history + [bill],
          revenue := RevenueUpdate(st.revenue, bill.total, "bill"),
          registered := AfterBill(st.registered, st.billItems, st.selectedPatient, DayOf(nowMs)),
          patients := AfterBill(st.patients, st.billItems, st.selectedPatient, DayOf(nowMs)),
          successMessage := "Bill #" + bill.id + " generated successfully for patient " + bill.patientName +
                            ". Total amount: $" + IntString(bill.total) + ".00",
          billItems := [], selectedPatient := "")
  }

  /** An error leaves everything else as it was (the previous error is not
      cleared first). A paid bill is appended to the history and counted in
      the revenue; a discharge line discharges the selected patient in both
      lists, and only then are the lists changed; the bill is emptied and the
      selection cleared. */
  lemma GenerateBillOutcome(st: DeskState, nowMs: nat)
    ensures BillError(st).Some? ==> GenerateBillStep(st, nowMs) == st.(error := BillError(st))
    ensures BillError(st).None? ==>
              var r := GenerateBillStep(st, nowMs);
              |r.history| == |st.history| + 1 && r.history[..|st.history|] == st.history &&
              r.history[|st.history|].total == BillTotal(st.billItems) &&
              r.history[|st.history|].patientId == st.selectedPatient &&
              r.history[|st.history|].id == BillId(nowMs) &&
              r.revenue == RevenueStats(st.revenue.totalRevenue + BillTotal(st.billItems),
                                        st.revenue.patientCount, st.revenue.billCount + 1) &&
              r.billItems == [] && r.selectedPatient == "" && r.error == st.error
    ensures BillError(st).None? && IncludesDischarge(st.billItems) ==>
              var r := GenerateBillStep(st, nowMs);
              r.patients == MarkDischarged(st.patients, st.selectedPatient, DayOf(nowMs)) &&
              r.registered == MarkDischarged(st.registered, st.selectedPatient, DayOf(nowMs))
    ensures !IncludesDischarge(st.billItems) ==>
              GenerateBillStep(st, nowMs).patients == st.patients &&
              GenerateBillStep(st, nowMs).registered == st.registered
  {
  }

  /** Every line of the bill names a service of the price table. */
  predicate LinesFromTable(lines: seq<BillLine>) {
    forall i :: 0 <= i < |lines| ==> FindService(lines[i].service).Some?
  }

  /** Adding a line keeps every line from the price table. */
  lemma AddToBillKeepsTableLines(st: DeskState, nowMs: int)
    requires LinesFromTable(st.billItems)
    ensures LinesFromTable(AddToBillStep(st, nowMs).billItems)
  {
    var r := AddToBillStep(st, nowMs);
    if r.error.None? {
      assert FindService(r.billItems[|st.billItems|].service).Some?;
    }
  }

  /** Removing lines keeps every line from the price table. */
  lemma RemoveKeepsTableLines(lines: seq<BillLine>, id: int)
    requires LinesFromTable(lines)
    ensures LinesFromTable(RemoveBillItem(lines, id))
  {
    var kept := RemoveBillItem(lines, id);
    forall i | 0 <= i < |kept| ensures FindService(kept[i].service).Some? {
      var j :| 0 <= j < |lines| && lines[j] == kept[i];
    }
  }

  /** Lines only ever come from the price table (the two lemmas above), so a
      bill made at the desk never discharges anyone: the discharge branch is
      never taken. */
  lemma DeskBillsNeverDischarge(st: DeskState, nowMs: nat)
    requires LinesFromTable(st.billItems)
    ensures GenerateBillStep(st, nowMs).patients == st.patients
    ensures GenerateBillStep(st, nowMs).registered == st.registered
  {
    TableBillNeverDischarges(st.billItems);
    GenerateBillOutcome(st, nowMs);
  }

  class BillingDesk {
    var patients: seq<Patient>
    var registered: seq<Patient>
    var billItems: seq<BillLine>
    var history: seq<Bill>
    var revenue: RevenueStats
    var selectedPatient: string
    var selectedService: string
    var quantity: Option<int>
    var error: Option<string>
    var successMessage: string

    function State(): DeskState
      reads this
    {
      DeskState(patients, registered, billItems, history, revenue, selectedPatient,
                selectedService, quantity, error, successMessage)
    }

    /** The screen as first shown: the stored lists read in, nothing selected. */
    constructor (storedPatients: seq<Patient>, storedBills: seq<Bill>, stats: RevenueStats)
      ensures State() == DeskState([], storedPatients, [], storedBills, stats, "", "", Some(1), None, "")
    {
      patients := [];
      registered := storedPatients;
      billItems := [];
      history := storedBills;
      revenue := stats;
      selectedPatient := "";
      selectedService := "";
      quantity := Some(1);
      error := None;
      successMessage := "";
    }

    /** `loadPatients`: the built-in patients merged with the registered
        ones. Each id is listed once, every registered id is listed, and a
        listed patient with a registered id is the last record stored for it. */
    method LoadPatients()
      modifies this
      ensures State() == old(State()).(patients := Merged(MockPatients + registered))
      ensures UniqueIds(patients)
      ensures forall i :: 0 <= i < |registered| ==> registered[i].id in Ids(patients)
      ensures forall k :: 0 <= k < |patients| && patients[k].id in Ids(registered) ==>
                Some(patients[k]) == LastWithId(registered, patients[k].id)
    {
      var all := MockPatients + registered;
      var r := MergeById(all);
      forall i | 0 <= i < |registered| ensures registered[i].id in Ids(r) {
        assert all[|MockPatients| + i] == registered[i];
      }
      forall k | 0 <= k < |r| && r[k].id in Ids(registered)
        ensures Some(r[k]) == LastWithId(registered, r[k].id)
      {
        RegisteredWins(MockPatients, registered, r[k].id);
      }
      patients := r;
    }

    /** `handleAddToBill`: the checks run in order, the first failing one
        setting the error. */
    method AddToBill(nowMs: int)
      modifies this
      ensures State() == AddToBillStep(old(State()), nowMs)
    {
      var before := State();
      ghost var after := AddToBillStep(before, nowMs);
      error := None;
      var e := AddToBillError(selectedPatient, selectedService, quantity);
      if e.Some? {
        error := e;
        return;
      }
      billItems := billItems + [LineFor(before, nowMs)];
      selectedService := "";
      quantity := Some(1);
    }

    /** `removeBillItem` */
    method RemoveLine(id: int)
      modifies this
      ensures State() == old(State()).(billItems := RemoveBillItem(old(billItems), id))
      ensures BillTotal(old(billItems)) == BillTotal(billItems) + BillTotal(Filter(old(billItems), DropsLine(id)))
    {
      RemoveBillItemTotal(billItems, id);
      billItems := RemoveBillItem(billItems, id);
    }

    method RegisterPatient(f: PatientForm, user: Option<SessionUser>, nowMs: int)
      modifies this
      ensures State() == RegisterStep(old(State()), f, user, nowMs)
    {
      ghost var after := RegisterStep(State(), f, user, nowMs);
      error := None;
      successMessage := "";
      var e := RegistrationError(f);
      if e.Some? {
        error := e;
        return;
      }
      var p := NewPatient(f, |patients|, user, DayOf(nowMs));
      registered := registered + [p];
      patients := patients + [p];
      successMessage := "Patient " + p.name + " registered successfully with ID: " + p.id;
      revenue := RevenueUpdate(revenue, 0, "new_patient");
    }

    /** `handleBillGeneration` */
    method GenerateBill(nowMs: nat)
      modifies this
      ensures State() == GenerateBillStep(old(State()), nowMs)
    {
      var e := BillError(State());
      if e.Some? {
        error := e;
        return;
      }
      PayBill(nowMs);
    }

    /** The rest of `handleBillGeneration` once its checks have passed. */
    method PayBill(nowMs: nat)
      requires BillError(State()).None?
      modifies this
      ensures State() == GenerateBillStep(old(State()), nowMs)
    {
      var bill := PaidBill(State(), nowMs);
      var message := "Bill #" + bill.id + " generated successfully for patient " + bill.patientName +
                     ". Total amount: $" + IntString(bill.total) + ".00";
      history := history + [bill];
      revenue := RevenueUpdate(revenue, bill.total, "bill");
      if IncludesDischarge(billItems) {
        DischargeSelected(bill.date);
      }
      successMessage := message;
      billItems := [];
      selectedPatient := "";
    }

    /** The discharge on a final bill, in the stored list and on screen. */
    method DischargeSelected(day: int)
      modifies this
      ensures State() == old(State()).(registered := MarkDischarged(old(registered), selectedPatient, day),
                                       patients := MarkDischarged(old(patients), selectedPatient, day))
    {
      registered := MarkDischarged(registered, selectedPatient, day);
      patients := MarkDischarged(patients, selectedPatient, day);
    }
  }
}
