/**
 * The rules inside src/pages/AdminDashboard.tsx: the fleet status badge, the
 * expense approval list, the driver status toggle and licence badge, and the
 * Universal Vault's role filter, expiry badge and per-vehicle counts.
 */
module AdminDashboard {
  import opened Wrappers
  import opened Styles
  import opened Text
  import opened DocumentVault

  // ---------------------------------------------------------------- fleet

  /** `statusBadge`: the colour of a vehicle status, with the idle colour for any unknown status. */
  function FleetStatusTone(status: string): (t: Tone)
    ensures status == "active" ==> t == Success
    ensures status == "maintenance" ==> t == Danger
    ensures status != "active" && status != "maintenance" ==> t == Warning
  {
    var styles := map["active" := Success, "idle" := Warning, "maintenance" := Danger];
    if status in styles then styles[status] else styles["idle"]
  }

  // ------------------------------------------------------------- expenses

  datatype ExpenseStatus = Pending | Approved | Rejected

  /** The two statuses `handleAction` may set. */
  type Decision = s: ExpenseStatus | s != Pending witness Approved

  datatype Expense = Expense(
    id: string, driver: string, vehicle: string, category: string,
    amount: nat, date: string, proof: bool, status: ExpenseStatus)

  const DriverExpenses: seq<Expense> := [
    Expense("EXP-001", "Ramesh Kumar", "HR-55-AF-1234", "Fuel", 8500, "17 Feb", true, Pending),
    Expense("EXP-002", "Suresh Yadav", "MH-12-AB-5678", "Toll", 2200, "16 Feb", true, Pending),
    Expense("EXP-003", "Vikram Singh", "RJ-14-CD-9012", "Food", 650, "16 Feb", false, Pending),
    Expense("EXP-004", "Anil Patel", "GJ-05-EF-3456", "Fuel", 7200, "15 Feb", true, Approved),
    Expense("EXP-005", "Deepak Sharma", "MP-09-GH-7890", "Toll", 1800, "15 Feb", true, Rejected),
    Expense("EXP-006", "Manoj Tiwari", "UP-32-IJ-2345", "Food", 450, "14 Feb", true, Approved)
  ]

  predicate UniqueExpenseIds(es: seq<Expense>) {
    forall i, j :: 0 <= i < j < |es| ==> es[i].id != es[j].id
  }

  /** `expenses.filter(e => e.status === "pending").length` */
  function PendingCount(es: seq<Expense>): (n: nat)
    ensures n <= |es|
  {
    if es == [] then 0 else (if es[0].status == Pending then 1 else 0) + PendingCount(es[1..])
  }

  /** `prev.map(e => e.id === id ? { ...e, status: action } : e)` */
  function Decide(es: seq<Expense>, id: string, action: Decision): (r: seq<Expense>)
    ensures |r| == |es|
    ensures forall i :: 0 <= i < |es| ==>
      r[i] == if es[i].id == id then es[i].(status := action) else es[i]
  {
    if es == [] then []
    else [if es[0].id == id then es[0].(status := action) else es[0]] + Decide(es[1..], id, action)
  }

  lemma {:induction false} DecideAbsentId(es: seq<Expense>, id: string, action: Decision)
    requires forall i :: 0 <= i < |es| ==> es[i].id != id
    ensures Decide(es, id, action) == es
  {
    if es != [] {
      DecideAbsentId(es[1..], id, action);
    }
  }

  /** Deciding a pending record, ids being unique, lowers the pending count by exactly one. */
  lemma {:induction false} DecideLowersPending(es: seq<Expense>, id: string, action: Decision, k: int)
    requires UniqueExpenseIds(es)
    requires 0 <= k < |es| && es[k].id == id && es[k].status == Pending
    ensures PendingCount(Decide(es, id, action)) == PendingCount(es) - 1
  {
    var r := Decide(es, id, action);
    var tail := es[1..];
    assert r[1..] == Decide(tail, id, action);
    if k == 0 {
      forall i | 0 <= i < |tail|
        ensures tail[i].id != id
      {
        assert tail[i] == es[i + 1];
      }
      DecideAbsentId(tail, id, action);
    } else {
      assert UniqueExpenseIds(tail) by {
        forall i, j | 0 <= i < j < |tail|
          ensures tail[i].id != tail[j].id
        {
          assert tail[i] == es[i + 1] && tail[j] == es[j + 1];
        }
      }
      assert tail[k - 1] == es[k];
      DecideLowersPending(tail, id, action, k - 1);
    }
  }

  /** No decision ever adds a pending record. */
  lemma {:induction false} DecideNeverAddsPending(es: seq<Expense>, id: string, action: Decision)
    ensures PendingCount(Decide(es, id, action)) <= PendingCount(es)
  {
    if es != [] {
      var r := Decide(es, id, action);
      assert r[1..] == Decide(es[1..], id, action);
      DecideNeverAddsPending(es[1..], id, action);
    }
  }

  /** The action cell of a row: buttons, or a badge repeating the status. */
  datatype ExpenseControls = ApproveRejectButtons | StatusBadge(status: ExpenseStatus)

  function ExpenseRowControls(e: Expense): (c: ExpenseControls)
    ensures c == ApproveRejectButtons <==> e.status == Pending
    ensures c.StatusBadge? ==> c.status == e.status
  {
    if e.status == Pending then ApproveRejectButtons else StatusBadge(e.status)
  }

  /** `ExpensesSection`: the expense list held in component state. */
  class ExpensesSection {
    var expenses: seq<Expense>

    /** Expense ids stay unique, so one click decides one record. */
    predicate Valid()
      reads this
    {
      UniqueExpenseIds(expenses)
    }

    constructor ()
      ensures expenses == DriverExpenses
      ensures Valid()
    {
      expenses := DriverExpenses;
    }

    /** The "pending approvals" figure in the section header. */
    function PendingApprovals(): nat
      reads this
    {
      PendingCount(expenses)
    }

    /** `handleAction(id, action)`; the buttons that call it are on pending rows only. */
    method HandleAction(id: string, action: Decision)
      requires Valid()
      modifies this
      ensures Valid()
      ensures expenses == Decide(old(expenses), id, action)
      ensures (exists k :: 0 <= k < |old(expenses)| && old(expenses)[k].id == id && old(expenses)[k].status == Pending)
        ==> PendingApprovals() == old(PendingApprovals()) - 1
      ensures PendingApprovals() <= old(PendingApprovals())
      ensures (forall k :: 0 <= k < |old(expenses)| ==> old(expenses)[k].id != id) ==> expenses == old(expenses)
    {
      if forall k :: 0 <= k < |expenses| ==> expenses[k].id != id {
        DecideAbsentId(expenses, id, action);
      }
      if exists k :: 0 <= k < |expenses| && expenses[k].id == id && expenses[k].status == Pending {
        var k :| 0 <= k < |expenses| && expenses[k].id == id && expenses[k].status == Pending;
        DecideLowersPending(expenses, id, action, k);
      }
      DecideNeverAddsPending(expenses, id, action);
      expenses := Decide(expenses, id, action);
    }
  }

  // -------------------------------------------------------------- drivers

  datatype DriverStatus = OnTrip | Available

  datatype DriverProfile = DriverProfile(
    id: string, name: string, status: DriverStatus, totalTrips: nat,
    licenseExpiry: string, vehicle: string, phone: string)

  const MockDrivers: seq<DriverProfile> := [
    DriverProfile("D1", "Ramesh Kumar", OnTrip, 234, "2027-06-15", "HR-55-AF-1234", "+91 98765 43210"),
    DriverProfile("D2", "Suresh Yadav", Available, 189, "2026-11-20", "MH-12-AB-5678", "+91 87654 32109"),
    DriverProfile("D3", "Vikram Singh", Available, 312, "2028-03-10", "RJ-14-CD-9012", "+91 76543 21098"),
    DriverProfile("D4", "Anil Patel", OnTrip, 156, "2026-04-05", "GJ-05-EF-3456", "+91 65432 10987"),
    DriverProfile("D5", "Deepak Sharma", OnTrip, 278, "2027-09-22", "MP-09-GH-7890", "+91 54321 09876"),
    DriverProfile("D6", "Manoj Tiwari", Available, 145, "2026-08-18", "UP-32-IJ-2345", "+91 43210 98765")
  ]

  function Flip(s: DriverStatus): DriverStatus {
    if s == OnTrip then Available else OnTrip
  }

  predicate UniqueDriverIds(ds: seq<DriverProfile>) {
    forall i, j :: 0 <= i < j < |ds| ==> ds[i].id != ds[j].id
  }

  /** `prev.map(d => d.id === id ? { ...d, status: flipped } : d)` */
  function ToggleStatus(ds: seq<DriverProfile>, id: string): (r: seq<DriverProfile>)
    ensures |r| == |ds|
    ensures forall i :: 0 <= i < |ds| ==>
      r[i] == if ds[i].id == id then ds[i].(status := Flip(ds[i].status)) else ds[i]
  {
    if ds == [] then []
    else [if ds[0].id == id then ds[0].(status := Flip(ds[0].status)) else ds[0]] + ToggleStatus(ds[1..], id)
  }

  /** Toggling the same driver twice restores the list. */
  lemma {:induction false} ToggleStatusTwice(ds: seq<DriverProfile>, id: string)
    ensures ToggleStatus(ToggleStatus(ds, id), id) == ds
  {
    var r := ToggleStatus(ToggleStatus(ds, id), id);
    assert forall i :: 0 <= i < |ds| ==> r[i] == ds[i];
  }

  /** `drivers.filter(d => d.status === "available").length` */
  function AvailableCount(ds: seq<DriverProfile>): (n: nat)
    ensures n <= |ds|
  {
    if ds == [] then 0 else (if ds[0].status == Available then 1 else 0) + AvailableCount(ds[1..])
  }

  lemma {:induction false} ToggleAbsentId(ds: seq<DriverProfile>, id: string)
    requires forall i :: 0 <= i < |ds| ==> ds[i].id != id
    ensures ToggleStatus(ds, id) == ds
  {
    if ds != [] {
      ToggleAbsentId(ds[1..], id);
    }
  }

  /** With unique ids, toggling a driver moves the "available" figure by exactly one, in the driver's direction. */
  lemma {:induction false} ToggleMovesAvailable(ds: seq<DriverProfile>, id: string, k: int)
    requires UniqueDriverIds(ds)
    requires 0 <= k < |ds| && ds[k].id == id
    ensures ds[k].status == Available ==> AvailableCount(ToggleStatus(ds, id)) == AvailableCount(ds) - 1
    ensures ds[k].status == OnTrip ==> AvailableCount(ToggleStatus(ds, id)) == AvailableCount(ds) + 1
  {
    var r := ToggleStatus(ds, id);
    var tail := ds[1..];
    assert r[1..] == ToggleStatus(tail, id);
    if k == 0 {
      forall i | 0 <= i < |tail|
        ensures tail[i].id != id
      {
        assert tail[i] == ds[i + 1];
      }
      ToggleAbsentId(tail, id);
    } else {
      assert UniqueDriverIds(tail) by {
        forall i, j | 0 <= i < j < |tail|
          ensures tail[i].id != tail[j].id
        {
          assert tail[i] == ds[i + 1] && tail[j] == ds[j + 1];
        }
      }
      assert tail[k - 1] == ds[k];
      ToggleMovesAvailable(tail, id, k - 1);
    }
  }

  /** The licence badge of a driver card: Expired, `d left` up to 90 days, then Valid. */
  function LicenseTag(daysLeft: int): (t: Tag)
    ensures t.tone == Danger <==> daysLeft < 0
    ensures t.tone == Warning <==> 0 <= daysLeft <= 90
    ensures t.tone == Success <==> 90 < daysLeft
    ensures daysLeft < 0 ==> t.text == "Expired"
    ensures 0 <= daysLeft <= 90 ==> t.text == DaysLeftLabel(daysLeft)
    ensures 90 < daysLeft ==> t.text == "Valid"
  {
    if daysLeft < 0 then Tag("Expired", Danger)
    else if daysLeft <= 90 then Tag(DaysLeftLabel(daysLeft), Warning)
    else Tag("Valid", Success)
  }

  /** A later licence expiry never gets a more urgent badge, and the badge text identifies the badge. */
  lemma LicenseTagOrdered(d1: int, d2: int)
    ensures d1 <= d2 ==> Severity(LicenseTag(d2).tone) <= Severity(LicenseTag(d1).tone)
    ensures LicenseTag(d1).text == LicenseTag(d2).text ==> LicenseTag(d1) == LicenseTag(d2)
  {
    if LicenseTag(d1).text == LicenseTag(d2).text {
      if 0 <= d1 <= 90 && 0 <= d2 <= 90 {
        DaysLeftLabelInjective(d1, d2);
      } else if 0 <= d1 <= 90 {
        DaysLeftLabelIsNotWord(d1, LicenseTag(d2).text);
      } else if 0 <= d2 <= 90 {
        DaysLeftLabelIsNotWord(d2, LicenseTag(d1).text);
      }
    }
  }

  /** `DriversSection`: the driver list held in component state. */
  class DriversSection {
    var drivers: seq<DriverProfile>

    /** Driver ids stay unique, so one click toggles one driver. */
    predicate Valid()
      reads this
    {
      UniqueDriverIds(drivers)
    }

    constructor ()
      ensures drivers == MockDrivers
      ensures Valid()
    {
      drivers := MockDrivers;
    }

    /** The "available" figure in the section header. */
    function AvailableDrivers(): nat
      reads this
    {
      AvailableCount(drivers)
    }

    /** `toggleStatus(id)`, bound to the status pill of each card. */
    method Toggle(id: string)
      requires Valid()
      modifies this
      ensures Valid()
      ensures drivers == ToggleStatus(old(drivers), id)
      ensures forall k :: 0 <= k < |old(drivers)| && old(drivers)[k].id == id ==>
        AvailableDrivers() == if old(drivers)[k].status == Available
          then old(AvailableDrivers()) - 1 else old(AvailableDrivers()) + 1
      ensures (forall k :: 0 <= k < |old(drivers)| ==> old(drivers)[k].id != id) ==> drivers == old(drivers)
    {
      forall k | 0 <= k < |drivers| && drivers[k].id == id
        ensures AvailableCount(ToggleStatus(drivers, id)) ==
          if drivers[k].status == Available then AvailableCount(drivers) - 1 else AvailableCount(drivers) + 1
      {
        ToggleMovesAvailable(drivers, id, k);
      }
      if forall k :: 0 <= k < |drivers| ==> drivers[k].id != id {
        ToggleAbsentId(drivers, id);
      }
      drivers := ToggleStatus(drivers, id);
    }
  }

  // ------------------------------------------------------- universal vault

  datatype VaultDocument = VaultDocument(id: string, name: string, docType: DocType, expiryDate: string)

  /** `Object.keys(vaultDocuments)`, in insertion order. */
  const VaultVehicles: seq<string> :=
    ["HR-55-AF-1234", "MH-12-AB-5678", "RJ-14-CD-9012", "GJ-05-EF-3456", "MP-09-GH-7890", "UP-32-IJ-2345"]

  const VaultDocuments: map<string, seq<VaultDocument>> := map[
    "HR-55-AF-1234" := [
      VaultDocument("V1", "Registration Certificate", RC, "2026-02-20"),
      VaultDocument("V2", "Motor Insurance", Insurance, "2026-09-15"),
      VaultDocument("V3", "National Permit", Permit, "2026-01-05"),
      VaultDocument("V4", "Fitness Certificate", Fitness, "2027-04-10")],
    "MH-12-AB-5678" := [
      VaultDocument("V5", "Registration Certificate", RC, "2027-11-30"),
      VaultDocument("V6", "Motor Insurance", Insurance, "2026-02-10"),
      VaultDocument("V7", "National Permit", Permit, "2026-12-20")],
    "RJ-14-CD-9012" := [
      VaultDocument("V8", "Registration Certificate", RC, "2028-06-15"),
      VaultDocument("V9", "Motor Insurance", Insurance, "2026-08-20"),
      VaultDocument("V10", "National Permit", Permit, "2026-06-15"),
      VaultDocument("V11", "Fitness Certificate", Fitness, "2026-03-01")],
    "GJ-05-EF-3456" := [
      VaultDocument("V12", "Registration Certificate", RC, "2025-12-01"),
      VaultDocument("V13", "Motor Insurance", Insurance, "2026-05-18")],
    "MP-09-GH-7890" := [
      VaultDocument("V14", "Registration Certificate", RC, "2027-01-25"),
      VaultDocument("V15", "Motor Insurance", Insurance, "2026-02-28"),
      VaultDocument("V16", "National Permit", Permit, "2026-10-12")],
    "UP-32-IJ-2345" := [
      VaultDocument("V17", "Registration Certificate", RC, "2027-03-10"),
      VaultDocument("V18", "Motor Insurance", Insurance, "2026-07-05"),
      VaultDocument("V19", "Fitness Certificate", Fitness, "2026-11-30")]
  ]

  /** The key order lists every vault key exactly once. */
  lemma VaultVehiclesAreTheKeys()
    ensures forall v :: v in VaultVehicles <==> v in VaultDocuments
    ensures forall i, j :: 0 <= i < j < |VaultVehicles| ==> VaultVehicles[i] != VaultVehicles[j]
  {
  }

  /** `getAccessibleVehicles`: every vehicle for an admin, one fixed vehicle for a driver or a supplier, none otherwise. */
  function AccessibleVehicles(role: Option<string>): (vs: seq<string>)
    ensures role == Some("admin") ==> vs == VaultVehicles
    ensures role == Some("driver") ==> vs == ["HR-55-AF-1234"]
    ensures role == Some("supplier") ==> vs == ["MH-12-AB-5678"]
    ensures role != Some("admin") && role != Some("driver") && role != Some("supplier") ==> vs == []
    ensures forall v :: v in vs ==> v in VaultDocuments
  {
    VaultVehiclesAreTheKeys();
    if role == Some("admin") then VaultVehicles
    else if role == Some("driver") then ["HR-55-AF-1234"]
    else if role == Some("supplier") then ["MH-12-AB-5678"]
    else []
  }

  /** `vaultDocuments[v] || []` */
  function DocsFor(vehicle: string): (docs: seq<VaultDocument>)
    ensures vehicle in VaultDocuments ==> docs == VaultDocuments[vehicle]
    ensures vehicle !in VaultDocuments ==> docs == []
  {
    if vehicle in VaultDocuments then VaultDocuments[vehicle] else []
  }

  /** For every vehicle a role can see, the `|| []` fallback is not taken: its group lists the vault's own documents. */
  lemma AccessibleVehiclesHaveDocuments(role: Option<string>, v: string)
    requires v in AccessibleVehicles(role)
    ensures DocsFor(v) == VaultDocuments[v] && |DocsFor(v)| > 0
  {
  }

  /** The vault's expiry badge: Expired, `d left` up to 10 days, then Valid. */
  function VaultTag(days: int): (t: Tag)
    ensures t.tone == Danger <==> days < 0
    ensures t.tone == Warning <==> 0 <= days <= 10
    ensures t.tone == Success <==> 10 < days
    ensures days < 0 ==> t.text == "Expired"
    ensures 0 <= days <= 10 ==> t.text == DaysLeftLabel(days)
    ensures 10 < days ==> t.text == "Valid"
  {
    if days < 0 then Tag("Expired", Danger)
    else if days <= 10 then Tag(DaysLeftLabel(days), Warning)
    else Tag("Valid", Success)
  }

  /** A later expiry never gets a more urgent vault badge, and the badge text identifies the badge. */
  lemma VaultTagOrdered(d1: int, d2: int)
    ensures d1 <= d2 ==> Severity(VaultTag(d2).tone) <= Severity(VaultTag(d1).tone)
    ensures VaultTag(d1).text == VaultTag(d2).text ==> VaultTag(d1) == VaultTag(d2)
  {
    if VaultTag(d1).text == VaultTag(d2).text {
      if 0 <= d1 <= 10 && 0 <= d2 <= 10 {
        DaysLeftLabelInjective(d1, d2);
      } else if 0 <= d1 <= 10 {
        DaysLeftLabelIsNotWord(d1, VaultTag(d2).text);
      } else if 0 <= d2 <= 10 {
        DaysLeftLabelIsNotWord(d2, VaultTag(d1).text);
      }
    }
  }

  const MsPerDay: int := 1000 * 60 * 60 * 24

  /**
   * Milliseconds from now until the instant an expiry date text denotes
   * (`new Date(text).getTime() - Date.now()`): the clock and the date parser.
   */
  type MsUntil = string -> int

  /** `Math.ceil(ms / MsPerDay)` */
  function CeilDays(ms: int): (d: int)
    ensures (d - 1) * MsPerDay < ms <= d * MsPerDay
  {
    -((-ms) / MsPerDay)
  }

  /** The badge of a document row. */
  function RowTag(d: VaultDocument, msUntil: MsUntil): Tag {
    VaultTag(CeilDays(msUntil(d.expiryDate)))
  }

  /** `new Date(d.expiryDate) < new Date()` */
  predicate IsExpired(d: VaultDocument, msUntil: MsUntil) {
    msUntil(d.expiryDate) < 0
  }

  /** `days >= 0 && days <= 10` with the ceil day count */
  predicate IsExpiring(d: VaultDocument, msUntil: MsUntil) {
    0 <= CeilDays(msUntil(d.expiryDate)) <= 10
  }

  /** The "n expired" figure of a vehicle group. */
  function ExpiredCount(docs: seq<VaultDocument>, msUntil: MsUntil): (n: nat)
    ensures n <= |docs|
  {
    if docs == [] then 0
    else (if IsExpired(docs[0], msUntil) then 1 else 0) + ExpiredCount(docs[1..], msUntil)
  }

  /** The "n expiring" figure of a vehicle group. */
  function WarningCount(docs: seq<VaultDocument>, msUntil: MsUntil): (n: nat)
    ensures n <= |docs|
  {
    if docs == [] then 0
    else (if IsExpiring(docs[0], msUntil) then 1 else 0) + WarningCount(docs[1..], msUntil)
  }

  /** How many rows of a group carry a badge of the given tone. */
  function ToneCount(docs: seq<VaultDocument>, msUntil: MsUntil, tone: Tone): nat {
    if docs == [] then 0
    else (if RowTag(docs[0], msUntil).tone == tone then 1 else 0) + ToneCount(docs[1..], msUntil, tone)
  }

  /** The "expiring" figure counts exactly the rows whose badge is the warning badge. */
  lemma {:induction false} WarningCountMatchesBadges(docs: seq<VaultDocument>, msUntil: MsUntil)
    ensures WarningCount(docs, msUntil) == ToneCount(docs, msUntil, Warning)
  {
    if docs != [] {
      WarningCountMatchesBadges(docs[1..], msUntil);
    }
  }

  /** Every row badged Expired is in the "expired" figure; the figure may also hold documents expired less than a day ago. */
  lemma {:induction false} ExpiredBadgesAreCounted(docs: seq<VaultDocument>, msUntil: MsUntil)
    ensures ToneCount(docs, msUntil, Danger) <= ExpiredCount(docs, msUntil)
  {
    if docs != [] {
      ExpiredBadgesAreCounted(docs[1..], msUntil);
    }
  }

  /** A document is in both figures only within its first day past expiry, when its badge still reads "0d left". */
  lemma CountedTwiceOnlyOnExpiryDay(d: VaultDocument, msUntil: MsUntil)
    requires IsExpired(d, msUntil) && IsExpiring(d, msUntil)
    ensures -MsPerDay < msUntil(d.expiryDate) < 0
    ensures RowTag(d, msUntil) == Tag(DaysLeftLabel(0), Warning)
  {
  }

  /** Such a document exists: one millisecond past expiry it is in both figures. */
  lemma CountedTwiceJustAfterExpiry(d: VaultDocument, msUntil: MsUntil)
    requires msUntil(d.expiryDate) == -1
    ensures IsExpired(d, msUntil) && IsExpiring(d, msUntil)
  {
  }

  /** `docTypeIcon[doc.type] || FileText`: the icon of a vault row. */
  function VaultTypeIcon(t: DocType): (i: Icon)
    ensures t == RC ==> i == FileTextIcon
    ensures t == Insurance ==> i == ShieldIcon
    ensures t == Permit || t == License ==> i == ReceiptIcon
    ensures t == Fitness ==> i == CheckCircleIcon
  {
    var icons := map[RC := FileTextIcon, Insurance := ShieldIcon, Permit := ReceiptIcon,
                     License := ReceiptIcon, Fitness := CheckCircleIcon];
    if t in icons then icons[t] else FileTextIcon
  }

  /** The sub-title under the vault heading, and whether the "Limited Access" badge shows. */
  datatype AccessNote = AccessNote(text: string, limited: bool)

  function VaultAccessNote(role: Option<string>): (n: AccessNote)
    ensures n.limited <==> role != Some("admin")
    ensures role == Some("admin") ==> n.text == "Full access \U{2014} all vehicles & documents"
    ensures role == Some("driver") ==> n.text == "Restricted \U{2014} assigned vehicle only"
    ensures role != Some("admin") && role != Some("driver") ==> n.text == "Restricted \U{2014} shipment vehicle only"
  {
    if role == Some("admin") then AccessNote("Full access \U{2014} all vehicles & documents", false)
    else if role == Some("driver") then AccessNote("Restricted \U{2014} assigned vehicle only", true)
    else AccessNote("Restricted \U{2014} shipment vehicle only", true)
  }

  /** The note shows a badge exactly when the role sees fewer vehicles than an admin; a role with no vault access still reads the supplier's note. */
  lemma AccessNoteAgreesWithFilter(role: Option<string>)
    ensures VaultAccessNote(role).limited <==> |AccessibleVehicles(role)| < |VaultVehicles|
    ensures role != Some("admin") && role != Some("driver") && role != Some("supplier") ==>
      AccessibleVehicles(role) == [] && VaultAccessNote(role) == VaultAccessNote(Some("supplier"))
  {
  }

  /** The group left open after a click on the header of `vehicle`: a click closes an open group and opens a closed one, closing any other. */
  function ExpandedAfterClick(expanded: Option<string>, vehicle: string): (e: Option<string>)
    ensures e == None <==> expanded == Some(vehicle)
    ensures e != None ==> e == Some(vehicle)
  {
    if expanded == Some(vehicle) then None else Some(vehicle)
  }

  /** Clicking one header twice leaves every group closed, unless that group was the open one, which is open again. */
  lemma ClickTwiceCloses(expanded: Option<string>, vehicle: string)
    ensures ExpandedAfterClick(ExpandedAfterClick(expanded, vehicle), vehicle) == (if expanded == Some(vehicle) then Some(vehicle) else None)
  {
  }

  /** `VaultSection`: the signed-in role and the one vehicle group shown expanded. */
  class VaultSection {
    const role: Option<string>
    var expandedVehicle: Option<string>

    constructor (role: Option<string>)
      ensures this.role == role && expandedVehicle == None
    {
      this.role := role;
      expandedVehicle := None;
    }

    /** The groups listed, each with its documents. */
    function Groups(): seq<(string, seq<VaultDocument>)>
      reads this
    {
      seq(|AccessibleVehicles(role)|, i requires 0 <= i < |AccessibleVehicles(role)| =>
        (AccessibleVehicles(role)[i], DocsFor(AccessibleVehicles(role)[i])))
    }

    /** The header button of a group. */
    method ClickGroup(vehicle: string)
      modifies this
      ensures expandedVehicle == ExpandedAfterClick(old(expandedVehicle), vehicle)
    {
      expandedVehicle := if expandedVehicle == Some(vehicle) then None else Some(vehicle);
    }
  }
}
