/** src/pages/SupplierPortal.tsx: the delivery-order search, the selection and the truck and bilty lookups. */
module SupplierPortal {
  import opened Wrappers
  import opened Styles
  import opened Text
  import DigitalBilty

  datatype Stock = Stock(doNumber: string, stock: string, trucks: nat, location: string)

  const MockStocks: seq<Stock> := [
    Stock("DO-2026-001", "Iron Ore", 5, "Pune Depot"),
    Stock("DO-2026-002", "Coal", 3, "Mumbai Port"),
    Stock("DO-2026-003", "Cement", 8, "Nashik Plant"),
    Stock("DO-2026-004", "Limestone", 4, "Solapur Quarry")
  ]

  datatype TruckStatus = InTransit | Loading | Delivered

  datatype Truck = Truck(number: string, driver: string, status: TruckStatus, from: string, to: string, eta: string)

  datatype BiltyRecord = BiltyRecord(
    id: string, from: string, to: string, truckNumber: string, date: string, status: DigitalBilty.BiltyStatus)

  const TrucksByDO: map<string, seq<Truck>> := map[
    "DO-2026-001" := [
      Truck("MH12AB1234", "Rajesh K.", InTransit, "Pune", "Mumbai", "2h 15m"),
      Truck("MH14CD5678", "Sunil M.", Loading, "Pune", "Delhi", "-"),
      Truck("MH09EF9012", "Amit P.", Delivered, "Pune", "Nashik", "Done")],
    "DO-2026-002" := [
      Truck("MH20GH3456", "Vikram S.", InTransit, "Mumbai", "Surat", "4h 30m"),
      Truck("MH31IJ7890", "Ravi T.", Delivered, "Mumbai", "Pune", "Done")],
    "DO-2026-003" := [
      Truck("MH04KL1234", "Mahesh D.", Loading, "Nashik", "Aurangabad", "-"),
      Truck("MH15MN5678", "Santosh G.", InTransit, "Nashik", "Mumbai", "3h")],
    "DO-2026-004" := [
      Truck("MH11OP9012", "Ganesh R.", InTransit, "Solapur", "Pune", "5h")]
  ]

  const BiltiesByDO: map<string, seq<BiltyRecord>> := map[
    "DO-2026-001" := [
      BiltyRecord("4521", "Pune", "Mumbai", "MH12AB1234", "17 Feb 2026", DigitalBilty.InTransit),
      BiltyRecord("4520", "Pune", "Delhi", "MH14CD5678", "16 Feb 2026", DigitalBilty.Pending)],
    "DO-2026-002" := [
      BiltyRecord("4518", "Mumbai", "Surat", "MH20GH3456", "17 Feb 2026", DigitalBilty.InTransit)],
    "DO-2026-003" := [
      BiltyRecord("4517", "Nashik", "Mumbai", "MH15MN5678", "16 Feb 2026", DigitalBilty.InTransit)],
    "DO-2026-004" := [
      BiltyRecord("4516", "Solapur", "Pune", "MH11OP9012", "17 Feb 2026", DigitalBilty.Pending)]
  ]

  /** A stock card stays when the lower-cased query occurs in its lower-cased DO number or stock name. */
  predicate Matches(s: Stock, query: string) {
    Contains(Lower(s.doNumber), Lower(query)) || Contains(Lower(s.stock), Lower(query))
  }

  /** `a` is `b` with some elements dropped, the rest in their order. */
  ghost predicate IsSubsequence<T>(a: seq<T>, b: seq<T>) {
    if b == [] then a == []
    else (a != [] && a[0] == b[0] && IsSubsequence(a[1..], b[1..])) || IsSubsequence(a, b[1..])
  }

  /** `filteredStocks` */
  function FilterStocks(stocks: seq<Stock>, query: string): (r: seq<Stock>)
    ensures forall s :: s in r <==> s in stocks && Matches(s, query)
    ensures IsSubsequence(r, stocks)
    ensures forall s :: multiset(r)[s] == if Matches(s, query) then multiset(stocks)[s] else 0
  {
    if stocks == [] then []
    else
      assert stocks == [stocks[0]] + stocks[1..];
      if Matches(stocks[0], query) then [stocks[0]] + FilterStocks(stocks[1..], query)
      else FilterStocks(stocks[1..], query)
  }

  lemma {:induction false} SubsequenceRefl<T>(a: seq<T>)
    ensures IsSubsequence(a, a)
  {
    if a != [] {
      SubsequenceRefl(a[1..]);
    }
  }

  /** The empty query keeps every card, in order. */
  lemma {:induction false} EmptyQueryKeepsAll(stocks: seq<Stock>)
    ensures FilterStocks(stocks, "") == stocks
  {
    if stocks != [] {
      assert Matches(stocks[0], "");
      EmptyQueryKeepsAll(stocks[1..]);
    }
  }

  /** The filter sees the query only through its lower-cased form. */
  lemma {:induction false} QueryCaseIrrelevant(stocks: seq<Stock>, q1: string, q2: string)
    requires Lower(q1) == Lower(q2)
    ensures FilterStocks(stocks, q1) == FilterStocks(stocks, q2)
  {
    if stocks != [] {
      QueryCaseIrrelevant(stocks[1..], q1, q2);
    }
  }

  lemma MatchesNarrow(s: Stock, q1: string, q2: string)
    requires Contains(q2, q1) && Matches(s, q2)
    ensures Matches(s, q1)
  {
    LowerKeepsContains(q2, q1);
    if Contains(Lower(s.doNumber), Lower(q2)) {
      ContainsTransitive(Lower(s.doNumber), Lower(q2), Lower(q1));
    } else {
      ContainsTransitive(Lower(s.stock), Lower(q2), Lower(q1));
    }
  }

  /** Typing more (the new query contains the old one) only drops cards. */
  lemma {:induction false} ExtendingQueryNarrows(stocks: seq<Stock>, q1: string, q2: string)
    requires Contains(q2, q1)
    ensures IsSubsequence(FilterStocks(stocks, q2), FilterStocks(stocks, q1))
  {
    if stocks == [] {
    } else {
      var s := stocks[0];
      var a, b := FilterStocks(stocks[1..], q2), FilterStocks(stocks[1..], q1);
      ExtendingQueryNarrows(stocks[1..], q1, q2);
      if Matches(s, q2) {
        MatchesNarrow(s, q1, q2);
        assert ([s] + a)[1..] == a && ([s] + b)[1..] == b;
      } else if Matches(s, q1) {
        assert ([s] + b)[1..] == b;
      }
    }
  }

  /** `setSelectedDO(isSelected ? null : stock.doNumber)` */
  function SelectionAfterClick(selected: Option<string>, doNumber: string): (r: Option<string>)
    ensures r == None <==> selected == Some(doNumber)
    ensures r != None ==> r == Some(doNumber)
  {
    if selected == Some(doNumber) then None else Some(doNumber)
  }

  /** `selectedDO ? mockTrucksByDO[selectedDO] || [] : []` */
  function SelectedTrucks(selected: Option<string>): (ts: seq<Truck>)
    ensures selected == None || selected == Some("") ==> ts == []
    ensures selected.Some? && selected.value !in TrucksByDO ==> ts == []
    ensures selected.Some? && selected.value in TrucksByDO ==> ts == TrucksByDO[selected.value]
  {
    if selected.Some? && selected.value != "" then
      (if selected.value in TrucksByDO then TrucksByDO[selected.value] else [])
    else []
  }

  /** `selectedDO ? biltyByDO[selectedDO] || [] : []` */
  function SelectedBilties(selected: Option<string>): (bs: seq<BiltyRecord>)
    ensures selected == None || selected == Some("") ==> bs == []
    ensures selected.Some? && selected.value !in BiltiesByDO ==> bs == []
    ensures selected.Some? && selected.value in BiltiesByDO ==> bs == BiltiesByDO[selected.value]
  {
    if selected.Some? && selected.value != "" then
      (if selected.value in BiltiesByDO then BiltiesByDO[selected.value] else [])
    else []
  }

  /** Every card can be selected with a non-empty list of trucks and of bilties behind it. */
  lemma EveryStockHasShipments(s: Stock)
    requires s in MockStocks
    ensures |SelectedTrucks(Some(s.doNumber))| > 0 && |SelectedBilties(Some(s.doNumber))| > 0
  {
  }

  /** Each bilty of a DO names one of the trucks listed for it. */
  lemma BiltiesNameListedTrucks(doNumber: string, b: BiltyRecord)
    requires b in SelectedBilties(Some(doNumber))
    ensures exists t :: t in SelectedTrucks(Some(doNumber)) && t.number == b.truckNumber
  {
    var ts := SelectedTrucks(Some(doNumber));
    if b.truckNumber == "MH12AB1234" { assert ts[0].number == b.truckNumber; }
    else if b.truckNumber == "MH14CD5678" { assert ts[1].number == b.truckNumber; }
    else if b.truckNumber == "MH20GH3456" { assert ts[0].number == b.truckNumber; }
    else if b.truckNumber == "MH15MN5678" { assert ts[1].number == b.truckNumber; }
    else { assert ts[0].number == b.truckNumber; }
  }

  /** `statusBadge[truck.status]` and the status text of a truck row. */
  function TruckBadge(s: TruckStatus): (t: Tag)
    ensures t.tone == AdminAccent <==> s == InTransit
    ensures t.tone == Warning <==> s == Loading
    ensures t.tone == Success <==> s == Delivered
    ensures s == InTransit ==> t.text == "In Transit"
    ensures s == Loading ==> t.text == "Loading"
    ensures s == Delivered ==> t.text == "Delivered"
  {
    match s
    case InTransit => Tag("In Transit", AdminAccent)
    case Loading => Tag("Loading", Warning)
    case Delivered => Tag("Delivered", Success)
  }

  /** The two pieces of state of the supplier page. */
  class PortalState {
    var selectedDO: Option<string>
    var searchQuery: string

    constructor ()
      ensures selectedDO == None && searchQuery == ""
    {
      selectedDO := None;
      searchQuery := "";
    }

    /** The cards on screen. */
    function ShownStocks(): seq<Stock>
      reads this
    {
      FilterStocks(MockStocks, searchQuery)
    }

    /** The search box; the selection is kept even when its card is filtered away. */
    method SetSearchQuery(q: string)
      modifies this
      ensures searchQuery == q && selectedDO == old(selectedDO)
    {
      searchQuery := q;
    }

    /** A click on a stock card. */
    method ClickStock(doNumber: string)
      modifies this
      ensures selectedDO == SelectionAfterClick(old(selectedDO), doNumber)
      ensures searchQuery == old(searchQuery)
    {
      selectedDO := if selectedDO == Some(doNumber) then None else Some(doNumber);
    }

    /** The trucks and bilties shown under the cards. */
    method Details() returns (trucks: seq<Truck>, bilties: seq<BiltyRecord>)
      ensures trucks == SelectedTrucks(selectedDO) && bilties == SelectedBilties(selectedDO)
    {
      trucks := SelectedTrucks(selectedDO);
      bilties := SelectedBilties(selectedDO);
    }
  }

  /** On a fresh page every card shows and no details do; clicking a card twice hides its details again. */
  method ClickSameCardTwice(doNumber: string) returns (shownBefore: seq<Truck>, shownBetween: seq<Truck>, shownAfter: seq<Truck>)
    ensures shownBefore == [] && shownAfter == []
    ensures shownBetween == SelectedTrucks(Some(doNumber))
  {
    var p := new PortalState();
    EmptyQueryKeepsAll(MockStocks);
    assert p.ShownStocks() == MockStocks;
    var b;
    shownBefore, b := p.Details();
    p.ClickStock(doNumber);
    shownBetween, b := p.Details();
    p.ClickStock(doNumber);
    shownAfter, b := p.Details();
  }
}
