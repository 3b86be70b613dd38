/**
 * The fund comparison page: a fixed catalogue of funds, a case-insensitive
 * search over names and symbols, a selection of at most four funds with
 * distinct symbols, and the lowest/best summaries over the selection.
 */
module FundComparison {
  import opened Wrappers
  import opened Seqs
  import opened Strings

  /** Trailing returns in percent over one, three, five and ten years. */
  datatype Returns = Returns(y1: real, y3: real, y5: real, y10: real)

  datatype Fund = Fund(
    symbol: string,
    name: string,
    kind: string,
    expenseRatio: real,
    minimumInvestment: real,
    trailingReturns: Returns,
    description: string)

  const VTSAX := Fund("VTSAX", "Vanguard Total Stock Market Index Fund Admiral Shares", "Stock Index Fund",
                      0.03, 3000.0, Returns(10.5, 7.2, 9.1, 11.3),
                      "Seeks to track the performance of the CRSP US Total Market Index.")
  const VTIAX := Fund("VTIAX", "Vanguard Total International Stock Index Fund Admiral Shares",
                      "International Stock Index Fund", 0.11, 3000.0, Returns(6.8, 4.1, 5.9, 7.4),
                      "Seeks to track the performance of the FTSE Global All Cap ex US Index.")
  const VBTLX := Fund("VBTLX", "Vanguard Total Bond Market Index Fund Admiral Shares", "Bond Index Fund",
                      0.05, 3000.0, Returns(-1.2, -2.8, 1.1, 2.4),
                      "Seeks to track the performance of the Bloomberg US Aggregate Float Adjusted Index.")
  const FXNAX := Fund("FXNAX", "Fidelity U.S. Bond Index Fund", "Bond Index Fund",
                      0.025, 0.0, Returns(-0.9, -2.5, 1.3, 2.6),
                      "Seeks to provide investment results that correspond to the total return of the Bloomberg US Aggregate Bond Index.")
  const FZROX := Fund("FZROX", "Fidelity ZERO Total Market Index Fund", "Stock Index Fund",
                      0.0, 0.0, Returns(10.8, 7.5, 9.3, 11.1),
                      "Seeks to provide investment results that correspond to the total return of the Fidelity U.S. Total Investable Market Index.")
  const SPY := Fund("SPY", "SPDR S&P 500 ETF Trust", "Stock ETF",
                    0.095, 0.0, Returns(11.2, 8.1, 10.4, 12.9),
                    "Seeks to provide investment results that correspond to the price and yield performance of the S&P 500 Index.")

  /** The catalogue the page searches. */
  const MockFunds: seq<Fund> := [VTSAX, VTIAX, VBTLX, FXNAX, FZROX, SPY]

  /** The most funds the comparison holds. */
  const MaxSelected := 4

  // ---------------------------------------------------------------------
  // Search
  // ---------------------------------------------------------------------

  /** Whether an already lowercased term occurs in the lowercased name or symbol. */
  predicate HasNeedle(f: Fund, needle: string)
  {
    Includes(Lower(f.name), needle) || Includes(Lower(f.symbol), needle)
  }

  /** The search test: the lowercased term in the lowercased name or symbol. */
  predicate Matches(f: Fund, searchTerm: string)
  {
    HasNeedle(f, Lower(searchTerm))
  }

  /** `filteredFunds`: the funds that match, in catalogue order. */
  function FilteredFunds(funds: seq<Fund>, searchTerm: string): (r: seq<Fund>)
    ensures forall f :: f in r <==> f in funds && Matches(f, searchTerm)
  {
    var needle := Lower(searchTerm);
    FilterMembershipAll(funds, (f: Fund) => HasNeedle(f, needle));
    Filter(funds, (f: Fund) => HasNeedle(f, needle))
  }

  /** The filter keeps catalogue order: filtering distributes over concatenation. */
  lemma FilteredFundsKeepsOrder(a: seq<Fund>, b: seq<Fund>, searchTerm: string)
    ensures FilteredFunds(a + b, searchTerm) == FilteredFunds(a, searchTerm) + FilteredFunds(b, searchTerm)
  {
    var needle := Lower(searchTerm);
    FilterAppend(a, b, (f: Fund) => HasNeedle(f, needle));
  }

  /** A fund passes exactly when the term occurs in its lowercased name or symbol. */
  lemma FilterIsSubstringSearch(funds: seq<Fund>, searchTerm: string, f: Fund)
    requires f in funds
    ensures (f in FilteredFunds(funds, searchTerm)
             <==> (exists i :: OccursAt(Lower(f.name), Lower(searchTerm), i))
                  || (exists i :: OccursAt(Lower(f.symbol), Lower(searchTerm), i)))
  {
    IncludesIff(Lower(f.name), Lower(searchTerm));
    IncludesIff(Lower(f.symbol), Lower(searchTerm));
  }

  /** The empty search shows the whole catalogue. */
  lemma EmptySearchKeepsAll(funds: seq<Fund>)
    ensures FilteredFunds(funds, "") == funds
  {
    forall i | 0 <= i < |funds|
      ensures Matches(funds[i], "")
    {
      IncludesEmpty(Lower(funds[i].name));
    }
    FilterAll(funds, (f: Fund) => HasNeedle(f, Lower("")));
  }

  /** The search ignores the case of ASCII letters in the term. */
  lemma SearchIgnoresCase(funds: seq<Fund>, a: string, b: string)
    requires Lower(a) == Lower(b)
    ensures FilteredFunds(funds, a) == FilteredFunds(funds, b)
  {
  }

  // ---------------------------------------------------------------------
  // Selection
  // ---------------------------------------------------------------------

  /** `selectedFunds.find(f => f.symbol === symbol)`: the first fund with the symbol. */
  function FindBySymbol(funds: seq<Fund>, symbol: string): (r: Option<Fund>)
    ensures r.None? <==> forall i :: 0 <= i < |funds| ==> funds[i].symbol != symbol
    ensures r.Some? ==> r.value in funds && r.value.symbol == symbol
  {
    if funds == [] then None
    else if funds[0].symbol == symbol then Some(funds[0])
    else FindBySymbol(funds[1..], symbol)
  }

  /** No two selected funds share a symbol. */
  predicate UniqueSymbols(funds: seq<Fund>)
  {
    forall i, j :: 0 <= i < j < |funds| ==> funds[i].symbol != funds[j].symbol
  }

  /** `addFund`: append when fewer than four are selected and the symbol is new. */
  function AddFundTo(selected: seq<Fund>, fund: Fund): (r: seq<Fund>)
    ensures var allowed := |selected| < MaxSelected
                           && forall i :: 0 <= i < |selected| ==> selected[i].symbol != fund.symbol;
            (allowed ==> r == selected + [fund]) && (!allowed ==> r == selected)
  {
    if |selected| < MaxSelected && FindBySymbol(selected, fund.symbol).None? then selected + [fund] else selected
  }

  /** Adding keeps the selection within four funds with distinct symbols. */
  lemma AddFundKeepsSelectionValid(selected: seq<Fund>, fund: Fund)
    requires |selected| <= MaxSelected && UniqueSymbols(selected)
    ensures |AddFundTo(selected, fund)| <= MaxSelected && UniqueSymbols(AddFundTo(selected, fund))
  {
  }

  /** `removeFund`: drop the funds with the symbol, keep the rest in order. */
  function RemoveFundFrom(selected: seq<Fund>, symbol: string): (r: seq<Fund>)
    ensures |r| <= |selected|
    ensures forall f :: f in r <==> f in selected && f.symbol != symbol
  {
    FilterMembershipAll(selected, (f: Fund) => f.symbol != symbol);
    Filter(selected, (f: Fund) => f.symbol != symbol)
  }

  /** Removal distributes over concatenation, so the remaining funds keep their order. */
  lemma RemoveFundKeepsOrder(a: seq<Fund>, b: seq<Fund>, symbol: string)
    ensures RemoveFundFrom(a + b, symbol) == RemoveFundFrom(a, symbol) + RemoveFundFrom(b, symbol)
  {
    FilterAppend(a, b, (f: Fund) => f.symbol != symbol);
  }

  /** Removing keeps the symbols distinct. */
  lemma {:induction false} RemoveFundKeepsUnique(selected: seq<Fund>, symbol: string)
    requires UniqueSymbols(selected)
    ensures UniqueSymbols(RemoveFundFrom(selected, symbol))
  {
    if selected != [] {
      var rest := selected[1..];
      assert UniqueSymbols(rest);
      RemoveFundKeepsUnique(rest, symbol);
      assert selected == [selected[0]] + rest;
      RemoveFundKeepsOrder([selected[0]], rest, symbol);
      var tail := RemoveFundFrom(rest, symbol);
      forall j | 0 <= j < |tail|
        ensures tail[j].symbol != selected[0].symbol
      {
        assert tail[j] in rest;
      }
    }
  }

  /** Removing the symbol just added gives back the selection before the addition. */
  lemma AddThenRemove(selected: seq<Fund>, fund: Fund)
    requires forall i :: 0 <= i < |selected| ==> selected[i].symbol != fund.symbol
    ensures RemoveFundFrom(AddFundTo(selected, fund), fund.symbol) == selected
  {
    RemoveFundKeepsOrder(selected, [fund], fund.symbol);
    FilterAll(selected, (f: Fund) => f.symbol != fund.symbol);
  }

  /** The page state: the search term and the selection. */
  class FundSelection {
    var searchTerm: string
    var selectedFunds: seq<Fund>

    ghost predicate Valid()
      reads this
    {
      |selectedFunds| <= MaxSelected && UniqueSymbols(selectedFunds)
    }

    constructor ()
      ensures Valid() && searchTerm == "" && selectedFunds == []
    {
      searchTerm := "";
      selectedFunds := [];
    }

    method SetSearchTerm(term: string)
      modifies this
      ensures searchTerm == term && selectedFunds == old(selectedFunds)
    {
      searchTerm := term;
    }

    /** The catalogue entries shown for the current term. */
    function Shown(): (r: seq<Fund>)
      reads this
      ensures forall f :: f in r <==> f in MockFunds && Matches(f, searchTerm)
    {
      FilteredFunds(MockFunds, searchTerm)
    }

    method AddFund(fund: Fund)
      requires Valid()
      modifies this
      ensures Valid()
      ensures selectedFunds == AddFundTo(old(selectedFunds), fund) && searchTerm == old(searchTerm)
    {
      AddFundKeepsSelectionValid(selectedFunds, fund);
      selectedFunds := AddFundTo(selectedFunds, fund);
    }

    method RemoveFund(symbol: string)
      requires Valid()
      modifies this
      ensures Valid()
      ensures selectedFunds == RemoveFundFrom(old(selectedFunds), symbol) && searchTerm == old(searchTerm)
    {
      RemoveFundKeepsUnique(selectedFunds, symbol);
      selectedFunds := RemoveFundFrom(selectedFunds, symbol);
    }
  }

  // ---------------------------------------------------------------------
  // Summaries
  // ---------------------------------------------------------------------

  /**
   * `reduce` keeping the running fund unless the next one is strictly lower:
   * the index of the first fund with the least key.
   */
  function LowestIndex(funds: seq<Fund>, key: Fund -> real): (i: nat)
    requires |funds| > 0
    ensures i < |funds|
    ensures forall j :: 0 <= j < |funds| ==> key(funds[i]) <= key(funds[j])
    ensures forall j :: 0 <= j < i ==> key(funds[j]) > key(funds[i])
  {
    if |funds| == 1 then 0
    else
      var acc := LowestIndex(funds[..|funds| - 1], key);
      assert funds[acc] == funds[..|funds| - 1][acc];
      if key(funds[|funds| - 1]) < key(funds[acc]) then |funds| - 1 else acc
  }

  /** `reduce` keeping the running fund unless the next one is strictly higher. */
  function BestIndex(funds: seq<Fund>, key: Fund -> real): (i: nat)
    requires |funds| > 0
    ensures i < |funds|
    ensures forall j :: 0 <= j < |funds| ==> key(funds[i]) >= key(funds[j])
    ensures forall j :: 0 <= j < i ==> key(funds[j]) < key(funds[i])
  {
    if |funds| == 1 then 0
    else
      var acc := BestIndex(funds[..|funds| - 1], key);
      assert funds[acc] == funds[..|funds| - 1][acc];
      if key(funds[|funds| - 1]) > key(funds[acc]) then |funds| - 1 else acc
  }

  /** The four summary cards shown when more than one fund is selected. */
  datatype Analysis = Analysis(lowestExpense: Fund, best1Y: Fund, best5Y: Fund, lowestMinimum: Fund)

  function AnalysisOf(selected: seq<Fund>): (a: Analysis)
    requires |selected| > 0
    ensures a.lowestExpense in selected && a.best1Y in selected && a.best5Y in selected && a.lowestMinimum in selected
    ensures forall f :: f in selected ==>
              && a.lowestExpense.expenseRatio <= f.expenseRatio
              && a.best1Y.trailingReturns.y1 >= f.trailingReturns.y1
              && a.best5Y.trailingReturns.y5 >= f.trailingReturns.y5
              && a.lowestMinimum.minimumInvestment <= f.minimumInvestment
  {
    Analysis(
      selected[LowestIndex(selected, (f: Fund) => f.expenseRatio)],
      selected[BestIndex(selected, (f: Fund) => f.trailingReturns.y1)],
      selected[BestIndex(selected, (f: Fund) => f.trailingReturns.y5)],
      selected[LowestIndex(selected, (f: Fund) => f.minimumInvestment)])
  }

  /** `getReturnColor`. */
  function ReturnColor(returnValue: real): (r: string)
    ensures r == "text-green-600" <==> returnValue > 0.0
    ensures r == "text-red-600" <==> returnValue < 0.0
    ensures r == "text-gray-600" <==> returnValue == 0.0
  {
    if returnValue > 0.0 then "text-green-600"
    else if returnValue < 0.0 then "text-red-600"
    else "text-gray-600"
  }

  /** In the catalogue, the cheapest fund is FZROX and the best one-year return is SPY's. */
  lemma CatalogueSummary()
    ensures AnalysisOf(MockFunds).lowestExpense == FZROX
    ensures AnalysisOf(MockFunds).best1Y == SPY
  {
  }
}
