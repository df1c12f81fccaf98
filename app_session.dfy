/**
 * The state App.tsx keeps between events (the parsed sheets, the selected
 * tab and the weight store) and the handlers that change it, each one
 * atomic state transition.
 */
module AppSession {
  import opened Types
  import opened Cells
  import opened ExcelParser
  import opened Weights

  class Session {
    var sheets: seq<SheetData>
    var activeTab: nat
    var weights: MemberWeight

    /** The selected tab names an existing sheet whenever there is one. */
    ghost predicate Valid()
      reads this
    {
      |sheets| > 0 ==> activeTab < |sheets|
    }

    /** The initial state: no sheets, the first tab, an empty store. */
    constructor ()
      ensures Valid()
      ensures sheets == [] && activeTab == 0 && weights == map[]
    {
      sheets := [];
      activeTab := 0;
      weights := map[];
    }

    /** `activeGroups`: the selected sheet's groups, none without sheets. */
    function ActiveGroups(): seq<ClanGroup>
      reads this
      requires Valid()
    {
      if |sheets| > 0 then sheets[activeTab].groups else []
    }

    /** `handleFileUpload`: on success the parsed sheets replace the old ones,
      * the first tab is selected and the imported weights are merged in;
      * on failure nothing changes and `false` reports the alert. */
    method Upload(book: Workbook, host: Host) returns (ok: bool)
      requires Valid()
      modifies this
      ensures Valid()
      ensures ok <==> Parse(book, host).Ok?
      ensures ok ==> && sheets == Parse(book, host).value.sheets
                     && activeTab == 0
                     && weights == Merge(old(weights), Parse(book, host).value.importedWeights)
      ensures ok ==> ActiveGroups() == (if sheets == [] then [] else sheets[0].groups)
      ensures !ok ==> sheets == old(sheets) && activeTab == old(activeTab) && weights == old(weights)
    {
      var result := ParseWorkbook(book, host);
      if result.Err? {
        return false;
      }
      var parsed := result.value;
      sheets := parsed.sheets;
      activeTab := 0;
      if |parsed.importedWeights| > 0 {
        weights := Merge(weights, parsed.importedWeights);
      } else {
        assert parsed.importedWeights == map[];
        MergeNothing(weights);
      }
      ok := true;
    }

    /** The clear button: the sheets go, the tab index and the store stay. */
    method Clear()
      requires Valid()
      modifies this
      ensures Valid()
      ensures sheets == [] && activeTab == old(activeTab) && weights == old(weights)
      ensures ActiveGroups() == []
    {
      sheets := [];
    }

    /** A tab button: selects one of the listed sheets. */
    method SelectTab(index: nat)
      requires Valid() && index < |sheets|
      modifies this
      ensures Valid()
      ensures activeTab == index && sheets == old(sheets) && weights == old(weights)
      ensures ActiveGroups() == sheets[index].groups
    {
      activeTab := index;
    }

    /** `handleWeightSave`: one member's weight set, the rest untouched. */
    method SaveWeight(name: string, weight: real)
      requires Valid()
      modifies this
      ensures Valid()
      ensures weights == SetWeight(old(weights), name, weight)
      ensures sheets == old(sheets) && activeTab == old(activeTab)
    {
      weights := SetWeight(weights, name, weight);
    }
  }
}
