/** The `Home` page: its four pieces of state, the submit handler that drives
    them, and what the page shows for a given state. */
module HomePage {
  import opened PlantingApi

  datatype Option<T> = None | Some(value: T)

  const LoadingLabel: string := "Loading..."
  const IdleLabel: string := "Get Planting Info"

  /** The submit button as rendered. */
  datatype Button = Button(disabled: bool, text: string)

  /** The results panel: the planting window and the crops, one list item each. */
  datatype ResultsPanel = ResultsPanel(optimalTime: string, items: seq<string>)

  /** What the page shows below its fixed header and inputs. */
  datatype View = View(button: Button, panel: Option<ResultsPanel>)

  /** The submit button: disabled, and labelled "Loading...", exactly while loading. */
  function SubmitButton(loading: bool): (b: Button)
    ensures b.disabled <==> loading
    ensures b.text == "Loading..." <==> loading
    ensures !loading ==> b.text == "Get Planting Info"
  {
    Button(loading, if loading then LoadingLabel else IdleLabel)
  }

  /** The results panel: present exactly when there are results, listing the
      planting window and every suggested crop in order. */
  function Panel(results: Option<PlantingData>): (p: Option<ResultsPanel>)
    ensures p.Some? <==> results.Some?
    ensures results.Some? ==>
      p.value.optimalTime == results.value.optimalTime && p.value.items == results.value.topCrops
  {
    match results
    case None => None
    case Some(data) => Some(ResultsPanel(data.optimalTime, data.topCrops))
  }

  /** The page for a loading flag and a result. */
  function Render(loading: bool, results: Option<PlantingData>): (v: View)
    ensures v.button.disabled <==> loading
    ensures v.button.text == "Loading..." <==> loading
    ensures v.panel.Some? <==> results.Some?
    ensures results.Some? ==> v.panel.value.items == results.value.topCrops
  {
    View(SubmitButton(loading), Panel(results))
  }

  /** The button depends on the loading flag alone, the panel on the results alone. */
  lemma RenderSeparates(loading1: bool, results1: Option<PlantingData>,
                        loading2: bool, results2: Option<PlantingData>)
    ensures loading1 == loading2 ==> Render(loading1, results1).button == Render(loading2, results2).button
    ensures results1 == results2 ==> Render(loading1, results1).panel == Render(loading2, results2).panel
  {
  }

  /** Once a lookup has been stored, the panel lists the whole answer: for a crop
      outside the defaults, four items under the "Top 3" heading. */
  lemma PanelAfterLookup(loading: bool, zipCode: string, crop: string)
    ensures var p := Render(loading, Some(PlantingInfo(zipCode, crop))).panel;
      p == Some(ResultsPanel("Mid-April to Early-May",
                             if IsDefaultCrop(crop) then DefaultCrops else [crop] + DefaultCrops))
  {
    TopCropsExact(zipCode, crop);
  }

  /** The page's state, one field per state cell of the component. */
  class Home {
    var zipCode: string
    var crop: string
    var results: Option<PlantingData>
    var loading: bool

    /** The initial render: empty inputs, no results, not loading. */
    constructor ()
      ensures zipCode == "" && crop == "" && results == None && !loading
    {
      zipCode := "";
      crop := "";
      results := None;
      loading := false;
    }

    /** What the page currently shows. */
    function Shown(): View
      reads this
    {
      Render(loading, results)
    }

    /** The zip code input's change handler: the value is stored verbatim. */
    method SetZipCode(value: string)
      modifies this
      ensures zipCode == value
      ensures crop == old(crop) && results == old(results) && loading == old(loading)
    {
      zipCode := value;
    }

    /** The crop selector's change handler. */
    method SetCrop(value: string)
      modifies this
      ensures crop == value
      ensures zipCode == old(zipCode) && results == old(results) && loading == old(loading)
    {
      crop := value;
    }

    /** Start of submit: the loading flag goes up, the old results stay shown. */
    method BeginSubmit()
      modifies this
      ensures loading
      ensures zipCode == old(zipCode) && crop == old(crop) && results == old(results)
      ensures Shown().button == Button(true, "Loading...")
    {
      loading := true;
    }

    /** The lookup resolved: its record replaces the old results as a whole,
        then the `finally` clears the loading flag. */
    method Complete(data: PlantingData)
      modifies this
      ensures results == Some(data) && !loading
      ensures zipCode == old(zipCode) && crop == old(crop)
    {
      results := Some(data);
      loading := false;
    }

    /** The lookup rejected: the error is only logged, the old results stay,
        and the `finally` clears the loading flag. */
    method Fail()
      modifies this
      ensures results == old(results) && !loading
      ensures zipCode == old(zipCode) && crop == old(crop)
    {
      loading := false;
    }

    /** The form's submit handler. The lookup never rejects as written;
        `fetchRejects` stands for a rejection reaching the `catch`. */
    method HandleSubmit(fetchRejects: bool)
      modifies this
      ensures !loading
      ensures Shown().button == Button(false, "Get Planting Info")
      ensures zipCode == old(zipCode) && crop == old(crop)
      ensures fetchRejects ==> results == old(results)
      ensures !fetchRejects ==> results == Some(PlantingInfo(old(zipCode), old(crop)))
      ensures !fetchRejects ==> results.value.optimalTime == "Mid-April to Early-May"
      ensures !fetchRejects ==> DistinctCrops(results.value.topCrops)
    {
      BeginSubmit();
      if fetchRejects {
        Fail();
      } else {
        var data := FetchPlantingInfo(zipCode, crop);
        NoDuplicateCrops(zipCode, crop);
        Complete(data);
      }
    }
  }
}
