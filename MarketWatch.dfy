/** The market panel. The farmer types a crop name, or clicks one of the
    popular crops, and the panel asks the model for a web-grounded market
    summary, which it shows with links to the cited sources. */
module MarketWatch {
  import opened Types
  import opened JsText
  import opened ErrorAlert
  import GeminiService

  const InitialCrop := "Wheat"
  const BlankCropError := "Please enter a crop name."
  const PopularCrops := ["Corn", "Soybeans", "Rice", "Potatoes", "Tomatoes", "Cotton"]

  /** `source.web.title || source.web.uri`: the title, unless it is empty. */
  function SourceLabel(s: MarketSource): (caption: string)
    ensures s.web.title != "" ==> caption == s.web.title
    ensures s.web.title == "" ==> caption == s.web.uri
    ensures caption == "" <==> s.web.title == "" && s.web.uri == ""
  {
    if s.web.title != "" then s.web.title else s.web.uri
  }

  /** A rendered source: where it points and what it reads. */
  datatype Link = Link(href: string, text: string)

  /** Under the summary: links to the sources, or the "no web sources"
      message. */
  datatype SourcesView = NoSources | Links(links: seq<Link>)

  /** One link per source, in stored order, pointing at the source's URI. */
  function LinksOf(sources: seq<MarketSource>): (links: seq<Link>)
    ensures |links| == |sources|
    ensures forall i :: 0 <= i < |sources| ==>
      links[i] == Link(sources[i].web.uri, SourceLabel(sources[i]))
  {
    if sources == [] then []
    else [Link(sources[0].web.uri, SourceLabel(sources[0]))] + LinksOf(sources[1..])
  }

  /** The "no web sources" message is shown exactly when there are no
      sources; otherwise every source is listed, in order. */
  function SourcesViewOf(sources: seq<MarketSource>): (v: SourcesView)
    ensures v.NoSources? <==> sources == []
    ensures v.Links? ==> v.links == LinksOf(sources)
  {
    if |sources| > 0 then Links(LinksOf(sources)) else NoSources
  }

  /** Every popular crop name passes the blank-input guard. */
  lemma PopularCropsAreNotBlank(crop: string)
    requires crop in PopularCrops
    ensures !IsBlank(crop)
  {
  }

  /** The initial crop name passes the blank-input guard. A fact about one
      literal, kept as a lemma so that StaleTrendWithError verifies cheaply. */
  lemma InitialCropIsNotBlank()
    ensures !IsBlank(InitialCrop)
  {
    assert !IsWhitespace(InitialCrop[0]);
  }

  /** Two spaces are blank. A fact about one literal, kept as a lemma so that
      StaleTrendWithError verifies cheaply. */
  lemma SpacesAreBlank()
    ensures IsBlank("  ")
  {
    assert IsWhitespace("  "[0]) && IsWhitespace("  "[1]);
  }

  /** A failed service call always ends in a visible alert with the fixed
      market failure text. */
  lemma ServiceFailureIsShown()
    ensures
      var o := GeminiService.GetMarketTrend(GeminiService.Raised);
      o.Failure? && Banner(Some(CaughtMessage(o.thrown))) == Some(GeminiService.MarketFailed)
  {
  }

  class Panel {
    var cropName: string
    var loading: bool
    var result: Option<MarketTrend>
    var error: Option<string>

    /** While a request is pending neither a trend nor an error is stored.
        (Unlike the diagnosis panel, a trend and an error can be stored
        together: see StaleTrendWithError.) */
    ghost predicate Valid()
      reads this
    {
      loading ==> result.None? && error.None?
    }

    constructor ()
      ensures Valid()
      ensures cropName == InitialCrop && !loading && result == None && error == None
    {
      cropName := InitialCrop;
      loading := false;
      result := None;
      error := None;
    }

    /** The text box's change handler. */
    method SetCropName(name: string)
      modifies this
      ensures cropName == name
      ensures loading == old(loading) && result == old(result) && error == old(error)
    {
      cropName := name;
    }

    /** The Analyze button is disabled only while a request is pending; a
        blank name does not disable it, the handler's guard catches that. */
    function SubmitEnabled(): (b: bool)
      reads this
      ensures b <==> loading == false
      ensures Valid() && !b ==> result == None && error == None
    {
      !loading
    }

    /** `handleAnalyze(crop)` up to its `await`. A blank name sets only the
        error and issues no request; otherwise the untrimmed name goes out,
        with the panel loading and trend and error cleared. */
    method BeginAnalysis(crop: string) returns (request: Option<string>)
      requires Valid() && !loading
      modifies this
      ensures Valid()
      ensures cropName == old(cropName)
      ensures IsBlank(crop) ==>
        request == None && error == Some(BlankCropError)
        && loading == old(loading) && result == old(result)
      ensures !IsBlank(crop) ==>
        request == Some(crop) && loading && error == None && result == None
    {
      if IsBlank(crop) {
        error := Some(BlankCropError);
        request := None;
        return;
      }
      loading := true;
      error := None;
      result := None;
      request := Some(crop);
    }

    /** `handleAnalyze` after its `await`: the trend on success; on failure
        the caught message and no trend; loading is over either way. */
    method SettleAnalysis(outcome: Outcome<MarketTrend>)
      requires Valid() && loading
      modifies this
      ensures Valid()
      ensures cropName == old(cropName) && !loading
      ensures outcome.Success? ==> result == Some(outcome.value) && error == None
      ensures outcome.Failure? ==> result == None && error == Some(CaughtMessage(outcome.thrown))
    {
      match outcome {
        case Success(trend) =>
          result := Some(trend);
        case Failure(e) =>
          error := Some(CaughtMessage(e));
      }
      loading := false;
    }

    /** A whole `handleAnalyze(crop)`, started while no request is pending,
        with `outcome` as what the service returns. */
    method Analyze(crop: string, outcome: Outcome<MarketTrend>) returns (request: Option<string>)
      requires Valid() && !loading
      modifies this
      ensures Valid() && !loading
      ensures cropName == old(cropName)
      ensures request.Some? <==> !IsBlank(crop)
      ensures request.Some? ==> request.value == crop
      ensures request.None? ==> error == Some(BlankCropError) && result == old(result)
      ensures request.Some? && outcome.Success? ==> result == Some(outcome.value) && error == None
      ensures request.Some? && outcome.Failure? ==>
        result == None && error == Some(CaughtMessage(outcome.thrown))
    {
      request := BeginAnalysis(crop);
      if request.Some? {
        SettleAnalysis(outcome);
      }
    }

    /** `handleSubmit`, reachable only through the enabled Analyze button:
        analyse the text box's current content as typed. */
    method Submit(outcome: Outcome<MarketTrend>) returns (request: Option<string>)
      requires Valid() && SubmitEnabled()
      modifies this
      ensures Valid() && !loading
      ensures cropName == old(cropName)
      ensures request.Some? <==> !IsBlank(old(cropName))
      ensures request.Some? ==> request.value == old(cropName)
      ensures request.None? ==> error == Some(BlankCropError) && result == old(result)
      ensures request.Some? && outcome.Success? ==> result == Some(outcome.value) && error == None
      ensures request.Some? && outcome.Failure? ==>
        result == None && error == Some(CaughtMessage(outcome.thrown))
    {
      request := Analyze(cropName, outcome);
    }

    /** A click on a popular crop: the text box takes that name and that same
        name is analysed, so a request always goes out. */
    method PickPopular(crop: string, outcome: Outcome<MarketTrend>) returns (request: Option<string>)
      requires crop in PopularCrops
      requires Valid() && !loading
      modifies this
      ensures Valid() && !loading
      ensures cropName == crop && request == Some(crop)
      ensures outcome.Success? ==> result == Some(outcome.value) && error == None
      ensures outcome.Failure? ==> result == None && error == Some(CaughtMessage(outcome.thrown))
    {
      PopularCropsAreNotBlank(crop);
      cropName := crop;
      request := Analyze(crop, outcome);
    }

    /** What is shown under "Sources" when a trend is stored. */
    function ShownSources(): (v: Option<SourcesView>)
      reads this
      ensures v.Some? <==> result.Some?
      ensures v.Some? ==> v.value == SourcesViewOf(result.value.sources)
    {
      match result
      case Some(t) => Some(SourcesViewOf(t.sources))
      case None => None
    }
  }

  /** Submitting a blank name after a successful analysis leaves the old
      trend's sources on display beside the blank-name alert. */
  method StaleTrendWithError(trend: MarketTrend) returns (shownSources: Option<SourcesView>, shownAlert: Option<string>)
    ensures shownSources == Some(SourcesViewOf(trend.sources))
    ensures shownAlert == Some(BlankCropError)
  {
    var panel := new Panel();
    InitialCropIsNotBlank();
    var first := panel.Submit(Success(trend));
    panel.SetCropName("  ");
    SpacesAreBlank();
    var second := panel.Submit(Success(trend));
    shownSources, shownAlert := panel.ShownSources(), Banner(panel.error);
  }
}
