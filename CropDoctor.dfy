/** The diagnosis panel. The farmer picks a photo, whose data URL yields the
    base64 payload and MIME type; the diagnose action sends them to the model
    and stores the report or the error. The report is then shown by pure
    display rules that depend on the health flag. */
module CropDoctor {
  import opened Types
  import opened JsText
  import opened ErrorAlert
  import GeminiService

  const NoImageError := "Please select an image first."
  const HealthyHeading := "Healthy Plant"

  /** A chosen file, reduced to what the panel reads from it: its MIME type
      and the data URL the file reader produces for it. */
  datatype SelectedFile = SelectedFile(mimeType: string, dataUrl: string)

  /** `{b64, mimeType}`; `b64` is missing (`undefined`) when the data URL
      has no comma. */
  datatype ImageData = ImageData(b64: Option<string>, mimeType: string)

  /** `dataUrl.split(',')[1]`: the text after the first comma, up to the next
      comma if there is one; missing when there is no comma at all. */
  function Base64Payload(dataUrl: string): (p: Option<string>)
    ensures p.Some? <==> ',' in dataUrl
    ensures p.Some? ==> ',' !in p.value
  {
    SplitManyIff(dataUrl, ',');
    var pieces := Split(dataUrl, ',');
    if |pieces| > 1 then Some(pieces[1]) else None
  }

  /** For a data URL `<header>,<payload>` whose two parts hold no comma, the
      payload comes out exactly. */
  lemma PayloadOfDataUrl(header: string, payload: string)
    requires ',' !in header && ',' !in payload
    ensures Base64Payload(header + [','] + payload) == Some(payload)
  {
    SplitJoin([header, payload], ',');
    assert Join([payload], ',') == payload;
  }

  /** Where the payload sits: right after the first comma (everything before
      it is comma-free), and it runs to the end of the URL or to the next
      comma. */
  lemma PayloadFollowsFirstComma(dataUrl: string)
    requires Base64Payload(dataUrl).Some?
    ensures var p := Base64Payload(dataUrl).value;
      var h := Split(dataUrl, ',')[0];
      ',' !in h && |h| + 1 + |p| <= |dataUrl|
      && dataUrl[..|h|] == h && dataUrl[|h|] == ','
      && dataUrl[|h| + 1..|h| + 1 + |p|] == p
      && (|h| + 1 + |p| == |dataUrl| || dataUrl[|h| + 1 + |p|] == ',')
  {
    var pieces := Split(dataUrl, ',');
    SplitManyIff(dataUrl, ',');
    JoinSplit(dataUrl, ',');
    var h, p := pieces[0], pieces[1];
    var rest := Join(pieces[1..], ',');
    assert dataUrl == h + [','] + rest;
    if |pieces| == 2 {
      assert rest == p;
    } else {
      assert pieces[1..][1..] == pieces[2..];
      assert rest == p + [','] + Join(pieces[2..], ',');
    }
    assert dataUrl[..|h|] == h;
    assert dataUrl[|h| + 1..] == rest;
  }

  /** A titled list of the report (causes, organic or chemical treatments). */
  datatype Section = Section(title: string, items: seq<string>)

  /** What the report card shows. */
  datatype Report = Report(heading: string, description: string, sections: seq<Section>)

  function Items(sections: seq<Section>): seq<string> {
    if sections == [] then [] else sections[0].items + Items(sections[1..])
  }

  /** The report card of a diagnosis: a healthy plant gets the fixed heading
      and no list sections; a diseased one is headed by the disease name and
      shows its causes, organic and chemical treatments, in stored order. */
  function ReportOf(r: DiagnosisResult): (v: Report)
    ensures v.heading == (if r.isHealthy then HealthyHeading else r.disease)
    ensures v.description == r.description
    ensures v.sections != [] <==> !r.isHealthy
    ensures !r.isHealthy ==>
      |v.sections| == 3
      && v.sections[0] == Section("Common Causes", r.causes)
      && v.sections[1] == Section("Organic Treatments", r.organicTreatments)
      && v.sections[2] == Section("Chemical Treatments", r.chemicalTreatments)
    ensures !r.isHealthy ==> Items(v.sections) == r.causes + r.organicTreatments + r.chemicalTreatments
  {
    if r.isHealthy then Report(HealthyHeading, r.description, [])
    else
      var sections := [
        Section("Common Causes", r.causes),
        Section("Organic Treatments", r.organicTreatments),
        Section("Chemical Treatments", r.chemicalTreatments)];
      assert Items(sections[2..]) == r.chemicalTreatments by {
        assert sections[2..][1..] == [];
        assert r.chemicalTreatments + [] == r.chemicalTreatments;
      }
      assert sections[1..][1..] == sections[2..];
      assert Items(sections[1..]) == r.organicTreatments + r.chemicalTreatments;
      Report(r.disease, r.description, sections)
  }

  /** Two healthy diagnoses with the same description look the same: the
      disease name and the lists are then not shown at all. */
  lemma HealthyReportIgnoresDetails(r1: DiagnosisResult, r2: DiagnosisResult)
    requires r1.isHealthy && r2.isHealthy && r1.description == r2.description
    ensures ReportOf(r1) == ReportOf(r2)
  {
  }

  /** A failed service call always ends in a visible alert with the fixed
      diagnosis failure text. */
  lemma ServiceFailureIsShown()
    ensures
      var o := GeminiService.DiagnoseCrop(GeminiService.Raised);
      o.Failure? && Banner(Some(CaughtMessage(o.thrown))) == Some(GeminiService.DiagnosisFailed)
  {
  }

  class Panel {
    var imagePreview: Option<string>
    var imageData: Option<ImageData>
    var loading: bool
    var result: Option<DiagnosisResult>
    var error: Option<string>

    /** The preview and the image data come together; a stored report or a
        pending request implies an image; a report and an error are never
        both stored; while a request is pending neither is. */
    ghost predicate Valid()
      reads this
    {
      (imagePreview.Some? <==> imageData.Some?)
      && (result.Some? ==> imageData.Some?)
      && (loading ==> imageData.Some? && result.None? && error.None?)
      && (result.None? || error.None?)
    }

    constructor ()
      ensures Valid()
      ensures imagePreview == None && imageData == None && !loading && result == None && error == None
    {
      imagePreview := None;
      imageData := None;
      loading := false;
      result := None;
      error := None;
    }

    /** `handleFileChange` with the file reader's completion folded in: with
        no file nothing changes; otherwise the old report and error go, and
        the payload and MIME type of the file are stored with its preview. */
    method PickFile(file: Option<SelectedFile>)
      requires Valid()
      modifies this
      ensures Valid()
      ensures loading == old(loading)
      ensures file.None? ==>
        imagePreview == old(imagePreview) && imageData == old(imageData)
        && result == old(result) && error == old(error)
      ensures file.Some? ==>
        result == None && error == None
        && imageData == Some(ImageData(Base64Payload(file.value.dataUrl), file.value.mimeType))
        && imagePreview == Some(file.value.dataUrl)
    {
      if file.Some? {
        result := None;
        error := None;
        var f := file.value;
        imageData := Some(ImageData(Base64Payload(f.dataUrl), f.mimeType));
        imagePreview := Some(f.dataUrl);
      }
    }

    /** The Diagnose button is enabled when an image is loaded and no
        request is pending; in a valid state that is when a preview is on
        display and no request is pending. */
    function DiagnoseEnabled(): (b: bool)
      reads this
      ensures b <==> imageData.Some? && !loading
      ensures Valid() ==> (b <==> imagePreview.Some? && !loading)
    {
      imageData.Some? && !loading
    }

    /** `handleDiagnose` up to its `await`. Without an image only the error
        is set and no request is issued; otherwise the request for the stored
        image goes out, with the panel loading and report and error cleared. */
    method BeginDiagnosis() returns (request: Option<ImageData>)
      requires Valid()
      modifies this
      ensures Valid()
      ensures imagePreview == old(imagePreview) && imageData == old(imageData)
      ensures old(imageData).None? ==>
        request == None && error == Some(NoImageError)
        && loading == old(loading) && result == old(result)
      ensures old(imageData).Some? ==>
        request == old(imageData) && loading && error == None && result == None
    {
      if imageData.None? {
        error := Some(NoImageError);
        request := None;
        return;
      }
      loading := true;
      error := None;
      result := None;
      request := imageData;
    }

    /** `handleDiagnose` after its `await`: the report on success; on failure
        the caught message and no report; loading is over either way. */
    method SettleDiagnosis(outcome: Outcome<DiagnosisResult>)
      requires Valid() && loading
      modifies this
      ensures Valid()
      ensures imagePreview == old(imagePreview) && imageData == old(imageData) && !loading
      ensures outcome.Success? ==> result == Some(outcome.value) && error == None
      ensures outcome.Failure? ==> result == None && error == Some(CaughtMessage(outcome.thrown))
    {
      match outcome {
        case Success(diagnosis) =>
          result := Some(diagnosis);
        case Failure(e) =>
          error := Some(CaughtMessage(e));
      }
      loading := false;
    }

    /** A whole `handleDiagnose`, started while no request is pending, with
        `outcome` as what the service returns. A request is issued exactly
        when the Diagnose button was enabled. */
    method Diagnose(outcome: Outcome<DiagnosisResult>) returns (request: Option<ImageData>)
      requires Valid() && !loading
      modifies this
      ensures Valid() && !loading
      ensures request.Some? <==> old(DiagnoseEnabled())
      ensures imagePreview == old(imagePreview) && imageData == old(imageData)
      ensures request.None? ==> error == Some(NoImageError) && result == old(result)
      ensures request.Some? && outcome.Success? ==> result == Some(outcome.value) && error == None
      ensures request.Some? && outcome.Failure? ==>
        result == None && error == Some(CaughtMessage(outcome.thrown))
    {
      request := BeginDiagnosis();
      if request.Some? {
        SettleDiagnosis(outcome);
      }
    }

    /** The report card on display, if any. */
    function ShownReport(): (v: Option<Report>)
      reads this
      ensures v.Some? <==> result.Some?
      ensures v.Some? ==> v.value == ReportOf(result.value)
    {
      match result
      case Some(r) => Some(ReportOf(r))
      case None => None
    }
  }
}
