/**
 * The prediction form: nine text fields, a submission to the prediction service,
 * and the result panel that grades the returned fire-weather score into four
 * risk tiers (below 5, below 15, below 30, and everything else).
 */
module PredictionForm {
  import opened Js

  /** The form's fields, in the order they are declared, shown and sent. */
  const Fields: seq<string> :=
    ["Temperature", "RH", "Ws", "Rain", "FFMC", "DMC", "ISI", "Classes", "region"]

  /**
   * How a submission ended: the service answered (`ok` is the HTTP status check,
   * `prediction` and `errorField` the body's fields), or the request, the body
   * parse or the field access threw, with the error's `message`.
   */
  datatype Outcome = Answered(ok: bool, prediction: Value, errorField: Value) | Threw(message: Value)

  /** The four grades of the result panel, from lowest to highest. */
  datatype Tier = Low | Moderate | High | Extreme

  /** The panel's grade: the first of the chained `< 5`, `< 15`, `< 30` tests that holds. */
  function TierOf(prediction: Value, text: string -> Option<real>): (t: Tier)
    ensures t == Low <==> LessThan(prediction, 5.0, text)
    ensures ToNumber(prediction, text).NotANumber? ==> t == Extreme
  {
    if LessThan(prediction, 5.0, text) then Low
    else if LessThan(prediction, 15.0, text) then Moderate
    else if LessThan(prediction, 30.0, text) then High
    else Extreme
  }

  function Rank(t: Tier): nat
  {
    match t
    case Low => 0
    case Moderate => 1
    case High => 2
    case Extreme => 3
  }

  /** The panel's background colour, as the component's own conditional chain. */
  function PanelColour(prediction: Value, text: string -> Option<real>): (c: string)
    ensures c == TierColour(TierOf(prediction, text))
  {
    if LessThan(prediction, 5.0, text) then "#22c55e"
    else if LessThan(prediction, 15.0, text) then "#facc15"
    else if LessThan(prediction, 30.0, text) then "#f97316"
    else "#dc2626"
  }

  /** The panel's text, as the component's own (second) conditional chain. */
  function PanelText(prediction: Value, text: string -> Option<real>): (t: string)
    ensures t == TierText(TierOf(prediction, text))
  {
    if LessThan(prediction, 5.0, text) then "Low Risk of fire"
    else if LessThan(prediction, 15.0, text) then "Moderate Risk of fire"
    else if LessThan(prediction, 30.0, text) then "High Risk of fire"
    else "Extreme Risk of fire"
  }

  function TierColour(t: Tier): string
  {
    match t
    case Low => "#22c55e"
    case Moderate => "#facc15"
    case High => "#f97316"
    case Extreme => "#dc2626"
  }

  function TierText(t: Tier): string
  {
    match t
    case Low => "Low Risk of fire"
    case Moderate => "Moderate Risk of fire"
    case High => "High Risk of fire"
    case Extreme => "Extreme Risk of fire"
  }

  /**
   * The colour and the text are chosen by the same tier, so they always agree
   * (green goes with "Low", red with "Extreme"); and the four tiers look different.
   */
  lemma PanelAgrees(prediction: Value, text: string -> Option<real>)
    ensures PanelColour(prediction, text) == TierColour(TierOf(prediction, text))
    ensures PanelText(prediction, text) == TierText(TierOf(prediction, text))
    ensures forall t, u :: t != u ==> TierColour(t) != TierColour(u) && TierText(t) != TierText(u)
  {
  }

  /**
   * The tiers, by the number the score converts to: below 5 is Low, [5, 15)
   * Moderate, [15, 30) High, 30 and above Extreme, and a score that converts to
   * NaN (`undefined`, a non-numeric string) fails every test and is Extreme.
   */
  lemma TierBands(prediction: Value, text: string -> Option<real>)
    ensures var n := ToNumber(prediction, text);
      && (TierOf(prediction, text) == Low <==> n.Finite? && n.r < 5.0)
      && (TierOf(prediction, text) == Moderate <==> n.Finite? && 5.0 <= n.r < 15.0)
      && (TierOf(prediction, text) == High <==> n.Finite? && 15.0 <= n.r < 30.0)
      && (TierOf(prediction, text) == Extreme <==> n.NotANumber? || 30.0 <= n.r)
  {
  }

  /** A larger score never gets a lower tier. */
  lemma TierMonotone(a: real, b: real, text: string -> Option<real>)
    requires a <= b
    ensures Rank(TierOf(Num(a), text)) <= Rank(TierOf(Num(b), text))
  {
  }

  /** The form component's state. */
  class FormState {
    var formData: map<string, string>
    var prediction: Value
    var error: Value
    var loading: bool

    /** Every declared field has a value. */
    predicate Valid()
      reads this
    {
      forall f :: f in Fields ==> f in formData
    }

    /** All nine fields empty, no result, no error, not loading. */
    constructor ()
      ensures Valid()
      ensures formData.Keys == set f | f in Fields
      ensures forall f :: f in formData ==> formData[f] == ""
      ensures prediction == Null && error == Null && !loading
    {
      formData := map f | f in Fields :: "";
      prediction := Null;
      error := Null;
      loading := false;
    }

    /** `handleChange`: the named field takes the input's value; every other field keeps its own. */
    method HandleChange(name: string, value: string)
      modifies this
      ensures formData == old(formData)[name := value]
      ensures prediction == old(prediction) && error == old(error) && loading == old(loading)
      ensures old(Valid()) ==> Valid()
    {
      formData := formData[name := value];
    }

    /** The fields sent as the request body, in declaration order. */
    function RequestBody(): (body: seq<(string, string)>)
      requires Valid()
      reads this
      ensures |body| == |Fields|
      ensures forall i :: 0 <= i < |body| ==> body[i] == (Fields[i], formData[Fields[i]])
    {
      seq(|Fields|, i requires 0 <= i < |Fields| && Valid() reads this => (Fields[i], formData[Fields[i]]))
    }

    /** `handleSubmit` up to the request: the previous result and error are cleared and loading starts. */
    method BeginSubmit()
      modifies this
      ensures prediction == Null && error == Null && loading
      ensures formData == old(formData)
    {
      error := Null;
      prediction := Null;
      loading := true;
    }

    /**
     * `handleSubmit` after the request: a successful answer stores its `prediction`
     * (whatever it is), a failed one its `error` field or "Something went wrong"
     * when that is blank, and a throw the error's message; loading ends either way.
     */
    method FinishSubmit(outcome: Outcome)
      requires prediction == Null && error == Null
      modifies this
      ensures !loading && formData == old(formData)
      ensures outcome.Answered? && outcome.ok ==> prediction == outcome.prediction && error == Null
      ensures outcome.Answered? && !outcome.ok ==>
                prediction == Null && error == Or(outcome.errorField, Str("Something went wrong"))
      ensures outcome.Threw? ==> prediction == Null && error == outcome.message
    {
      match outcome {
        case Answered(ok, p, e) =>
          if ok {
            prediction := p;
          } else {
            error := Or(e, Str("Something went wrong"));
          }
        case Threw(message) =>
          error := message;
      }
      loading := false;
    }

    /** The whole submission. */
    method HandleSubmit(outcome: Outcome)
      modifies this
      ensures !loading && formData == old(formData)
      ensures outcome.Answered? && outcome.ok ==> prediction == outcome.prediction && error == Null
      ensures outcome.Answered? && !outcome.ok ==>
                prediction == Null && error == Or(outcome.errorField, Str("Something went wrong"))
      ensures outcome.Threw? ==> prediction == Null && error == outcome.message
    {
      BeginSubmit();
      FinishSubmit(outcome);
    }

    /** The result panel is shown for any prediction but `null`, `undefined` included. */
    predicate ShowsPanel()
      reads this
      ensures prediction.Undefined? || prediction.NaN? ==> ShowsPanel()
      ensures prediction.Null? ==> !ShowsPanel()
    {
      prediction != Null
    }

    /** The error line is shown for a truthy error only. */
    predicate ShowsError()
      reads this
      ensures error.Null? || error.Undefined? || error == Str("") ==> !ShowsError()
      ensures error.Str? && error.s != "" ==> ShowsError()
    {
      Truthy(error)
    }

    /** The submit button is disabled while loading. */
    predicate CanSubmit()
      reads this
      ensures loading ==> !CanSubmit()
    {
      !loading
    }
  }

  /**
   * A failed answer always shows an error line and never the panel; a successful
   * one shows no error line, and shows the panel unless its prediction is `null`.
   */
  method SubmitShows(outcome: Outcome) returns (panel: bool, errorLine: bool, ready: bool)
    ensures ready
    ensures outcome.Answered? && !outcome.ok ==> !panel && errorLine
    ensures outcome.Answered? && outcome.ok ==> !errorLine && (panel <==> outcome.prediction != Null)
    ensures outcome.Threw? ==> !panel && (errorLine <==> Truthy(outcome.message))
  {
    var form := new FormState();
    form.HandleSubmit(outcome);
    panel, errorLine, ready := form.ShowsPanel(), form.ShowsError(), form.CanSubmit();
  }
}
