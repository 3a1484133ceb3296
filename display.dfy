/** Which of the result section's panels the page renders. */
module ResultDisplay {
  import opened JsonValues

  /** The panels of the "Resultado" section: the error box, the prediction
      box, the estimated-total line inside it, the "no result" text, and the
      stray text "0" that React prints when `{result && …}` evaluates to the
      number 0. */
  datatype Panels = Panels(errorPanel: bool, resultPanel: bool, totalLine: bool, placeholder: bool,
                           strayZero: bool)

  /** The error state as a JavaScript value: `null` or a message string. */
  function ErrorValue(error: Option<string>): JsValue {
    if error.Some? then Defined(JString(error.value)) else Null
  }

  /** `{error && …}`, `{result && …}` with `typeof result === 'number'`
      inside it, and `{!result && !error && …}`. A falsy `error` or `result`
      renders nothing, except the number 0, which React prints as text. */
  function Display(result: JsValue, error: Option<string>): (p: Panels)
    ensures p.errorPanel <==> error.Some? && error.value != ""
    ensures p.resultPanel <==> Truthy(result)
    ensures p.totalLine <==> p.resultPanel && result.json.JNumber?
    ensures p.placeholder <==> !p.errorPanel && !p.resultPanel
    ensures p.strayZero <==> result == Defined(JNumber(0.0))
    ensures p.strayZero ==> !p.resultPanel
  {
    var showError := Truthy(ErrorValue(error));
    var showResult := Truthy(result);
    Panels(showError, showResult,
           showResult && result.json.JNumber?,
           !showResult && !showError,
           result.Defined? && result.json.JNumber? && result.json.n == 0.0)
  }

  /** A prediction of exactly 0 is falsy: with no error no prediction box is
      drawn and the "no result" text shows, with React's stray "0" printed
      beside it. */
  lemma ZeroPredictionShowsPlaceholder()
    ensures var p := Display(Defined(JNumber(0.0)), None);
            p.placeholder && p.strayZero && !p.resultPanel && !p.totalLine
  {
  }

  /** While result and error are not both set, the error box and the
      prediction box never show together. */
  lemma PanelsExclusive(result: JsValue, error: Option<string>)
    requires error.None? || result == Null
    ensures var p := Display(result, error);
            !(p.errorPanel && p.resultPanel)
  {
  }
}
