/**
 * The stock-analysis request state (context/StockContext.tsx): the chosen symbol,
 * the last analysis shown (or none), and whether a request is in flight. The
 * analyser call is a parameter: its result, or `None` when it throws.
 */
module StockContext {
  import opened Wrappers

  datatype Analysis = Analysis(text: string, urls: seq<string>)

  /** The text shown when the analyser throws. */
  const AnalysisErrorText: string :=
    "### Analysis Error\nI could not retrieve data for this ticker. Please check the symbol and try again."

  /** What a settled request leaves in `analysisData`. */
  function Settled(result: Option<Analysis>): (a: Analysis)
    ensures result.Some? ==> a == result.value
    ensures result.None? ==> a.text == AnalysisErrorText && a.urls == []
  {
    match result
    case Some(r) => r
    case None => Analysis(AnalysisErrorText, [])
  }

  class StockProvider {
    var symbol: string
    var analysisData: Option<Analysis>
    var isLoading: bool

    constructor ()
      ensures symbol == "" && analysisData == None && !isLoading
    {
      symbol := "";
      analysisData := None;
      isLoading := false;
    }

    /** `setSymbol` */
    method SetSymbol(s: string)
      modifies this`symbol
      ensures symbol == s
    {
      symbol := s;
    }

    /**
     * The first half of `performAnalysis`: an empty symbol is ignored; otherwise
     * the request is in flight and the previous analysis stays on screen.
     */
    method BeginAnalysis(sym: string) returns (started: bool)
      modifies this`isLoading
      ensures started == (sym != "")
      ensures started ==> isLoading
      ensures !started ==> isLoading == old(isLoading)
    {
      if sym == "" {
        return false;
      }
      isLoading := true;
      started := true;
    }

    /** The second half: the outcome replaces the analysis and loading ends. */
    method SettleAnalysis(result: Option<Analysis>)
      modifies this`analysisData, this`isLoading
      ensures analysisData == Some(Settled(result)) && !isLoading
    {
      analysisData := Some(Settled(result));
      isLoading := false;
    }

    /** `performAnalysis(sym)`; it never touches `symbol`. */
    method PerformAnalysis(sym: string, result: Option<Analysis>)
      modifies this`analysisData, this`isLoading
      ensures sym == "" ==> analysisData == old(analysisData) && isLoading == old(isLoading)
      ensures sym != "" ==> analysisData == Some(Settled(result)) && !isLoading
    {
      var started := BeginAnalysis(sym);
      if !started {
        return;
      }
      assert isLoading && analysisData == old(analysisData);
      SettleAnalysis(result);
    }

    /** `clearAnalysis`: forget the symbol and the analysis; loading is left alone. */
    method ClearAnalysis()
      modifies this`symbol, this`analysisData
      ensures symbol == "" && analysisData == None
    {
      symbol := "";
      analysisData := None;
    }
  }
}
