/**
 * The upload-and-report component: its state (the current rows, their
 * columns, the status line and the last report) and the two handlers that
 * overwrite it.
 */
module SmartAgro {
  import opened Records
  import opened Seqs
  import opened Schema
  import opened Report

  class SmartAgroApp {
    /** The columns an upload must have, fixed when the component is created. */
    const required: seq<string>
    /** The fixed wording of the report. */
    const wording: Wording

    var data: seq<Row>
    var summary: string
    var keys: seq<string>
    var report: string

    /**
     * The rows on hand passed the schema gate, and the columns are the ones
     * detected in them.
     */
    predicate Valid()
      reads this
    {
      keys == DetectedKeys(data) && (|data| > 0 ==> |MissingColumns(required, keys)| == 0)
    }

    /** The initial state: no rows, no columns, empty status and report. */
    constructor ()
      ensures Valid()
      ensures required == Required && wording == SourceWording
      ensures data == [] && summary == "" && keys == [] && report == ""
    {
      required, wording := Required, SourceWording;
      data, summary, keys, report := [], "", [], "";
    }

    /**
     * The completion step of an upload, given the rows the CSV parser
     * produced. A failing schema gate only sets the error summary; a passing
     * one replaces the rows and the columns wholesale.
     */
    method CompleteUpload(parsed: seq<Row>)
      requires Valid()
      modifies this
      ensures Valid()
      ensures report == old(report)
      ensures var missing := MissingColumns(required, DetectedKeys(parsed));
        if |missing| > 0 then
          data == old(data) && keys == old(keys) && summary == MissingSummary(missing)
        else
          data == parsed && keys == DetectedKeys(parsed)
          && summary == LoadedSummary(|parsed|, DetectedKeys(parsed))
    {
      var detectedKeys := DetectedKeys(parsed);
      var missing := MissingColumns(required, detectedKeys);
      if |missing| > 0 {
        summary := MissingSummary(missing);
        return;
      }
      data := parsed;
      keys := detectedKeys;
      summary := LoadedSummary(|parsed|, detectedKeys);
    }

    /**
     * Builds the report text piece by piece from the current rows and
     * stores it; with no rows the previous report stays.
     */
    method GenerateRecommendations(parse: Parser, fmt: Formatter)
      requires Valid()
      modifies this`report
      ensures Valid()
      ensures |data| == 0 ==> report == old(report)
      ensures |data| > 0 ==> report == ReportText(wording, Summarize(data, parse), fmt)
    {
      if |data| == 0 {
        return;
      }
      var msg := ComposeReport(wording, Summarize(data, parse), fmt);
      report := msg;
    }

    /** The `msg` the handler builds from the five averages, one `+=` at a time. */
    static method ComposeReport(w: Wording, a: Averages, fmt: Formatter) returns (msg: string)
      ensures msg == ReportText(w, a, fmt)
    {
      msg := w.heading;
      msg := msg + PhLine(a, fmt);
      msg := msg + OrganicLine(a, fmt);
      msg := msg + SalinityLine(a, fmt);
      msg := msg + MoistureLine(a, fmt);
      msg := msg + YieldLine(a, fmt);
      msg := msg + w.recommendationsHeading;
      msg := AppendAdvice(w, msg, a);
      msg := msg + w.tipsHeading;
      msg := msg + w.tip1;
      msg := msg + w.tip2;
      msg := msg + w.tip3;
    }

    /** The five conditional appends of the recommendation lines, in table order. */
    static method AppendAdvice(w: Wording, msg: string, a: Averages) returns (msg': string)
      ensures msg' == msg + AdviceBlock(w, Recommendations(a))
    {
      msg' := AppendIfFires(w, msg, a, Liming);
      msg' := AppendIfFires(w, msg', a, AlkalineCaution);
      msg' := AppendIfFires(w, msg', a, OrganicFertilising);
      msg' := AppendIfFires(w, msg', a, SalinityControl);
      msg' := AppendIfFires(w, msg', a, MacronutrientCheck);
      ReportAdviceByIfs(w, a, msg);
    }

    /** One conditional append: the rule's line when its test holds, nothing otherwise. */
    static method AppendIfFires(w: Wording, msg: string, a: Averages, r: Advice) returns (msg': string)
      ensures msg' == if Fires(r, a) then msg + AdviceText(w, r) else msg
      ensures msg' == msg + AdviceBlock(w, ShownIf(r, a))
    {
      if Fires(r, a) {
        msg' := msg + AdviceText(w, r);
        AdviceBlockAppend(w, [], r);
        assert [] + [r] == [r];
      } else {
        msg' := msg;
        assert msg + "" == msg;
      }
    }
  }
}
