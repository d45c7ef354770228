/**
 * The corrected run: the percentage is a result of each line on its own, and a
 * line whose rate no rule matches is skipped with an "unclassified rate"
 * warning instead of taking the percentage of an earlier line.
 */
module ScopedPercentage {
  import opened Wrappers
  import opened CreditTable
  import opened Conferencia

  /** Why the corrected run skips a line: a field that does not parse, or a rate no rule matches. */
  datatype ScopedWarning = BadNumber(nItem: string) | UnclassifiedRate(nItem: string)

  /** What one line contributes to the result: a row or a warning. */
  datatype Outcome = Produced(row: Row) | Skipped(warning: ScopedWarning)

  /** The outcome of one `det` element, computed from that element alone. */
  function LineOutcome(d: Det, ctx: Context, parseFloat: Parser): (r: Outcome)
    ensures r.Produced? <==> Classified(d, ctx, parseFloat)
    ensures r.Produced? ==> r.row == OwnRow(d, ctx, parseFloat)
    ensures r.Skipped? ==> r.warning.nItem == ItemId(d)
    ensures r.Skipped? ==> (r.warning.UnclassifiedRate? <==> Extract(d, parseFloat).Some?)
  {
    match Extract(d, parseFloat)
    case None => Skipped(BadNumber(ItemId(d)))
    case Some(l) =>
      match OwnPercent(l, ctx)
      case None => Skipped(UnclassifiedRate(l.nItem))
      case Some(p) => Produced(MakeRow(l, p))
  }

  /** The table so far with one more line's outcome appended. */
  function AddOutcome(acc: (seq<Row>, seq<ScopedWarning>), o: Outcome): (seq<Row>, seq<ScopedWarning>) {
    match o
    case Produced(row) => (acc.0 + [row], acc.1)
    case Skipped(w) => (acc.0, acc.1 + [w])
  }

  /** The rows and warnings of the corrected run, in document order. */
  function RunScoped(dets: seq<Det>, ctx: Context, parseFloat: Parser): (seq<Row>, seq<ScopedWarning>)
    decreases |dets|
  {
    if dets == [] then ([], [])
    else AddOutcome(RunScoped(dets[..|dets| - 1], ctx, parseFloat), LineOutcome(dets[|dets| - 1], ctx, parseFloat))
  }

  /**
   * The corrected run is context-free: the result for `a + b` is the result for
   * `a` followed by the result for `b`, so no line's outcome depends on another line.
   */
  lemma {:induction false} RunScopedAppend(a: seq<Det>, b: seq<Det>, ctx: Context, parseFloat: Parser)
    ensures RunScoped(a + b, ctx, parseFloat).0 == RunScoped(a, ctx, parseFloat).0 + RunScoped(b, ctx, parseFloat).0
    ensures RunScoped(a + b, ctx, parseFloat).1 == RunScoped(a, ctx, parseFloat).1 + RunScoped(b, ctx, parseFloat).1
    decreases |b|
  {
    if b == [] {
      assert a + b == a;
    } else {
      var b' := b[..|b| - 1];
      assert (a + b)[..|a + b| - 1] == a + b';
      assert (a + b)[|a + b| - 1] == b[|b| - 1];
      RunScopedAppend(a, b', ctx, parseFloat);
    }
  }

  /** Every line yields exactly one row or one warning in the corrected run too. */
  lemma {:induction false} RunScopedOneOutcomePerDet(dets: seq<Det>, ctx: Context, parseFloat: Parser)
    ensures |RunScoped(dets, ctx, parseFloat).0| + |RunScoped(dets, ctx, parseFloat).1| == |dets|
    decreases |dets|
  {
    if dets != [] {
      RunScopedOneOutcomePerDet(dets[..|dets| - 1], ctx, parseFloat);
    }
  }

  /** Where every line is classified, the corrected run and the source's run give the same table. */
  lemma {:induction false} ScopedAgreesWhenClassified(dets: seq<Det>, ctx: Context, parseFloat: Parser)
    requires forall i :: 0 <= i < |dets| ==> Classified(dets[i], ctx, parseFloat)
    ensures RunScoped(dets, ctx, parseFloat).0 == Run(dets, ctx, parseFloat).dados
    ensures RunScoped(dets, ctx, parseFloat).1 == [] && Run(dets, ctx, parseFloat).warnings == []
    decreases |dets|
  {
    if dets != [] {
      var init := dets[..|dets| - 1];
      assert forall i :: 0 <= i < |init| ==> init[i] == dets[i];
      ScopedAgreesWhenClassified(init, ctx, parseFloat);
      ClassifiedLinesIndependent(init, ctx, parseFloat);
    }
  }

  /** One more line at the end of the corrected run adds that line's outcome. */
  lemma RunScopedSnoc(dets: seq<Det>, d: Det, ctx: Context, parseFloat: Parser)
    ensures RunScoped(dets + [d], ctx, parseFloat) == AddOutcome(RunScoped(dets, ctx, parseFloat), LineOutcome(d, ctx, parseFloat))
  {
  }

  /** A 4% steel line and an 18% line, the two lines of the stale-percentage example. */
  const SteelDet: Det := Det(Some("1"), Some("74055000"), Some("4"), Some("40"), None, None, None, None)
  const OtherDet: Det := Det(Some("2"), Some("84713012"), Some("18"), Some("100"), None, None, None, None)
  /** The 18% line again, now with vBC 800 below vProd 1000, so in delta mode. */
  const DeltaDet: Det := Det(Some("2"), Some("84713012"), Some("18"), Some("100"), Some("1000"), Some("800"), None, None)
  const SteelRow: Row := Row("1", "74055000", 4.0, 40.0, 0.0, 0.0, 85.0, 34.0, 0.0, 34.0, "N/A")

  predicate ParsesExample(parseFloat: Parser) {
    && parseFloat("4") == Some(4.0) && parseFloat("40") == Some(40.0)
    && parseFloat("18") == Some(18.0) && parseFloat("100") == Some(100.0)
    && parseFloat("1000") == Some(1000.0) && parseFloat("800") == Some(800.0)
  }

  /** How the example lines read, and which percentage their own rates select. */
  lemma ExampleLines(parseFloat: Parser, ctx: Context)
    requires ParsesExample(parseFloat)
    ensures Extract(SteelDet, parseFloat) == Some(Line("1", "74055000", 4.0, 40.0, 0.0, 0.0, "N/A", 0.0))
    ensures Extract(OtherDet, parseFloat) == Some(Line("2", "84713012", 18.0, 100.0, 0.0, 0.0, "N/A", 0.0))
    ensures OwnPercent(Extract(SteelDet, parseFloat).value, ctx) == Some(85.0)
    ensures OwnPercent(Extract(OtherDet, parseFloat).value, ctx) == None
  {
  }

  /** After the steel line alone the source's run holds its row and the percentage 85. */
  lemma SteelLineFirst(parseFloat: Parser, ctx: Context)
    requires ParsesExample(parseFloat)
    ensures Run([SteelDet], ctx, parseFloat) == State([SteelRow], [], Some(85.0))
  {
    ExampleLines(parseFloat, ctx);
    assert MakeRow(Extract(SteelDet, parseFloat).value, 85.0) == SteelRow;
    assert Step(Initial, SteelDet, ctx, parseFloat) == State([SteelRow], [], Some(85.0));
    var none: seq<Det> := [];
    assert [SteelDet] == none + [SteelDet];
    RunFromSnoc(Initial, none, SteelDet, ctx, parseFloat);
  }

  /** The source's run gives the 18% line the 85% left behind by the steel line before it. */
  lemma StalePercentageLeaks(parseFloat: Parser, ctx: Context)
    requires ParsesExample(parseFloat)
    ensures Run([SteelDet, OtherDet], ctx, parseFloat).dados
      == [SteelRow, Row("2", "84713012", 18.0, 100.0, 0.0, 0.0, 85.0, 85.0, 0.0, 85.0, "N/A")]
  {
    ExampleLines(parseFloat, ctx);
    SteelLineFirst(parseFloat, ctx);
    var lOther := Line("2", "84713012", 18.0, 100.0, 0.0, 0.0, "N/A", 0.0);
    var row := MakeRow(lOther, 85.0);
    assert row == Row("2", "84713012", 18.0, 100.0, 0.0, 0.0, 85.0, 85.0, 0.0, 85.0, "N/A");
    assert PercAfter(lOther, ctx, Some(85.0)) == Some(85.0);
    var afterSteel := State([SteelRow], [], Some(85.0));
    assert Step(afterSteel, OtherDet, ctx, parseFloat).dados == [SteelRow] + [row];
    assert [SteelDet, OtherDet] == [SteelDet] + [OtherDet];
    RunFromSnoc(Initial, [SteelDet], OtherDet, ctx, parseFloat);
  }

  /**
   * The carried percentage crosses modes: an 18% delta-mode line after the
   * steel line takes the percentage-mode 85%, so its credit is 100 - 85 * 1000 / 100 = -750.
   */
  lemma StaleCrossesModes(parseFloat: Parser, ctx: Context)
    requires ParsesExample(parseFloat)
    ensures Run([SteelDet, DeltaDet], ctx, parseFloat).dados
      == [SteelRow, Row("2", "84713012", 18.0, 100.0, 1000.0, 800.0, 85.0, -750.0, 0.0, -750.0, "N/A")]
  {
    SteelLineFirst(parseFloat, ctx);
    var lDelta := Line("2", "84713012", 18.0, 100.0, 1000.0, 800.0, "N/A", 0.0);
    assert Extract(DeltaDet, parseFloat) == Some(lDelta);
    assert OwnPercent(lDelta, ctx) == None;
    var row := MakeRow(lDelta, 85.0);
    assert row == Row("2", "84713012", 18.0, 100.0, 1000.0, 800.0, 85.0, -750.0, 0.0, -750.0, "N/A");
    var afterSteel := State([SteelRow], [], Some(85.0));
    assert Step(afterSteel, DeltaDet, ctx, parseFloat).dados == [SteelRow] + [row];
    assert [SteelDet, DeltaDet] == [SteelDet] + [DeltaDet];
    RunFromSnoc(Initial, [SteelDet], DeltaDet, ctx, parseFloat);
  }

  /** The same 18% line alone is dropped as unbound by the source's run. */
  lemma UnboundWhenAlone(parseFloat: Parser, ctx: Context)
    requires ParsesExample(parseFloat)
    ensures Run([OtherDet], ctx, parseFloat) == State([], [Warning("2", UnboundPercentage)], None)
  {
    ExampleLines(parseFloat, ctx);
    assert [OtherDet] == [] + [OtherDet];
    RunFromSnoc(Initial, [], OtherDet, ctx, parseFloat);
  }

  /** The corrected run reports the 18% line as unclassified whatever comes before it. */
  lemma ScopedReportsUnclassified(parseFloat: Parser, ctx: Context)
    requires ParsesExample(parseFloat)
    ensures RunScoped([SteelDet, OtherDet], ctx, parseFloat).0 == [SteelRow]
    ensures RunScoped([SteelDet, OtherDet], ctx, parseFloat).1 == [UnclassifiedRate("2")]
  {
    ExampleLines(parseFloat, ctx);
    assert MakeRow(Extract(SteelDet, parseFloat).value, 85.0) == SteelRow;
    var none: seq<Det> := [];
    assert [SteelDet] == none + [SteelDet];
    RunScopedSnoc(none, SteelDet, ctx, parseFloat);
    assert RunScoped([SteelDet], ctx, parseFloat).0 == [SteelRow];
    assert RunScoped([SteelDet], ctx, parseFloat).1 == [];
    assert [SteelDet, OtherDet] == [SteelDet] + [OtherDet];
    RunScopedSnoc([SteelDet], OtherDet, ctx, parseFloat);
  }
}
