/**
 * The conference run over the `det` lines of one NF-e: each line's tax fields
 * are read with their defaults, a presumed-credit percentage is chosen, the
 * credit is recalculated and compared with the declared one, and a result row
 * is appended; a line that fails is skipped with a warning naming its item.
 *
 * The percentage lives in one variable for the whole run, as in the source: a
 * line whose rate no rule matches reuses the percentage of the last line that
 * matched, and, when none did, fails (the source's `UnboundLocalError`).
 */
module Conferencia {
  import opened Wrappers
  import opened CreditTable

  /** Python's `float` applied to a non-empty text: the parsed value, or `None` when it raises. */
  type Parser = string -> Option<real>

  /**
   * The text found for each field of one `det` element; `None` where the XML
   * has no such element (or, for `nItem`, no such attribute).
   */
  datatype Det = Det(
    nItem: Option<string>,
    ncm: Option<string>,
    pICMS: Option<string>,
    vICMS: Option<string>,
    vProd: Option<string>,
    vBC: Option<string>,
    cBenef: Option<string>,
    vCredPresumido: Option<string>)

  /** One invoice line after extraction: every field has a value. */
  datatype Line = Line(
    nItem: string,
    ncm: string,
    pICMS: real,
    vICMS: real,
    vProd: real,
    vBC: real,
    cBenef: string,
    vCredPresumido: real)

  /** One row of the result table. */
  datatype Row = Row(
    nItem: string,
    ncm: string,
    pICMS: real,
    vICMS: real,
    vProd: real,
    vBC: real,
    percPresumido: real,
    recalculo: real,
    vCredPresumido: real,
    diferenca: real,
    cBenef: string)

  /** Why the source skips a line: a field that does not parse, or no percentage assigned yet. */
  datatype Cause = MalformedNumber | UnboundPercentage

  /** The warning shown for a skipped line, with its item number. */
  datatype Warning = Warning(nItem: string, cause: Cause)

  /** `nItem` attribute, `'N/A'` only when the attribute is missing. */
  function ItemId(d: Det): string {
    match d.nItem
    case Some(s) => s
    case None => "N/A"
  }

  /** A code field read with `or 'N/A'`: absent or empty text becomes `'N/A'`. */
  function CodeText(f: Option<string>): string {
    if f == None || f == Some("") then "N/A" else f.value
  }

  /** A numeric field read as `float(text or 0.0)`: absent or empty text becomes 0.0. */
  function Number(f: Option<string>, parseFloat: Parser): Option<real> {
    if f == None || f == Some("") then Some(0.0) else parseFloat(f.value)
  }

  /** A field whose text is present, non-empty and not a number. */
  predicate Malformed(f: Option<string>, parseFloat: Parser) {
    f.Some? && f.value != "" && parseFloat(f.value).None?
  }

  /** Reads one `det` element; `None` when one of its numeric fields raises. */
  function Extract(d: Det, parseFloat: Parser): (r: Option<Line>)
    ensures r.None? <==>
      Malformed(d.pICMS, parseFloat) || Malformed(d.vICMS, parseFloat) || Malformed(d.vProd, parseFloat)
      || Malformed(d.vBC, parseFloat) || Malformed(d.vCredPresumido, parseFloat)
    ensures r.Some? ==> r.value.nItem == ItemId(d) && r.value.ncm == CodeText(d.ncm) && r.value.cBenef == CodeText(d.cBenef)
    ensures r.Some? ==>
      && Number(d.pICMS, parseFloat) == Some(r.value.pICMS) && Number(d.vICMS, parseFloat) == Some(r.value.vICMS)
      && Number(d.vProd, parseFloat) == Some(r.value.vProd) && Number(d.vBC, parseFloat) == Some(r.value.vBC)
      && Number(d.vCredPresumido, parseFloat) == Some(r.value.vCredPresumido)
  {
    var pICMS := Number(d.pICMS, parseFloat);
    var vICMS := Number(d.vICMS, parseFloat);
    var vProd := Number(d.vProd, parseFloat);
    var vBC := Number(d.vBC, parseFloat);
    var vCred := Number(d.vCredPresumido, parseFloat);
    if pICMS.None? || vICMS.None? || vProd.None? || vBC.None? || vCred.None? then None
    else Some(Line(ItemId(d), CodeText(d.ncm), pICMS.value, vICMS.value, vProd.value, vBC.value,
                   CodeText(d.cBenef), vCred.value))
  }

  /** The row of line `l` computed with percentage `perc`. */
  function MakeRow(l: Line, perc: real): Row {
    var recalculo := Recalculo(ModeOf(l.vProd, l.vBC), perc, l.vICMS, l.vProd);
    Row(l.nItem, l.ncm, l.pICMS, l.vICMS, l.vProd, l.vBC, perc, recalculo,
        l.vCredPresumido, recalculo - l.vCredPresumido, l.cBenef)
  }

  /** The percentage line `l`'s own rate selects, if any rule matches it. */
  function OwnPercent(l: Line, ctx: Context): Option<real> {
    SelectPercent(ModeOf(l.vProd, l.vBC), l.pICMS, l.ncm, ctx)
  }

  /** The percentage variable after line `l`'s selection chain, given the value it held before. */
  function PercAfter(l: Line, ctx: Context, carried: Option<real>): Option<real> {
    var own := OwnPercent(l, ctx);
    if own.Some? then own else carried
  }

  /** What the run has built so far: the rows, the warnings and the percentage variable (`None` while unbound). */
  datatype State = State(dados: seq<Row>, warnings: seq<Warning>, perc: Option<real>)

  const Initial: State := State([], [], None)

  /** One iteration of the loop over `det` elements. */
  function Step(s: State, d: Det, ctx: Context, parseFloat: Parser): State {
    match Extract(d, parseFloat)
    case None => State(s.dados, s.warnings + [Warning(ItemId(d), MalformedNumber)], s.perc)
    case Some(l) =>
      var p := PercAfter(l, ctx, s.perc);
      if p.None? then State(s.dados, s.warnings + [Warning(l.nItem, UnboundPercentage)], s.perc)
      else State(s.dados + [MakeRow(l, p.value)], s.warnings, p)
  }

  /** The loop over `dets` started from state `s`. */
  function RunFrom(s: State, dets: seq<Det>, ctx: Context, parseFloat: Parser): State
    decreases |dets|
  {
    if dets == [] then s
    else Step(RunFrom(s, dets[..|dets| - 1], ctx, parseFloat), dets[|dets| - 1], ctx, parseFloat)
  }

  /** The whole run over the `det` elements of one document. */
  function Run(dets: seq<Det>, ctx: Context, parseFloat: Parser): State {
    RunFrom(Initial, dets, ctx, parseFloat)
  }

  /**
   * `processar_xml_conferencia` after XML parsing: the `det` elements in
   * document order, the two screen choices, and Python's `float`. Returns the
   * result rows and the warnings issued for skipped items.
   */
  method ProcessarXmlConferencia(dets: seq<Det>, clienteSimples: string, industria10Icms: string, parseFloat: Parser)
    returns (dados: seq<Row>, warnings: seq<Warning>)
    ensures var ctx := Context(clienteSimples, industria10Icms);
      dados == Run(dets, ctx, parseFloat).dados && warnings == Run(dets, ctx, parseFloat).warnings
    ensures |dados| + |warnings| == |dets|
  {
    var ctx := Context(clienteSimples, industria10Icms);
    dados, warnings := [], [];
    var perc: Option<real> := None;
    for i := 0 to |dets|
      invariant State(dados, warnings, perc) == RunFrom(Initial, dets[..i], ctx, parseFloat)
    {
      var det := dets[i];
      ghost var before := State(dados, warnings, perc);
      var line := Extract(det, parseFloat);
      if line.None? {
        warnings := warnings + [Warning(ItemId(det), MalformedNumber)];
      } else {
        var l := line.value;
        var mode := ModeOf(l.vProd, l.vBC);
        var selected := SelectPercent(mode, l.pICMS, l.ncm, ctx);
        if selected.Some? {
          perc := selected;
        }
        if perc.None? {
          warnings := warnings + [Warning(l.nItem, UnboundPercentage)];
        } else {
          var recalculo := Recalculo(mode, perc.value, l.vICMS, l.vProd);
          var diferenca := recalculo - l.vCredPresumido;
          dados := dados + [Row(l.nItem, l.ncm, l.pICMS, l.vICMS, l.vProd, l.vBC, perc.value, recalculo,
                                l.vCredPresumido, diferenca, l.cBenef)];
        }
      }
      assert State(dados, warnings, perc) == Step(before, det, ctx, parseFloat);
      assert dets[..i + 1] == dets[..i] + [det];
      RunFromSnoc(Initial, dets[..i], det, ctx, parseFloat);
    }
    assert dets[..|dets|] == dets;
    OneOutcomePerDet(dets, ctx, parseFloat);
  }

  /** Every `det` yields exactly one row or exactly one warning. */
  lemma {:induction false} OneOutcomePerDet(dets: seq<Det>, ctx: Context, parseFloat: Parser)
    ensures |Run(dets, ctx, parseFloat).dados| + |Run(dets, ctx, parseFloat).warnings| == |dets|
    decreases |dets|
  {
    if dets != [] {
      OneOutcomePerDet(dets[..|dets| - 1], ctx, parseFloat);
    }
  }

  /**
   * A run from any state only appends to that state's rows and warnings, and
   * what it appends depends on nothing but the percentage variable it starts with.
   */
  lemma {:induction false} RunFromExtends(s: State, dets: seq<Det>, ctx: Context, parseFloat: Parser)
    ensures var r := RunFrom(State([], [], s.perc), dets, ctx, parseFloat);
      RunFrom(s, dets, ctx, parseFloat) == State(s.dados + r.dados, s.warnings + r.warnings, r.perc)
    decreases |dets|
  {
    if dets != [] {
      RunFromExtends(s, dets[..|dets| - 1], ctx, parseFloat);
    }
  }

  /** Running over `a + b` is running over `a`, then over `b` from where `a` left off. */
  lemma {:induction false} RunFromAppend(s: State, a: seq<Det>, b: seq<Det>, ctx: Context, parseFloat: Parser)
    ensures RunFrom(s, a + b, ctx, parseFloat) == RunFrom(RunFrom(s, a, ctx, parseFloat), b, ctx, parseFloat)
    decreases |b|
  {
    if b == [] {
      assert a + b == a;
    } else {
      var b' := b[..|b| - 1];
      assert (a + b)[..|a + b| - 1] == a + b';
      RunFromAppend(s, a, b', ctx, parseFloat);
    }
  }

  /** One more line at the end of a run is one more `Step`. */
  lemma RunFromSnoc(s: State, dets: seq<Det>, d: Det, ctx: Context, parseFloat: Parser)
    ensures RunFrom(s, dets + [d], ctx, parseFloat) == Step(RunFrom(s, dets, ctx, parseFloat), d, ctx, parseFloat)
  {
  }

  /**
   * Rows keep document order: the rows of a document are the rows of its first
   * part followed by the rows of the rest, which see only the percentage left
   * by the first part.
   */
  lemma DocumentOrder(a: seq<Det>, b: seq<Det>, ctx: Context, parseFloat: Parser)
    ensures var ra := Run(a, ctx, parseFloat);
      var rb := RunFrom(State([], [], ra.perc), b, ctx, parseFloat);
      && Run(a + b, ctx, parseFloat).dados == ra.dados + rb.dados
      && Run(a + b, ctx, parseFloat).warnings == ra.warnings + rb.warnings
  {
    RunFromAppend(Initial, a, b, ctx, parseFloat);
    RunFromExtends(Run(a, ctx, parseFloat), b, ctx, parseFloat);
  }

  /**
   * A line with a malformed number is skipped on its own: the rows are those of
   * the document without it, and its warning sits between the warnings of the
   * lines before and after it.
   */
  lemma MalformedLineIsolated(a: seq<Det>, d: Det, b: seq<Det>, ctx: Context, parseFloat: Parser)
    requires Extract(d, parseFloat).None?
    ensures var before := Run(a, ctx, parseFloat).warnings;
      var without := Run(a + b, ctx, parseFloat);
      && Run(a + [d] + b, ctx, parseFloat).dados == without.dados
      && |before| <= |without.warnings|
      && Run(a + [d] + b, ctx, parseFloat).warnings
         == before + [Warning(ItemId(d), MalformedNumber)] + without.warnings[|before|..]
  {
    var ra := Run(a, ctx, parseFloat);
    RunFromAppend(Initial, a + [d], b, ctx, parseFloat);
    RunFromAppend(Initial, a, [d], ctx, parseFloat);
    assert RunFrom(ra, [d], ctx, parseFloat) == Step(ra, d, ctx, parseFloat);
    var rd := Step(ra, d, ctx, parseFloat);
    assert rd.perc == ra.perc && rd.dados == ra.dados;
    RunFromExtends(rd, b, ctx, parseFloat);
    DocumentOrder(a, b, ctx, parseFloat);
  }

  /** A line is classified when its numbers parse and a rule matches its own rate. */
  predicate Classified(d: Det, ctx: Context, parseFloat: Parser) {
    Extract(d, parseFloat).Some? && OwnPercent(Extract(d, parseFloat).value, ctx).Some?
  }

  /** The row a classified line gets from its own fields alone. */
  function OwnRow(d: Det, ctx: Context, parseFloat: Parser): Row
    requires Classified(d, ctx, parseFloat)
  {
    var l := Extract(d, parseFloat).value;
    MakeRow(l, OwnPercent(l, ctx).value)
  }

  /**
   * When every line is classified, nothing leaks between lines: there is no
   * warning, and row i is the row of line i computed from that line alone.
   */
  lemma {:induction false} ClassifiedLinesIndependent(dets: seq<Det>, ctx: Context, parseFloat: Parser)
    requires forall i :: 0 <= i < |dets| ==> Classified(dets[i], ctx, parseFloat)
    ensures Run(dets, ctx, parseFloat).warnings == []
    ensures |Run(dets, ctx, parseFloat).dados| == |dets|
    ensures forall i :: 0 <= i < |dets| ==> Run(dets, ctx, parseFloat).dados[i] == OwnRow(dets[i], ctx, parseFloat)
    decreases |dets|
  {
    if dets != [] {
      var init := dets[..|dets| - 1];
      ClassifiedLinesIndependent(init, ctx, parseFloat);
      forall i | 0 <= i < |dets| - 1
        ensures Run(dets, ctx, parseFloat).dados[i] == OwnRow(dets[i], ctx, parseFloat)
      {
        assert init[i] == dets[i];
      }
    }
  }

  /**
   * The percentage last assigned by the selection chain over `dets`: the own
   * percentage of the last line that parses and whose rate a rule matches, or
   * `None` when there is no such line.
   */
  function LastAssigned(dets: seq<Det>, ctx: Context, parseFloat: Parser): Option<real>
    decreases |dets|
  {
    if dets == [] then None
    else if Classified(dets[|dets| - 1], ctx, parseFloat) then OwnPercent(Extract(dets[|dets| - 1], parseFloat).value, ctx)
    else LastAssigned(dets[..|dets| - 1], ctx, parseFloat)
  }

  /** The percentage variable after a run is the one last assigned by one of its lines. */
  lemma {:induction false} PercIsLastAssigned(dets: seq<Det>, ctx: Context, parseFloat: Parser)
    ensures Run(dets, ctx, parseFloat).perc == LastAssigned(dets, ctx, parseFloat)
    decreases |dets|
  {
    if dets != [] {
      PercIsLastAssigned(dets[..|dets| - 1], ctx, parseFloat);
    }
  }

  /**
   * A line whose rate no rule matches takes the percentage last assigned by an
   * earlier line; when no earlier line assigned one, the line is skipped with an
   * unbound-percentage warning and nothing else changes.
   */
  lemma UnmatchedRateStep(a: seq<Det>, d: Det, ctx: Context, parseFloat: Parser)
    requires Extract(d, parseFloat).Some?
    requires OwnPercent(Extract(d, parseFloat).value, ctx).None?
    ensures var last := LastAssigned(a, ctx, parseFloat);
      last.Some? ==>
        && Run(a + [d], ctx, parseFloat).dados
           == Run(a, ctx, parseFloat).dados + [MakeRow(Extract(d, parseFloat).value, last.value)]
        && Run(a + [d], ctx, parseFloat).warnings == Run(a, ctx, parseFloat).warnings
    ensures LastAssigned(a, ctx, parseFloat).None? ==>
      && Run(a + [d], ctx, parseFloat).dados == Run(a, ctx, parseFloat).dados
      && Run(a + [d], ctx, parseFloat).warnings
         == Run(a, ctx, parseFloat).warnings + [Warning(ItemId(d), UnboundPercentage)]
  {
    RunFromSnoc(Initial, a, d, ctx, parseFloat);
    PercIsLastAssigned(a, ctx, parseFloat);
  }

  /**
   * The row a line gets: the credit follows the delta formula exactly when
   * vProd differs from vBC and the percentage-of-ICMS formula exactly when they
   * are equal, and the difference is the recalculated minus the declared credit.
   */
  lemma RowFormulas(l: Line, perc: real)
    ensures var r := MakeRow(l, perc);
      && r.percPresumido == perc
      && (l.vProd != l.vBC ==> r.recalculo == l.vICMS - perc * l.vProd / 100.0)
      && (l.vProd == l.vBC ==> r.recalculo == l.vICMS * perc / 100.0)
      && r.diferenca == r.recalculo - l.vCredPresumido
      && r.nItem == l.nItem && r.ncm == l.ncm && r.cBenef == l.cBenef
      && r.pICMS == l.pICMS && r.vICMS == l.vICMS && r.vProd == l.vProd && r.vBC == l.vBC
      && r.vCredPresumido == l.vCredPresumido
  {
  }

  /** Absent or empty fields take their defaults: 0.0 for numbers, `'N/A'` for NCM and cBenef. */
  lemma FieldDefaults(d: Det, parseFloat: Parser)
    requires d.ncm in {None, Some("")} && d.cBenef in {None, Some("")}
    requires d.pICMS in {None, Some("")} && d.vICMS in {None, Some("")} && d.vProd in {None, Some("")}
    requires d.vBC in {None, Some("")} && d.vCredPresumido in {None, Some("")}
    ensures Extract(d, parseFloat) == Some(Line(ItemId(d), "N/A", 0.0, 0.0, 0.0, 0.0, "N/A", 0.0))
  {
  }

  /** The rate-4 steel/copper example: NCM 74055000, vICMS 40 and base equal to vProd give 85% and 34.0. */
  lemma ExampleSteelCopperRate4(ctx: Context)
    ensures var l := Line("1", "74055000", 4.0, 40.0, 1000.0, 1000.0, "N/A", 30.0);
      && OwnPercent(l, ctx) == Some(85.0)
      && MakeRow(l, 85.0).recalculo == 34.0
      && MakeRow(l, 85.0).diferenca == 4.0
  {
  }

  /** The rate-10 example without the industry flag: 64% of vICMS 50 is 32.0, matching the declared 32. */
  lemma ExampleRate10NotIndustry()
    ensures var ctx := Context("NÃO", "NÃO");
      var l := Line("1", "N/A", 10.0, 50.0, 500.0, 500.0, "N/A", 32.0);
      && OwnPercent(l, ctx) == Some(64.0)
      && MakeRow(l, 64.0).recalculo == 32.0
      && MakeRow(l, 64.0).diferenca == 0.0
  {
  }

  /** The rate-7 delta example: base 800 differs from vProd 1000, so 56 - 3.4 * 1000 / 100 = 22.0. */
  lemma ExampleRate7Delta(ctx: Context)
    ensures var l := Line("1", "N/A", 7.0, 56.0, 1000.0, 800.0, "N/A", 0.0);
      && OwnPercent(l, ctx) == Some(3.4)
      && MakeRow(l, 3.4).recalculo == 22.0
  {
  }
}
