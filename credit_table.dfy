/**
 * The presumed-credit rate table of the TTD regime (Ato DIAT 35/2024): which
 * percentage applies to an invoice line and how the recalculated credit follows
 * from it. The source writes each table as an if/elif chain; here each chain is
 * a function, and beside it the same table written as data, so that the chain
 * can be proved to be exactly that table.
 */
module CreditTable {
  import opened Wrappers

  /** NCM codes of steel and copper products (`Aco_Cobre`), which earn 85% instead of 75% at 4% ICMS when vProd equals vBC. */
  const AcoCobre: set<string> := {
    "74055000", "74031100", "74031200", "73043910", "73043110", "72253000", "72193500",
    "72193400", "72193300", "72193200", "74031300", "72192300", "72191400", "72191300",
    "72191200", "72142000", "72106100", "72091800", "74032900", "74050000", "74072110",
    "74072120", "74081100", "72091700", "72091600", "74081900", "74091100", "74099000",
    "73251000", "73259910"
  }

  /** The two choices the user makes on screen; each is "SIM" or "NÃO". */
  datatype Context = Context(clienteSimples: string, industria10Icms: string)

  /** A flag counts as set only when it is exactly "SIM". */
  predicate Sim(flag: string) {
    flag == "SIM"
  }

  /**
   * How the credit is recalculated: `Delta` when the ICMS base differs from the
   * product value, `PercentOfIcms` when they are equal.
   */
  datatype Mode = Delta | PercentOfIcms

  function ModeOf(vProd: real, vBC: real): Mode {
    if vProd != vBC then Delta else PercentOfIcms
  }

  /** The delta-formula table as data: ICMS rate to presumed percentage. */
  const DeltaTable: map<real, real> := map[4.0 := 1.0, 7.0 := 3.4, 10.0 := 3.6, 12.0 := 2.1]

  datatype ContextFlag = ClienteSimples | Industria10Icms

  /** One entry of the percentage-of-ICMS table: a fixed percentage or one that depends on the line or the context. */
  datatype Rule =
    | Flat(perc: real)
    | BySteelCopper(inSet: real, otherwise: real)
    | ByFlag(flag: ContextFlag, yes: real, no: real)

  /** The percentage-of-ICMS table as data: ICMS rate to rule. */
  const PercentTable: map<real, Rule> := map[
    4.0 := BySteelCopper(85.0, 75.0),
    7.0 := Flat(70.0),
    10.0 := ByFlag(Industria10Icms, 90.0, 64.0),
    12.0 := ByFlag(ClienteSimples, 70.0, 82.5)
  ]

  function FlagValue(ctx: Context, f: ContextFlag): string {
    match f
    case ClienteSimples => ctx.clienteSimples
    case Industria10Icms => ctx.industria10Icms
  }

  function ApplyRule(rule: Rule, ncm: string, ctx: Context): real {
    match rule
    case Flat(p) => p
    case BySteelCopper(inSet, otherwise) => if ncm in AcoCobre then inSet else otherwise
    case ByFlag(f, yes, no) => if Sim(FlagValue(ctx, f)) then yes else no
  }

  /** The if/elif chain of the delta-formula branch; `None` when no branch assigns a percentage. */
  function DeltaPercent(pICMS: real): (r: Option<real>)
    ensures r.Some? <==> pICMS in DeltaTable
    ensures r.Some? ==> r.value == DeltaTable[pICMS]
  {
    if pICMS == 4.0 then Some(1.0)
    else if pICMS == 7.0 then Some(3.4)
    else if pICMS == 10.0 then Some(3.6)
    else if pICMS == 12.0 then Some(2.1)
    else None
  }

  /** The if/elif chain of the percentage-of-ICMS branch; `None` when no branch assigns a percentage. */
  function IcmsPercent(pICMS: real, ncm: string, ctx: Context): (r: Option<real>)
    ensures r.Some? <==> pICMS in PercentTable
    ensures r.Some? ==> r.value == ApplyRule(PercentTable[pICMS], ncm, ctx)
  {
    if pICMS == 4.0 then Some(if ncm in AcoCobre then 85.0 else 75.0)
    else if pICMS == 7.0 then Some(70.0)
    else if pICMS == 10.0 && ctx.industria10Icms == "SIM" then Some(90.0)
    else if pICMS == 10.0 then Some(64.0)
    else if pICMS == 12.0 then Some(if ctx.clienteSimples == "SIM" then 70.0 else 82.5)
    else None
  }

  /** The percentage the selection chain of the given mode assigns, if any. */
  function SelectPercent(mode: Mode, pICMS: real, ncm: string, ctx: Context): Option<real> {
    match mode
    case Delta => DeltaPercent(pICMS)
    case PercentOfIcms => IcmsPercent(pICMS, ncm, ctx)
  }

  /** The recalculated presumed credit of a line under the given mode and percentage. */
  function Recalculo(mode: Mode, perc: real, vICMS: real, vProd: real): real {
    match mode
    case Delta => vICMS - perc * vProd / 100.0
    case PercentOfIcms => vICMS * perc / 100.0
  }

  /** Both tables classify the same four ICMS rates, 4, 7, 10 and 12 percent, and no other. */
  lemma ClassifiedRates(pICMS: real, ncm: string, ctx: Context)
    ensures SelectPercent(Delta, pICMS, ncm, ctx).Some? <==> pICMS in {4.0, 7.0, 10.0, 12.0}
    ensures SelectPercent(PercentOfIcms, pICMS, ncm, ctx).Some? <==> pICMS in {4.0, 7.0, 10.0, 12.0}
  {
  }

  /** In delta mode neither the NCM code nor the two flags play any part. */
  lemma DeltaIgnoresContext(pICMS: real, ncm1: string, ctx1: Context, ncm2: string, ctx2: Context)
    ensures SelectPercent(Delta, pICMS, ncm1, ctx1) == SelectPercent(Delta, pICMS, ncm2, ctx2)
  {
  }

  /** The delta table: 4% gives 1.0, 7% gives 3.4, 10% gives 3.6, 12% gives 2.1. */
  lemma DeltaRates(ncm: string, ctx: Context)
    ensures SelectPercent(Delta, 4.0, ncm, ctx) == Some(1.0)
    ensures SelectPercent(Delta, 7.0, ncm, ctx) == Some(3.4)
    ensures SelectPercent(Delta, 10.0, ncm, ctx) == Some(3.6)
    ensures SelectPercent(Delta, 12.0, ncm, ctx) == Some(2.1)
  {
  }

  /** At 4% ICMS: 85% exactly when the NCM is a steel or copper code, otherwise 75%. */
  lemma Rate4SteelCopper(ncm: string, ctx: Context)
    ensures SelectPercent(PercentOfIcms, 4.0, ncm, ctx) == Some(85.0) <==> ncm in AcoCobre
    ensures SelectPercent(PercentOfIcms, 4.0, ncm, ctx) == Some(75.0) <==> ncm !in AcoCobre
  {
  }

  /** At 7% ICMS the percentage is 70% whatever the NCM and the flags. */
  lemma Rate7Flat(ncm: string, ctx: Context)
    ensures SelectPercent(PercentOfIcms, 7.0, ncm, ctx) == Some(70.0)
  {
  }

  /** At 10% ICMS: 90% exactly when the industry flag is "SIM", otherwise 64%. */
  lemma Rate10Industry(ncm: string, ctx: Context)
    ensures SelectPercent(PercentOfIcms, 10.0, ncm, ctx) == Some(90.0) <==> Sim(ctx.industria10Icms)
    ensures SelectPercent(PercentOfIcms, 10.0, ncm, ctx) == Some(64.0) <==> !Sim(ctx.industria10Icms)
  {
  }

  /** At 12% ICMS: 70% exactly when the Simples Nacional flag is "SIM", otherwise 82.5%. */
  lemma Rate12Simples(ncm: string, ctx: Context)
    ensures SelectPercent(PercentOfIcms, 12.0, ncm, ctx) == Some(70.0) <==> Sim(ctx.clienteSimples)
    ensures SelectPercent(PercentOfIcms, 12.0, ncm, ctx) == Some(82.5) <==> !Sim(ctx.clienteSimples)
  {
  }

  /**
   * For the percentage a line's own rate selects: it lies in 1.0..3.6 in delta
   * mode and in 64..90 in percentage mode; so, for a non-negative ICMS value, the
   * percentage-mode credit lies between 64% and 90% of that value, and for a
   * non-negative product value the delta-mode credit never exceeds the ICMS value.
   * A percentage carried over from an earlier line is not bounded this way.
   */
  lemma PercentBounds(mode: Mode, pICMS: real, ncm: string, ctx: Context, vICMS: real, vProd: real)
    requires SelectPercent(mode, pICMS, ncm, ctx).Some?
    ensures var p := SelectPercent(mode, pICMS, ncm, ctx).value;
      && (mode == Delta ==> 1.0 <= p <= 3.6)
      && (mode == PercentOfIcms ==> 64.0 <= p <= 90.0)
      && (mode == PercentOfIcms && vICMS >= 0.0 ==>
            vICMS * 64.0 / 100.0 <= Recalculo(mode, p, vICMS, vProd) <= vICMS * 90.0 / 100.0)
      && (mode == Delta && vProd >= 0.0 ==>
            vICMS - vProd * 3.6 / 100.0 <= Recalculo(mode, p, vICMS, vProd) <= vICMS - vProd / 100.0)
  {
  }
}
