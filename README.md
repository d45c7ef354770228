# Presumed-credit conference for NF-e invoices (TTD, Ato DIAT 35/2024)

This project models, in Dafny, the recalculation engine of the Santa Catarina
"Crédito Presumido TTD" conference tool (`Cbenef.py`). The tool reads the `det`
lines of an NF-e invoice, and for each line:

- it reads the tax fields with defaults: absent or empty numbers become 0.0, and
  an absent or empty NCM or cBenef becomes `N/A`;
- it picks the computation mode by comparing `vProd` with `vBC`;
- it picks a presumed-credit percentage from the rate table. The table depends
  on the ICMS rate (4, 7, 10 or 12%), on whether the NCM is one of the 30
  steel/copper codes (`Aco_Cobre`), and on the two on-screen choices
  ("Simples Nacional client" and "industry at 10% ICMS"; each is "SIM" or "NÃO");
- it recalculates the credit and its difference from the declared
  `vCredPresumido`;
- it appends a result row, or, when the line fails, shows a warning naming its
  item number and goes on.

Files:

- `wrappers.dfy`: the `Option` type.
- `credit_table.dfy` (module `CreditTable`): the steel/copper set, the mode
  choice, and both if/elif selection chains, each proved equal to the same table
  written as data. It also holds the credit formulas and the per-rate facts.
- `conferencia.dfy` (module `Conferencia`): field extraction with defaults. The
  loop is written twice: as a specification fold (`Step`, `RunFrom`, `Run`) and
  as the imperative method `ProcessarXmlConferencia`. The method keeps the
  percentage in one variable carried across lines, as the source does, and is
  proved equal to the fold. The lemmas about the whole run are here too.
- `scoped_percentage.dfy` (module `ScopedPercentage`): the corrected run, in
  which the percentage belongs to each line. Also the concrete example of the
  stale-percentage behaviour (see Findings).

Python's `float` on a non-empty field text is a parameter, `parseFloat`. It
returns `None` where `float` raises. Arithmetic is exact `real` arithmetic.
The two on-screen flags are strings compared with "SIM", as in the code, so any
other text counts as "no".

## Model

| member | source | states |
|---|---|---|
| CreditTable.DeltaPercent | Cbenef.py:37-45 | In delta mode a percentage is assigned exactly when the rate is a key of the delta table {4:1.0, 7:3.4, 10:3.6, 12:2.1}, and it is that table's entry |
| CreditTable.IcmsPercent | Cbenef.py:48-58 | In percentage-of-ICMS mode a percentage is assigned exactly when the rate is a key of the rule table {4: steel/copper 85/75, 7: 70, 10: industry flag 90/64, 12: Simples flag 70/82.5}, and it is that rule applied to the NCM and the flags |
| CreditTable.ClassifiedRates | Cbenef.py:37-58 | Both modes classify exactly the rates 4, 7, 10 and 12 |
| CreditTable.DeltaIgnoresContext | Cbenef.py:37-45 | In delta mode neither the NCM nor the two flags affect the percentage |
| CreditTable.DeltaRates | Cbenef.py:38-45 | Delta mode maps 4 to 1.0, 7 to 3.4, 10 to 3.6 and 12 to 2.1 |
| CreditTable.Rate4SteelCopper | Cbenef.py:49-50 | At 4% in percentage mode the percentage is 85 exactly when the NCM is in `Aco_Cobre`, and 75 exactly when it is not |
| CreditTable.Rate7Flat | Cbenef.py:51-52 | At 7% in percentage mode the percentage is always 70 |
| CreditTable.Rate10Industry | Cbenef.py:53-56 | At 10% in percentage mode the percentage is 90 exactly when the industry flag is "SIM", and 64 exactly when it is not |
| CreditTable.Rate12Simples | Cbenef.py:57-58 | At 12% in percentage mode the percentage is 70 exactly when the Simples flag is "SIM", and 82.5 exactly when it is not |
| CreditTable.PercentBounds | Cbenef.py:37-60 | For the percentage a line's own rate selects: it lies in 1.0..3.6 (delta) or 64..90 (percentage mode). So with that percentage the percentage-mode credit is between 64% and 90% of a non-negative vICMS, and the delta credit stays between vICMS − 3.6% and vICMS − 1% of a non-negative vProd. A percentage carried over from an earlier line is not bounded this way (see `ScopedPercentage.StaleCrossesModes`) |
| Conferencia.Extract | Cbenef.py:28-35 | A line fails exactly when one of its five numeric fields has non-empty text that does not parse. Otherwise each number is the parsed text (0.0 when absent or empty), NCM and cBenef are the text or `N/A`, and nItem is the attribute or `N/A` |
| Conferencia.FieldDefaults | Cbenef.py:28-35 | A line whose fields are all absent or empty reads as 0.0 for every number and `N/A` for NCM and cBenef |
| Conferencia.ProcessarXmlConferencia | Cbenef.py:20-80 | The loop, with the percentage carried across lines, returns exactly the rows and warnings of the fold `Run`. Rows plus warnings number the `det` elements |
| Conferencia.OneOutcomePerDet | Cbenef.py:26-78 | Every `det` yields exactly one row or one warning, never both, never neither |
| Conferencia.RunFromExtends | Cbenef.py:26-78 | The run only appends to the rows and warnings it starts with. What it appends depends only on the percentage it starts with |
| Conferencia.RunFromAppend | Cbenef.py:26-78 | Processing `a + b` is processing `a` and then `b` from the resulting state |
| Conferencia.DocumentOrder | Cbenef.py:26-64 | The rows of `a + b` are the rows of `a` followed by those of `b`, and the same holds for warnings. `b` sees only the percentage left by `a` |
| Conferencia.MalformedLineIsolated | Cbenef.py:27-78 | A line with a malformed number changes nothing else. The rows equal those of the document without it, and its warning (with its nItem) sits between the warnings of the lines before and after it |
| Conferencia.ClassifiedLinesIndependent | Cbenef.py:37-64 | When every line parses and its own rate is classified, there are no warnings, there is one row per line, and row i is computed from line i alone |
| Conferencia.PercIsLastAssigned | Cbenef.py:37-60 | After any run the percentage variable holds the own percentage of the last line that parsed and whose rate a rule matched, or is unbound when no such line exists |
| Conferencia.UnmatchedRateStep | Cbenef.py:37-78 | A line whose rate matches no rule gets a row with the percentage last assigned by an earlier line. When no earlier line assigned one, it is skipped with an unbound-percentage warning and the rows are unchanged |
| Conferencia.RowFormulas | Cbenef.py:47-76 | The credit uses vICMS − perc·vProd/100 exactly when vProd ≠ vBC, and vICMS·perc/100 exactly when vProd = vBC. The difference is the credit minus the declared vCredPresumido. The other fields are copied from the line |
| Conferencia.ExampleSteelCopperRate4 | Cbenef.py:49-62 | NCM 74055000 at 4%, vICMS 40, vProd = vBC = 1000, declared 30 gives 85%, credit 34.0 and difference 4.0 |
| Conferencia.ExampleRate10NotIndustry | Cbenef.py:53-62 | At 10% without the industry flag, vICMS 50 and declared 32 gives 64%, credit 32.0 and difference 0.0 |
| Conferencia.ExampleRate7Delta | Cbenef.py:37-47 | At 7% with vBC 800 ≠ vProd 1000 and vICMS 56, delta mode gives 3.4% and credit 22.0 |
| ScopedPercentage.LineOutcome | Cbenef.py:37-78 | Corrected per-line outcome. A line gets a row exactly when it parses and its own rate is classified, and that row is computed from the line alone. Otherwise it gets a warning with its nItem, of kind "unclassified rate" exactly when it parsed |
| ScopedPercentage.RunScopedAppend | Cbenef.py:26-78 | The corrected run of `a + b` is the corrected run of `a` followed by that of `b`, so no line affects another |
| ScopedPercentage.RunScopedOneOutcomePerDet | Cbenef.py:26-78 | The corrected run also yields exactly one row or warning per line |
| ScopedPercentage.ScopedAgreesWhenClassified | Cbenef.py:37-64 | When every line is classified, the corrected run and the source's run give the same rows and no warnings |
| ScopedPercentage.StalePercentageLeaks | Cbenef.py:37-60 | As written: an 18% line after a 4% steel line gets that line's 85% (credit 85.0 on vICMS 100) |
| ScopedPercentage.StaleCrossesModes | Cbenef.py:37-60 | As written: the 18% line in delta mode (vProd 1000, vBC 800) after the 4% steel line takes the percentage-mode 85%, so its credit is 100 − 850 = −750 |
| ScopedPercentage.UnboundWhenAlone | Cbenef.py:37-78 | As written: the same 18% line alone is skipped with an unbound-percentage warning |
| ScopedPercentage.ScopedReportsUnclassified | Cbenef.py:37-78 | Corrected: after the steel line, the 18% line is reported as unclassified and gets no row |

## Findings

| source | as written | input that shows it | evidently intended | confidence | as-written member | corrected member |
|---|---|---|---|---|---|---|
| Cbenef.py:37-60 | `perc_presumido_ttd` is never reset per line. A rate outside {4, 7, 10, 12} silently reuses the previous line's percentage, or is dropped by `UnboundLocalError` when there is none | line 1: NCM 74055000, pICMS 4, vICMS 40; line 2: pICMS 18, vICMS 100 (vProd = vBC). Line 2 gets 85% and credit 85.0; alone it is skipped. With vProd 1000 and vBC 800 (delta mode), line 2 takes the percentage-mode 85% and gets credit 100 − 850 = −750 | Each line's percentage comes from its own rate only. An unmatched rate is reported as unclassified (`ScopedPercentage.RunScopedAppend` proves no line affects another) | medium; not executed | ScopedPercentage.StalePercentageLeaks | ScopedPercentage.LineOutcome |

The code's behaviour in this case:

- A rate outside {4, 7, 10, 12} silently takes the percentage of the last earlier line whose rate matched (`Conferencia.PercIsLastAssigned`, `Conferencia.UnmatchedRateStep`).
- When no earlier line matched, `UnboundLocalError` is raised and caught, and the line is skipped with a warning.

The evidently intended behaviour is `ScopedPercentage.RunScoped`. Each line's percentage comes from its own rate only. An unmatched rate is reported as an "unclassified rate" warning for that line.

## Left out

- The Streamlit page: title, radio buttons, uploader, success and info messages, table display (Cbenef.py:1-8, 82-94, 110-111). The two radio choices are the `Context` parameter. `st.warning` is the returned list of warnings; it holds the item number and a cause, not the exception text.
- XML parsing (`ET.fromstring`, namespaced `findtext`). The model starts from the text found for each field of each `det`, in document order. A document that is not well-formed XML raises from `ET.fromstring` before the loop; that case is not modelled.
- Python's `float`: it is the parameter `parseFloat`. NaN and infinities, which `float` accepts, have no counterpart in `real`.
- IEEE floating point: comparisons (`pICMS == 4.00`, `vProd != vBC`) and the credit formulas use exact reals. So `3.4 * vProd / 100` is exact here and not rounded to a double.
- `round(x, 2)` on the output columns: rows hold the unrounded values, so the model says nothing about rounding.
- The pandas `DataFrame` and the Excel export (Cbenef.py:80, 96-109). The result is a plain sequence of rows.
