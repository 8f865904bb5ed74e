# PCP-TOC planning engine and reports, modelled in Dafny

This project models the planning core of a production-planning (PCP) tool. The tool follows the Theory of Constraints (TOC) for a job shop, and the model has two parts.

**The planning cycle `executar_ciclo_pcp`** (module `EnginePcp`). The cycle:
1. checks that the sheet has the five required columns;
2. resolves the parameters, falling back to defaults;
3. computes each row's adjusted time: `quantidade × tempo_processamento / eficiencia + setup`;
4. groups the rows by resource into a load table, with each resource's load and utilisation;
5. takes the resource of greatest utilisation as the bottleneck (`gargalo`);
6. ranks the bottleneck's rows by earliest due date, numbered 1..N;
7. accumulates their adjusted times (`tempo_acumulado`) and clips each running time beyond the available hours into a delay (`atraso`);
8. adds up the delays into `atraso_total`.

**The enterprise layer** (module `PcpEmpresarial`) covers:
- how the two importers assemble orders: the operation lines carrying the order's id, sorted by `ordem`, with priority 5 by default;
- the three management reports of `RelatoriosAvancados`: the KPI table, the critical-orders list and the capacity table.

Supporting modules:
- `Wrappers`: `Option` and `Result`.
- `Lexico`: Python's string order, and the sorted insertion that produces `groupby` keys.
- `Sums`: column sum, `cumsum` and mean over exact reals.
- `StableSort`: a stable sort on a real key. It stands in for `sort_values`, `list.sort` and `sorted`.
- `EngineExamples`: worked cycles.

Modelling choices:
- Hours are exact `real`s.
- Dates are integer day numbers.
- A data frame is a sequence of rows plus its set of column names.
- The base planning module is not part of this model. It provides `Pedido`, `Recurso`, the buffer-zone classifier and the resource utilisation. Orders and resources are datatypes that carry only the fields the reports read. The classifier (`real -> string`) and the utilisation (`Recurso -> real`) are function parameters.

Two tie rules are fixed deterministically, because pandas' default `sort_values` does not promise a stable order:
- The bottleneck is the first line of greatest utilisation in the load table. `groupby` emits its keys in string order, so this is the smallest resource name among those tied at the maximum.
- The due-date ranking is stable: rows with equal due dates keep their sheet order.

## Model

| member | source | states |
|---|---|---|
| EnginePcp.ExecutarCiclo | engine/engine_pcp.py:4-109 | The cycle fails with the expected and received column sets exactly when a required column is missing. With the columns present and no rows it fails for want of a bottleneck. It succeeds exactly when the columns are present, there are rows, and both available hours and efficiency are non-zero. |
| EnginePcp.ResolveParams | engine/engine_pcp.py:44-46 | Each parameter takes the caller's value when given. Otherwise available hours default to 8.0, efficiency to 1.0 and setup to 0.0. |
| EnginePcp.TempoAjustado | engine/engine_pcp.py:52-55 | With non-negative quantity and unit time and positive efficiency, the adjusted time is at least the setup. A zero quantity costs exactly the setup. |
| EnginePcp.OnResource | engine/engine_pcp.py:85 | The mask `df["recurso"] == g` yields rows of resource g only, and no more rows than the sheet has. |
| EnginePcp.OnResourceCount | engine/engine_pcp.py:85 | The filter `df[df["recurso"] == g]` keeps every row of resource g as often as it occurs in the sheet, and no other row. |
| EnginePcp.Recursos | engine/engine_pcp.py:60-63 | The group keys are strictly increasing in string order. A name is a key exactly when some row uses it. |
| EnginePcp.LoadTable | engine/engine_pcp.py:60-70 | One line per group key, in key order. Each line holds the sum of its resource's adjusted times, capacity equal to the available hours, and utilisation equal to load over hours. |
| EnginePcp.LoadTableOnePerResource | engine/engine_pcp.py:60-65 | The table's resources are strictly increasing, so none repeats. A resource is in the table exactly when it is in the sheet. |
| EnginePcp.LoadConservation | engine/engine_pcp.py:60-65 | The table's loads add up to the adjusted time of the whole sheet: grouping neither loses nor invents work. |
| EnginePcp.FirstMax | engine/engine_pcp.py:75-79 | The chosen line has the greatest utilisation, and every earlier line has strictly less, so it is the first maximum. |
| EnginePcp.Gargalo | engine/engine_pcp.py:75-79 | The bottleneck picked from a non-empty sheet is one of the sheet's resources. |
| EnginePcp.BottleneckChoice | engine/engine_pcp.py:75-79 | The bottleneck is a resource of the sheet and no resource has greater utilisation. Any resource tied with it has a greater name. |
| EnginePcp.BottleneckAgainst | engine/engine_pcp.py:75-79 | The same comparison between the bottleneck and any one resource of the sheet. |
| EnginePcp.BottleneckUnique | engine/engine_pcp.py:75-79 | At most one resource meets the bottleneck condition, so the choice does not depend on traversal order. |
| EnginePcp.EddQueue | engine/engine_pcp.py:84-88 | The earliest-due-date queue is a rearrangement of the resource's rows, each with its multiplicity, and holds rows of that resource only. |
| EnginePcp.RankQueue | engine/engine_pcp.py:90-98 | A ranked queue has one line per queue row, carrying that row, positions numbered 1..N. Each delay is 0 or the running time beyond the available hours, whichever is larger, so it is never negative. |
| EnginePcp.Ranking | engine/engine_pcp.py:84-98 | The ranking has one line per row of the resource. Every line is a row of that resource, and positions run 1..N. |
| EnginePcp.RankingIsEdd | engine/engine_pcp.py:84-90 | The ranking holds exactly the bottleneck's rows, each with its sheet multiplicity, in non-decreasing due-date order. Rows with equal due dates keep sheet order. Positions run 1..N. |
| EnginePcp.RankQueueRows | engine/engine_pcp.py:84-88 | The ranked queue lists the queue's rows in queue order. |
| EnginePcp.RankingTimes | engine/engine_pcp.py:91-98 | Each line's running time is the sum of the ranking's adjusted times up to and including that line. Its delay is the running time beyond the available hours, or 0 when within them, and is never negative. |
| EnginePcp.RankingMonotone | engine/engine_pcp.py:91-98 | With non-negative inputs, running time and delay never decrease down the ranking. |
| EnginePcp.RankingEndsAtLoad | engine/engine_pcp.py:60-62 | The last running time equals the resource's total load from the load table. |
| EnginePcp.RankingNonEmpty | engine/engine_pcp.py:84-88 | A resource that appears in the sheet gets a non-empty ranking. |
| EnginePcp.TotalDelay | engine/engine_pcp.py:96-100 | The total delay is never negative. With non-negative inputs it is 0 exactly when the bottleneck's load fits in the available hours. |
| EnginePcp.AtrasoTotal | engine/engine_pcp.py:100 | An empty ranking has total delay 0. When no delay is negative, the total is non-negative, and it is 0 exactly when every delay is 0. |
| EnginePcp.CyclePlan | engine/engine_pcp.py:75-109 | A successful plan has: the bottleneck the load table selects, which meets the bottleneck condition; the EDD ranking of that resource, which is non-empty; and a total delay equal to the sum of the ranking's delays, never negative. |
| EnginePcp.Clip | engine/engine_pcp.py:96-98 | `clip(lower=0)`: the result is at least 0 and at least the input, and is either 0 or the input. So it is the larger of 0 and the input. |
| Lexico.InsertKey | engine/engine_pcp.py:61 | Inserting a key into a strictly sorted key list keeps it strictly sorted. The result contains the old keys plus the new one, and is unchanged when the key is already present. |
| Lexico.StrLtTransitive | engine/engine_pcp.py:61 | Python's string order is transitive. |
| Lexico.StrLtTotal | engine/engine_pcp.py:61 | Of two distinct strings, one is smaller. |
| Sums.ScanIsRunningTotal | engine/engine_pcp.py:91 | Entry i of a running total started at acc is acc plus the sum of entries 0..i. |
| Sums.PrefixSumsAreSums | engine/engine_pcp.py:91 | Entry i of `cumsum` is the sum of entries 0..i. |
| Sums.PrefixSumsMonotone | engine/engine_pcp.py:91 | Over non-negative values `cumsum` never decreases, and its last entry is the column's sum. |
| Sums.SumZeroIffAllZero | engine/engine_pcp.py:100 | A non-negative column sums to zero exactly when every entry is zero. |
| Sums.Mean | engine/pcp_empresarial.py:210-214 | The mean of an empty column is 0. Otherwise it is the total divided evenly: the mean times the number of entries equals the column's sum. It also lies between any lower and any upper bound of the entries. |
| StableSort.SortByPermutes | engine/engine_pcp.py:86 | The sort is a permutation of its input. |
| StableSort.SortBySorted | engine/engine_pcp.py:86 | The sort's keys never decrease. |
| StableSort.SortByStable | engine/engine_pcp.py:86 | For every key, the elements with that key appear in input order. |
| StableSort.SortBySum | engine/engine_pcp.py:86 | Sorting does not change the total of any computed column. |
| StableSort.SortBySortedIsIdentity | engine/pcp_empresarial.py:89 | Input already in key order comes back unchanged. |
| StableSort.SortByIdempotent | engine/pcp_empresarial.py:89 | Sorting twice is sorting once. |
| EngineExamples.SingleResourceCycle | engine/engine_pcp.py:84-100 | Three orders on one resource with 8 hours available, adjusted times 5, 4, 2 and due days 1, 2, 3. They are ranked 1, 2, 3, accumulate 5, 9, 11 hours, are late 0, 1, 3 hours, and 4 hours in all. |
| EngineExamples.TieGoesToSmallerName | engine/engine_pcp.py:75-79 | CNC_1 and CNC_2 are both at 90% utilisation, and CNC_1 is the bottleneck. |
| PcpEmpresarial.OperacoesDoExact | engine/pcp_empresarial.py:75-86 | An order gets as many operations as there are operation lines carrying its id. Every such line yields an operation, and every operation comes from such a line. |
| PcpEmpresarial.Posicoes | engine/pcp_empresarial.py:75 | The selected positions are strictly increasing sheet positions. Each holds a line with the id, and every line with the id is among them. |
| PcpEmpresarial.OperacoesDoInSheetOrder | engine/pcp_empresarial.py:75-86 | Operation j is the j-th line carrying the id, in sheet order, converted field by field. So the operations are the id's lines mapped one to one, with multiplicity and order kept. |
| PcpEmpresarial.OperacoesDo | engine/pcp_empresarial.py:75-86 | An order never gets more operations than the sheet has lines. |
| PcpEmpresarial.MontarPedido | engine/pcp_empresarial.py:88-101 | An assembled order keeps the line's id, client and due date, and is entered at the import time. Its operations are a permutation of the given ones, sorted by `ordem`, with equal `ordem` in input order. Its priority is the given one, or 5 when absent. |
| PcpEmpresarial.ImportarPedidosPlanilha | engine/pcp_empresarial.py:71-102 | One order per `Pedidos` line, in sheet order. Each is assembled from that line and the operation lines carrying its id. |
| PcpEmpresarial.ImportedOrder | engine/pcp_empresarial.py:71-102 | Each order imported from the spreadsheet holds its id's operation lines, each as often as it occurs. They are sorted stably by `ordem`. The priority defaults to 5 and the entry date is the import time. |
| PcpEmpresarial.ImportarPedidosJson | engine/pcp_empresarial.py:163-184 | One order per JSON object, in file order. Each keeps its id, client and due date, and is entered at the import time. Its operations are a permutation of the object's, sorted by `ordem`, with equal `ordem` in file order. Its priority defaults to 5. |
| PcpEmpresarial.AtivosCount | engine/pcp_empresarial.py:198 | The active orders are exactly the orders not concluded, each with its multiplicity in the snapshot. |
| PcpEmpresarial.Ativos | engine/pcp_empresarial.py:198 | The active list holds no concluded order and is no longer than the snapshot. |
| PcpEmpresarial.CountZone | engine/pcp_empresarial.py:202-207 | A zone count never exceeds the number of orders counted. |
| PcpEmpresarial.ZoneCountsBounded | engine/pcp_empresarial.py:202-207 | Green, yellow and red counts together never exceed the number of orders counted. |
| PcpEmpresarial.ZoneCountActive | engine/pcp_empresarial.py:198-207 | Counting a zone among the active orders gives the number of positions in the whole snapshot whose order is not concluded and is classified in that zone. |
| PcpEmpresarial.RelatorioKpis | engine/pcp_empresarial.py:194-239 | The KPI table holds the following: <br>• The order total counts every order, concluded ones included. <br>• Each zone count is the number of snapshot orders that are not concluded and fall in that zone; together they stay within the active count. <br>• The bottleneck is the system's current one. <br>• The mean lead time is 0 with no orders. Otherwise it times the number of orders is the sum of the lead times, and it lies between the smallest and the largest lead time. <br>• The mean utilisation is absent exactly when there are no resources. Otherwise it times the number of resources is the sum of the utilisations, and it lies between the smallest and the largest utilisation. |
| PcpEmpresarial.SlicePrefix | engine/pcp_empresarial.py:247 | Python's `[:n]`: a prefix of length min(n, len) for n ≥ 0. For negative n, all but the last -n elements. |
| PcpEmpresarial.PedidosCriticos | engine/pcp_empresarial.py:244-247 | The critical list is a prefix of the active orders sorted by penetration, highest first, and is no longer than the active list. |
| PcpEmpresarial.CriticalActive | engine/pcp_empresarial.py:244-247 | For top_n ≥ 0 the critical list has min(top_n, number of active orders) entries, and every entry is an active order of the snapshot. |
| PcpEmpresarial.CriticalOrdered | engine/pcp_empresarial.py:247 | Penetration never increases down the list. For each penetration value the listed orders are a prefix, in snapshot order, of the active orders with that value. |
| PcpEmpresarial.CriticalLeftOutBelow | engine/pcp_empresarial.py:244-247 | No active order left out of the list has a higher penetration than any listed one. |
| PcpEmpresarial.RelatorioPedidosCriticos | engine/pcp_empresarial.py:242-264 | With `top_n` 10 by default, line i of the report describes order i of the critical list, and the report has the list's length. Its penetrations never increase and it lists no concluded order. Each line's zone and days left come from an order of the snapshot with that id. |
| PcpEmpresarial.PercentualUso | engine/pcp_empresarial.py:276 | 0 when capacity is not positive, so no division happens. Otherwise percentage × capacity = load × 100, and the result is within 0..100 when 0 ≤ load ≤ capacity. |
| PcpEmpresarial.PercentBelowHundred | engine/pcp_empresarial.py:275-276 | With positive capacity, use is at most 100% exactly when the load fits in the capacity. |
| PcpEmpresarial.RelatorioCapacidade | engine/pcp_empresarial.py:267-287 | With 30 days by default, the capacity table has one line per resource, in dict order. Each line holds: capacity = hours per day × days; available + planned = capacity; use is the planned load as a percentage of capacity, 0 for non-positive capacity; use ≤ 100% exactly when available ≥ 0; status GARGALO exactly for the current bottleneck. With unique names, at most one line is marked. |

## Left out

- File and spreadsheet I/O, JSON parsing, printing and export are left out: `read_excel`, `read_csv`, `json.load`, `ExcelWriter`, `criar_template_excel`, `exportar_para_excel`. The model takes already-parsed rows.
- The importers' resource part is left out: `importar_recursos_csv` and the `recursos` half of `importar_json`.
- `datetime.now()` is a parameter (`agora`), and the report's `data_atual` is a field of the snapshot.
- Type coercion (`astype`, `pd.to_datetime`, `strptime`, `int`, `float`) is assumed done, and ids arrive as strings.
- ImportarPedidosPlanilha: the spreadsheet importer strips and stringifies the `Pedidos` id (engine/pcp_empresarial.py:72) but matches it against the raw `ID_Pedido` column of `Operacoes` (engine/pcp_empresarial.py:75). An operation whose id cell is numeric or padded with spaces therefore matches no order, and that order silently gets no operations. The model compares two already-clean strings, so it does not show this mismatch.
- Rounding and text formatting of report values (`round(..., 1)`, `f"{...:.1f}%"`) are presentation and are left out.
- The web layer (app/api.py, app/__init__.py) is transport and configuration and is not part of this model.
- The base planning module (`pcp_toc_jobshop`) is not part of this model. Its zone classifier, resource utilisation and buffer penetration are parameters or fields, and no thresholds are assumed.
- Dates are whole day numbers, so `timedelta.days` on datetimes with a time of day is not modelled.
- Hours are exact reals, not IEEE floats. The source would silently produce inf or NaN when efficiency or available hours is zero. `EnginePcp.ExecutarCiclo` returns a `DivisaoPorZero` error instead.
- EnginePcp.ExecutarCiclo: with no rows the load table is empty and `.iloc[0]` raises in the source. The model turns that exception into the `SemGargalo` error.
- EnginePcp.Ranked: a ranking line keeps the row's five modelled columns, its adjusted time, position, running time and delay. The source's ranking frame also carries any further sheet columns and `tempo_requerido`. Those are copied through unchanged and are not modelled.
- PcpEmpresarial.RelatorioKpis: numpy's mean of no resources is NaN. The model reports it as `None`.
- PcpEmpresarial.ImportedOrder: the spreadsheet importer falls back to priority 5 only when the `Prioridade` column is absent. A blank cell would make `int()` fail. The model takes the priority as an optional value per line and does not model that failure.
- Tie order: pandas' default `sort_values` does not promise stability. The model resolves ties as described above: the first maximum in key order for the bottleneck, and sheet order for equal due dates.
- Only the bottleneck's rows are ranked, as in the source; no shop-wide tardiness ranking is computed. Zone thresholds belong to the base module's classifier, which is a parameter here.
