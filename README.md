# Locamotos back office: a verified model

Locamotos runs a motorcycle-rental business. Its back office keeps a MySQL ledger of motorcycles,
renters, rentals, transactions, users, settings and accountant-export records. It talks to two
outside services. The Asaas payment gateway supplies customers, payments, the balance and Pix
transfers. Banco Inter, the bank, supplies statements and official statement files. A Streamlit
dashboard shows totals and sends the accountant's monthly files. A small web server takes the
gateway's payment webhook and runs the monthly export on a schedule.

This project models that core in Dafny and proves properties of the model:

- `Ledger.LedgerStore` (`ledger_store.dfy`) is `DatabaseManager` as an object whose fields are the
  tables. Its methods perform the inserts, updates and queries. They keep the schema's
  constraints: UNIQUE `cpf` and `username`, the foreign keys from `locacoes` and `transacoes` to
  `motos`, and the NOT NULL columns of `locatarios`, `transacoes` and `usuarios`. The row-level
  effect of each statement is a function in `Tables` (`tables.dfy`), with lemmas beside it.
- `Asaas` (`asaas_client.dfy`) is the gateway client. The gateway is a value whose fields are
  functions from request parameters to decoded answers. Every request the client issues is
  appended to its `log`. Offset pagination is a specification function, `Paginate`.
- `Inter` (`inter_client.dfy`) is the bank client. It covers the certificate write-out, the
  OAuth2 token cached on the instance, and the statement query split into windows of at most
  90 days whose answers are merged.
- `Webhook` (`webhook.dfy`) is `/asaas-webhook`. It checks the balance, sends the Pix sweep of a
  received payment's net value, and records the net income.
- `AccountantExport` (`accountant_export.dfy`) is the monthly delivery of the PDF and OFX
  statements. It has three copies: the dashboard's automatic run, the scheduled job and the
  manual button.
- `Reconciliation` (`reconciliation.dfy`) holds the dashboard computations. They are the charged
  amount of a payment, the per-payer paid and pending buckets, revenue, expenses, profit and the
  monthly cash-flow bars. It also holds the Brazilian currency rendering.
- `Settings` (`settings.dfy`) is the environment and the stored configuration overlay.
- `Fleet` (`fleet.dfy`) is the fleet screen's depreciation and odometer estimate.
- `Ofx` (`ofx.dfy`) is the OFX 1.0.2 statement serialiser.
- `Auth` (`auth.dfy`) is the password-strength rule.
- `Wrappers`, `Text` and `Calendar` stand for what the code takes from Python:
  - `Option` and `Result`, and Python truthiness;
  - `str`, `f"{v:,.2f}"`, `join`, `replace` and string comparison;
  - `datetime.date`, `calendar.monthrange` and `strftime`.

Outside services, the clock and the process environment are parameters. Money is exact: `real`,
or integer cents where text is rendered.

## Model

| member | source | states |
|---|---|---|
| Text.NatToString | exports.py:72 | `str(n)` of the FITID index: at least one character, all decimal digits |
| Text.IntToString | exports.py:72 | `str(i)`: it starts with '-' exactly when `i` is negative |
| Text.IntToStringInjective | exports.py:72 | different integers render differently, so the row index part of a FITID identifies the row |
| Text.Pad | exports.py:55 | zero-padded fixed-width decimal: exactly `w` digit characters |
| Text.ReplaceChar | config_ui.py:41 | `s.replace(a, b)` for one character: same length, and each position changed exactly when it held `a` |
| Text.SwapSeparatorsInvolution | config_ui.py:41 | swapping ',' and '.' twice gives the text back |
| Text.ThreeReplacesSwap | config_ui.py:41 | the three chained replaces swap ',' and '.' exactly when the text holds no 'X' |
| Text.Grouped | config_ui.py:41 | `f"{n:,}"`: at least one character, only digits and ',' |
| Text.GroupedFixed2 | config_ui.py:40-41 | `f"{v:,.2f}"` for exact cents: no 'X', at least four characters, and a leading '-' exactly for negatives |
| Text.GroupedFixed2Point | config_ui.py:41 | the only '.' of `f"{v:,.2f}"` is the decimal point, third from the end |
| Text.Fixed2 | exports.py:71 | `f"{v:.2f}"` for exact cents: at least four characters, and a leading '-' exactly for negatives |
| Calendar.DaysInMonth | config_ui.py:1347 | `calendar.monthrange(y, m)[1]`: between 28 and 31, and 29 exactly for February of a leap year |
| Calendar.DayNumberOrder | inter_client.py:89-91 | `date` comparison is day-number comparison |
| Calendar.DayNumberInjective | inter_client.py:89-120 | distinct dates have distinct day numbers |
| Calendar.Iso | inter_client.py:100-101 | `strftime("%Y-%m-%d")`: ten characters with dashes at positions 4 and 7 |
| Calendar.IsoMonth | config_ui.py:1337 | `strftime("%Y-%m")`: seven characters with a dash at position 4 |
| Calendar.SlashMonth | config_ui.py:1268-1269 | `strftime("%m/%Y")`: seven characters with a slash at position 2 |
| Calendar.IsoOrder | database_manager.py:276-277 | ISO date strings compare as strings exactly as the dates compare in time, and are equal only for equal dates |
| Calendar.IsoLeIsChronological | database_manager.py:276-277 | string `<=` on ISO dates is chronological `<=` |
| Calendar.PreviousMonth | config_ui.py:1337 | the month before a month other than January of year 1 is a valid month |
| Calendar.DayBeforeFirstOfMonth | config_ui.py:1337 | `today.replace(day=1) - timedelta(days=1)` is the last day of the previous month |
| Calendar.DigitsValuePad | config_ui.py:1347 | `int()` of a zero-padded number gives the number back |
| Calendar.RangeFromIsoMonth | config_ui.py:1345-1348 | ten-character `YYYY-MM-DD` bounds: the key then "-01", and the key then the two-digit last day of that month |
| Calendar.RangeFromSlashMonth | config_ui.py:1285-1288 | ten-character `YYYY-MM-DD` bounds: the year and month of the label reordered, then "-01", and then the two-digit last day of that month |
| Calendar.MonthRanges | config_ui.py:1285-1288 | both ways of building a month range give the ISO first and last day of that month |
| Asaas.LastPage | asaas_client.py:81-96 | the last page requested is the first page that stops the loop |
| Asaas.PaginateBoundIrrelevant | asaas_client.py:81-96 | any stopping page gives the same result: the loop stops at the first stop |
| Asaas.PaginateFrom | asaas_client.py:81-96 | from any served page on, the loop returns the items of the remaining pages in order |
| Asaas.PaginationComplete | asaas_client.py:69-98 | when the gateway serves N pages, every item of every page is returned in order after exactly N requests |
| Asaas.PaginateFailure | asaas_client.py:86-87 | a failing page ends the listing with that failure, whatever came before |
| Asaas.PageRequests | asaas_client.py:81-96 | the page requests are the requests at offsets 0, 100, ... in order |
| Asaas.PageFails | asaas_client.py:86-87 | a failing page is the last page requested and its failure is the result |
| Asaas.PageServed | asaas_client.py:89-96 | a served page either ends the loop with everything collected or hands over to the next offset |
| Asaas.AsaasClient.constructor | asaas_client.py:8-15 | the key is the one read at construction, and nothing has been requested yet |
| Asaas.AsaasClient.GetReceivedPayments | asaas_client.py:21-37 | without a key, a configuration error and no request; otherwise one `RECEIVED` request and its `data`, or `[]` when absent |
| Asaas.AsaasClient.GetBalance | asaas_client.py:39-48 | without a key, an error and no request; otherwise one balance request, answering `balance` or 0.0 |
| Asaas.AsaasClient.CreatePixTransfer | asaas_client.py:50-67 | without a key, an error and no request; otherwise exactly one transfer request carrying the value, key, key type, description and `PIX` |
| Asaas.AsaasClient.FetchAllPages | asaas_client.py:81-96 | the loop returns `Paginate`'s result and issues exactly the page requests up to the last page |
| Asaas.AsaasClient.GetCustomers | asaas_client.py:69-98 | configuration check, then the paginated customer listing |
| Asaas.AsaasClient.GetAllPayments | asaas_client.py:100-131 | configuration check, then the paginated payment listing for the date range |
| Inter.ConfigFromEnv | inter_client.py:8-26 | without `INTER_CERT` or `INTER_KEY`, the default certificate paths are used |
| Inter.Unescape | inter_client.py:34 | each backslash-n pair becomes a newline: the first character is a newline when the text starts with a pair and the text's own first character otherwise, the text never grows, and no backslash-n pair is left |
| Inter.UnescapeKeepsPlainText | inter_client.py:34 | a text with no backslash-n pair is written to the certificate file unchanged |
| Inter.UnescapeEscape | inter_client.py:29-34 | a certificate stored in the environment with its newlines written as backslash-n is written back as the original text, when it holds no backslash |
| Inter.WindowEnd | inter_client.py:91-93 | a window ends 89 days after it starts, or earlier at the last requested day |
| Inter.WindowsBounded | inter_client.py:89-93 | each window is non-empty and spans at most 90 days, both ends included |
| Inter.WindowsContiguous | inter_client.py:88-120 | the windows start at the first day, each starts the day after the previous one ends, and the last ends at the last day |
| Inter.WindowsCount | inter_client.py:89-120 | the number of requests is the day count divided by 90, rounded up; none for an empty range |
| Inter.WindowsPartition | inter_client.py:89-120 | every day of the range lies in exactly one window |
| Inter.FirstNonEmpty | inter_client.py:113-115 | the first answer that is not an empty dict, with all answers before it empty |
| Inter.MergeAllConcatenates | inter_client.py:113-122 | the merged `transacoes` are every window's `transacoes` in request order, on the first non-empty answer |
| Inter.AssembleLines | inter_client.py:122 | the assembled statement's `transacoes` is the concatenation, and `{"transacoes": []}` for no windows |
| Inter.StatementRequests | inter_client.py:95-108 | one statement request per window |
| Inter.Answers | inter_client.py:104-111 | the window answers in order, or the first failure; one answer per window |
| Inter.Attempted | inter_client.py:104-111 | the requests issued are all of them, or those up to and including the first failure |
| Inter.WriteIfMissing | inter_client.py:32-37 | existing files are kept, only the missing path with content is written, and an empty path fails |
| Inter.CheckCerts | inter_client.py:28-42 | success means both paths are non-empty and exist; existing files are kept; present certificates pass untouched |
| Inter.InterClient.constructor | inter_client.py:8-26 | settings from the environment, no token, no request yet |
| Inter.TokenAttempt | inter_client.py:44-69 | the token request is sent exactly when the certificates pass and both credentials are non-empty; a certificate error is the error raised; a token is granted only by a successful answer, and then no error is raised |
| Inter.InterClient.GetToken | inter_client.py:44-69 | the files, error and log are those of `TokenAttempt`; the token is stored when granted and kept otherwise |
| Inter.InterClient.EnsureToken | inter_client.py:77-78 | a cached token means no request and no change; otherwise exactly the effect of `TokenAttempt` |
| Inter.InterClient.GetBankStatement | inter_client.py:71-123 | the token step, then the window requests in order; a failed token step is the error, with only its own requests logged and no window requested; success means every window answered and the result is their merge, and a window failure returns the first failing window's error |
| Inter.InterClient.QueryWindows | inter_client.py:88-123 | the loop logs exactly the attempted window requests, and succeeds exactly when every window answers, with the merged statement; otherwise it returns the first failing window's error |
| Inter.InterClient.RequestStatement | inter_client.py:95-111 | one statement request for the window, answered by the bank |
| Inter.InterClient.GetBalance | inter_client.py:125-148 | with a cached token: no token request, then one balance request with `dataSaldo` only when non-empty, answered by the bank; on a fresh client: a failed `TokenAttempt` is the error and no balance request is sent, and a granted token is stored, logged after the token request, and followed by that one balance request |
| Inter.InterClient.GetExtratoExport | inter_client.py:150-179 | one export request; the answer is the `pdf` field, or "" when absent, whatever file type was asked for; on a fresh client a failed `TokenAttempt` is the error with no export request, and a granted token is stored, so a later call on the same client sends no token request; success holds exactly when the bank answers, and a failed export answer is returned as that error |
| Inter.PrefixAttempted | inter_client.py:104-111 | when the first failure is window k, exactly k windows were requested and the listing's error is window k's |
| Tables.ConfigValue | database_manager.py:50-58 | `get_config`: the stored value, or the default when the key is absent |
| Tables.SetConfigThenGet | database_manager.py:35-58 | after `set_config` the key reads back the new value and no other key changes |
| Tables.UpdatedAttachment | database_manager.py:122-134 | a file triple is replaced when a file or a name is given, and kept otherwise |
| Tables.ClearPlate | database_manager.py:177-181 | unbinding clears exactly the renter links to the plate |
| Tables.LinkPlate | database_manager.py:175-176 | binding links exactly the rows with that name |
| Tables.SetRenter | database_manager.py:170-180 | only the plate's `locatario` and `disponibilidade` change |
| Tables.BindLinksExactlyNamed | database_manager.py:170-176 | after a bind the rows pointing at the plate are exactly the rows named; other columns are kept |
| Tables.UnbindClearsEveryLink | database_manager.py:177-181 | after an unbind no row points at the plate, and other rows are untouched |
| Tables.RebindMovesRenter | database_manager.py:162-184 | rebinding a moto from R1 to R2 unlinks R1's rows, links R2's rows and names R2 on the moto |
| Tables.BindKeepsPreviousMotoRenter | database_manager.py:170-176 | a bind leaves the renter's previous moto still naming the renter |
| Tables.LatestCoveringSpec | database_manager.py:272-284 | no answer exactly when no rental covers the date; otherwise a covering rental with the latest start |
| Tables.ActiveMoto | database_manager.py:268-287 | no answer for a missing CPF or date; otherwise the plate of a covering rental with the latest start, or none exactly when none covers |
| Tables.CoversIsChronological | database_manager.py:276-277 | with ISO dates the rental query's string comparisons are chronological |
| Tables.CloseRentals | database_manager.py:254-266 | `end_rental` closes exactly the plate's open rentals |
| Tables.CloseRentalsEffect | database_manager.py:254-266 | afterwards the plate has no open rental, and other rentals are untouched |
| Tables.AttributedPlate | database_manager.py:304 | an explicit non-empty plate wins, otherwise the active rental's plate |
| Tables.SingleCoveringRentalAttributed | database_manager.py:303-314 | a transaction for a renter with one covering rental gets that rental's plate |
| Tables.HasSentIff | database_manager.py:442-449 | the gate holds exactly when some row has that month and status `sucesso` |
| Tables.AppendEnvioEffect | database_manager.py:418-449 | only a `sucesso` row for the same month can change the gate, and it opens it |
| Tables.InsertKeepsCpfUnique | database_manager.py:452-472 | inserting a fresh CPF keeps the column unique |
| Tables.InsertKeepsUsernamesUnique | database_manager.py:356-369 | inserting a fresh username keeps the column unique |
| Tables.BindKeepsCpfUnique | database_manager.py:162-184 | binding and unbinding never touch `cpf` |
| Tables.Telefone | database_manager.py:525 | `mobilePhone or phone or ''` |
| Tables.NonEmpty | database_manager.py:536 | the empty parts are dropped and nothing else is |
| Tables.Endereco | database_manager.py:527-536 | "" without an address |
| Tables.EnderecoStartsWithStreet | database_manager.py:528-536 | with an address, the street part survives and leads the joined text |
| Tables.FindCpf | database_manager.py:539-546 | the row with this CPF, or none exactly when no row has it |
| Tables.UpsertOneEffect | database_manager.py:539-552 | a new CPF appends one row (1 affected row); an existing CPF rewrites only that row's four contact columns |
| Tables.UpsertAllCounts | database_manager.py:507-555 | the counters never exceed the customers, the rows stay CPF-unique, and the row count grows by the inserts |
| Tables.UpsertSkipsMissingCpf | database_manager.py:521-522 | customers without a CPF change nothing |
| Tables.UpsertLastWins | database_manager.py:517-546 | the last customer with a CPF leaves a row carrying exactly its contact values |
| Ledger.LedgerStore.SetConfig | database_manager.py:35-48 | insert or update of one key |
| Ledger.LedgerStore.GetConfig | database_manager.py:50-58 | the stored value or the default |
| Ledger.LedgerStore.GetAllConfigs | database_manager.py:60-70 | every stored pair and nothing else |
| Ledger.LedgerStore.AddMoto | database_manager.py:73-104 | inserted exactly for a new plate, NULL data columns included; a duplicate plate changes nothing and answers false |
| Ledger.LedgerStore.UpdateMoto | database_manager.py:106-141 | the data columns are overwritten, NULLs included, and file triples replaced only when given; an unknown plate changes nothing; the answer is always true |
| Ledger.LedgerStore.SyncMotoAssociation | database_manager.py:162-184 | with a name, bind the plate to the rows with that name; without one, unbind and mark the moto available |
| Ledger.LedgerStore.StartRental | database_manager.py:239-252 | an open rental is added only for an existing plate |
| Ledger.LedgerStore.EndRental | database_manager.py:254-266 | every open rental of the plate is closed |
| Ledger.LedgerStore.AddTransaction | database_manager.py:303-314 | one row with the explicit or attributed plate; a missing date or an unknown plate inserts nothing |
| Ledger.LedgerStore.RecordAccountantExport | database_manager.py:418-429 | always appends one row |
| Ledger.LedgerStore.HasSentExportForMonth | database_manager.py:442-449 | some row has that month and status `sucesso` |
| Ledger.LedgerStore.AddLocatario | database_manager.py:452-472 | inserted exactly with a name and a CPF not yet stored, otherwise nothing changes |
| Ledger.LedgerStore.CreateUser | database_manager.py:356-369 | inserted exactly when the NOT NULL columns are given and the username is new |
| Ledger.LedgerStore.UpsertAsaasCustomers | database_manager.py:507-555 | the rows and counters are those of the upsert loop over the customers |
| Reconciliation.Where | config_ui.py:566-568 | a boolean mask keeps exactly the selected rows |
| Reconciliation.SumSplit | config_ui.py:566-571 | a mask and its negation split a column's sum in two |
| Reconciliation.WhereSplit | config_ui.py:566-568 | a mask and its negation split the rows: each lands in exactly one part |
| Reconciliation.WhereBoth | config_ui.py:568 | filtering by two masks is filtering by their conjunction |
| Reconciliation.WhereCommutes | config_ui.py:568 | two masks select the same rows in either order |
| Reconciliation.UnpaidIgnoresAdjustments | config_ui.py:532-537 | an unpaid payment charges its face value whatever its interest, fine and discount |
| Reconciliation.NoAdjustmentsChargesFaceValue | config_ui.py:532-537 | without adjustments the charged amount is the face value |
| Reconciliation.PaidAdjustments | config_ui.py:532-537 | a paid payment charges face value plus interest and fine minus discount, and a larger discount never charges more |
| Reconciliation.CustomerNames | config_ui.py:524 | the map's keys are exactly the customers' ids |
| Reconciliation.LastCustomerWins | config_ui.py:524 | the last customer with an id names it, with "Desconhecido" for a missing name |
| Reconciliation.Payer | config_ui.py:539 | a payment whose `customer` is not a key of the map is "Desconhecido"; any other name is the map's name for that key, `None` included |
| Reconciliation.PayerOfCustomers | config_ui.py:524-539 | a payment gets the name of the last customer whose `id` equals its `customer`, `None` matching an id-less customer |
| Reconciliation.PayerUnknownCustomer | config_ui.py:524-539 | a payment whose `customer` matches no customer's `id` is "Desconhecido" |
| Reconciliation.BucketsDisjoint | config_ui.py:566-568 | paid and pending are disjoint, and a refunded unpaid payment is in neither |
| Reconciliation.BucketsPartition | config_ui.py:566-568 | paid, pending and refunded hold every payment of the group exactly once |
| Reconciliation.BucketsTotal | config_ui.py:566-571 | the three bucket totals add up to the group's charged amount |
| Reconciliation.ProfitIsSignedSum | config_ui.py:274-276 | the profit is the sum of the rows, signed by type |
| Reconciliation.TotalsAdditive | config_ui.py:274-276 | revenue, expenses and profit are additive over a split of the rows |
| Reconciliation.MonthlySplit | config_ui.py:287-293 | a month's bars plus the other months' totals give the dashboard totals |
| Reconciliation.FormatCurrency | config_ui.py:38-43 | a number renders as `f"{v:,.2f}"` with the separators swapped; a non-number is returned as is |
| Reconciliation.DecimalComma | config_ui.py:38-43 | the rendering has one comma, third from the end, and swapping back gives `f"{v:,.2f}"` |
| Settings.Environment.LoadEnvVars | config_ui.py:16-31 | the result holds every environment and stored key, stored values win, and the environment becomes the result |
| Settings.Environment.SaveEnvVar | config_ui.py:33-36 | both the stored configuration and the environment map the key to the value |
| Settings.SavedValueLoads | config_ui.py:16-36 | a saved value is what the next load returns for its key |
| AccountantExport.DeliveryOutcomes | config_ui.py:1350-1364 | a row is recorded exactly when both exports succeed, and it is `sucesso` exactly when the mail went out |
| AccountantExport.ExportAndRecord | config_ui.py:1350-1364 | the outcome is the delivery's, and the only change is the one row recorded on `Recorded` |
| AccountantExport.GatedDelivery | config_ui.py:1337-1364 | an already-sent previous month is skipped unchanged, otherwise its ISO range is delivered and recorded under its `YYYY-MM` key |
| AccountantExport.AutoSend | config_ui.py:1328-1364 | no e-mail, before the 5th, or no previous month: nothing; otherwise the gated delivery, recorded by the robot |
| AccountantExport.ScheduledJob | webhook_server.py:96-134 | the same without the day-of-month check, recorded by the worker |
| AccountantExport.ExportOnce | config_ui.py:1340-1361 | after a `sucesso` row the gate is closed for that month; a `falha` row leaves it as it was |
| AccountantExport.SelectedMonth | config_ui.py:1263-1271 | the offered months are valid months |
| AccountantExport.ManualSendAsWritten | config_ui.py:1274-1312 | as written: the range and mail use the `MM/YYYY` label, and the row is recorded under that label |
| AccountantExport.ManualRecordInvisibleToGate | config_ui.py:1308 | a manual row as written never changes the automatic gate, for any month |
| AccountantExport.ManualThenAutomaticSendsTwice | config_ui.py:1308 | May 2024 sent by hand on 1 June is still unsent for the automatic run of 5 June |
| AccountantExport.ManualSend | config_ui.py:1274-1312 | the manual button recording the `YYYY-MM` key: a `sucesso` satisfies the gate for that month |
| AccountantExport.ManualSuccessSatisfiesGate | config_ui.py:1337-1340 | with the `YYYY-MM` key, a manual success stops the automatic copies the next month |
| Webhook.TransferOnlyWhenCovered | webhook_server.py:55-73 | a transfer is requested exactly when the balance covers the net value, for exactly the net value; nothing without the event and a Pix key |
| Webhook.AsaasWebhook | webhook_server.py:22-94 | 400 without a body; 200 for other events; 500 without a Pix key, on a balance or transfer error, or when the row cannot be stored; the gateway requests and the one recorded net-income row are exactly the specified ones |
| Fleet.MonthsInUseBounds | frota_ui.py:153-154 | months of use are the whole 30-day periods elapsed, and none before 30 days |
| Fleet.RateBounds | frota_ui.py:158 | the rate is 1% per month, capped at 99% |
| Fleet.DepreciatedBounds | frota_ui.py:158-159 | for a non-negative purchase value the estimate lies between 1% of it and all of it |
| Fleet.NoDepreciationFirstMonth | frota_ui.py:154-159 | no depreciation in the first 30 days, or with a future purchase date |
| Fleet.DepreciationNonIncreasing | frota_ui.py:153-159 | the estimate never rises as the days of use grow |
| Fleet.NoPurchaseDate | frota_ui.py:149-159 | without a purchase date: no days, no kilometres, no depreciation |
| Fleet.FormatCurrencyBRL | frota_ui.py:7-11 | a non-number renders as "R$ 0,00" |
| Fleet.ZeroCurrency | frota_ui.py:9 | the number zero renders as "R$ 0,00", the same text the fallback at line 11 returns |
| Fleet.FleetCurrencyIsPrefixedSwap | frota_ui.py:7-11 | a number renders as "R$ " and the dashboard's rendering; a non-number renders as zero does |
| Ofx.Header | exports.py:11-51 | 38 lines before the first transaction |
| Ofx.Footer | exports.py:77-87 | 9 lines after the last transaction |
| Ofx.TrnType | exports.py:58-63 | CREDIT exactly for `entrada` and `entrada_liquida`, DEBIT otherwise |
| Ofx.DtPosted | exports.py:55 | fourteen characters |
| Ofx.Block | exports.py:67-75 | seven lines per transaction |
| Ofx.Blocks | exports.py:53-75 | seven lines per row |
| Ofx.OfxLines | exports.py:11-87 | 38 + 7 per row + 9 lines |
| Ofx.GenerateOfx | exports.py:4-89 | the loop's output is the joined statement lines |
| Ofx.BlockPosition | exports.py:53-75 | row i's aggregate is lines 7i to 7i + 6 of the transaction list, in row order |
| Ofx.StatementLayout | exports.py:11-87 | the statement opens with the nine header lines, a blank line and `<OFX>`, row i's aggregate sits at line 38 + 7i, and the last line is `</OFX>` |
| Ofx.JoinedEnds | exports.py:89 | the joined text starts with `OFXHEADER:100` and a newline and ends with a newline and `</OFX>` |
| Ofx.BlockHasOneOpening | exports.py:67-75 | each aggregate has exactly one `<STMTTRN>` line |
| Ofx.OneAggregatePerRow | exports.py:11-89 | the statement has exactly one `<STMTTRN>` line per row |
| Ofx.AmountSign | exports.py:58-71 | the amount carries the value's magnitude: unsigned for a credit, with a leading '-' for a debit, the same for either sign of the value |
| Ofx.DtPostedLayout | exports.py:55 | DTPOSTED is the ISO date without dashes followed by "120000", and distinct dates post distinctly |
| Ofx.FitIdsDistinct | exports.py:72 | rows with different indices get different FITIDs |
| Auth.Search | auth.py:22-27 | `re.search(r"[lo-hi]", s)` finds a match exactly when some character lies in the range |
| Auth.IsStrongPassword | auth.py:12-29 | accepted exactly when all four rules hold; otherwise the message of the first failing rule, in the order length, capital, small letter, digit |
| Auth.StrongExtends | auth.py:12-29 | appending characters never makes an accepted password rejected |
| Auth.AccentedCapitalsDoNotCount | auth.py:22-23 | only ASCII capitals count: "ÁÉÍÓÚabc1" is rejected for lack of a capital |

## Left out

- The Streamlit screens, their layout, session state and widgets. Only the computations behind
  them are modelled.
- HTTP, TLS client certificates, JSON encoding and timeouts. The gateway and the bank are
  functions from request parameters to decoded answers, and request headers are not logged.
- pymysql, connections, transactions and commit. Each `DatabaseManager` method is one atomic
  change to the table fields.
- MySQL collation, ENUM column checks and `AUTO_INCREMENT` ids. Strings compare by code point.
- Floating point: money is an exact `real`, or exact cents where it is rendered. Rounding, NaN
  and `float(None)` are not modelled.
- JSON `null` and a missing field are both `None`. A `null` discount `value`, a `null`
  `payment` object and a `null` balance are not distinguished from missing ones: the payment is
  treated as `{}` and the balance as 0.0, where Python would raise on the comparison. A
  customer's `null` `name` is written as "" (`Tables.ContactOf`), where Python passes `None` to the
  NOT NULL `nome` column and the IntegrityError ends `upsert_asaas_customers` part-way. A `null`
  `email` is written as "", where Python stores NULL.
- `strptime` and `strftime` inside the bank's statement loop: the loop works on day numbers
  (`Calendar.DayNumber`). Years below 1000 are rendered zero-padded to four digits.
- Flask routing and the APScheduler trigger. The webhook handler and the job are plain methods.
- The mailer's SMTP session: a sent-or-not flag (`Mailer`). Its simulated success without SMTP
  credentials (mailer.py:20-22) is one possible value of that flag.
- The bank client's token state across the two exports of one delivery. The exporter is a pure
  function (`Exporter`) of the range and the file type.
- An exception whose text is empty would let the manual button go on to mail. That path is not
  modelled: any export failure stops it.
- `hash_password` and `verify_password` (werkzeug hashing), and `load_dotenv`.
- `generate_csv_summary`: a pandas CSV dump.
- `trigger_sweep`, the `include_symbol` call of the revenue screen, and frota_ui.py:85 and :89.
  These call names that do not exist and would fail at run time. `visiun_client.py` is not part
  of this model.
- The odometer label `f"{km:,} km".replace(",", ".")` (frota_ui.py:168) is display text only.
- `Asaas.AsaasClient.GetCustomers`: the number of pages is not bounded by the source, which
  loops for as long as the gateway says `hasMore`. The ghost bound `n` is a page at which the
  gateway stops.
- `Asaas.AsaasClient.GetAllPayments`: the same pagination bound as `GetCustomers`.
- `Reconciliation.MonthOf`: the month of a stored ISO date is its first seven characters. The
  pandas `Period` parse is not modelled.
- `Reconciliation.Payer`: a missing `customer` and a `null` one are both `None`, so both take
  the name of a customer without an `id`. In pandas a missing value is NaN and gives
  "Desconhecido". A listing with no `customer` column at all is not modelled: there `df.get`
  returns "" and `.map` raises.
- `Settings.Environment.SaveEnvVar`: values are strings, so `str(value)` is the identity.
- `Inter.InterClient.GetBalance`: the answer's fields are returned as decoded. Their meaning is
  not modelled.
- `Ofx.GenerateOfx`: the rows' `Data` is a valid date, and `Placa da Moto` missing from the row
  is `None`. A `None` or NaN plate value inside the column would render as "None" or "nan", which
  is not modelled.

## Findings

| source | as written | input that shows it | evidently intended | confidence | as-written member | corrected member |
|---|---|---|---|---|---|---|
| config_ui.py:1308 | the manual button records its export under the `MM/YYYY` label offered by the form, while both automatic copies query `YYYY-MM` (config_ui.py:1337-1340, webhook_server.py:108-112) | May 2024 sent by hand on 2024-06-01 is recorded as `05/2024`; the automatic run of 2024-06-05 queries `2024-05`, finds no row and sends May again | record the `YYYY-MM` key the gate queries, so that a manual success counts for the month | not executed | AccountantExport.ManualSendAsWritten, AccountantExport.ManualRecordInvisibleToGate, AccountantExport.ManualThenAutomaticSendsTwice | AccountantExport.ManualSend, AccountantExport.ManualSuccessSatisfiesGate |
