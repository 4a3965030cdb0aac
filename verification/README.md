# finanza-fluxo — a Dafny model of the personal-finance front end

finanza-fluxo is a personal-finance web application: income (receitas), expenses (despesas),
debts (dívidas), credit cards (cartões), bank balances (saldos bancários), goals (metas) and
reports, kept per user and per reference month (`mes_referencia`, a key such as `SET/25`).
The front end also keeps an offline copy of the data (IndexedDB in the browser, SQLite on
mobile) and synchronises it with the remote database.

This project models the logic of that front end and proves what it promises:

- the month-key conversions between ISO 8601 calendar dates (`YYYY-MM-DD`) and `MMM/YY` keys,
  the replication of a month's records into another month, and the sample-data generator;
- the spreadsheet import (sanitisers, sheet classification, row filters, debt arithmetic);
- the business rules embedded in the pages (money parsing, totals, debt remaining values,
  expense alerts and status toggle, goal progress, report sheets, category lists);
- the password-strength validator and the order of the checks around it;
- the offline stores (as maps from id to record) and their synchronisation services, with the
  remote side as a map plus a success oracle;
- the small settings and session state machines (accessibility settings, view mode,
  24-hour temporary sessions, sidebar active item).

Foundation modules model the parts of the JavaScript runtime the code depends on:
`JsText` (string operations as total functions), `JsNumber` (`parseFloat`, `parseInt`,
`Number` on strings, with NaN explicit; values are exact reals) and `Calendar` (the proleptic
Gregorian calendar and the normalisation done by `new Date(y, m, d)`). `Wrappers` holds
`Option` and `Result`, and `Lists` generic list recursion (map with failure, counting).

Inputs that come from outside the program are parameters: today's date and the current
time, the draws of `Math.random`, the locale month label, the results of remote calls, and
fresh ids.

## Model

| member | source | states |
|---|---|---|
| DateUtils.MonthIndex | src/utils/dateUtils.ts:40-41 | the index of an abbreviation among the twelve month abbreviations, -1 exactly when it is not one of them |
| DateUtils.FormatDateToMonthRef | src/utils/dateUtils.ts:5-7 | the empty input, and only it, gives the empty key |
| DateUtils.FormatIsoDate | src/utils/dateUtils.ts:9-20 | for a valid `YYYY-MM-DD` date with year 100..9999 the key is the month's abbreviation, '/', and the last two digits of the year |
| DateUtils.FormatTwoDigitYear | src/utils/dateUtils.ts:9-20 | a year 0..99 is read as 1900 + year, and the key is still the abbreviation and the two year digits |
| DateUtils.ParseMonthRefToDate | src/utils/dateUtils.ts:29-44 | the result is empty exactly when the key is empty, has no '/', or its upper-cased month part is not an abbreviation; upper-casing covers every letter whose capital is an ASCII letter, dotless 'ı' and long 'ſ' included |
| DateUtils.ParseCaseInsensitive | src/utils/dateUtils.ts:40 | the month abbreviation is matched case-insensitively |
| DateUtils.UpperToMonth | src/utils/dateUtils.ts:37-43 | a month part whose upper case is an abbreviation parses as that abbreviation does, to a non-empty date |
| DateUtils.FoldedLetters | src/utils/dateUtils.ts:40 | 'ſet' and 'maı' upper-case to SET and MAI, so they parse as September and May |
| DateUtils.ParseShape | src/utils/dateUtils.ts:33-43 | a non-empty result is the year text, '-', a two-digit month and "-01" |
| DateUtils.MonthRefRoundTrip | src/utils/dateUtils.ts:5-44 | for years 2000..2099, parsing the key of a date gives the first day of that date's month |
| DateUtils.LastTwoDigits | src/utils/dateUtils.ts:13-20 | the last two characters of a year of two or more digits are its two-digit suffix |
| Calendar.NewDateOfValid | src/utils/dateUtils.ts:10 | `new Date(y, m, d)` with in-range fields is the calendar date itself |
| Calendar.NormalizeDays | src/components/DataReplicator.tsx:61 | out-of-range month and day fields roll over so that the day number is preserved |
| Calendar.IsoDateRoundTrip | src/components/DataReplicator.tsx:60-63 | reading back the `YYYY-MM-DD` text of a date gives that date |
| ReplicatorMonths.GenerateMonthOptions | src/components/DataReplicator.tsx:24-47 | exactly twelve options; entry i is the key and label of the month i months before today's, newest first |
| ReplicatorMonths.OptionAt | src/components/DataReplicator.tsx:29-35 | iteration i builds the first day of the month i months back, and its text converts to that month's key |
| ReplicatorMonths.MonthOptionsDistinct | src/components/DataReplicator.tsx:28-43 | the twelve offered keys are pairwise different |
| ReplicatorDates.MoveDateOf | src/components/DataReplicator.tsx:61 | the moved date is `new Date(year, month index, day)`, normalised |
| ReplicatorDates.AdjustOfFields | src/components/DataReplicator.tsx:49-63 | with target year y (2000 + YY) and month index k, the result is the text of the normalised date (y, k, original day) |
| ReplicatorDates.AdjustKeepsDay | src/components/DataReplicator.tsx:50-61 | the day of month is kept when it exists in the target month; otherwise the date rolls into the following month by the excess days |
| ReplicatorDates.AdjustUnknownMonth | src/components/DataReplicator.tsx:52-58 | an abbreviation outside the month map produces no date |
| ReplicatorDates.AdjustToMonthRef | src/components/DataReplicator.tsx:49-63 | for a key produced by the month list, the moved date lies in that key's month when the day fits |
| ReplicatorDates.AdjustDateAsWritten | src/components/DataReplicator.tsx:60-63 | the date as the code computes it, with the local-time offset as a parameter: equal to the calendar result when the offset is zero |
| ReplicatorDates.AsWrittenDayEarly | src/components/DataReplicator.tsx:60-63 | for any nonzero offset and a day from 2 on, the code's result is one day earlier than the intended date |
| ReplicatorDates.AsWrittenCounterexample | src/components/DataReplicator.tsx:60-63 | 2024-03-15 moved to ABR/24 at offset -180 minutes gives 2024-04-14, not 2024-04-15 |
| DataReplicator.MovedIsoText | src/components/DataReplicator.tsx:49-63 | moving an ISO date value agrees with the calendar move |
| DataReplicator.Rekeyed | src/components/DataReplicator.tsx:104-107 | the copy has no id, has the target month key, and every other field unchanged |
| DataReplicator.ReplicaOf | src/components/DataReplicator.tsx:104-126 | the copy of one record; for the balances table no date is touched |
| DataReplicator.ReplicaColumns | src/components/DataReplicator.tsx:105-122 | only the date columns of the record's table change; all other fields are the rekeyed copy's |
| DataReplicator.ReplicaReceita | src/components/DataReplicator.tsx:110-111 | an income copy moves `data_recebimento` and nothing else |
| DataReplicator.ReplicaDespesaNeedsPayment | src/components/DataReplicator.tsx:112-113 | an expense copy fails when its payment date cannot be moved |
| DataReplicator.ReplicaDividaUndated | src/components/DataReplicator.tsx:120-121 | a debt without a due date is copied with only the id and month key changed |
| DataReplicator.ReplicateItem | src/components/DataReplicator.tsx:104-126 | the in-place edits of one record produce its replica |
| DataReplicator.ReplicaAllRows | src/components/DataReplicator.tsx:104-126 | all records replicate iff each one does, one replica per source record, in order |
| DataReplicator.ReplicateRows | src/components/DataReplicator.tsx:104-126 | the loop over the source records computes the replicas of all of them |
| DataReplicator.Replicator.ReplicateData | src/components/DataReplicator.tsx:66-153 | nothing happens without both months; with both: no user ends as `NoUser`, balances as `NotReplicable`, a failed fetch as `Failed`, an empty source as `NothingToCopy`, each with nothing sent; otherwise the copies of all source rows are sent (none when a copy throws), and the run reports `Replicated` with the source count, closing the dialog, exactly when they were sent and the insert succeeded, else `Failed`; `isReplicating` is false after every path that started |
| SampleData.GetMonthRefIsMonthRef | src/utils/generateSampleData.ts:4-9 | the generator's month key is the same `MMM/YY` key as the date utilities' |
| SampleData.RandomBetween | src/utils/generateSampleData.ts:17-19 | for min <= max and r in [0, 1) the result lies in [min, max] |
| SampleData.RandomBetweenReaches | src/utils/generateSampleData.ts:17-19 | every value of [min, max] is produced by some r |
| SampleData.RandomChoice | src/utils/generateSampleData.ts:22-24 | on a non-empty array the index is in bounds and the result is an element |
| SampleData.RandomChoiceReaches | src/utils/generateSampleData.ts:22-24 | every element can be chosen |
| SampleData.RandomSource.Between | src/utils/generateSampleData.ts:17-19 | one draw, and a result in [min, max] |
| SampleData.RandomSource.Choice | src/utils/generateSampleData.ts:22-24 | one draw, and a result that is an element of the array |
| SampleData.LastSixMonths | src/utils/generateSampleData.ts:30-34 | exactly six months: the current one and the five before it, newest first |
| SampleData.GenerateReceitas | src/utils/generateSampleData.ts:64-82 | every month has between 2 and 4 incomes, each valid, dated in that month on a day in 1..28 |
| SampleData.GenerateDespesas | src/utils/generateSampleData.ts:85-109 | every month has between 8 and 15 expenses, each dated in 1..28, due five days after payment, recurring ones with a frequency |
| SampleData.DebtStatusOf | src/utils/generateSampleData.ts:131 | 'pago' iff paid >= total, 'em_andamento' iff 0 < paid < total, otherwise 'pendente' |
| SampleData.MaxPaid | src/utils/generateSampleData.ts:119 | the largest paid value is the floor of 0.7 times the total |
| SampleData.DrawDivida | src/utils/generateSampleData.ts:117-133 | one debt: 0 <= paid <= floor(0.7 total), remaining = total - paid, due 1..6 months ahead |
| SampleData.GenerateDividas | src/utils/generateSampleData.ts:112-135 | between 3 and 6 debts, each satisfying the debt rules |
| SampleData.GeneratedDebtOpen | src/utils/generateSampleData.ts:118-131 | a generated debt is never 'pago', has positive remaining value, and is 'pendente' iff nothing was paid |
| SampleData.GenerateSaldos | src/utils/generateSampleData.ts:138-152 | 2 to 4 balances, for a prefix of the bank list, with a four-digit branch and a `ddddd-d` account |
| SampleData.ReceitaKeyAgrees | src/utils/generateSampleData.ts:78 | the month key stored with a generated record is the key the date utilities derive from its date |
| SampleData.GenerateSampleData | src/utils/generateSampleData.ts:26-153 | the four generated lists together, each satisfying its rules |
| ParseExcel.Slice | src/utils/parseExcel.ts:45 | the longest prefix of at most n UTF-16 code units, the whole text when it fits |
| ParseExcel.SliceAstral | src/utils/parseExcel.ts:45 | a character outside the Basic Multilingual Plane counts as two units |
| ParseExcel.SanitizeString | src/utils/parseExcel.ts:41-49 | an empty cell gives ""; otherwise the result is at most maxLength UTF-16 code units long and contains none of the control characters 0x00-0x08, 0x0B, 0x0C, 0x0E-0x1F, 0x7F |
| ParseExcel.SanitizeKeeps | src/utils/parseExcel.ts:43-47 | every other character (tab, LF and CR included) of the trimmed, cut text is kept, as often as it occurs |
| ParseExcel.SanitizeClean | src/utils/parseExcel.ts:41-49 | clean text (at most maxLength UTF-16 code units, no control characters, no outer white space) comes back unchanged |
| ParseExcel.SanitizeNumber | src/utils/parseExcel.ts:52-60 | 0 for an empty or unparseable cell; otherwise the amount clamped to [min, max]: itself when inside, min below, max above |
| ParseExcel.SanitizeNumberDefault | src/utils/parseExcel.ts:8-52 | with the default bounds the result lies in [0, 99999999.99] |
| ParseExcel.AmountDecimalComma | src/utils/parseExcel.ts:55-56 | digits with a decimal comma ("150,50") read as the decimal number they write |
| ParseExcel.AmountThousands | src/utils/parseExcel.ts:55-56 | an amount with a thousands point ("1.234,56") is read only up to its second point (1.234) |
| ParseExcel.FormatDate | src/utils/parseExcel.ts:162-189 | a falsy cell gives null; text of the shape `dddd-dd-dd` is returned unchanged, whatever its fields |
| ParseExcel.FormatDateIso | src/utils/parseExcel.ts:167-169 | an ISO date written by the application comes back unchanged |
| ParseExcel.FormatDateCode | src/utils/parseExcel.ts:172-177 | a serial date of a year 1000..9999 is written as that date's ISO text |
| ParseExcel.MovementOf | src/utils/parseExcel.ts:104-126 | an income or expense built from a row: non-empty description and category of at most 255 UTF-16 code units (with their defaults), value in [0, 99999999.99], month text of at most 7 characters, notes of at most 500 UTF-16 code units |
| ParseExcel.DebtOf | src/utils/parseExcel.ts:134-146 | paid is capped at the total and remaining is never negative, so paid + remaining = total; status is 'pago' iff paid reaches the total |
| ParseExcel.Kind | src/utils/parseExcel.ts:98-130 | incomes if the sheet name or a header mentions 'receita'; else expenses for 'despesa'; else debts for 'divida'; else ignored |
| ParseExcel.Limited | src/utils/parseExcel.ts:95 | at most the first 1000 data rows |
| ParseExcel.SheetData | src/utils/parseExcel.ts:85-151 | a sheet with fewer than two rows contributes nothing; a sheet contributes at most 1000 records |
| ParseExcel.SheetRowLimit | src/utils/parseExcel.ts:92-95 | rows after the first 1000 data rows make no difference |
| ParseExcel.UnusableRowIgnored | src/utils/parseExcel.ts:103-133 | a row without a truthy first cell contributes nothing |
| ParseExcel.SheetDataOk | src/utils/parseExcel.ts:102-149 | every kept income or expense has a positive value; every kept debt has a positive total and paid + remaining = total |
| ParseExcel.ParsedOk | src/utils/parseExcel.ts:85-151 | everything read from a workbook satisfies the record rules |
| ParseExcel.ParsedAppend | src/utils/parseExcel.ts:85 | the records of a workbook are those of its sheets, in sheet order |
| ParseExcel.ParseResult | src/utils/parseExcel.ts:62-160 | a file over 5 MB is rejected first, then an unreadable one; more than 3000 records in total is rejected; otherwise the result is the records of all sheets |
| ParseExcel.ReadSheet | src/utils/parseExcel.ts:85-151 | the body of the loop over sheets adds exactly the sheet's contribution |
| ParseExcel.ParseExcelFile | src/utils/parseExcel.ts:62-160 | the loops compute the specified result, and everything returned satisfies the record rules |
| Lists.PushKept | src/utils/parseExcel.ts:102-114 | the loop over rows appends exactly the kept images, in order |
| ImportData.Pick | src/components/ImportData.tsx:40-45 | the `a || b || fallback` chain: a truthy cell or the fallback |
| ImportData.PickFrom | src/components/ImportData.tsx:40-45 | the field is the default or a truthy cell of one of the columns tried |
| ImportData.PickFirst | src/components/ImportData.tsx:40-45 | the first column, in the order tried, whose cell is truthy supplies the field |
| ImportData.PickFallback | src/components/ImportData.tsx:40-45 | when no column has a truthy cell the default is used ('Outros' for the category, today's date, today's `YYYY-MM`, null notes) |
| ImportData.ReceitaFields | src/components/ImportData.tsx:37-45 | an income for the user with the parsed amount; description, category, date and month each a truthy cell of their columns or the default (today's date, today's `YYYY-MM`), notes a truthy cell or null |
| ImportData.DespesaFields | src/components/ImportData.tsx:55-63 | an expense for the user with the parsed amount; description, category, date and month each a truthy cell of their columns or the default, notes a truthy cell or null |
| ImportData.KindOf | src/components/ImportData.tsx:33-93 | incomes if the lower-cased sheet name or a lower-cased column of the first row contains 'receita'; else expenses for 'despesa'; else debts for 'divida'; else generic |
| ImportData.RowStep | src/components/ImportData.tsx:37-126 | every record a row inserts satisfies the insert rules |
| ImportData.DebtOf | src/components/ImportData.tsx:74-86 | the remaining value is total - paid whenever both parse, and NaN otherwise |
| ImportData.DebtOverpaid | src/components/ImportData.tsx:86-90 | a debt paid beyond its total is still inserted, with a negative remaining value |
| ImportData.AmountDecimalComma | src/components/ImportData.tsx:41 | "I,F" in the amount column is read as I.F |
| ImportData.AmountFirstCommaOnly | src/components/ImportData.tsx:41 | only the first comma becomes a point: "I,J,F" reads as I.J |
| ImportData.MonthDefaultShape | src/components/ImportData.tsx:44-62 | the month default is today's `YYYY-MM` (a '-' at index 4, no '/'), not a `MMM/YY` key |
| ImportData.NoUserThrows | src/components/ImportData.tsx:39-75 | without a signed-in user the first row of an income, expense or debt sheet throws |
| ImportData.GenericRoute | src/components/ImportData.tsx:97-124 | a generic row with a positive amount goes to incomes iff its lower-cased description contains 'salário' or 'receita', and to expenses otherwise |
| ImportData.GenericNonTextThrows | src/components/ImportData.tsx:99-102 | a generic row whose description is a number or boolean throws (it has no `toLowerCase`) |
| ImportData.GenericSkipsNonPositive | src/components/ImportData.tsx:97-98 | a generic row without a positive amount is skipped before any record is built |
| ImportData.SheetRun | src/components/ImportData.tsx:25-29 | a sheet without rows contributes nothing |
| ImportData.SheetAtMostOnePerRow | src/components/ImportData.tsx:37-126 | a sheet issues at most one insert per row |
| ImportData.ProcessInsertsOk | src/components/ImportData.tsx:48-98 | every insert has a positive amount, or for a debt a positive total and remaining = total - paid |
| ImportData.CountIncludesRejected | src/components/ImportData.tsx:49-133 | the count shown is the number of insert calls: if the database rejects one, fewer rows are stored than announced |
| ImportData.ChainStops | src/components/ImportData.tsx:135-141 | after an exception no further row or sheet is processed |
| ImportData.Importer.ImportRows | src/components/ImportData.tsx:37-52 | the row loop issues exactly the row steps' inserts, counts each once, and stops at an exception |
| ImportData.Importer.ImportSheets | src/components/ImportData.tsx:25-128 | the sheet loop skips sheets without rows and runs the row loop on the others, in order |
| ImportData.Importer.ProcessExcelData | src/components/ImportData.tsx:15-145 | the insert calls are those of the specified import; the success message carries their number, any exception gives the error message, and `isLoading` ends false |
| Auth.Test | src/pages/Auth.tsx:19-22 | a one-class regular-expression test is true exactly when some character of the password is in the class |
| Auth.ValidatePassword | src/pages/Auth.tsx:16-24 | each of the five checks holds exactly when its condition does: at least 8 UTF-16 code units, an ASCII capital, an ASCII small letter, an ASCII digit, a character from `!@#$%^&*(),.?":{}|<>` |
| Auth.Every | src/pages/Auth.tsx:28 | `every(Boolean)` is true exactly when all entries are true |
| Auth.IsPasswordValid | src/pages/Auth.tsx:26-29 | a password is valid exactly when all five checks pass; the password-update page (src/pages/UpdatePassword.tsx lines 12-25) repeats the same five checks, so the model uses this one for both |
| Auth.PasswordValidIff | src/pages/Auth.tsx:16-29 | valid iff length ≥ 8, some A–Z, some a–z, some 0–9 and some listed special character |
| Auth.ValidAppend | src/pages/Auth.tsx:16-29 | appending characters to a valid password keeps it valid |
| Auth.SeparatorsNotSpecial | src/pages/Auth.tsx:22 | a password made only of ASCII letters, digits, '-', '_' and spaces is rejected |
| Auth.AccentedCapitalsDoNotCount | src/pages/Auth.tsx:19 | accented capitals do not satisfy the upper-case check: "senhaÇÃ1!" is rejected |
| Auth.LengthBoundary | src/pages/Auth.tsx:18 | 8 code units is accepted and 7 rejected |
| Auth.PasswordGate | src/pages/Auth.tsx:78-98 | signup is refused as weak exactly when the password is invalid, as mismatched exactly when it is valid but differs from the confirmation, and goes ahead otherwise |
| Auth.LoginToast | src/pages/Auth.tsx:62-74 | the login toast is destructive exactly when the reply is not a success |
| Auth.SignupToast | src/pages/Auth.tsx:78-110 | the weak-password toast wins over the mismatch toast; the toast is destructive unless the account was created |
| Auth.Description | src/pages/Auth.tsx:64-67 | a failed call's toast shows the server's message |
| Auth.AuthPage.SubmitLogin | src/pages/Auth.tsx:61-75 | the login branch calls `signIn` with the form's email, password and remember flag and no strength check, and opens the dashboard only on success |
| Auth.AuthPage.SubmitSignup | src/pages/Auth.tsx:76-111 | `signUp` is called exactly when the password is valid and matches the confirmation; a created account switches to the login tab; `loading` is false on every return |
| Auth.AuthPage.HandleSubmit | src/pages/Auth.tsx:56-122 | dispatches on the tab, leaves the form unchanged and ends with `loading` false |
| UpdatePassword.UpdateToast | src/pages/UpdatePassword.tsx:44-77 | the weak-password toast wins over the mismatch toast; destructive unless the update succeeded |
| UpdatePassword.UpdatePasswordPage.HandleSubmit | src/pages/UpdatePassword.tsx:39-87 | `updatePassword` is called exactly when the password is valid and equals the confirmation; the dashboard opens only when the update returns no error; `loading` ends false |
| UpdatePassword.StrengthBeforeMismatch | src/pages/UpdatePassword.tsx:44-62 | an invalid password is reported as weak whatever the confirmation |
| Metas.Progress | src/pages/Metas.tsx:233-236 | progress is 0 for a target ≤ 0, never exceeds 100, is 100 exactly when the saved amount reaches a positive target, and is the plain percentage below it |
| Metas.ProgressMonotone | src/pages/Metas.tsx:233-236 | saving more never lowers the progress |
| Metas.MessageBand | src/pages/Metas.tsx:246-252 | the message is chosen by the first threshold reached among 100, 75, 50 and 25, with the default below 25 |
| Metas.MessageMonotone | src/pages/Metas.tsx:246-252 | more progress never gives a lower message |
| Metas.AchievedIffReached | src/pages/Metas.tsx:233-252 | for a positive target the congratulation is shown exactly when the target is reached |
| Calendar.DateOnlyTime | src/pages/Metas.tsx:241 | a date-only deadline is read as UTC midnight of that date; other text is an invalid date |
| Metas.DaysRemaining | src/pages/Metas.tsx:238-244 | null exactly when there is no deadline; NaN for an unreadable one; otherwise the whole number of days d with d − 1 < difference/day ≤ d |
| Metas.WholeDaysRemaining | src/pages/Metas.tsx:238-244 | a deadline exactly k days ahead gives k |
| Metas.GoalDataOf | src/pages/Metas.tsx:153-164 | empty description and deadline become null; the target is `parseFloat` of its text; an unreadable current value becomes 0; the status is 'concluida' exactly when both parse and current ≥ target, else 'em_progresso' |
| Metas.EmptyCurrentInProgress | src/pages/Metas.tsx:158-164 | an empty current value is stored as 0 but the goal stays 'em_progresso' |
| Metas.CompletedReadable | src/pages/Metas.tsx:164 | a completed goal has a readable target that the current amount reaches |
| Metas.Summarize | src/pages/Metas.tsx:254-257 | the completed count is at most the goal count; the two totals are the sums of targets and of saved amounts |
| Metas.SummarizeSnoc | src/pages/Metas.tsx:254-257 | one more goal adds one to the count, its amounts to the totals, and one to the completed count exactly when it is completed |
| Metas.WriteFor | src/pages/Metas.tsx:167-186 | the goal being edited is updated by its id; otherwise the record is inserted |
| Metas.MetasPage.FetchMetas | src/pages/Metas.tsx:96-116 | the list becomes the rows read (none for null); an error keeps the list and shows a toast; loading ends |
| Metas.MetasPage.ResetForm | src/pages/Metas.tsx:118-130 | every field returns to its default and no goal is being edited |
| Metas.MetasPage.HandleSubmit | src/pages/Metas.tsx:143-201 | an empty title or target writes nothing; otherwise exactly one write of the built record; success resets the form and closes the dialog, failure keeps both |
| Dividas.DebtDataOf | src/pages/Dividas.tsx:108-125 | the totals are `parseFloat` of their texts; the remaining value is total minus paid whenever both parse, NaN otherwise; an empty due date is null |
| Dividas.Key | src/pages/Dividas.tsx:221 | a debt without a category, or with an empty one, falls in 'Sem categoria'; a bucket name is never empty |
| Dividas.BucketsExact | src/pages/Dividas.tsx:220-224 | the accumulator has distinct categories, an entry exactly for the categories that occur, and each entry is the sum of the remaining values of its debts |
| Dividas.BucketsTotal | src/pages/Dividas.tsx:218-224 | the category sums add up to the total owed |
| Dividas.CategoryRows | src/pages/Dividas.tsx:226-230 | one row per entry, in order; the share is '0' exactly when the total is not positive, and otherwise the entry's percentage of the total |
| Dividas.OverdueCount | src/pages/Dividas.tsx:235-237 | the count is at most the number of debts and is 0 exactly when none has a readable due date before now while unpaid |
| Dividas.PaidNotOverdue | src/pages/Dividas.tsx:236 | paid debts are never counted as overdue |
| Dividas.StatusTone | src/pages/Dividas.tsx:66-72 | 'pago' is success, 'em_atraso' destructive, every other status a warning |
| Dividas.DividasPage.CategoryTotals | src/pages/Dividas.tsx:220-224 | the loop builds exactly the accumulator of the `reduce` |
| Dividas.DividasPage.FetchDividas | src/pages/Dividas.tsx:78-102 | without a user nothing changes; the list becomes the rows read (none for null); an error keeps the list and shows a toast |
| Dividas.DividasPage.HandleSubmit | src/pages/Dividas.tsx:104-172 | without a user nothing is written; otherwise one update of the edited debt or one insert of the built record; success resets the form and closes the dialog, failure keeps both |

| Despesas.Alertas | src/pages/Despesas.tsx:60-67 | the alerts are among the expenses and each is due today, still to pay and has its alert on |
| Despesas.AlertasExact | src/pages/Despesas.tsx:62-66 | an expense is among the alerts exactly as often as in the list when it alerts, and never otherwise |
| Despesas.NoDateNoAlert | src/pages/Despesas.tsx:63-65 | an expense without a due date or with its alert switched off is never an alert |
| Despesas.ToggledStatus | src/pages/Despesas.tsx:218 | the new status is 'paga' exactly when the old one was not; it is always 'paga' or 'a_pagar' |
| Despesas.ToggleTwice | src/pages/Despesas.tsx:218 | on 'paga' and 'a_pagar', two toggles restore the status |
| Despesas.ToggleTwiceOther | src/pages/Despesas.tsx:218 | any other status is paid by the first toggle and ends 'a_pagar' after the second, so it is not restored |
| Despesas.HandleStatusToggle | src/pages/Despesas.tsx:216-240 | the write targets the expense's id with the toggled status; the toast names the new status on success and reports the error otherwise |
| Despesas.SetDataPagamento | src/pages/Despesas.tsx:315-322 | the date is set, the month key agrees with it, and no other field changes |
| Despesas.SetDataPagamentoIso | src/pages/Despesas.tsx:315-322 | picking an ISO date sets the month key to that date's month and year |
| Despesas.EmptyFormTracks | src/pages/Despesas.tsx:38-50 | the empty form's month key agrees with its empty date |
| Despesas.ExpenseDataOf | src/pages/Despesas.tsx:103-117 | the amount is `parseFloat` of its text; an empty due date is null; frequency and next charge are set exactly for recurrent expenses (the next charge only with a due date); every other field is copied |
| Despesas.HandleSubmit | src/pages/Despesas.tsx:96-168 | without a user nothing is written; otherwise an update of the edited expense or an insert; success resets the form and closes the dialog, failure keeps both |
| Despesas.TotalSplits | src/pages/Despesas.tsx:242 | the total is the paid part plus the unpaid part |
| Despesas.TotalAppend | src/pages/Despesas.tsx:242 | the total of two lists together is the sum of their totals |
| MoneyText.ParseMoneyBrazilian | src/pages/Cartoes.tsx:89-91 | after a prefix without digits, commas or minus signs, "I.J,F" is read as the number with digits IJ and fraction F ("R$ 1.234,56" is 1234.56) |
| MoneyText.ParseMoneyFirstCommaOnly | src/pages/Cartoes.tsx:89-91 | only the first comma becomes a decimal point: "I,J,F" reads as I.J |
| MoneyText.ParseMoneyDigits | src/pages/Cartoes.tsx:89-91 | a plain digit text reads as its integer value |
| MoneyText.CentDigits | src/pages/Cartoes.tsx:148-150 | the fraction digits `toString` prints for an amount of c hundredths: none when c is whole, two exactly when the last digit is not zero |
| MoneyText.ParseFloatDecimalText | src/pages/Receitas.tsx:86 | `parseFloat` reads the `toString` text of c hundredths back as c/100 |
| MoneyText.ParseMoneyCommaText | src/pages/Cartoes.tsx:89-91 | the money parse reads the comma-separated text of c hundredths back as c/100 |
| MoneyText.ParseMoneyPointText | src/pages/Cartoes.tsx:89-91 | the money parse drops the point of a `toString` text with two decimals, reading c hundredths as c |
| MoneyText.PointToComma | src/pages/Cartoes.tsx:148-150 | replacing the point of the `toString` text by a comma gives the comma-separated text |
| MoneyText.CommaRoundTrip | src/pages/Cartoes.tsx:89-91 | the money parse of the `toString` text with its point made a comma is c/100 |
| Receitas.SetDataRecebimento | src/pages/Receitas.tsx:252-259 | the date is set, the month key agrees with it, and no other field changes |
| Receitas.SetDataRecebimentoIso | src/pages/Receitas.tsx:252-259 | picking an ISO date sets the month key to that date's month and year |
| Receitas.IncomeDataOf | src/pages/Receitas.tsx:82-90 | the amount is `parseFloat` of its text and every other field is copied, with the user id |
| Receitas.EditForm | src/pages/Receitas.tsx:138-149 | the amount text is the given `toString` text; the notes are empty exactly when missing or empty |
| Receitas.EditRoundTrip | src/pages/Receitas.tsx:82-90 | editing an income of c hundredths and saving unchanged writes back the same amount and fields; null notes come back empty |
| Receitas.HandleSubmit | src/pages/Receitas.tsx:75-136 | without a user nothing is written; otherwise an update of the edited income or an insert; success resets the form and closes the dialog, failure keeps both |
| Receitas.SaveThenNew | src/pages/Receitas.tsx:117-126 | after a successful save the next submission inserts a new income |
| Receitas.TotalNonNegative | src/pages/Receitas.tsx:179 | non-negative incomes have a non-negative total |
| Receitas.TotalAppend | src/pages/Receitas.tsx:179 | the total of two lists together is the sum of their totals |
| Cartoes.CardDataOf | src/pages/Cartoes.tsx:86-97 | each amount is the money parse of its own text; the category is always 'Cartão'; an empty due date is null; the rest is copied |
| Cartoes.CardList | src/pages/Cartoes.tsx:58-64 | every listed row is the user's and in the card category |
| Cartoes.SavedCardListed | src/pages/Cartoes.tsx:58-64 | a card saved by a user is read back by that user's card list, whatever was typed |
| Cartoes.AmountsIndependent | src/pages/Cartoes.tsx:89-91 | the three amounts are parsed independently; total = paid + remaining is not enforced |
| Cartoes.TotalAppend | src/pages/Cartoes.tsx:184 | the total of remaining values over two lists is the sum of their totals |
| Cartoes.StatusLabel | src/pages/Cartoes.tsx:362-363 | 'Pago' exactly for 'pago', 'Em Atraso' exactly for 'em_atraso', 'Pendente' for every other status |
| Cartoes.LabelMatchesColour | src/pages/Cartoes.tsx:358-363 | two statuses share a label exactly when they share a badge colour |
| Cartoes.EditForm | src/pages/Cartoes.tsx:144-156 | the amount texts are the given `toString` texts; the date is empty exactly when missing or empty |
| Cartoes.EditThenSaveInflates | src/pages/Cartoes.tsx:148-150 | as written: saving an edited card unchanged stores a total with a non-zero second decimal a hundred times larger |
| Cartoes.EditThenSaveFixed | src/pages/Cartoes.tsx:89-91 | with the comma-separated edit texts, saving unchanged stores all three amounts, the description, the status and the category as they were |
| Cartoes.HandleSubmit | src/pages/Cartoes.tsx:82-142 | without a user nothing is written; otherwise an update of the edited card or an insert; success resets the form and closes the dialog, failure keeps both |
| SaldosBancarios.SortByBank | src/pages/SaldosBancarios.tsx:58-60 | the array ends in bank order and holds the same accounts |
| SaldosBancarios.InsertAt | src/pages/SaldosBancarios.tsx:58-60 | one insertion step extends the sorted prefix by one, keeping the contents |
| SaldosBancarios.SaldosPage.FetchSaldos | src/pages/SaldosBancarios.tsx:55-70 | the list becomes the rows read, in bank order, with the same total; a failed read keeps the list and shows an error toast |
| SaldosBancarios.TotalUnderReorder | src/pages/SaldosBancarios.tsx:165 | reordering the accounts does not change the total |
| SaldosBancarios.TotalAppend | src/pages/SaldosBancarios.tsx:165 | the total of two lists together is the sum of their totals |
| SaldosBancarios.OrNull | src/pages/SaldosBancarios.tsx:86-88 | the empty text becomes null, any other text is kept |
| SaldosBancarios.SaldoDataOf | src/pages/SaldosBancarios.tsx:83-89 | the balance is the money parse of its text; empty account number, agency and notes are null; bank and type are copied |
| SaldosBancarios.SaldoBrazilianText | src/pages/SaldosBancarios.tsx:85 | "R$ 1.234,56"-style balances are read exactly |
| SaldosBancarios.HandleSubmit | src/pages/SaldosBancarios.tsx:78-128 | an update of the edited account or an insert; on success the form resets, the dialog closes and the toast says whether it was offline; on failure both are kept |
| SaldosBancarios.SaveThenNew | src/pages/SaldosBancarios.tsx:111-120 | after a successful save the next submission adds a new account |
| SaldosBancarios.EditForm | src/pages/SaldosBancarios.tsx:130-141 | the balance text is the given `toString` text; bank and type are kept; the agency is empty exactly when missing or empty |
| SaldosBancarios.EditThenSaveInflates | src/pages/SaldosBancarios.tsx:135 | as written: saving an edited balance with a non-zero second decimal stores it a hundred times larger |
| SaldosBancarios.EditThenSaveFixed | src/pages/SaldosBancarios.tsx:85 | with the comma-separated edit text, saving unchanged stores the balance and the optional texts as they were |
| SaldosBancarios.Capitalize | src/pages/SaldosBancarios.tsx:340 | the label has the type's length, its first character upper-cased and the rest unchanged |
| SaldosBancarios.CapitalizeIdempotent | src/pages/SaldosBancarios.tsx:340 | capitalizing a label again changes nothing |
| Relatorios.FetchDataForReport | src/pages/Relatorios.tsx:25-70 | without a user, or when a query fails, no data and the matching error toast; otherwise incomes and expenses of the user in the period and every debt of the user |
| Relatorios.PeriodScoped | src/pages/Relatorios.tsx:36-46 | each income or expense of the user in the period is in the report as often as in its table, and no other is |
| Relatorios.DebtsUnscoped | src/pages/Relatorios.tsx:47-50 | every debt of the user is in the report whatever its month |
| Relatorios.IncomeRow | src/pages/Relatorios.tsx:82-90 | six columns; the value is the income's amount; a missing note is written as '' |
| Relatorios.ExpenseRow | src/pages/Relatorios.tsx:96-104 | six columns; the value is the expense's amount; a missing note is written as '' |
| Relatorios.DebtRow | src/pages/Relatorios.tsx:110-120 | eight columns; a missing category is ''; the remaining value is the debt's; the due-date cell is empty exactly when there is no due date (or it renders empty) |
| Relatorios.IncomeSheet | src/pages/Relatorios.tsx:82-92 | the Receitas sheet has one row per income, in order |
| Relatorios.ExpenseSheet | src/pages/Relatorios.tsx:96-106 | the Despesas sheet has one row per expense, in order |
| Relatorios.DebtSheet | src/pages/Relatorios.tsx:110-122 | the Dívidas sheet has one row per debt, in order |
| Relatorios.ResumoSheet | src/pages/Relatorios.tsx:126-139 | four rows; the balance row is incomes minus expenses and the debt row is the sum of remaining values |
| Relatorios.ResumoDebtAfterPayment | src/pages/Relatorios.tsx:129 | paying part of one debt lowers the summary's debt row by exactly that part |
| Relatorios.SheetNames | src/pages/Relatorios.tsx:82-140 | 'completo' names Receitas, Despesas, Dívidas, Resumo in that order; each other known type only its own sheet; an unknown type none |
| Relatorios.SelectedNames | src/pages/Relatorios.tsx:82-140 | the sheets selected for a type carry exactly the names that type asks for |
| Relatorios.ReportSheetsNamed | src/pages/Relatorios.tsx:82-140 | every report's sheets are named as its type asks, in order |
| Relatorios.CompleteReport | src/pages/Relatorios.tsx:82-140 | a complete report is the income, expense, debt and summary sheets |
| Relatorios.Workbook.AppendSheet | src/pages/Relatorios.tsx:92 | a sheet with a name not yet in the book is added at its end |
| Relatorios.AppendSelected | src/pages/Relatorios.tsx:81-140 | the appends build exactly the selected sheets, never repeating a name |
| Relatorios.ExportToExcel | src/pages/Relatorios.tsx:73-160 | no workbook when the fetch gave nothing (its toast stays); otherwise the report type's sheets and the success toast |
| Relatorios.PdfReport | src/pages/Relatorios.tsx:162-225 | the balance is incomes minus expenses, marked 'positive' exactly when not negative; the income and expense sections appear exactly when their lists are non-empty |
| Relatorios.PdfAgreesWithResumo | src/pages/Relatorios.tsx:130-171 | the printed balance equals the spreadsheet summary's balance |
| Configuracoes.Tagged | src/pages/Configuracoes.tsx:91-95 | one category per name, in order, each with the type and the user's id |
| Configuracoes.DefaultCategories | src/pages/Configuracoes.tsx:58-95 | 22 categories, all tagged with the user's id |
| Configuracoes.DefaultNamesDistinct | src/pages/Configuracoes.tsx:61-88 | 6 income, 10 expense and 6 debt names, distinct within each type |
| Configuracoes.DefaultsByTipo | src/pages/Configuracoes.tsx:61-95 | filtering the defaults by a type gives exactly that type's names in their listed order |
| Configuracoes.SplitByTipo | src/pages/Configuracoes.tsx:61-88 | for a list of income, then expense, then debt blocks, each type's filter is its block |
| Configuracoes.DefaultsToCreate | src/pages/Configuracoes.tsx:111-118 | the defaults are created exactly for a signed-in user with no categories |
| Configuracoes.CategoriasByTipo | src/pages/Configuracoes.tsx:174-176 | every listed category has the type |
| Configuracoes.CategoriasByTipoExact | src/pages/Configuracoes.tsx:174-176 | each category of the type is listed as often as stored, and no other |
| Configuracoes.ByTipoAppend | src/pages/Configuracoes.tsx:174-176 | the listing keeps the stored order: listing two lists together is listing each in turn |
| Configuracoes.TipoLabel | src/pages/Configuracoes.tsx:178-185 | the three types get their plural headings; any other text is returned unchanged |
| Configuracoes.TipoBadgeVariant | src/pages/Configuracoes.tsx:187-194 | receita is default, despesa destructive, divida secondary, anything else outline, each exactly |
| Configuracoes.TiposDistinguished | src/pages/Configuracoes.tsx:178-194 | two different types never share a label or a badge |
| Configuracoes.HandleSubmit | src/pages/Configuracoes.tsx:121-154 | nothing happens without a user, a name or a type; otherwise the category is inserted; success clears the form and closes the dialog; error 23505 is reported as a duplicate, any other error generically |
| OfflineRecords.Live | src/services/indexeddb/database.ts:61-69 | a record is read by `getAll` exactly when it is stored, belongs to the user and is not soft-deleted |
| OfflineRecords.LiveInMonth | src/services/indexeddb/database.ts:71-79 | exactly the user's live records that carry the month key |
| OfflineRecords.Unsynced | src/services/indexeddb/database.ts:106-113 | exactly the stored records, of any user, whose synced flag is not set |
| OfflineRecords.SoftDelete | src/services/indexeddb/database.ts:91-99 | the ids stay the same; the record under the id is kept with deleted set, synced cleared and every other field as it was; other records are untouched; an absent id changes nothing |
| OfflineRecords.MarkSynced | src/services/indexeddb/database.ts:115-122 | the ids stay the same; only the record under the id gets its synced flag set; an absent id changes nothing |
| OfflineRecords.Cleared | src/services/indexeddb/database.ts:124-133 | a record is removed exactly when it is the user's and not soft-deleted; the others keep their values |
| OfflineRecords.KeyedKept | src/services/indexeddb/database.ts:86-133 | put, soft delete, mark, hard delete and clear all keep every record under its own id |
| OfflineRecords.PutThenRead | src/services/indexeddb/database.ts:81-89 | after a put the id reads back that record, which is among its user's live records exactly when it is not deleted |
| OfflineRecords.SoftDeleteHides | src/services/indexeddb/database.ts:61-99 | after a soft delete no live record has that id, and every other live record is still read |
| OfflineRecords.ClearedEmpties | src/services/indexeddb/database.ts:124-133 | after clearing, the user has no live records, and the user's soft-deleted records survive |
| OfflineRecords.MarkSyncedLeavesUnsynced | src/services/indexeddb/database.ts:106-122 | after marking, no unsynced record has that id, and every other unsynced record is still unsynced |
| OfflineRecords.SoftDeletePending | src/services/indexeddb/database.ts:91-113 | a soft-deleted record is a pending change, among the unsynced records |
| IndexedDb.KeyRangeOnly | src/services/indexeddb/database.ts:111-112 | a key range over one value is made exactly for a string or a number; a boolean is refused |
| IndexedDb.UnsyncedAsWrittenFails | src/services/indexeddb/database.ts:106-113 | as written, `getUnsynced` fails with an invalid-key error even on a store holding a record waiting to be pushed |
| IndexedDb.UnsyncedIntended | src/services/indexeddb/database.ts:106-113 | the intended query returns a stored record exactly when it is not synced |
| IndexedDb.EmptyStores | src/services/indexeddb/database.ts:19-47 | the five data stores exist, each empty |
| IndexedDb.DeleteEach | src/services/indexeddb/database.ts:127-132 | deleting the listed records one at a time removes exactly them and keeps every other record as it was |
| IndexedDb.IndexedDBService.constructor | src/services/indexeddb/database.ts:13-17 | not initialized, five empty data stores, no sync metadata |
| IndexedDb.IndexedDBService.Initialize | src/services/indexeddb/database.ts:19-55 | the result says whether opening succeeded; a success sets the handle; the stored data is kept |
| IndexedDb.IndexedDBService.GetAll | src/services/indexeddb/database.ts:61-69 | an error before initialization or for an unknown store; otherwise exactly the user's live records |
| IndexedDb.IndexedDBService.GetByMonth | src/services/indexeddb/database.ts:71-79 | an error before initialization, for an unknown store, or for the balances store (which has no month index); otherwise the user's live records of the month |
| IndexedDb.IndexedDBService.GetById | src/services/indexeddb/database.ts:81-84 | an error before initialization; otherwise the record under the id exactly when there is one |
| IndexedDb.IndexedDBService.Put | src/services/indexeddb/database.ts:86-89 | the record is stored under its id, replacing any record with that id; nothing else changes |
| IndexedDb.IndexedDBService.Delete | src/services/indexeddb/database.ts:91-99 | the store becomes its soft delete at the id; nothing else changes |
| IndexedDb.IndexedDBService.HardDelete | src/services/indexeddb/database.ts:101-104 | the record under the id is removed; nothing else changes |
| IndexedDb.IndexedDBService.GetUnsynced | src/services/indexeddb/database.ts:106-113 | the intended query: exactly the records not synced |
| IndexedDb.IndexedDBService.GetUnsyncedAsWritten | src/services/indexeddb/database.ts:106-113 | the query as written: without a handle or for an unknown store the error, otherwise the refused key range |
| IndexedDb.IndexedDBService.MarkAsSynced | src/services/indexeddb/database.ts:115-122 | only that record's synced flag is set; an absent id changes nothing |
| IndexedDb.IndexedDBService.ClearStore | src/services/indexeddb/database.ts:124-133 | the user's live records are removed; soft-deleted and other users' records stay |
| IndexedDb.IndexedDBService.GetSyncMeta | src/services/indexeddb/database.ts:136-140 | the last value set for the key, or null |
| IndexedDb.IndexedDBService.SetSyncMeta | src/services/indexeddb/database.ts:142-145 | the key's value is replaced; the data stores are untouched |
| IndexedDb.IndexedDBService.Close | src/services/indexeddb/database.ts:147-152 | the handle is dropped, so every later operation fails; the stored data stays |
| IndexedDb.PutDeleteSequence | src/services/indexeddb/database.ts:86-122 | a put, a soft delete, a mark and a hard delete in a row: the record is first a pending tombstone, then a synced one, then gone |
| SyncRules.TablesAreTheStores | src/services/indexeddb/syncService.ts:42 | the five tables both directions visit are the five data stores, each once |
| SyncRules.PushOne | src/services/indexeddb/syncService.ts:54-84 | a refused remote write leaves the table as it was |
| SyncRules.PushLeavesRefused | src/services/indexeddb/syncService.ts:46-86 | after a table's push the unsynced records are exactly the refused ones, each unchanged; every synced record is kept |
| SyncRules.PushAllStores | src/services/indexeddb/syncService.ts:46-86 | a push over distinct tables pushes each table once and leaves every other store alone |
| SyncRules.PushAllTotal | src/services/indexeddb/syncService.ts:46-88 | every unsynced record is counted exactly once, as synced or as an error |
| SyncRules.PushAllNoErrors | src/services/indexeddb/syncService.ts:46-88 | the error count is zero exactly when every unsynced record was accepted |
| SyncRules.AsPulled | src/services/indexeddb/syncService.ts:117-121 | a pulled copy is synced, not deleted, and keeps its id |
| SyncRules.PullRowsWrites | src/services/indexeddb/syncService.ts:111-125 | the pull never removes a record; any record it changes or adds is a synced, undeleted copy of a remote row |
| SyncRules.PullKeepsLocal | src/services/indexeddb/syncService.ts:113-116 | a local record that no remote row of its id is strictly newer than survives unchanged |
| SyncRules.PullTakesNewer | src/services/indexeddb/syncService.ts:113-123 | when the last remote row is absent locally or strictly newer than the local record, the table then holds its synced copy and the count grows by one |
| SyncRules.PullSkipsFailedTable | src/services/indexeddb/syncService.ts:101-109 | a table whose select fails is left as it was |
| SyncRules.PullRowsPending | src/services/indexeddb/syncService.ts:111-125 | the pull adds no pending change to a table |
| SyncRules.PullAllPending | src/services/indexeddb/syncService.ts:99-129 | no table has more pending changes after the pull than before it |
| SyncRules.PushedSettles | src/services/indexeddb/syncService.ts:46-86 | a table whose every pending record is accepted has none left after its push |
| SyncRules.PushAllSettlesOver | src/services/indexeddb/syncService.ts:46-86 | with every remote write accepted, the push over distinct tables leaves none of them a pending change |
| SyncRules.FullSyncSettles | src/services/indexeddb/syncService.ts:151-161 | a full sync whose every remote write is accepted leaves no pending change in any table |
| OfflineSync.SyncUser | src/services/indexeddb/syncService.ts:140-147 | the given user id when non-empty, else the signed-in user's; none exactly when neither is there |
| OfflineSync.OfflineSyncService.constructor | src/services/indexeddb/syncService.ts:6-16 | the service starts with the browser's connection state, idle and without listeners |
| OfflineSync.OfflineSyncService.OnConnectionChange | src/services/indexeddb/syncService.ts:28-31 | the listener is registered and nothing else changes |
| OfflineSync.OfflineSyncService.Unsubscribe | src/services/indexeddb/syncService.ts:30 | that listener, and only it, is removed |
| OfflineSync.OfflineSyncService.PushItem | src/services/indexeddb/syncService.ts:49-85 | one record pushed: an accepted tombstone is hard-deleted, an accepted live record marked synced, a refused one left alone |
| OfflineSync.OfflineSyncService.PushTable | src/services/indexeddb/syncService.ts:47-86 | the table becomes its push; the counts are of the accepted and of the refused unsynced records |
| OfflineSync.OfflineSyncService.PushTables | src/services/indexeddb/syncService.ts:46-86 | the stores and counts are those of the push over the tables in order |
| OfflineSync.OfflineSyncService.SyncToSupabase | src/services/indexeddb/syncService.ts:37-89 | offline: failure with zero counts and nothing changed; online: the push over the five tables, success exactly when no record was refused |
| OfflineSync.OfflineSyncService.PullTable | src/services/indexeddb/syncService.ts:111-125 | the table becomes its pull and the count is of the rows written |
| OfflineSync.OfflineSyncService.PullTables | src/services/indexeddb/syncService.ts:99-129 | the stores and count are those of the pull over the tables in order, a failed select skipped |
| OfflineSync.OfflineSyncService.SyncFromSupabase | src/services/indexeddb/syncService.ts:91-133 | offline: failure and nothing changed; online: the pull over the five tables, the sync time recorded, and success |
| OfflineSync.OfflineSyncService.PushThenPull | src/services/indexeddb/syncService.ts:151-164 | the push and then the pull; success exactly when both succeed; the message counts records sent and received |
| OfflineSync.OfflineSyncService.FullSync | src/services/indexeddb/syncService.ts:135-168 | refused while a sync runs or without a user; otherwise the push and then the pull, with the flag cleared afterwards |
| OfflineSync.OfflineSyncService.SyncToSupabaseAsWritten | src/services/indexeddb/syncService.ts:37-47 | as written, online, the call rejects with the invalid-key error (or the missing handle's) before any record is sent; offline it reports failure with zero counts |
| OfflineSync.OfflineSyncService.FullSyncAsWritten | src/services/indexeddb/syncService.ts:135-168 | as written, an online full sync for a known user always reports 'Erro durante sincronização' with nothing pushed, pulled or recorded; the guards and the offline answer are as intended |
| OfflineSync.OfflineSyncService.HandleOnlineChange | src/services/indexeddb/syncService.ts:18-26 | the state is recorded, every listener is told, and a full sync runs exactly when coming back online |
| OfflineSync.OfflineSyncService.GetLastSyncTime | src/services/indexeddb/syncService.ts:170-173 | the recorded sync time when it is truthy, else none |
| OfflineData.Columns | src/hooks/useOfflineData.tsx:88 | the payload's columns other than those the hook sets itself, with their values |
| OfflineData.MergedPayloadWins | src/hooks/useOfflineData.tsx:111-116 | in the merge the payload wins, columns it does not name are kept, the update time is new and the record is a pending change |
| OfflineData.MonthScopesAgree | src/hooks/useOfflineData.tsx:58-76 | on the five tables, the online and offline reads scope by month alike |
| OfflineData.RemoteQuery | src/hooks/useOfflineData.tsx:56-60 | every returned row is the user's, and of the month when the table is month-scoped |
| OfflineData.RemoteQueryExact | src/hooks/useOfflineData.tsx:56-62 | each selected row is returned as often as the remote table holds it, and no other row is |
| OfflineData.CachedLastWins | src/hooks/useOfflineData.tsx:64-66 | the last fetched row of an id is what the table holds, as a synced, undeleted copy |
| OfflineData.CachedKeepsOthers | src/hooks/useOfflineData.tsx:64-66 | a local record whose id no fetched row carries is kept |
| OfflineData.SaveThenRead | src/hooks/useOfflineData.tsx:86-100 | a saved record is read back as the user's live record, pending until the remote insert succeeds, with equal creation and update times |
| OfflineData.DeleteHides | src/hooks/useOfflineData.tsx:137-147 | a deleted record is no longer read, whether removed or kept as a tombstone |
| OfflineData.OfflineDataHook.constructor | src/hooks/useOfflineData.tsx:9-12 | the hook starts over the given database with the browser's connection state |
| OfflineData.OfflineDataHook.SetOnline | src/hooks/useOfflineData.tsx:33 | the connection state is the one reported |
| OfflineData.OfflineDataHook.CacheRows | src/hooks/useOfflineData.tsx:64-66 | the fetched rows are put in order as synced copies; nothing else changes |
| OfflineData.OfflineDataHook.GetData | src/hooks/useOfflineData.tsx:49-81 | without a user nothing; online with a reply, the selected remote rows, cached locally; otherwise the user's live local records, by month only for incomes, expenses and debts |
| OfflineData.OfflineDataHook.SaveData | src/hooks/useOfflineData.tsx:83-106 | without a user a failure; otherwise the new record under the given id, with the user's id and equal times, is stored, synced only when online and the insert succeeded; success either way |
| OfflineData.OfflineDataHook.UpdateData | src/hooks/useOfflineData.tsx:108-132 | without a user a failure; an existing record gets the payload merged over it, synced only when the remote update succeeded; no record is created; success either way |
| OfflineData.OfflineDataHook.DeleteData | src/hooks/useOfflineData.tsx:134-153 | without a user a failure; otherwise a soft delete, or removal when online and the remote delete succeeded; success either way |
| SqliteDatabase.Keys | src/services/sqlite/database.ts:166 | the column names, one per property, in insertion order |
| SqliteDatabase.Values | src/services/sqlite/database.ts:168 | the bound values, one per property, in the same order as the names |
| SqliteDatabase.GetFound | src/services/sqlite/database.ts:165-174 | a property is read exactly when its key is among the record's keys, and what is read is one of its properties |
| SqliteDatabase.SetThenGet | src/services/sqlite/syncService.ts:86-91 | after assigning a property it reads back the new value, and every other key reads as before |
| SqliteDatabase.RemoveDrops | src/services/sqlite/syncService.ts:27 | the rest object has no property under the key, and keeps every other property as often as the record has it |
| SqliteDatabase.RemoveKeeps | src/services/sqlite/syncService.ts:27 | every other key reads in the rest object as in the record |
| SqliteDatabase.InsertBindsEachColumn | src/services/sqlite/database.ts:165-174 | the insert has one placeholder per property and binds the properties' values in order |
| SqliteDatabase.UpdateBindsEachKey | src/services/sqlite/database.ts:176-184 | the update has one placeholder per property plus those of the where clause, binds the values then the where values, and is fully bound exactly when the where clause's placeholders match its values |
| SqliteDatabase.DeleteBindsWhere | src/services/sqlite/database.ts:186-188 | the delete binds exactly the where values and has the where clause's placeholders |
| SqliteDatabase.ConditionMarks | src/services/sqlite/database.ts:190-211 | a conjunction of column tests has one placeholder per column |
| SqliteDatabase.SelectBinds | src/services/sqlite/database.ts:190-199 | a select over columns has one placeholder per column and is fully bound exactly when one value is given per column |
| SqliteDatabase.GetAllBound | src/services/sqlite/database.ts:190-192 | the query is fully bound by the user id |
| SqliteDatabase.GetByMonthBound | src/services/sqlite/database.ts:194-199 | the query is fully bound by the user id and the month, in that order |
| SqliteDatabase.GetUnsyncedBound | src/services/sqlite/database.ts:201-203 | the query needs no value |
| SqliteDatabase.MarkAsSyncedBound | src/services/sqlite/database.ts:205-207 | the statement is fully bound by the id |
| SqliteDatabase.ClearTableBound | src/services/sqlite/database.ts:209-211 | the statement is fully bound by the user id |
| SqliteDatabase.SQLiteService.constructor | src/services/sqlite/database.ts:10-13 | no connection held, nothing executed, and the platform recorded |
| SqliteDatabase.SQLiteService.Initialize | src/services/sqlite/database.ts:15-47 | success exactly on a native platform whose connection is obtained and opens; on the web nothing changes; an obtained connection is held even when it fails to open |
| SqliteDatabase.SQLiteService.Query | src/services/sqlite/database.ts:141-151 | the engine's rows when a native connection is held and open, else no rows |
| SqliteDatabase.SQLiteService.Run | src/services/sqlite/database.ts:153-163 | true exactly when a native connection is held and open, and then the statement, only it, is executed |
| SqliteDatabase.SQLiteService.Insert | src/services/sqlite/database.ts:165-174 | the insert statement is executed exactly when the connection is usable, and the result says so |
| SqliteDatabase.SQLiteService.Update | src/services/sqlite/database.ts:176-184 | the update statement is executed exactly when the connection is usable, and the result says so |
| SqliteDatabase.SQLiteService.Delete | src/services/sqlite/database.ts:186-188 | the delete statement is executed exactly when the connection is usable, and the result says so |
| SqliteDatabase.SQLiteService.GetAll | src/services/sqlite/database.ts:190-192 | the engine's rows when the connection is usable, else no rows |
| SqliteDatabase.SQLiteService.GetByMonth | src/services/sqlite/database.ts:194-199 | the engine's rows when the connection is usable, else no rows |
| SqliteDatabase.SQLiteService.GetUnsynced | src/services/sqlite/database.ts:201-203 | the engine's rows when the connection is usable, else no rows |
| SqliteDatabase.SQLiteService.MarkAsSynced | src/services/sqlite/database.ts:205-207 | the mark statement for the id is executed exactly when the connection is usable |
| SqliteDatabase.SQLiteService.ClearTable | src/services/sqlite/database.ts:209-211 | the clearing statement for the user is executed exactly when the connection is usable |
| SqliteDatabase.SQLiteService.Close | src/services/sqlite/database.ts:217-223 | no connection is held afterwards, so the service is unavailable; nothing is executed |
| SqliteSync.Flag | src/services/sqlite/syncService.ts:89-90 | the number written is truthy exactly when the flag is set |
| SqliteSync.FlagRoundTrip | src/services/sqlite/syncService.ts:30-33 | a flag stored as 0 or 1 and uploaded as a boolean comes back as the same 0 or 1; a boolean goes through unchanged |
| SqliteSync.SyncedColumn | src/services/sqlite/syncService.ts:27-91 | an uploaded row has no `synced` column, and a pulled row is stored with `synced` 1 |
| SqliteSync.PullThenPush | src/services/sqlite/syncService.ts:27-91 | a pulled row uploaded again carries every other column unchanged, and an expense's boolean `recorrente` survives the trip |
| SqliteSync.Spread | src/services/sqlite/syncService.ts:145 | spreading an object gives its own properties |
| SqliteSync.Entries | src/services/sqlite/syncService.ts:142 | `Object.entries` fails exactly on null, and otherwise lists the spread properties |
| SqliteSync.RetagOwns | src/services/sqlite/syncService.ts:145 | an imported record carries the importing user and `synced` 0, and every other column as in the file |
| SqliteSync.Tagged | src/services/sqlite/syncService.ts:24 | the rows of one table, each paired with that table, in order |
| SqliteSync.CollectedFrom | src/services/sqlite/syncService.ts:21-24 | every collected item comes from one of the tables, and is one of that table's rows |
| SqliteSync.FetchedCount | src/services/sqlite/syncService.ts:72-97 | when every select fails, or every table is empty, nothing is fetched |
| SqliteSync.Under | src/services/sqlite/syncService.ts:143-147 | one import item per record of the array, each under the array's key |
| SqliteSync.ExportObject | src/services/sqlite/syncService.ts:126-135 | the exported object's keys are the tables, in order |
| SqliteSync.Rows | src/services/sqlite/syncService.ts:131 | one array element per row, each the row as an object |
| SqliteSync.ExportThenImport | src/services/sqlite/syncService.ts:126-156 | importing an export yields every exported row once, in order, under its own table |
| SqliteSync.SyncService.constructor | src/services/sqlite/syncService.ts:6-7 | no sync in progress |
| SqliteSync.SyncService.PushRows | src/services/sqlite/syncService.ts:24-50 | the synced count is the rows the remote accepted, synced plus errors is the number of rows, and exactly the accepted rows are marked, in order, when the connection is usable |
| SqliteSync.SyncService.PushTables | src/services/sqlite/syncService.ts:21-51 | the same over the pending rows of all the tables in order |
| SqliteSync.SyncService.SyncToSupabase | src/services/sqlite/syncService.ts:9-60 | refused with zero counts while a sync runs or without SQLite; otherwise success, with the counts and marks of the push over the five tables, even when some rows were refused |
| SqliteSync.SyncService.PullRows | src/services/sqlite/syncService.ts:84-95 | every fetched row is counted and, when the connection is usable, stored in order as its SQLite form |
| SqliteSync.SyncService.PullTables | src/services/sqlite/syncService.ts:72-97 | the count is of the rows fetched from the tables whose select succeeded, and those are stored in order |
| SqliteSync.SyncService.SyncFromSupabase | src/services/sqlite/syncService.ts:62-104 | without SQLite a failure with nothing stored; otherwise success with every fetched row counted and stored |
| SqliteSync.SyncService.FullSync | src/services/sqlite/syncService.ts:106-124 | success exactly when no sync was running and SQLite is available; the message counts the rows sent and received; the push's marks precede the pull's inserts |
| SqliteSync.SyncService.ExportToJSON | src/services/sqlite/syncService.ts:126-135 | an object with one array per table, holding the user's rows when the connection is usable and none otherwise |
| SqliteSync.SyncService.ImportRecords | src/services/sqlite/syncService.ts:142-149 | every record is counted and, when the connection is usable, inserted in order under its table for the user |
| SqliteSync.SyncService.ImportFromJSON | src/services/sqlite/syncService.ts:137-156 | text that does not parse, or null, fails with nothing inserted; otherwise every record of every array is counted and inserted |
| UseAuth.Cleared | src/hooks/useAuth.tsx:106-109 | both session flags are absent, and every other key is kept with its value |
| UseAuth.AfterSignIn | src/hooks/useAuth.tsx:82-104 | both flags are present exactly after a successful sign-in without "remember me", then holding `true` and the sign-in time; other keys are kept |
| UseAuth.Expired | src/hooks/useAuth.tsx:33-47 | an expired session is marked temporary and has a login time that parses |
| UseAuth.SignInExpiry | src/hooks/useAuth.tsx:33-100 | the listener ends a session begun by sign-in exactly when the sign-in succeeded without "remember me" and more than a day has passed |
| UseAuth.ResetRedirect | src/hooks/useAuth.tsx:115-131 | the link ends in `/update-password` and begins with the production URL on localhost and with the origin elsewhere |
| UseAuth.ResetError | src/hooks/useAuth.tsx:136-145 | no error exactly on a successful reply; every error has a message; a failed reply's own message is passed on |
| UseAuth.AuthProvider.constructor | src/hooks/useAuth.tsx:18-21 | no session, loading, no calls made, the storage as found |
| UseAuth.AuthProvider.OnAuthStateChange | src/hooks/useAuth.tsx:25-54 | the session is recorded and loading ends; on sign-in or refresh an expired temporary session is signed out; on sign-out both flags are removed; otherwise storage is untouched |
| UseAuth.AuthProvider.OnInitialSession | src/hooks/useAuth.tsx:58-63 | the session is recorded and loading ends; nothing else changes |
| UseAuth.AuthProvider.SignUp | src/hooks/useAuth.tsx:68-80 | one sign-up call with the trimmed e-mail and the origin's root as the confirmation link; the remote error is returned |
| UseAuth.AuthProvider.SignIn | src/hooks/useAuth.tsx:82-104 | one sign-in call with the trimmed e-mail; the storage becomes the one sign-in leaves; the remote error is returned |
| UseAuth.AuthProvider.SignOut | src/hooks/useAuth.tsx:106-111 | both flags are removed and one sign-out call is made |
| UseAuth.AuthProvider.ResetPassword | src/hooks/useAuth.tsx:113-146 | one reset request with the trimmed e-mail and the redirect link; the error is the one the reply calls for |
| UseAccessibility.Get | src/hooks/useAccessibility.tsx:70-75 | the field read under a key has that key's type |
| UseAccessibility.Update | src/hooks/useAccessibility.tsx:70-75 | the key takes the value and every other key is kept |
| UseAccessibility.SavedGet | src/hooks/useAccessibility.tsx:31 | a field present in the parsed record has its key's type |
| UseAccessibility.Merge | src/hooks/useAccessibility.tsx:31 | every key takes the saved value when present, else the defaults' |
| UseAccessibility.Load | src/hooks/useAccessibility.tsx:27-37 | the defaults when nothing or empty text is stored or it does not parse; otherwise the parsed record over the defaults |
| UseAccessibility.Saving | src/hooks/useAccessibility.tsx:40 | the written record has every key, with the settings' value |
| UseAccessibility.Stringify | src/hooks/useAccessibility.tsx:40 | the stored text is a non-empty JSON object |
| UseAccessibility.PersistThenLoad | src/hooks/useAccessibility.tsx:27-40 | settings persisted by the effect are loaded back unchanged |
| UseAccessibility.WithSystemPreferences | src/hooks/useAccessibility.tsx:58-67 | a system preference can switch reduced motion or high contrast on, never off; the other fields are kept |
| UseAccessibility.AppliedClasses | src/hooks/useAccessibility.tsx:43-54 | exactly one font-size class, the three toggles as the settings say, and every class the provider does not manage kept |
| UseAccessibility.ApplyTwice | src/hooks/useAccessibility.tsx:39-55 | running the effect again for new settings leaves what running it once for them leaves |
| UseAccessibility.AccessibilityProvider.constructor | src/hooks/useAccessibility.tsx:26-68 | the loaded settings with the system preferences applied, persisted and mirrored on the root's classes |
| UseAccessibility.AccessibilityProvider.Apply | src/hooks/useAccessibility.tsx:39-55 | the settings are stored as text and the root's classes become the applied classes; the settings are kept |
| UseAccessibility.AccessibilityProvider.CheckSystemPreferences | src/hooks/useAccessibility.tsx:58-68 | the settings take the system preferences, then the effect runs |
| UseAccessibility.AccessibilityProvider.UpdateSetting | src/hooks/useAccessibility.tsx:70-75 | the one key changes, then the effect runs |
| UseAccessibility.AccessibilityProvider.ResetSettings | src/hooks/useAccessibility.tsx:77-79 | the settings become the defaults, then the effect runs |
| UseViewMode.ModeText | src/hooks/useViewMode.tsx:3 | every mode has a non-empty name |
| UseViewMode.InitialMode | src/hooks/useViewMode.tsx:14-17 | a non-empty stored value is taken as it is, otherwise `auto` |
| UseViewMode.IsMobileView | src/hooks/useViewMode.tsx:38-48 | `mobile` always, `desktop` never, and any other value by a width below 768 |
| UseViewMode.ViewModeProvider.constructor | src/hooks/useViewMode.tsx:13-21 | the stored mode, and the window width or 1024 without a window |
| UseViewMode.ViewModeProvider.IsMobile | src/hooks/useViewMode.tsx:38-48 | in `auto` mode, mobile exactly below 768 pixels |
| UseViewMode.ViewModeProvider.SetViewMode | src/hooks/useViewMode.tsx:32-35 | the mode is set and stored, the stored value loads back as the same mode, and a forced mode decides the layout whatever the width |
| UseViewMode.ViewModeProvider.Resize | src/hooks/useViewMode.tsx:23-30 | only the width changes |
| AppSidebar.IsActive | src/components/AppSidebar.tsx:39-42 | the dashboard is active only on `/` itself; any other entry whenever the path starts with its URL |
| AppSidebar.NavClassName | src/components/AppSidebar.tsx:44-49 | the highlighted class exactly for the active entry, else the plain one |
| AppSidebar.AtMostOneActive | src/components/AppSidebar.tsx:24-42 | no path highlights two menu entries |
| AppSidebar.NoSegmentBoundary | src/components/AppSidebar.tsx:41 | the prefix test ignores path segments: `/receitasX` highlights the incomes entry |

## Left out

- Time zones: dates are calendar dates. `toISOString` (UTC) and the local-time getters are modelled only in `ReplicatorDates.AdjustDateAsWritten`, with the offset as a parameter.
- Daylight-saving time: adding five days of milliseconds is modelled as adding five calendar days.
- `Date.parse` is modelled for `YYYY-MM-DD` text and null only; other strings give an invalid date.
- Floating point: money and `parseFloat` results are exact reals; `0.7 * total` is the exact `(7 * total) / 10`.
- `parseFloat("Infinity")` is not modelled (it is NaN in the model); `parseInt` reads decimal text only.
- Locale labels (`toLocaleDateString`) are a parameter.
- Remote calls (Supabase queries, inserts, deletes) are not executed: their results are parameters. Rendering is not modelled; toasts and navigations are recorded as sequences where a page's promise is about them.
- Metas: the list refresh after a save or delete is a remote read and is not modelled; `handleDelete` and `openEditDialog` (which formats numbers with `toString`) are not part of this model; currency formatting is left out.
- Dividas: the list refresh after a save or delete is a remote read and is not modelled; `handleEdit` and `handleDelete` are not part of this model; `toFixed(1)` rounding of the share is left to rendering; `Object.entries` lists integer-like category names before the others, and the model keeps plain insertion order.
- Auth: the forgot-password and demo-login handlers and the redirect of a signed-in user are not part of this model; the `Reply` of `signIn`/`signUp` is a parameter.
- ImportData: the database's answer to an insert is ignored by the import, so the remote tables are not modelled; `CountIncludesRejected` states what the count then means. `XLSX.read` and `sheet_to_json` are not modelled: a workbook arrives as its sheets' object rows, or as nothing when it cannot be read.
- `Math.random` is the sequence of draws of `SampleData.RandomSource`.
- DataReplicator.SourceDate: a number or boolean passed to `new Date` is treated as an invalid date.
- Despesas: `hoje` (today's UTC date text) is a parameter; `handleEdit`, `handleDelete` and the list refresh after a write are not part of this model.
- Receitas and Cartoes: `handleDelete` and the list refresh after a write are not part of this model; the card list's order by due date is left to the database.
- MoneyText: `toString` is modelled only for non-negative amounts with at most two decimals (an amount of c hundredths); exponent notation and longer fractions are not covered, so the edit round trips take those texts as given.
- SaldosBancarios.SortByBank: `localeCompare` is modelled by a real-valued collation key passed as a parameter; the stability of `Array.prototype.sort` is not stated.
- SaldosBancarios: `handleDelete` and the confirmation dialog are not part of this model; the local-first store's answer is the `success` parameter.
- SaldosBancarios.Capitalize: `toUpperCase` is one character to one character (ASCII and Latin-1), so 'ß' stays one character.
- JsText: `toUpperCase` and `toLowerCase` are modelled for ASCII and Latin-1 letters and for 'ı' and 'ſ' (whose capitals are 'I' and 'S'); other letters keep their case, and expansions such as 'ß' to 'SS' are not made. No other character upper-cases into a month abbreviation, so month parsing is unaffected. Strings are sequences of Unicode code points, so a `slice` that cuts a character outside the Basic Multilingual Plane in half drops it, where JavaScript keeps a lone surrogate.
- SanitizeString: a cut through the middle of a character outside the Basic Multilingual Plane leaves that character out, where JavaScript keeps its first UTF-16 unit; the length bound is in UTF-16 units as in the source.
- Relatorios: `toLocaleDateString` is the `localeDate` parameter and currency formatting is left out; writing the file, the download name, opening the print window and the `loading` flag are not modelled; an unknown report type gives an empty workbook, which the spreadsheet library would refuse to write.
- Configuracoes: the one-second delay before creating the defaults, the category fetch and its ordering by type and name, `handleDelete`, and the `loading` flag are not modelled.
- IndexedDB: the browser's database is a map per store; only string and number keys are modelled, and a transaction's failure modes other than an unset handle, an unknown store and a missing index are left out. Upgrading an older database version is not modelled (a new database gets the five stores).
- OfflineSync.OfflineSyncService.SyncToSupabase: the push, and with it `PushThenPull`, `FullSync` and `HandleOnlineChange`, is modelled over the intended `getUnsynced` query; as written every online push rejects at its first read, so a full sync reports failure and changes nothing (`FullSyncAsWritten`, under Findings).
- OfflineSync: the sync time is a parameter; the remote `upsert` and `delete` are the `accept` oracle and the remote `select` the `fetch` oracle; only the re-entrancy flag of concurrent syncs is modelled, not interleaving; a thrown exception part-way through a table is not modelled.
- OfflineData: the hook's mount effect (initialising the database and the listener registration) and `syncNow` are not part of this model; the signed-in user, the fresh id and the clock are parameters; the order of the remote rows is kept, but the local reads are sets, since the store's order is its key order.
- OfflineData.Columns: a payload that itself carries `id`, `user_id`, `created_at`, `updated_at`, `synced` or `deleted` has those columns dropped, because the record keeps them as separate fields that the hook sets.
- SqliteDatabase: the SQL engine is not modelled: query rows are a parameter and the statements run are logged. A failure of `createTables` after a successful open is folded into `opens`. `isAvailable` stays true after a connection that failed to open (the handle is set, the database is not open), as the source has it.
- SqliteSync: the server is the `accept` and `fetch` oracles; the engine's answers to its selects are parameters. `JSON.stringify` and `JSON.parse` are not modelled: the export returns the object, and the import receives the parsed value or nothing. NaN truthiness and the ordering of integer-like keys in an object are left out, and a record without an `id` is marked with a null id.
- SqliteSync.SyncService.SyncToSupabase: reports success even when rows were refused, as the source does; the contract says so.
- UseAuth: `updatePassword`, the order in which the initial `getSession` answer and the first listener event arrive, the console logs and the `useAuth` context guard are not modelled. The remote sign-out after an expired session produces its SIGNED_OUT event later, as a separate call of `OnAuthStateChange`. A reset reply whose body is not JSON makes `response.json()` throw; the model counts it as an unreachable server, as the source's `catch` does.
- UseAccessibility: stored JSON with extra keys or fields of the wrong type, and JSON that is not an object, are not modelled (the parsed record has typed optional fields); `announceToScreenReader` and its timer are not part of this model; React's batching of the two mount-time updates into one render is not modelled (the effect runs after each).
- UseViewMode: `SetViewMode` takes the three modes only; a stored value that is not a mode is kept as text, as the source does, and then behaves as `auto`. The resize listener's registration is not modelled.
- AppSidebar: rendering, icons and the collapsed width are not modelled.

## Findings

| source | as written | input that shows it | evidently intended | confidence | as-written member | corrected member |
|---|---|---|---|---|---|---|
| src/components/DataReplicator.tsx:60-63 | the stored date is parsed as UTC midnight, its local day is read, and the rebuilt local-midnight date is written back in UTC | 2024-03-15 moved to ABR/24 in UTC-3 gives 2024-04-14 | the same day of month in the target month (2024-04-15) | high; not executed | ReplicatorDates.AsWrittenCounterexample | ReplicatorDates.AdjustKeepsDay |
| src/pages/Cartoes.tsx:148-150 | `handleEdit` fills the amounts with `toString`, whose decimal point the money parse of lines 89-91 strips | a card of 12.35 opened for editing and saved unchanged | the amount stored as 12.35 | high; not executed | Cartoes.EditThenSaveInflates | Cartoes.EditThenSaveFixed |
| src/pages/SaldosBancarios.tsx:135 | `handleEdit` fills the balance with `toString`, whose decimal point the money parse of line 85 strips | a balance of 12.35 opened for editing and saved unchanged, stored as 1235 | the balance stored as 12.35 | high; not executed | SaldosBancarios.EditThenSaveInflates | SaldosBancarios.EditThenSaveFixed |
| src/services/indexeddb/database.ts:106-113 | `getUnsynced` queries the `synced` index with `IDBKeyRange.only(false)`, and a boolean is not a valid key | any store holding a record with `synced` false | the records whose `synced` flag is false | high; not executed | IndexedDb.UnsyncedAsWrittenFails | IndexedDb.UnsyncedIntended |
| src/services/indexeddb/syncService.ts:47 | `syncToSupabase` awaits `getUnsynced` outside the per-record `try`, so its refusal rejects the push and `fullSync` answers from its `catch` | any online full sync for a signed-in user | local changes pushed, remote rows pulled, the sync time recorded | high; not executed | OfflineSync.OfflineSyncService.FullSyncAsWritten | OfflineSync.OfflineSyncService.FullSync |
