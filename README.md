# PAIERO payroll engine in Dafny

A model of the two business modules of PAIERO, a payroll application for
Malian employers. The modules are:

- the progressive income-tax engine, `TaxCalculator` in `business/tax_calculator.py`;
- the monthly payroll pipeline, `PayrollCalculator` and `calculate_payroll` in
  `business/payroll_calculator.py`.

Both are pure computations over a small set of values, so the model is made of
datatypes, functions and lemmas. The one loop in the source, the walk over the
tax brackets, is a `method` with a `for` loop. Its specification is the
recursive function `Tax.TaxSum`.

The model is split into these modules:

- `Wrappers` (`wrappers.dfy`): `Option`, `Result`, and `PyError`. `PyError` is
  the `IndexError` that Python raises when a status code is whitespace only.
- `Money` (`money.dfy`): `round(x, 2)` on exact reals (`Round2`) and its laws.
- `StatusCode` (`status_code.dfy`): how both lookups read a status code such
  as `"M08"`. They apply `upper()` and `strip()`, take the first character as
  the marital letter, and read the rest with Python's `int()`. Both string
  operations are written out here, and `int(str(n)) == n` is proved. `int()`
  skips less whitespace than `strip()`: the separators U+001C to U+001F are
  whitespace to `strip()` but a character `int()` cannot read.
- `Tax` (`tax.dfy`): the bracket schedule and its default (Mali, 2019), the
  annual tax, the monthly tax with the family reduction of the tax base, the
  reduction table, the details record and `calculate_income_tax`.
- `Payroll` (`payroll.dfy`): the attendance adjustment, the family-allowance
  table, the stages of `calculate` (`Compute` before rounding, `Assemble` for
  the rounded record) and `calculate_payroll` with its keyword arguments.

Amounts are exact reals. `Round2` is a concrete round-half-up to the cent. It
is always within half a cent of its argument. It is idempotent and monotone,
and it keeps apart two amounts that are more than a cent apart.

Where the documentation and the code disagree, the model follows the code:

- Both lookups are documented as never failing for odd codes. In fact, a
  status code that is non-empty but made only of whitespace strips to `""`.
  Indexing its first character is outside the `try`, so the lookup raises
  `IndexError`. `FamilyChargeReduction`, `FamilyAllowance`, `Calculate` and
  `CalculatePayroll` return `Err(IndexError)` exactly in that case.
- The docstring of `calculate_family_allowance` describes ranges such as
  "15,000 to 30,000". The code returns fixed amounts: C0–C1 15000, C2–C4
  25000, C5+ 35000; M0–M2 25000, M3–M4 35000, M5–M7 45000, M8+ 55000. Any
  other count gives 0. `Payroll.AllowanceAmount` is that table.
- `PayrollInput.days_worked` is accepted and echoed back but never used. Only
  `days_absent` adjusts the base (`AdjustedBaseIgnoresDaysWorked`).
- The `cumulative_tax` column of the default schedule is never read. Its top
  value, 693217, is not the tax of the six lower brackets taken in full,
  which is 693219.91 (`DefaultLowerBracketsTax`).

## Model

| member | source | states |
|---|---|---|
| Money.Round2 | business/tax_calculator.py:88 | `round(x, 2)` lands within half a cent of x (above by at most 1/200, below by less) |
| Money.RoundIsCents | business/tax_calculator.py:88 | a rounded amount is a whole number of cents |
| Money.RoundOfCents | business/tax_calculator.py:196 | rounding leaves a whole number of cents unchanged |
| Money.RoundIdempotent | business/tax_calculator.py:196-197 | rounding an already rounded amount changes nothing |
| Money.RoundMonotone | business/tax_calculator.py:115 | rounding preserves the order of two amounts |
| Money.RoundNonNegative | business/payroll_calculator.py:200-232 | a non-negative amount rounds to a non-negative amount |
| Money.RoundSeparates | business/payroll_calculator.py:214 | amounts more than a cent apart round to different values |
| StatusCode.UpperChar | business/tax_calculator.py:138 | upper-casing turns a–z into A–Z, leaves every other character alone, and preserves whitespace and digits |
| StatusCode.IsSpace | business/tax_calculator.py:138 | the characters Python counts as whitespace (`str.isspace`), which `strip()` skips |
| StatusCode.Upper | business/tax_calculator.py:138 | `upper()` maps every character by `UpperChar`, same length |
| StatusCode.StripLeft | business/tax_calculator.py:138 | the result is a suffix; every dropped character is whitespace; the result starts with non-whitespace |
| StatusCode.StripRight | business/tax_calculator.py:138 | the result is a prefix; every dropped character is whitespace; the result ends with non-whitespace |
| StatusCode.Strip | business/tax_calculator.py:138 | `strip()` yields "" exactly when the string is all whitespace, otherwise a string whose two ends are not whitespace |
| StatusCode.StripCutsWhitespace | business/tax_calculator.py:138 | what `strip()` leaves is the string with a whitespace-only prefix and a whitespace-only suffix cut off |
| StatusCode.StripTrimmed | business/tax_calculator.py:138 | a string with no whitespace at either end strips to itself |
| StatusCode.IntSpace | business/tax_calculator.py:143 | the whitespace `int()` skips around a number: `str.isspace` without the separators U+001C to U+001F |
| StatusCode.IntStripLeft | business/tax_calculator.py:143 | the leading whitespace `int()` skips: the result is a suffix, every dropped character is `int()` whitespace, and the result starts with another character |
| StatusCode.IntStripRight | business/tax_calculator.py:143 | the mirror image for the trailing whitespace `int()` skips |
| StatusCode.IntStrip | business/tax_calculator.py:143 | the text `int()` reads as a number: empty exactly when the string is all `int()` whitespace, otherwise with no such whitespace at either end |
| StatusCode.IntStripTrimmed | business/tax_calculator.py:143 | text without `int()` whitespace at either end is read whole |
| StatusCode.IntStripLeftPadded | business/tax_calculator.py:143 | the skipping removes exactly an `int()` whitespace prefix in front of another character |
| StatusCode.IntStripRightPadded | business/tax_calculator.py:143 | the skipping removes exactly an `int()` whitespace suffix after another character |
| StatusCode.IntStripPadded | business/tax_calculator.py:143 | `int()` whitespace around text with other characters at both ends is exactly what is skipped |
| StatusCode.SeparatorNotAnInt | business/tax_calculator.py:138-145 | U+001C is whitespace to `strip()` but not to `int()`: "\x1c5" strips to "5", yet `int()` of it raises |
| StatusCode.DigitChar | business/tax_calculator.py:143 | the character of a digit 0–9 is a digit with that value |
| StatusCode.NatToStringDigits | business/tax_calculator.py:143 | the decimal rendering of n is a non-empty digit run whose value is n |
| StatusCode.ParseIntToString | business/tax_calculator.py:143 | `int(str(n)) == n` for every integer n |
| StatusCode.ParseInt | business/tax_calculator.py:142-145 | Python's base-10 `int()`: skip the whitespace `int()` skips, then an optional sign and digits with single underscores between them; `None` where `int()` raises ValueError |
| StatusCode.ReadNumber | business/tax_calculator.py:143 | what `int()` reads once the whitespace is skipped: an optional sign and a digit run, anything else raising; its cases are `ReadSignedRun` and `UnreadableStart` |
| StatusCode.ReadSignedRun | business/tax_calculator.py:143 | an optional `+` or `-` followed by a digit run reads as the signed value of the run |
| StatusCode.UnreadableStart | business/tax_calculator.py:143-145 | text that starts with a character that is neither `int()` whitespace, a sign nor a digit makes `int()` raise |
| StatusCode.NatToStringRun | business/tax_calculator.py:143 | the decimal rendering of n is a digit run `int()` accepts, of value n |
| StatusCode.RunValueLeadingZero | business/tax_calculator.py:143 | a leading zero does not change the value `int()` reads, as in "08" |
| StatusCode.StripLeftPadded | business/tax_calculator.py:138 | `lstrip()` removes exactly a whitespace prefix in front of a non-whitespace character |
| StatusCode.StripRightPadded | business/tax_calculator.py:138 | `rstrip()` removes exactly a whitespace suffix after a non-whitespace character |
| StatusCode.StripPadded | business/tax_calculator.py:138 | `strip()` of a string with non-whitespace ends wrapped in whitespace gives that string back |
| StatusCode.ParseIntOfStripped | business/tax_calculator.py:143 | `int()` of text that, once its `int()` whitespace is skipped, is an optional sign and a digit run is the signed value of the run |
| StatusCode.ParseIntPadded | business/tax_calculator.py:143 | `int()` accepts `int()` whitespace on both sides, a `+` or `-` sign, leading zeros and underscores, and gives the signed value of the digits |
| StatusCode.ParseIntLeftPadded | business/tax_calculator.py:143 | the same with whitespace on the left only, as in the rest of a code after its letter |
| StatusCode.UpperConcat | business/tax_calculator.py:138 | `upper()` works character by character, so it distributes over concatenation |
| StatusCode.UpperUnchanged | business/tax_calculator.py:138 | `upper()` leaves a string without lower-case letters unchanged |
| StatusCode.UpperAllSpace | business/tax_calculator.py:138-141 | upper-casing neither creates nor removes an all-whitespace string |
| StatusCode.Normalize | business/tax_calculator.py:138 | `code.upper().strip()`, the normalisation both lookups apply |
| StatusCode.ParseStatus | business/tax_calculator.py:135-145 | "" is the early return; a non-empty all-whitespace code raises IndexError (both directions); otherwise the letter is the first normalized character and the count is `int()` of the rest, absent where `int()` raises |
| StatusCode.ParseCanonicalStatus | business/payroll_calculator.py:285-292 | a code written as a letter then `str(n)` reads back as the upper-cased letter and n |
| StatusCode.UpperPadded | business/tax_calculator.py:138 | upper-casing a code made of whitespace, a letter, and signs, digits and underscores changes only the letter |
| StatusCode.NormalizePadded | business/tax_calculator.py:138 | normalising such a code upper-cases the letter and drops the outer whitespace |
| StatusCode.ParseLetterAndRest | business/tax_calculator.py:135-145 | such a code reads as the upper-cased letter and `int()` of what follows it |
| StatusCode.ParsePaddedStatus | business/payroll_calculator.py:282-292 | a code such as " m +0_8 " (whitespace, letter, `int()` whitespace, sign, digit run, whitespace) reads as the upper-cased letter and the signed value of the digits |
| Tax.Bracket | business/tax_calculator.py:8-14 | `TaxBracket`: minimum, optional maximum (none for the top bracket), rate and the unread cumulative tax |
| Tax.InitBrackets | business/tax_calculator.py:44-51 | a missing or empty schedule falls back to the default, any other one is kept; the result is never empty |
| Tax.DefaultBrackets | business/tax_calculator.py:34-42 | the default schedule: seven brackets from 0% to 37%, each starting one unit above the previous maximum |
| Tax.DefaultWellFormed | business/tax_calculator.py:34-42 | the default schedule has ordered bounds, each bracket one unit above the previous, only the last unbounded, rates in [0, 1] |
| Tax.ContiguousTail | business/tax_calculator.py:34-42 | dropping the first bracket of a contiguous schedule leaves a contiguous schedule |
| Tax.MinsAscend | business/tax_calculator.py:34-42 | in a contiguous schedule the minimums ascend, and every earlier bracket is bounded with a maximum below a later one's minimum |
| Tax.Slice | business/tax_calculator.py:73-82 | the amount taxed in one bracket: from its minimum up to the income or the maximum, both bounds counted |
| Tax.BracketTax | business/tax_calculator.py:85 | a bracket's tax: its slice of the income times its rate; its properties are `BracketTaxMonotone` and `BracketTaxAtMostSlice` |
| Tax.TaxSum | business/tax_calculator.py:66-86 | the sum of the walk: each bracket whose minimum does not exceed the income adds its slice times its rate, and the walk stops at the first that does; its properties are the lemmas below |
| Tax.AnnualTax | business/tax_calculator.py:53-88 | no tax on a non-positive income; otherwise the bracket sum rounded, within half a cent of it |
| Tax.CalculateAnnualTax | business/tax_calculator.py:53-88 | the loop with its early `break` computes exactly `AnnualTax` (invariant: the accumulated tax plus the tax of the remaining brackets is the whole sum) |
| Tax.TaxSumStopsAt | business/tax_calculator.py:70-71 | brackets from the first one starting above the income onward contribute nothing |
| Tax.TaxSumNonNegative | business/tax_calculator.py:68-86 | with ordered bounds and non-negative rates the bracket sum is never negative |
| Tax.SliceMonotone | business/tax_calculator.py:73-82 | the portion of income in a bracket never decreases as income grows |
| Tax.BracketTaxMonotone | business/tax_calculator.py:73-86 | a bracket's tax never decreases as income grows |
| Tax.BracketsTail | business/tax_calculator.py:68 | ordered bounds and non-negative rates carry over to the remaining brackets |
| Tax.TaxSumMonotone | business/tax_calculator.py:68-86 | a higher income never owes less (bracket sum) |
| Tax.AnnualTaxNonNegative | business/tax_calculator.py:53-88 | with ordered bounds and non-negative rates the annual tax is never negative |
| Tax.AnnualTaxMonotone | business/tax_calculator.py:53-88 | a higher income never owes less annual tax, rounding included |
| Tax.BracketTaxAtMostSlice | business/tax_calculator.py:85 | at a rate of at most 1 a bracket owes at most its slice |
| Tax.FirstBracketTax | business/tax_calculator.py:73-86 | the first bracket owes at most its slice, which is at most the income counted from its minimum and, when the walk goes on, ends where the second bracket starts |
| Tax.TaxSumAtMostTaxedIncome | business/tax_calculator.py:68-86 | with rates at most 1, the tax of a contiguous schedule is at most the income counted from the first minimum, both bounds included |
| Tax.TaxSumWithinBracket | business/tax_calculator.py:68-86 | an income inside bracket k owes the full width times rate of every lower bracket plus `(income - min_k + 1) * rate_k` |
| Tax.TaxSumInFirstBracket | business/tax_calculator.py:68-86 | an income inside the first bracket owes `(income - min + 1) * rate` of it and nothing else |
| Tax.TaxSumPastFirstBracket | business/tax_calculator.py:77-86 | an income above the first bracket owes its full width times its rate plus the tax of the remaining brackets |
| Tax.FullBracketsTaxStep | business/tax_calculator.py:79-86 | the full tax of the first k brackets is the first one's full tax plus that of the next k - 1 |
| Tax.TaxSumAtBracketTop | business/tax_calculator.py:70-82 | an income from a bracket's maximum up to one unit above it owes exactly the full lower brackets, nothing from the next |
| Tax.TaxBetweenBrackets | business/tax_calculator.py:70-79 | an income in the gap between a maximum m and m + 1 is taxed as m |
| Tax.DefaultTaxAt330000 | business/tax_calculator.py:35 | 330000, the top of the 0% bracket, owes no tax |
| Tax.DefaultTaxAt330001 | business/tax_calculator.py:36 | 330001, the bottom of the 5% bracket, owes 0.05 |
| Tax.DefaultLowerBracketsTax | business/tax_calculator.py:35-41 | the six bounded default brackets in full owe 693219.91, which differs from the top bracket's `cumulative_tax` |
| Tax.TaxableBase | business/tax_calculator.py:102-107 | the annual base: twelve months, times one less the reduction only when the reduction is positive; its bounds are `TaxableBaseBounds` |
| Tax.TaxableBaseBounds | business/tax_calculator.py:102-107 | the annual base is 12 × gross when the reduction is not positive; within [0, 12 × gross] for a fraction in [0, 1] and a non-negative gross; not positive for a non-positive gross |
| Tax.TaxableBaseMonotone | business/tax_calculator.py:102-107 | a higher gross never gives a smaller taxable base |
| Tax.MonthlyTax | business/tax_calculator.py:90-115 | the monthly tax is within half a cent of a twelfth of the annual tax of the taxable base |
| Tax.NoReductionUnlessPositive | business/tax_calculator.py:106-107 | a zero or negative reduction leaves the tax as for no reduction |
| Tax.ReductionNeverRaisesTax | business/tax_calculator.py:105-115 | a reduction in [0, 1] never raises the monthly tax |
| Tax.MonthlyTaxMonotone | business/tax_calculator.py:90-115 | a higher gross never owes less monthly tax |
| Tax.ReductionRate | business/tax_calculator.py:147-165 | the reduction table; always one of 0, 0.10, 0.15, 0.20, 0.25; 0 for other letters and negative counts; at least 0.10 for M with 0 to 20 dependents |
| Tax.FamilyChargeReduction | business/tax_calculator.py:117-165 | fails exactly on non-empty whitespace codes; "" and unknown letters or unparsable counts give 0; every result is one of 0, 0.10, 0.15, 0.20, 0.25 |
| Tax.ReductionOfCode | business/tax_calculator.py:147-165 | the reduction table for codes C/c and M/m followed by a count, with 0 outside the listed ranges |
| Tax.ReductionOfStatus | business/tax_calculator.py:141-165 | a code that reads as a letter and a count has the table's reduction for them |
| Tax.ReductionOfPaddedCode | business/tax_calculator.py:135-165 | the reduction table for every code `int()` accepts after the letter: surrounding whitespace, `int()` whitespace after the letter, a sign, leading zeros, underscores, either case |
| Tax.TaxDetails | business/tax_calculator.py:190-199 | the eight entries of the dictionary `calculate_tax_details` returns |
| Tax.CalculateTaxDetails | business/tax_calculator.py:167-199 | fails exactly when the reduction lookup fails; otherwise echoes the code and reduction; monthly gross, annual gross (12 × gross) and taxable base rounded to the cent; its annual tax is the tax of the reduced base and its monthly tax `calculate_monthly_tax` at that reduction; the effective rate is the rounded percentage of the unrounded monthly tax in the gross, 0 for a non-positive gross |
| Tax.DetailsAt | business/tax_calculator.py:180-199 | the same eight entries for a reduction already looked up, where the unconditional reduction of line 184 is shown to agree with the guarded one of `calculate_monthly_tax` |
| Tax.EffectiveRate | business/tax_calculator.py:198 | the effective rate: 0 for a non-positive gross, and between 0 and 100 when the monthly tax is between 0 and the gross |
| Tax.DetailsTaxes | business/tax_calculator.py:183-188 | on the unconditionally reduced base, the rounded annual tax is the annual tax of the guarded base and the rounded twelfth is `MonthlyTax` |
| Tax.TaxableBaseUnreduced | business/tax_calculator.py:184 | applying a non-negative reduction unconditionally gives the same base as the guarded form at lines 106-107 |
| Tax.AnnualTaxIsCents | business/tax_calculator.py:196 | the annual tax is already rounded; the second rounding in the details changes nothing |
| Tax.MonthlyTaxIsCents | business/payroll_calculator.py:217 | the monthly tax is already rounded; rounding it again in the payroll record changes nothing |
| Tax.CalculateIncomeTax | business/tax_calculator.py:202-218 | fails exactly on non-empty whitespace codes; otherwise equals the monthly tax of the details record under the default schedule |
| Payroll.InpsEmployeeRate | PAIERO-Source/config.py:45 | the employee's pension contribution, 3.6% of the contribution base (used at business/payroll_calculator.py:162) |
| Payroll.InpsEmployerRate | PAIERO-Source/config.py:46 | the employer's pension contribution, 16.4% |
| Payroll.AmoEmployeeRate | PAIERO-Source/config.py:47 | the employee's health insurance, 3.06% |
| Payroll.AmoEmployerRate | PAIERO-Source/config.py:48 | the employer's health insurance, 3.5% |
| Payroll.HousingTaxRate | business/payroll_calculator.py:186 | TL, 1% of gross |
| Payroll.TrainingTaxRate | business/payroll_calculator.py:187 | TFP, 2% of gross |
| Payroll.EmploymentTaxRate | business/payroll_calculator.py:188 | ATEJ, 2% of gross |
| Payroll.CfeRate | business/payroll_calculator.py:189 | CFE, 3.5% of gross |
| Payroll.StandardDays | business/payroll_calculator.py:250 | the 26 working days of the standard month |
| Payroll.TransportDefaultRate | business/payroll_calculator.py:138 | a zero transport allowance is replaced by 10% of the adjusted base |
| Payroll.PayrollInput | business/payroll_calculator.py:17-44 | `PayrollInput`: id, base, code, days worked and absent, the nine allowances and the three other deductions |
| Payroll.PayrollResult | business/payroll_calculator.py:47-99 | `PayrollResult`: the echoed inputs and every rounded figure of the payslip |
| Payroll.AbsenceDeduction | business/payroll_calculator.py:256-261 | base less a 26th per absent day is the pro-rata pay for the remaining days; never above base; not positive once 26 days are absent |
| Payroll.AdjustedBase | business/payroll_calculator.py:235-263 | no absence keeps the base; otherwise exactly `max(0, base * (26 - d) / 26)`; within [0, base] for a non-negative base, 0 from 26 days on, half for 13 days |
| Payroll.AdjustedBaseAntitone | business/payroll_calculator.py:256-263 | for a non-negative base, more absent days never raise the adjusted base |
| Payroll.AdjustedBaseIgnoresDaysWorked | business/payroll_calculator.py:235-263 | the days-worked argument does not change the adjusted base |
| Payroll.AllowanceAmount | business/payroll_calculator.py:294-314 | the allowance table; always one of 0, 15000, 25000, 35000, 45000, 55000; 0 for other letters and negative counts; at least 15000 for C or M with a non-negative count |
| Payroll.AllowanceMonotone | business/payroll_calculator.py:294-314 | for either letter, more dependents never lower the allowance |
| Payroll.FamilyAllowance | business/payroll_calculator.py:265-314 | fails exactly on non-empty whitespace codes; "" and unknown letters or unparsable counts give 0; every result is one of 0, 15000, 25000, 35000, 45000, 55000 |
| Payroll.FamilyAllowanceIgnoresBase | business/payroll_calculator.py:265-314 | the base salary does not change the allowance |
| Payroll.AllowanceOfCode | business/payroll_calculator.py:294-314 | the allowance table for codes C/c and M/m followed by a count, with 0 outside the listed ranges |
| Payroll.AllowanceOfStatus | business/payroll_calculator.py:288-314 | a code that reads as a letter and a count has the table's allowance for them |
| Payroll.AllowanceOfPaddedCode | business/payroll_calculator.py:282-314 | the allowance table for every code `int()` accepts after the letter: surrounding whitespace, `int()` whitespace after the letter, a sign, leading zeros, underscores, either case |
| Payroll.Figures | business/payroll_calculator.py:130-195 | the unrounded local values of `calculate`, one per stage |
| Payroll.ExcludedAllowances | business/payroll_calculator.py:156-159 | responsibility, risk, housing, overtime and bonus: in gross but left out of the contribution base |
| Payroll.Compute | business/payroll_calculator.py:130-195 | transport defaults to 10% of the adjusted base when 0; gross is contribution base plus the excluded allowances; contributions are on the base; income tax is the engine's monthly tax on gross; total deductions are the two contributions, the tax, loan, advance and other deductions; net salary is gross less contributions and tax, net to pay is net salary less loan, advance and other; the four labour taxes are 1%, 2%, 2% and 3.5% of gross; employer cost is the employer contributions plus labour taxes; total cost is gross plus employer cost |
| Payroll.Assemble | business/payroll_calculator.py:198-233 | the result record: identifiers and day counts echoed, each amount rounded from its own unrounded figure |
| Payroll.Calculate | business/payroll_calculator.py:120-233 | fails exactly on non-empty whitespace codes; otherwise every figure rounded from `Compute` at the code's reduction; employee id, days and the given family allowance echoed |
| Payroll.IncomeTaxIsTaxOnGross | business/payroll_calculator.py:165-169 | the record's income tax is the engine's monthly tax on the unrounded gross |
| Payroll.ComputeIgnoresExcludedAllowances | business/payroll_calculator.py:156-159 | changing responsibility, risk, housing, overtime or bonus leaves the contribution base and moves gross by the change and total cost by 1.085 × the change |
| Payroll.ContributionsIgnoreExcludedAllowances | business/payroll_calculator.py:156-195 | those allowances leave all four social contributions of the record unchanged, and a change of more than a cent changes gross and total cost |
| Payroll.RoundedTotalsDrift | business/payroll_calculator.py:171-233 | the rounded totals agree with the sums of rounded parts to within half a cent per rounded term, not exactly |
| Payroll.HalfMonthAbsence | business/payroll_calculator.py:131-159 | 13 absent days halve the base, and transport, the contribution base and gross follow from the halved base |
| Payroll.Overrides | business/payroll_calculator.py:319 | the keyword arguments `**kwargs` may pass, each absent or given |
| Payroll.NoOverrides | business/payroll_calculator.py:319 | a call with no keyword arguments |
| Payroll.MakeInput | business/payroll_calculator.py:17-44 | the input record carries the id, base, code and family allowance; each keyword argument that is passed is kept and each one left out takes the dataclass default (26 days worked, 0 absent, 0.0 for every amount) |
| Payroll.CalculatePayroll | business/payroll_calculator.py:317-347 | fails exactly on non-empty whitespace codes; an explicit family allowance, zero included, is kept; otherwise the allowance is looked up from the code |
| Payroll.MarriedEightDependents | business/tax_calculator.py:130 | the docstrings' example code "M08" gives a 20% reduction and the allowance of 55000 |
| Payroll.PaddedTenDependents | business/payroll_calculator.py:282-314 | the code " c +1_0 " reads as C with ten dependents: a 15% reduction and the allowance of 35000 |
| Payroll.SeparatorAfterLetter | business/payroll_calculator.py:282-292 | "C\x1c5": `strip()` keeps the separator after the letter and `int()` rejects it, so the reduction and the allowance are both 0 |
| Payroll.TopBracketMonth | business/tax_calculator.py:90-115 | a 565000 monthly gross with no reduction owes 159082.65 (annual 1908991.81) |
| Payroll.SingleMonthFigures | business/payroll_calculator.py:130-195 | base 500000 with code C0: transport 50000, gross 565000, INPS 20340, AMO 17289, tax 159082.65, net to pay 368288.35, total cost 725460 |
| Payroll.SingleMonthCode | business/payroll_calculator.py:265-314 | code C0 gives the family allowance 15000 and no tax-base reduction |
| Payroll.SingleMonthRecord | business/payroll_calculator.py:198-233 | the rounded record of that month keeps the figures, all of them whole cents |
| Payroll.RoundedSingleMonth | business/payroll_calculator.py:204-232 | figures already in whole cents leave the record's amounts unchanged by rounding |
| Payroll.SingleNoDependentsMonth | business/payroll_calculator.py:317-347 | `calculate_payroll("E1", 500000, "C0")` succeeds with the family allowance of 15000 and the rounded figures above |

## Left out

- The user interface, database, reports, CSV import, authentication and packaging. These are the rest of the repository, not the calculation core.
- Floating point. Amounts are exact reals, so the binary representation error of IEEE doubles is not modelled.
- Money.Round2: rounds exact halves upwards. Python's `round` rounds the binary double half to even, so the two can differ on an exact half cent.
- StatusCode.ParseInt: accepts only ASCII digits; Python's `int()` also accepts other Unicode decimal digits. It also has no limit on length: CPython 3.11 and later raise ValueError for more than 4300 digits, which the lookups catch, so a code such as "C" followed by 4301 digits gets allowance 0 there and 35000 here.
- StatusCode.UpperChar: upper-cases ASCII letters only. Python's `upper()` also maps non-ASCII letters. Only `C` and `M` matter to the lookups.
- The `TypeError` that `calculate_payroll` raises for an unknown keyword argument, and dynamic typing in general. `Overrides` lists exactly the accepted keywords, with the dataclass's types.
- `TaxCalculator` is built once per call and holds no changing state. Its `brackets` field is the value `InitBrackets` returns, not a class.
- The `cumulative_tax` bracket field is carried but never read, as in the source.
- Tax.TaxSumMonotone, Tax.AnnualTaxMonotone, Tax.MonthlyTaxMonotone: monotonicity is proved for schedules with ordered bounds and non-negative rates, not for arbitrary user-entered schedules.
- Batch payroll runs and the screens that fill the inputs: they call `calculate` per employee and add nothing to the calculation.
