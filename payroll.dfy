/**
 * The payroll pipeline (`PayrollCalculator`): one employee's monthly inputs
 * become one result record through attendance adjustment, allowances, gross
 * salary, the social-contribution base, employee deductions (including the
 * income tax of the tax engine under its default schedule), net figures and
 * the employer's contributions and labour taxes.
 */
module Payroll {
  import opened Wrappers
  import opened Money
  import opened StatusCode
  import opened Tax

  // Social contribution rates (INPS: pension fund, AMO: health insurance).
  const InpsEmployeeRate: real := 0.036
  const InpsEmployerRate: real := 0.164
  const AmoEmployeeRate: real := 0.0306
  const AmoEmployerRate: real := 0.035

  // Labour taxes on gross salary, paid by the employer.
  const HousingTaxRate: real := 0.01       // taxe de logement (TL)
  const TrainingTaxRate: real := 0.02      // taxe de formation professionnelle (TFP)
  const EmploymentTaxRate: real := 0.02    // youth employment levy (ATEJ)
  const CfeRate: real := 0.035             // contribution forfaitaire (CFE)

  /** Working days of the standard month. */
  const StandardDays: int := 26

  /** Transport allowance, as a fraction of the adjusted base, when none is given. */
  const TransportDefaultRate: real := 0.10

  /** One employee's inputs for one period. */
  datatype PayrollInput = PayrollInput(
    employeeId: string,
    baseSalary: real,
    statusCode: string,
    daysWorked: int,
    daysAbsent: int,
    transportAllowance: real,
    familyAllowance: real,
    responsibilityAllowance: real,
    riskAllowance: real,
    housingAllowance: real,
    overtimeAmount: real,
    bonusAmount: real,
    indSpec1973: real,
    cherVie1974: real,
    loanDeduction: real,
    advanceDeduction: real,
    otherDeductions: real)

  /** The computed payroll record; every amount rounded to the cent. */
  datatype PayrollResult = PayrollResult(
    employeeId: string,
    baseSalary: real,
    daysWorked: int,
    daysAbsent: int,
    adjustedBaseSalary: real,
    transportAllowance: real,
    familyAllowance: real,
    responsibilityAllowance: real,
    riskAllowance: real,
    housingAllowance: real,
    overtimeAmount: real,
    bonusAmount: real,
    indSpec1973: real,
    cherVie1974: real,
    totalAllowances: real,
    grossSalary: real,
    inpsEmployee: real,
    amoEmployee: real,
    incomeTaxNet: real,
    loanDeduction: real,
    advanceDeduction: real,
    otherDeductions: real,
    totalDeductions: real,
    netSalary: real,
    netToPay: real,
    inpsEmployer: real,
    amoEmployer: real,
    totalEmployerCost: real,
    taxeLogement: real,
    taxeFormation: real,
    taxeEmploi: real,
    contributionCfe: real,
    totalLaborTaxes: real,
    totalCost: real)

  // ---------------------------------------------------------------------------
  // Attendance

  /** The deduction for absences: a 26th of the base per day absent, i.e. the pay for the days present remains. */
  lemma AbsenceDeduction(baseSalary: real, daysAbsent: int)
    ensures baseSalary - baseSalary / 26.0 * daysAbsent as real
         == baseSalary * (26 - daysAbsent) as real / 26.0
    ensures 0.0 <= baseSalary && 0 <= daysAbsent ==> baseSalary - baseSalary / 26.0 * daysAbsent as real <= baseSalary
    ensures 0.0 <= baseSalary && 26 <= daysAbsent ==> baseSalary - baseSalary / 26.0 * daysAbsent as real <= 0.0
  {
    if 0.0 <= baseSalary && 0 <= daysAbsent {
      ScaleSign(baseSalary / 26.0, daysAbsent as real);
    }
    if 0.0 <= baseSalary && 26 <= daysAbsent {
      ScaleSign((26 - daysAbsent) as real, baseSalary);
    }
  }

  /**
   * `_calculate_adjusted_base`: the full base without absences, otherwise the
   * base less a 26th per day absent, never below 0. `daysWorked` plays no part.
   */
  function AdjustedBase(baseSalary: real, daysWorked: int, daysAbsent: int): (r: real)
    ensures daysAbsent == 0 ==> r == baseSalary
    ensures daysAbsent != 0 ==>
      var proRata := baseSalary * (StandardDays - daysAbsent) as real / 26.0;
      r == if proRata < 0.0 then 0.0 else proRata
    ensures 0.0 <= baseSalary && 0 <= daysAbsent ==> 0.0 <= r <= baseSalary
    ensures 0.0 <= baseSalary && StandardDays <= daysAbsent ==> r == 0.0
    ensures 0.0 <= baseSalary && daysAbsent == 13 ==> r == baseSalary / 2.0
  {
    if daysAbsent == 0 then baseSalary
    else
      var dailyRate := baseSalary / StandardDays as real;
      var adjusted := baseSalary - dailyRate * daysAbsent as real;
      AbsenceDeduction(baseSalary, daysAbsent);
      if 0.0 > adjusted then 0.0 else adjusted
  }

  /** More days absent never raise the adjusted base of a non-negative salary. */
  lemma AdjustedBaseAntitone(baseSalary: real, daysWorked: int, d1: int, d2: int)
    requires 0.0 <= baseSalary && 0 <= d1 <= d2
    ensures AdjustedBase(baseSalary, daysWorked, d2) <= AdjustedBase(baseSalary, daysWorked, d1)
  {
    if d1 != 0 {
      var p1 := baseSalary * (StandardDays - d1) as real;
      var p2 := baseSalary * (StandardDays - d2) as real;
      ScaleMonotone((StandardDays - d2) as real, (StandardDays - d1) as real, baseSalary);
      assert p2 <= p1;
      assert p2 / 26.0 <= p1 / 26.0;
    }
  }

  lemma AdjustedBaseIgnoresDaysWorked(baseSalary: real, w1: int, w2: int, daysAbsent: int)
    ensures AdjustedBase(baseSalary, w1, daysAbsent) == AdjustedBase(baseSalary, w2, daysAbsent)
  {
  }

  // ---------------------------------------------------------------------------
  // Family allowance

  /** The monthly family allowance for a status letter and dependents count. */
  function AllowanceAmount(letter: char, dependents: int): (r: real)
    ensures r in {0.0, 15000.0, 25000.0, 35000.0, 45000.0, 55000.0}
    ensures (letter != 'C' && letter != 'M') || dependents < 0 ==> r == 0.0
    ensures (letter == 'C' || letter == 'M') && 0 <= dependents ==> 15000.0 <= r
  {
    if letter == 'C' then
      if 0 <= dependents <= 1 then 15000.0
      else if 2 <= dependents <= 4 then 25000.0
      else if 5 <= dependents then 35000.0
      else 0.0
    else if letter == 'M' then
      if 0 <= dependents <= 2 then 25000.0
      else if 3 <= dependents <= 4 then 35000.0
      else if 5 <= dependents <= 7 then 45000.0
      else if 8 <= dependents then 55000.0
      else 0.0
    else 0.0
  }

  /** For either status letter, more dependents never lower the allowance. */
  lemma AllowanceMonotone(letter: char, d1: int, d2: int)
    requires 0 <= d1 <= d2
    ensures AllowanceAmount(letter, d1) <= AllowanceAmount(letter, d2)
  {
  }

  /**
   * `calculate_family_allowance`: raises only for a non-empty code made of
   * whitespace; an empty code, a letter other than C or M, or a count that
   * does not parse gives no allowance. The base salary is not consulted.
   */
  function FamilyAllowance(code: string, baseSalary: real): (r: Result<real, PyError>)
    ensures r.Err? <==> code != "" && AllSpace(code)
    ensures r.Ok? ==> r.value in {0.0, 15000.0, 25000.0, 35000.0, 45000.0, 55000.0}
    ensures code == "" ==> r == Ok(0.0)
    ensures ParseStatus(code).Ok? && ParseStatus(code).value.Some? ==>
      var st := ParseStatus(code).value.value;
      (st.letter != 'C' && st.letter != 'M') || st.dependents.None? ==> r == Ok(0.0)
  {
    match ParseStatus(code)
    case Err(e) => Err(e)
    case Ok(None) => Ok(0.0)
    case Ok(Some(Status(letter, dependents))) =>
      match dependents
      case None => Ok(0.0)
      case Some(n) => Ok(AllowanceAmount(letter, n))
  }

  lemma FamilyAllowanceIgnoresBase(code: string, b1: real, b2: real)
    ensures FamilyAllowance(code, b1) == FamilyAllowance(code, b2)
  {
  }

  /** The allowance table, read from codes written as a letter (either case) and a count. */
  lemma AllowanceOfCode(letter: char, n: int, baseSalary: real)
    requires letter == 'C' || letter == 'c' || letter == 'M' || letter == 'm'
    ensures letter == 'C' || letter == 'c' ==> FamilyAllowance([letter] + IntToString(n), baseSalary) == Ok(
      if 0 <= n <= 1 then 15000.0 else if 2 <= n <= 4 then 25000.0 else if 5 <= n then 35000.0 else 0.0)
    ensures letter == 'M' || letter == 'm' ==> FamilyAllowance([letter] + IntToString(n), baseSalary) == Ok(
      if 0 <= n <= 2 then 25000.0 else if 3 <= n <= 4 then 35000.0
      else if 5 <= n <= 7 then 45000.0 else if 8 <= n then 55000.0 else 0.0)
  {
    var code := [letter] + IntToString(n);
    var u := UpperChar(letter);
    assert u == if letter == 'C' || letter == 'c' then 'C' else 'M';
    ParseCanonicalStatus(letter, n);
    AllowanceOfStatus(code, u, n, baseSalary);
  }

  /**
   * The allowance table, read from any code that `int()` accepts: whitespace
   * around the code and after the letter, a sign, leading zeros and underscores.
   */
  lemma AllowanceOfPaddedCode(pre: string, letter: char, gap: string, sign: string, digits: string, post: string,
                              baseSalary: real)
    requires AllSpace(pre) && AllIntSpace(gap) && AllSpace(post) && IsSign(sign) && IsDigitRun(digits)
    requires letter == 'C' || letter == 'c' || letter == 'M' || letter == 'm'
    ensures var code, n := PaddedCode(pre, letter, gap, sign, digits, post), SignedValue(sign, digits);
      && (letter == 'C' || letter == 'c' ==> FamilyAllowance(code, baseSalary) == Ok(
            if 0 <= n <= 1 then 15000.0 else if 2 <= n <= 4 then 25000.0 else if 5 <= n then 35000.0 else 0.0))
      && (letter == 'M' || letter == 'm' ==> FamilyAllowance(code, baseSalary) == Ok(
            if 0 <= n <= 2 then 25000.0 else if 3 <= n <= 4 then 35000.0
            else if 5 <= n <= 7 then 45000.0 else if 8 <= n then 55000.0 else 0.0))
  {
    var code, n := PaddedCode(pre, letter, gap, sign, digits, post), SignedValue(sign, digits);
    var u := UpperChar(letter);
    assert u == if letter == 'C' || letter == 'c' then 'C' else 'M';
    ParsePaddedStatus(pre, letter, gap, sign, digits, post);
    AllowanceOfStatus(code, u, n, baseSalary);
  }

  /** A code that reads as a letter and a count has the allowance of that letter and count. */
  lemma AllowanceOfStatus(code: string, letter: char, n: int, baseSalary: real)
    requires ParseStatus(code) == Ok(Some(Status(letter, Some(n))))
    ensures FamilyAllowance(code, baseSalary) == Ok(AllowanceAmount(letter, n))
  {
  }

  // ---------------------------------------------------------------------------
  // The pipeline

  /** The unrounded figures of `calculate`, stage by stage. */
  datatype Figures = Figures(
    adjustedBase: real,
    transport: real,
    totalAllowances: real,
    grossSalary: real,
    contributionBase: real,
    inpsEmployee: real,
    amoEmployee: real,
    incomeTax: real,
    totalDeductions: real,
    netSalary: real,
    netToPay: real,
    inpsEmployer: real,
    amoEmployer: real,
    taxeLogement: real,
    taxeFormation: real,
    taxeEmploi: real,
    contributionCfe: real,
    totalLaborTaxes: real,
    totalEmployerCost: real,
    totalCost: real)

  /** Responsibility, risk, housing, overtime and bonus: in gross salary, but not subject to social contributions. */
  function ExcludedAllowances(input: PayrollInput): real {
    input.responsibilityAllowance + input.riskAllowance + input.housingAllowance
      + input.overtimeAmount + input.bonusAmount
  }

  /**
   * The stages of `calculate` before rounding, for the reduction fraction of
   * the employee's status code. Gross salary splits into the contribution
   * base and the excluded allowances; net-to-pay is gross less all
   * deductions; the labour taxes are 8.5% of gross; total cost is gross plus
   * the employer's contributions and labour taxes.
   */
  function Compute(input: PayrollInput, reduction: real): (f: Figures)
    ensures f.adjustedBase == AdjustedBase(input.baseSalary, input.daysWorked, input.daysAbsent)
    ensures input.transportAllowance != 0.0 ==> f.transport == input.transportAllowance
    ensures input.transportAllowance == 0.0 ==> f.transport == TransportDefaultRate * f.adjustedBase
    ensures f.contributionBase == f.adjustedBase + f.transport + input.familyAllowance + input.indSpec1973 + input.cherVie1974
    ensures f.grossSalary == f.contributionBase + ExcludedAllowances(input)
    ensures f.grossSalary == f.adjustedBase + f.totalAllowances
    ensures f.inpsEmployee == f.contributionBase * InpsEmployeeRate && f.amoEmployee == f.contributionBase * AmoEmployeeRate
    ensures f.inpsEmployer == f.contributionBase * InpsEmployerRate && f.amoEmployer == f.contributionBase * AmoEmployerRate
    ensures f.incomeTax == MonthlyTax(DefaultBrackets, f.grossSalary, reduction)
    ensures f.netSalary == f.grossSalary - f.inpsEmployee - f.amoEmployee - f.incomeTax
    ensures f.totalDeductions == f.inpsEmployee + f.amoEmployee + f.incomeTax
                                 + input.loanDeduction + input.advanceDeduction + input.otherDeductions
    ensures f.netToPay == f.netSalary - input.loanDeduction - input.advanceDeduction - input.otherDeductions
    ensures f.netToPay == f.grossSalary - f.totalDeductions
    ensures f.taxeLogement == f.grossSalary * HousingTaxRate && f.taxeFormation == f.grossSalary * TrainingTaxRate
    ensures f.taxeEmploi == f.grossSalary * EmploymentTaxRate && f.contributionCfe == f.grossSalary * CfeRate
    ensures f.totalLaborTaxes == f.grossSalary * 0.085
    ensures f.totalEmployerCost == f.inpsEmployer + f.amoEmployer + f.totalLaborTaxes
    ensures f.totalCost == f.grossSalary + f.totalEmployerCost
  {
    // 1. attendance
    var adjusted := AdjustedBase(input.baseSalary, input.daysWorked, input.daysAbsent);
    // 2. allowances; a zero transport allowance is replaced by 10% of the adjusted base
    var transport := if input.transportAllowance != 0.0 then input.transportAllowance else adjusted * TransportDefaultRate;
    var totalAllowances :=
      transport + input.familyAllowance + input.responsibilityAllowance + input.riskAllowance
      + input.housingAllowance + input.overtimeAmount + input.bonusAmount
      + input.indSpec1973 + input.cherVie1974;
    // 3. gross
    var gross := adjusted + totalAllowances;
    // 4. social-contribution base
    var base := adjusted + transport + input.familyAllowance + input.indSpec1973 + input.cherVie1974;
    // 5. employee deductions
    var inpsEmployee := base * InpsEmployeeRate;
    var amoEmployee := base * AmoEmployeeRate;
    var incomeTax := MonthlyTax(DefaultBrackets, gross, reduction);
    var totalDeductions :=
      inpsEmployee + amoEmployee + incomeTax
      + input.loanDeduction + input.advanceDeduction + input.otherDeductions;
    // 6. net amounts
    var netSalary := gross - inpsEmployee - amoEmployee - incomeTax;
    var netToPay := netSalary - input.loanDeduction - input.advanceDeduction - input.otherDeductions;
    // 7. employer costs and labour taxes on gross
    var inpsEmployer := base * InpsEmployerRate;
    var amoEmployer := base * AmoEmployerRate;
    var tl := gross * HousingTaxRate;
    var tfp := gross * TrainingTaxRate;
    var atej := gross * EmploymentTaxRate;
    var cfe := gross * CfeRate;
    var totalLaborTaxes := tl + tfp + atej + cfe;
    var totalEmployerCost := inpsEmployer + amoEmployer + totalLaborTaxes;
    // 8. grand total
    var totalCost := gross + totalEmployerCost;
    Figures(adjusted, transport, totalAllowances, gross, base, inpsEmployee, amoEmployee, incomeTax,
            totalDeductions, netSalary, netToPay, inpsEmployer, amoEmployer, tl, tfp, atej, cfe,
            totalLaborTaxes, totalEmployerCost, totalCost)
  }

  /** The result record: identifiers and day counts echoed, every amount rounded from its own figure. */
  function Assemble(input: PayrollInput, f: Figures): PayrollResult
  {
    PayrollResult(
      input.employeeId,
      Round2(input.baseSalary),
      input.daysWorked,
      input.daysAbsent,
      Round2(f.adjustedBase),
      Round2(f.transport),
      Round2(input.familyAllowance),
      Round2(input.responsibilityAllowance),
      Round2(input.riskAllowance),
      Round2(input.housingAllowance),
      Round2(input.overtimeAmount),
      Round2(input.bonusAmount),
      Round2(input.indSpec1973),
      Round2(input.cherVie1974),
      Round2(f.totalAllowances),
      Round2(f.grossSalary),
      Round2(f.inpsEmployee),
      Round2(f.amoEmployee),
      Round2(f.incomeTax),
      Round2(input.loanDeduction),
      Round2(input.advanceDeduction),
      Round2(input.otherDeductions),
      Round2(f.totalDeductions),
      Round2(f.netSalary),
      Round2(f.netToPay),
      Round2(f.inpsEmployer),
      Round2(f.amoEmployer),
      Round2(f.totalEmployerCost),
      Round2(f.taxeLogement),
      Round2(f.taxeFormation),
      Round2(f.taxeEmploi),
      Round2(f.contributionCfe),
      Round2(f.totalLaborTaxes),
      Round2(f.totalCost))
  }

  /**
   * `PayrollCalculator.calculate`: raises exactly when the status code is
   * non-empty whitespace (the reduction lookup indexes it); otherwise the
   * record assembled from the figures at the code's reduction fraction. The
   * family allowance is taken as given, never looked up.
   */
  function Calculate(input: PayrollInput): (r: Result<PayrollResult, PyError>)
    ensures r.Err? <==> input.statusCode != "" && AllSpace(input.statusCode)
    ensures r.Ok? ==>
      && r.value == Assemble(input, Compute(input, FamilyChargeReduction(input.statusCode).value))
      && r.value.employeeId == input.employeeId
      && r.value.daysWorked == input.daysWorked
      && r.value.daysAbsent == input.daysAbsent
      && r.value.familyAllowance == Round2(input.familyAllowance)
  {
    match FamilyChargeReduction(input.statusCode)
    case Err(e) => Err(e)
    case Ok(reduction) => Ok(Assemble(input, Compute(input, reduction)))
  }

  /** The income tax of the record is the engine's monthly tax on the unrounded gross: re-rounding adds nothing. */
  lemma IncomeTaxIsTaxOnGross(input: PayrollInput)
    requires Calculate(input).Ok?
    ensures var reduction := FamilyChargeReduction(input.statusCode).value;
      Calculate(input).value.incomeTaxNet
        == MonthlyTax(DefaultBrackets, Compute(input, reduction).grossSalary, reduction)
  {
    var reduction := FamilyChargeReduction(input.statusCode).value;
    var f := Compute(input, reduction);
    MonthlyTaxIsCents(DefaultBrackets, f.grossSalary, reduction);
  }

  /** Two inputs that differ at most in the allowances excluded from the contribution base. */
  predicate DifferOnlyInExcluded(a: PayrollInput, b: PayrollInput) {
    a == b.(responsibilityAllowance := a.responsibilityAllowance,
            riskAllowance := a.riskAllowance,
            housingAllowance := a.housingAllowance,
            overtimeAmount := a.overtimeAmount,
            bonusAmount := a.bonusAmount)
  }

  /** On the unrounded figures: the contribution base is unchanged, gross and total cost move with the excluded allowances. */
  lemma ComputeIgnoresExcludedAllowances(a: PayrollInput, b: PayrollInput, reduction: real)
    requires DifferOnlyInExcluded(a, b)
    ensures Compute(a, reduction).contributionBase == Compute(b, reduction).contributionBase
    ensures Compute(a, reduction).grossSalary - Compute(b, reduction).grossSalary
         == ExcludedAllowances(a) - ExcludedAllowances(b)
    ensures Compute(a, reduction).totalCost - Compute(b, reduction).totalCost
         == 1.085 * (ExcludedAllowances(a) - ExcludedAllowances(b))
  {
  }

  /**
   * Responsibility, risk, housing, overtime and bonus do not enter the social
   * contributions: changing them leaves all four contributions as they were,
   * while gross salary and total cost follow any change of more than a cent.
   */
  lemma ContributionsIgnoreExcludedAllowances(a: PayrollInput, b: PayrollInput)
    requires DifferOnlyInExcluded(a, b)
    ensures Calculate(a).Ok? <==> Calculate(b).Ok?
    ensures Calculate(a).Ok? ==>
      var ra, rb := Calculate(a).value, Calculate(b).value;
      && ra.inpsEmployee == rb.inpsEmployee
      && ra.amoEmployee == rb.amoEmployee
      && ra.inpsEmployer == rb.inpsEmployer
      && ra.amoEmployer == rb.amoEmployer
    ensures Calculate(a).Ok? && (ExcludedAllowances(a) - ExcludedAllowances(b) > 0.01
                                 || ExcludedAllowances(b) - ExcludedAllowances(a) > 0.01) ==>
      && Calculate(a).value.grossSalary != Calculate(b).value.grossSalary
      && Calculate(a).value.totalCost != Calculate(b).value.totalCost
  {
    assert a.statusCode == b.statusCode;
    if Calculate(a).Ok? {
      var reduction := FamilyChargeReduction(a.statusCode).value;
      var fa, fb := Compute(a, reduction), Compute(b, reduction);
      ComputeIgnoresExcludedAllowances(a, b, reduction);
      var ra, rb := Assemble(a, fa), Assemble(b, fb);
      assert Calculate(a).value == ra && Calculate(b).value == rb;
      assert fa.inpsEmployee == fb.inpsEmployee && fa.amoEmployee == fb.amoEmployee;
      assert fa.inpsEmployer == fb.inpsEmployer && fa.amoEmployer == fb.amoEmployer;
      var d := ExcludedAllowances(a) - ExcludedAllowances(b);
      if d > 0.01 || -d > 0.01 {
        RoundSeparates(fa.grossSalary, fb.grossSalary);
        RoundSeparates(fa.totalCost, fb.totalCost);
      }
    }
  }

  /**
   * The rounded totals agree with the rounded parts they summarise to within
   * half a cent per rounded term, but need not agree exactly: each is rounded
   * from its own unrounded formula.
   */
  lemma RoundedTotalsDrift(input: PayrollInput)
    requires Calculate(input).Ok?
    ensures var r := Calculate(input).value;
      && -3.0 / 200.0 < r.netToPay - (r.grossSalary - r.totalDeductions) < 3.0 / 200.0
      && -3.0 / 200.0 < r.grossSalary - (r.adjustedBaseSalary + r.totalAllowances) < 3.0 / 200.0
      && -3.0 / 200.0 < r.totalCost - (r.grossSalary + r.totalEmployerCost) < 3.0 / 200.0
      && -5.0 / 200.0 < r.netSalary - (r.grossSalary - r.inpsEmployee - r.amoEmployee - r.incomeTaxNet) < 5.0 / 200.0
  {
  }

  /** Thirteen days absent from a 26-day month halve the base, and every later stage sees the halved base. */
  lemma HalfMonthAbsence(input: PayrollInput, reduction: real)
    requires input.daysAbsent == 13 && 0.0 <= input.baseSalary
    ensures var f := Compute(input, reduction);
      && f.adjustedBase == input.baseSalary / 2.0
      && (input.transportAllowance == 0.0 ==> f.transport == input.baseSalary / 20.0)
      && f.contributionBase == input.baseSalary / 2.0 + f.transport + input.familyAllowance
                               + input.indSpec1973 + input.cherVie1974
      && f.grossSalary == f.contributionBase + ExcludedAllowances(input)
  {
  }

  // ---------------------------------------------------------------------------
  // The convenience function

  /** The keyword arguments of `calculate_payroll`; `None` is an argument not passed. */
  datatype Overrides = Overrides(
    daysWorked: Option<int>,
    daysAbsent: Option<int>,
    transportAllowance: Option<real>,
    familyAllowance: Option<real>,
    responsibilityAllowance: Option<real>,
    riskAllowance: Option<real>,
    housingAllowance: Option<real>,
    overtimeAmount: Option<real>,
    bonusAmount: Option<real>,
    indSpec1973: Option<real>,
    cherVie1974: Option<real>,
    loanDeduction: Option<real>,
    advanceDeduction: Option<real>,
    otherDeductions: Option<real>)

  const NoOverrides: Overrides :=
    Overrides(None, None, None, None, None, None, None, None, None, None, None, None, None, None)

  function GetOr<T>(o: Option<T>, default: T): T {
    match o
    case Some(v) => v
    case None => default
  }

  /** The `PayrollInput` built from the arguments, with the record's defaults (26 days worked, zero elsewhere). */
  function MakeInput(employeeId: string, baseSalary: real, statusCode: string, kw: Overrides, family: real): (i: PayrollInput)
    ensures i.employeeId == employeeId && i.baseSalary == baseSalary && i.statusCode == statusCode
    ensures i.familyAllowance == family
    ensures kw.daysWorked.Some? ==> i.daysWorked == kw.daysWorked.value
    ensures kw.daysWorked.None? ==> i.daysWorked == 26
    ensures kw.daysAbsent.Some? ==> i.daysAbsent == kw.daysAbsent.value
    ensures kw.daysAbsent.None? ==> i.daysAbsent == 0
    ensures i.transportAllowance == (if kw.transportAllowance.Some? then kw.transportAllowance.value else 0.0)
    ensures i.responsibilityAllowance == (if kw.responsibilityAllowance.Some? then kw.responsibilityAllowance.value else 0.0)
    ensures i.riskAllowance == (if kw.riskAllowance.Some? then kw.riskAllowance.value else 0.0)
    ensures i.housingAllowance == (if kw.housingAllowance.Some? then kw.housingAllowance.value else 0.0)
    ensures i.overtimeAmount == (if kw.overtimeAmount.Some? then kw.overtimeAmount.value else 0.0)
    ensures i.bonusAmount == (if kw.bonusAmount.Some? then kw.bonusAmount.value else 0.0)
    ensures i.indSpec1973 == (if kw.indSpec1973.Some? then kw.indSpec1973.value else 0.0)
    ensures i.cherVie1974 == (if kw.cherVie1974.Some? then kw.cherVie1974.value else 0.0)
    ensures i.loanDeduction == (if kw.loanDeduction.Some? then kw.loanDeduction.value else 0.0)
    ensures i.advanceDeduction == (if kw.advanceDeduction.Some? then kw.advanceDeduction.value else 0.0)
    ensures i.otherDeductions == (if kw.otherDeductions.Some? then kw.otherDeductions.value else 0.0)
  {
    PayrollInput(
      employeeId, baseSalary, statusCode,
      GetOr(kw.daysWorked, 26),
      GetOr(kw.daysAbsent, 0),
      GetOr(kw.transportAllowance, 0.0),
      family,
      GetOr(kw.responsibilityAllowance, 0.0),
      GetOr(kw.riskAllowance, 0.0),
      GetOr(kw.housingAllowance, 0.0),
      GetOr(kw.overtimeAmount, 0.0),
      GetOr(kw.bonusAmount, 0.0),
      GetOr(kw.indSpec1973, 0.0),
      GetOr(kw.cherVie1974, 0.0),
      GetOr(kw.loanDeduction, 0.0),
      GetOr(kw.advanceDeduction, 0.0),
      GetOr(kw.otherDeductions, 0.0))
  }

  /**
   * `calculate_payroll`: the family allowance is looked up from the status
   * code only when the caller did not pass one; an allowance passed
   * explicitly, zero included, is kept.
   */
  function CalculatePayroll(employeeId: string, baseSalary: real, statusCode: string, kw: Overrides): (r: Result<PayrollResult, PyError>)
    ensures r.Err? <==> statusCode != "" && AllSpace(statusCode)
    ensures kw.familyAllowance.Some? ==>
      r == Calculate(MakeInput(employeeId, baseSalary, statusCode, kw, kw.familyAllowance.value))
    ensures kw.familyAllowance.None? && r.Ok? ==>
      r == Calculate(MakeInput(employeeId, baseSalary, statusCode, kw, FamilyAllowance(statusCode, baseSalary).value))
  {
    var family :=
      match kw.familyAllowance
      case Some(v) => Ok(v)
      case None => FamilyAllowance(statusCode, baseSalary);
    match family
    case Err(e) => Err(e)
    case Ok(v) => Calculate(MakeInput(employeeId, baseSalary, statusCode, kw, v))
  }
  // ---------------------------------------------------------------------------
  // A worked month

  /** The income tax of a 565000 monthly gross with no reduction: 6780000 a year falls in the top bracket. */
  lemma TopBracketMonth()
    ensures MonthlyTax(DefaultBrackets, 565000.0, 0.0) == 159082.65
  {
    var d := DefaultBrackets;
    DefaultWellFormed();
    TaxSumWithinBracket(d, 6, 6780000.0);
    DefaultLowerBracketsTax();
    assert TaxSum(d, 6780000.0) == 1908991.81;
    assert IsCents(1908991.81) by {
      assert 1908991.81 * 100.0 == 190899181.0;
    }
    RoundOfCents(1908991.81);
    var m := 1908991.81 / 12.0;
    assert (m * 100.0 + 0.5).Floor == 15908265;
  }

  /** The docstrings' example code M08: married with eight dependents. */
  lemma MarriedEightDependents(baseSalary: real)
    ensures FamilyChargeReduction("M08") == Ok(0.20)
    ensures FamilyAllowance("M08", baseSalary) == Ok(55000.0)
  {
    var digits := "08";
    assert DigitOrJoin(digits, 0) && DigitOrJoin(digits, 1);
    assert RunValue(digits) == 8 by {
      assert digits[..1] == "0" && "0"[..0] == "";
    }
    assert PaddedCode("", 'M', "", "", digits, "") == "M08";
    ReductionOfPaddedCode("", 'M', "", "", digits, "");
    AllowanceOfPaddedCode("", 'M', "", "", digits, "", baseSalary);
  }

  /** A lower-case code with padding, a sign and an underscore: " c +1_0 " reads as C with ten dependents. */
  lemma PaddedTenDependents(baseSalary: real)
    ensures FamilyChargeReduction(" c +1_0 ") == Ok(0.15)
    ensures FamilyAllowance(" c +1_0 ", baseSalary) == Ok(35000.0)
  {
    var digits := "1_0";
    assert DigitOrJoin(digits, 0) && DigitOrJoin(digits, 1) && DigitOrJoin(digits, 2);
    assert RunValue(digits) == 10 by {
      assert digits[..2] == "1_" && "1_"[..1] == "1" && "1"[..0] == "";
    }
    assert PaddedCode(" ", 'c', " ", "+", digits, " ") == " c +1_0 ";
    ReductionOfPaddedCode(" ", 'c', " ", "+", digits, " ");
    AllowanceOfPaddedCode(" ", 'c', " ", "+", digits, " ", baseSalary);
  }

  /**
   * "C\x1c5": `strip()` counts the separator U+001C as whitespace but `int()`
   * does not, so the count does not parse and neither table applies.
   */
  lemma SeparatorAfterLetter(baseSalary: real)
    ensures FamilyChargeReduction("C\U{1C}5") == Ok(0.0)
    ensures FamilyAllowance("C\U{1C}5", baseSalary) == Ok(0.0)
  {
    var rest := "\U{1C}5";
    assert rest[|rest| - 1] == '5';
    assert "" + ['C'] + rest + "" == "C\U{1C}5";
    ParseLetterAndRest("", 'C', rest, "");
    SeparatorNotAnInt();
  }

  /** The input `calculate_payroll` builds for base 500000, code C0 and no keyword arguments. */
  const SingleMonthInput: PayrollInput := MakeInput("E1", 500000.0, "C0", NoOverrides, 15000.0)

  /** Its unrounded figures at the reduction of C0, which is none. */
  lemma SingleMonthFigures()
    ensures var f := Compute(SingleMonthInput, 0.0);
      && f.transport == 50000.0
      && f.grossSalary == 565000.0
      && f.inpsEmployee == 20340.0
      && f.amoEmployee == 17289.0
      && f.incomeTax == 159082.65
      && f.netToPay == 368288.35
      && f.totalCost == 725460.0
  {
    TopBracketMonth();
  }

  /** Code C0 carries the family allowance of 15000 and no reduction of the tax base. */
  lemma SingleMonthCode()
    ensures FamilyAllowance("C0", 500000.0) == Ok(15000.0)
    ensures FamilyChargeReduction("C0") == Ok(0.0)
  {
    var code := ['C'] + IntToString(0);
    assert IntToString(0) == NatToString(0) == [DigitChar(0)] == "0";
    assert code == "C0";
    ReductionOfCode('C', 0);
    AllowanceOfCode('C', 0, 500000.0);
  }

  /** The rounded record of that input: the figures were already whole cents. */
  lemma SingleMonthRecord()
    ensures var r := Assemble(SingleMonthInput, Compute(SingleMonthInput, 0.0));
      && r.transportAllowance == 50000.0
      && r.familyAllowance == 15000.0
      && r.grossSalary == 565000.0
      && r.inpsEmployee == 20340.0
      && r.amoEmployee == 17289.0
      && r.incomeTaxNet == 159082.65
      && r.netToPay == 368288.35
      && r.totalCost == 725460.0
  {
    SingleMonthFigures();
    RoundedSingleMonth(SingleMonthInput, Compute(SingleMonthInput, 0.0));
  }

  /** Rounding the figures of that month, each already a whole number of cents. */
  lemma RoundedSingleMonth(input: PayrollInput, f: Figures)
    requires input.familyAllowance == 15000.0
    requires f.transport == 50000.0 && f.grossSalary == 565000.0
    requires f.inpsEmployee == 20340.0 && f.amoEmployee == 17289.0
    requires f.incomeTax == 159082.65 && f.netToPay == 368288.35 && f.totalCost == 725460.0
    ensures var r := Assemble(input, f);
      && r.transportAllowance == 50000.0
      && r.familyAllowance == 15000.0
      && r.grossSalary == 565000.0
      && r.inpsEmployee == 20340.0
      && r.amoEmployee == 17289.0
      && r.incomeTaxNet == 159082.65
      && r.netToPay == 368288.35
      && r.totalCost == 725460.0
  {
    RoundOfCents(50000.0);
    RoundOfCents(15000.0);
    RoundOfCents(565000.0);
    RoundOfCents(20340.0);
    RoundOfCents(17289.0);
    RoundOfCents(725460.0);
    assert IsCents(368288.35) by {
      assert 368288.35 * 100.0 == 36828835.0;
    }
    RoundOfCents(368288.35);
    assert IsCents(159082.65) by {
      assert 159082.65 * 100.0 == 15908265.0;
    }
    RoundOfCents(159082.65);
  }

  /**
   * A standard month for a single employee without dependents: a base of
   * 500000 gains the default transport allowance of 50000 and the family
   * allowance of 15000 for code C0, and the figures follow from the rates.
   */
  lemma SingleNoDependentsMonth()
    ensures var r := CalculatePayroll("E1", 500000.0, "C0", NoOverrides);
      && r.Ok?
      && r.value.transportAllowance == 50000.0
      && r.value.familyAllowance == 15000.0
      && r.value.grossSalary == 565000.0
      && r.value.inpsEmployee == 20340.0
      && r.value.amoEmployee == 17289.0
      && r.value.incomeTaxNet == 159082.65
      && r.value.netToPay == 368288.35
      && r.value.totalCost == 725460.0
  {
    SingleMonthCode();
    SingleMonthRecord();
    assert CalculatePayroll("E1", 500000.0, "C0", NoOverrides) == Calculate(SingleMonthInput);
    assert Calculate(SingleMonthInput) == Ok(Assemble(SingleMonthInput, Compute(SingleMonthInput, 0.0)));
  }
}
