/** Salary-range extraction from free text (`extract_salary`). The pattern
    `\$(\d+(?:,\d+)?(?:\.\d+)?)([kK]?)\s*[-—–]\s*(?:\$)?(\d+(?:,\d+)?(?:\.\d+)?)([kK]?)`
    is deterministic at every start position (no backtracking can turn a
    failed greedy attempt into a match), so it is modelled as a scanner
    `MatchAt` and a leftmost search. */
module Salary {
  import opened Wrappers
  import opened Text
  import opened Model

  const LowerLimit: int := 1000
  const UpperLimit: int := 700000
  const HourlyThreshold: int := 350
  const MonthlyThreshold: int := 30000
  const HoursPerYear: int := 2080
  const MonthsPerYear: int := 12

  /** Hyphen, em dash and en dash. */
  predicate IsDash(c: char) {
    c == '-' || c == '—' || c == '–'
  }

  predicate IsK(c: char) {
    c == 'k' || c == 'K'
  }

  /** Length of the run of digits starting at `i`. */
  function DigitRun(s: string, i: nat): (n: nat)
    requires i <= |s|
    ensures i + n <= |s|
    decreases |s| - i
  {
    if i < |s| && IsDigit(s[i]) then 1 + DigitRun(s, i + 1) else 0
  }

  /** The run is made of digits and stops at a non-digit or at the end. */
  lemma {:induction false} DigitRunIsRun(s: string, i: nat)
    requires i <= |s|
    ensures forall k :: i <= k < i + DigitRun(s, i) ==> IsDigit(s[k])
    ensures i + DigitRun(s, i) == |s| || !IsDigit(s[i + DigitRun(s, i)])
    decreases |s| - i
  {
    if i < |s| && IsDigit(s[i]) {
      DigitRunIsRun(s, i + 1);
    }
  }

  /** The number written by the run of digits at `i` (0 for an empty run). */
  function RunValue(s: string, i: nat): nat
    requires i <= |s|
  {
    DigitRunIsRun(s, i);
    var run := s[i..i + DigitRun(s, i)];
    assert forall k :: 0 <= k < |run| ==> run[k] == s[i + k];
    DigitsValue(run)
  }

  /** Length of the run of whitespace starting at `i`. */
  function SpaceRun(s: string, i: nat): (n: nat)
    requires i <= |s|
    ensures i + n <= |s|
    ensures forall k :: i <= k < i + n ==> IsSpace(s[k])
    ensures i + n == |s| || !IsSpace(s[i + n])
    decreases |s| - i
  {
    if i < |s| && IsSpace(s[i]) then 1 + SpaceRun(s, i + 1) else 0
  }

  /** A number matched by `\d+(?:,\d+)?(?:\.\d+)?`: its value after removing
      the comma and truncating the fraction (`int(float(g.replace(",", "")))`),
      and the position just after it. */
  datatype Number = Number(value: nat, end: nat)

  function ScanNumber(s: string, i: nat): (r: Option<Number>)
    requires i <= |s|
    ensures r.Some? ==> i < r.value.end <= |s|
    ensures r.Some? <==> i < |s| && IsDigit(s[i])
  {
    var a := DigitRun(s, i);
    if a == 0 then None
    else
      var j := i + a;
      var hasGroup := j < |s| && s[j] == ',' && DigitRun(s, j + 1) > 0;
      var b := if hasGroup then DigitRun(s, j + 1) else 0;
      DigitRunIsRun(s, i);
      DigitRunIsRun(s, if j < |s| then j + 1 else j);
      var intPart := if hasGroup then DigitsValue(s[i..j] + s[j + 1..j + 1 + b]) else DigitsValue(s[i..j]);
      var e := if hasGroup then j + 1 + b else j;
      var hasFraction := e < |s| && s[e] == '.' && DigitRun(s, e + 1) > 0;
      var end := if hasFraction then e + 1 + DigitRun(s, e + 1) else e;
      Some(Number(intPart, end))
  }

  /** The four groups of one match: both numbers and whether each carried a
      `k`/`K` suffix. */
  datatype SalaryMatch = SalaryMatch(min: nat, minK: bool, max: nat, maxK: bool)

  /** Whether a `k`/`K` suffix stands at `p`. */
  predicate SuffixK(s: string, p: nat) {
    p < |s| && IsK(s[p])
  }

  /** The separator `\s*[-—–]\s*(?:\$)?` read from `p`: the position where
      the second number must start, if a dash is there. */
  function Separator(s: string, p: nat): (r: Option<nat>)
    requires p <= |s|
    ensures r.Some? ==> p < r.value <= |s|
  {
    var q := p + SpaceRun(s, p);
    if q >= |s| || !IsDash(s[q]) then None
    else
      var t := q + 1 + SpaceRun(s, q + 1);
      Some(if t < |s| && s[t] == '$' then t + 1 else t)
  }

  /** The pattern matched at start position `i`, if it matches there. */
  function MatchAt(s: string, i: nat): (r: Option<SalaryMatch>)
    requires i <= |s|
    ensures r.Some? ==> i < |s| && s[i] == '$'
  {
    if i >= |s| || s[i] != '$' then None
    else
      match ScanNumber(s, i + 1)
      case None => None
      case Some(n1) =>
        var k1 := SuffixK(s, n1.end);
        match Separator(s, if k1 then n1.end + 1 else n1.end)
        case None => None
        case Some(u) =>
          match ScanNumber(s, u)
          case None => None
          case Some(n2) => Some(SalaryMatch(n1.value, k1, n2.value, SuffixK(s, n2.end)))
  }

  /** Leftmost position in `[i, n)` where `hit` holds, or `n`. */
  function FirstWhere(hit: nat -> bool, i: nat, n: nat): (k: nat)
    requires i <= n
    ensures i <= k <= n
    decreases n - i
  {
    if i == n then i
    else if hit(i) then i
    else FirstWhere(hit, i + 1, n)
  }

  /** `hit` fails everywhere before `FirstWhere`, and holds there unless it is `n`. */
  lemma {:induction false} FirstWhereLeftmost(hit: nat -> bool, i: nat, n: nat)
    requires i <= n
    ensures forall j :: i <= j < FirstWhere(hit, i, n) ==> !hit(j)
    ensures FirstWhere(hit, i, n) < n ==> hit(FirstWhere(hit, i, n))
    decreases n - i
  {
    if i < n && !hit(i) {
      FirstWhereLeftmost(hit, i + 1, n);
    }
  }

  /** Whether a range matches at start position `k`. */
  function Hit(s: string): nat -> bool {
    (k: nat) => k < |s| && MatchAt(s, k).Some?
  }

  /** `FirstWhereLeftmost` for `Hit(s)`, read back in terms of `MatchAt`. */
  lemma HitLeftmost(s: string, i: nat)
    requires i <= |s|
    ensures forall j :: i <= j < FirstWhere(Hit(s), i, |s|) ==> MatchAt(s, j).None?
    ensures FirstWhere(Hit(s), i, |s|) < |s| ==> MatchAt(s, FirstWhere(Hit(s), i, |s|)).Some?
  {
    var k := FirstWhere(Hit(s), i, |s|);
    FirstWhereLeftmost(Hit(s), i, |s|);
    forall j | i <= j < k
      ensures MatchAt(s, j).None?
    {
      assert !Hit(s)(j);
    }
    assert k < |s| ==> Hit(s)(k);
  }

  /** Leftmost start position at or after `i` where a range matches, or `|s|`. */
  function FirstMatch(s: string, i: nat): (k: nat)
    requires i <= |s|
    ensures i <= k <= |s|
    ensures forall j :: i <= j < k ==> MatchAt(s, j).None?
    ensures k < |s| ==> MatchAt(s, k).Some?
  {
    HitLeftmost(s, i);
    FirstWhere(Hit(s), i, |s|)
  }

  /** `re.search`: the match at the leftmost start position at or after `i`. */
  function SearchFrom(s: string, i: nat): (r: Option<SalaryMatch>)
    requires i <= |s|
    ensures r.Some? ==>
      exists k :: i <= k < |s| && MatchAt(s, k) == r && forall j :: i <= j < k ==> MatchAt(s, j).None?
    ensures r.None? ==> forall k :: i <= k <= |s| ==> MatchAt(s, k).None?
  {
    MatchAt(s, FirstMatch(s, i))
  }

  function Search(s: string): (r: Option<SalaryMatch>)
    ensures r.Some? ==> '$' in s
  {
    SearchFrom(s, 0)
  }

  /** An accepted salary range; currency is always "USD". */
  datatype SalaryRange = SalaryRange(interval: CompensationInterval, minAmount: int, maxAmount: int, currency: string)

  /** The interval a (scaled) minimum is classified under. */
  function Classify(min: int): (i: CompensationInterval)
    ensures i == Hourly <==> min < HourlyThreshold
    ensures i == Monthly <==> HourlyThreshold <= min < MonthlyThreshold
    ensures i == Yearly <==> MonthlyThreshold <= min
  {
    if min < HourlyThreshold then Hourly
    else if min < MonthlyThreshold then Monthly
    else Yearly
  }

  /** An amount annualised with the multiplier `extract_salary` uses for the
      interval: hourly ×2080, monthly ×12, yearly unchanged. */
  function Annualise(i: CompensationInterval, x: int): int {
    match i
    case Hourly => x * HoursPerYear
    case Monthly => x * MonthsPerYear
    case _ => x
  }

  /** Both amounts after the `k` rule: either suffix scales both. */
  function Scaled(m: SalaryMatch): (r: (int, int))
    ensures (m.minK || m.maxK) ==> r == (m.min * 1000, m.max * 1000)
    ensures !(m.minK || m.maxK) ==> r == (m.min, m.max)
  {
    if m.minK || m.maxK then (m.min * 1000, m.max * 1000) else (m.min, m.max)
  }

  /** The annualised maximum: absent when the maximum falls outside the
      threshold band the minimum was classified under. */
  function AnnualMax(interval: CompensationInterval, max: int): (r: Option<int>) {
    match interval
    case Hourly => if max < HourlyThreshold then Some(max * HoursPerYear) else None
    case Monthly => if max < MonthlyThreshold then Some(max * MonthsPerYear) else None
    case _ => Some(max)
  }

  predicate InWindow(x: int) {
    LowerLimit <= x <= UpperLimit
  }

  /** The decision `extract_salary` takes once the pattern has matched. */
  function FromMatch(m: SalaryMatch, enforceAnnual: bool): (r: Option<SalaryRange>)
    ensures r.Some? ==> r.value.currency == "USD"
  {
    var (min, max) := Scaled(m);
    var interval := Classify(min);
    var annualMin := Annualise(interval, min);
    match AnnualMax(interval, max)
    case None => None
    case Some(annualMax) =>
      if annualMax == 0 then None
      else if InWindow(annualMin) && InWindow(annualMax) && annualMin < annualMax then
        if enforceAnnual then Some(SalaryRange(interval, annualMin, annualMax, "USD"))
        else Some(SalaryRange(interval, min, max, "USD"))
      else None
  }

  /** `extract_salary(salary_str, enforce_annual_salary=...)` with the
      default limits and thresholds every caller uses. `None` stands for the
      all-`None` tuple. */
  function ExtractSalary(salaryStr: Option<string>, enforceAnnual: bool): (r: Option<SalaryRange>)
    ensures (salaryStr.None? || salaryStr == Some("")) ==> r.None?
    ensures salaryStr.Some? && Search(salaryStr.value).None? ==> r.None?
    ensures r.Some? ==> r.value.currency == "USD"
  {
    if salaryStr.None? || salaryStr.value == "" then None
    else
      match Search(salaryStr.value)
      case None => None
      case Some(m) => FromMatch(m, enforceAnnual)
  }
}

module SalaryProperties {
  import opened Wrappers
  import opened Text
  import opened Model
  import opened Salary

  /** The reference acceptance rule: both ends annualised with the minimum's
      factor lie in the sanity window, the minimum is strictly below the
      maximum, and both ends fall in the same threshold band. */
  predicate Acceptable(min: int, max: int) {
    var i := Classify(min);
    && Classify(max) == i
    && InWindow(Annualise(i, min)) && InWindow(Annualise(i, max)) && Annualise(i, min) < Annualise(i, max)
  }

  /** A string is accepted exactly when its leftmost match, after the `k`
      rule, satisfies the reference rule; the interval is the minimum's band,
      and the amounts are the scaled ones, annualised when asked for. */
  lemma ExtractSalaryCharacterised(s: string, enforceAnnual: bool)
    requires s != ""
    ensures var r := ExtractSalary(Some(s), enforceAnnual);
      && (r.Some? <==> Search(s).Some? && Acceptable(Scaled(Search(s).value).0, Scaled(Search(s).value).1))
      && (r.Some? ==>
            var (min, max) := Scaled(Search(s).value);
            var i := Classify(min);
            && r.value.interval == i
            && (enforceAnnual ==> r.value.minAmount == Annualise(i, min) && r.value.maxAmount == Annualise(i, max))
            && (!enforceAnnual ==> r.value.minAmount == min && r.value.maxAmount == max))
  {
    if Search(s).Some? {
      var (min, max) := Scaled(Search(s).value);
      var interval := Classify(min);
      match interval
      case Hourly =>
      case Monthly =>
        if max < HourlyThreshold {
          assert !Acceptable(min, max);
        }
      case Yearly =>
    }
  }

  /** Asking for annual amounts never changes whether a range is found or its
      interval; it multiplies both amounts by the interval's yearly factor. */
  lemma EnforceAnnualRelation(s: string)
    ensures ExtractSalary(Some(s), true).Some? <==> ExtractSalary(Some(s), false).Some?
    ensures ExtractSalary(Some(s), false).Some? ==>
      var plain := ExtractSalary(Some(s), false).value;
      var annual := ExtractSalary(Some(s), true).value;
      && annual.interval == plain.interval
      && annual.minAmount == Annualise(plain.interval, plain.minAmount)
      && annual.maxAmount == Annualise(plain.interval, plain.maxAmount)
  {
    if s != "" && Search(s).Some? {
      FromMatchAnnual(Search(s).value);
    }
  }

  lemma FromMatchAnnual(m: SalaryMatch)
    ensures FromMatch(m, true).Some? <==> FromMatch(m, false).Some?
    ensures FromMatch(m, false).Some? ==>
      var plain := FromMatch(m, false).value;
      var annual := FromMatch(m, true).value;
      && annual.interval == plain.interval
      && annual.minAmount == Annualise(plain.interval, plain.minAmount)
      && annual.maxAmount == Annualise(plain.interval, plain.maxAmount)
  {
  }

  /** Whatever is returned lies, once annualised, inside [1000, 700000], with
      the minimum strictly below the maximum. */
  lemma ExtractSalaryWindow(s: string, enforceAnnual: bool)
    requires ExtractSalary(Some(s), enforceAnnual).Some?
    ensures var r := ExtractSalary(Some(s), enforceAnnual).value;
      var lo := if enforceAnnual then r.minAmount else Annualise(r.interval, r.minAmount);
      var hi := if enforceAnnual then r.maxAmount else Annualise(r.interval, r.maxAmount);
      InWindow(lo) && InWindow(hi) && lo < hi
  {
    FromMatchWindow(Search(s).value, enforceAnnual);
  }

  lemma FromMatchWindow(m: SalaryMatch, enforceAnnual: bool)
    requires FromMatch(m, enforceAnnual).Some?
    ensures var r := FromMatch(m, enforceAnnual).value;
      var lo := if enforceAnnual then r.minAmount else Annualise(r.interval, r.minAmount);
      var hi := if enforceAnnual then r.maxAmount else Annualise(r.interval, r.maxAmount);
      InWindow(lo) && InWindow(hi) && lo < hi
  {
  }

  /** Text without a dollar sign has no salary. */
  lemma {:induction false} NoDollarNoSalary(s: string, i: nat)
    requires i <= |s|
    requires forall k :: i <= k < |s| ==> s[k] != '$'
    ensures FirstMatch(s, i) == |s| && SearchFrom(s, i).None?
    decreases |s| - i
  {
    if i < |s| {
      NoDollarNoSalary(s, i + 1);
    }
  }

  lemma ExampleNoSalary()
    ensures ExtractSalary(Some("no salary mentioned"), false).None?
  {
    NoDollarNoSalary("no salary mentioned", 0);
  }

  // Stepwise evaluation of the scanner on concrete strings. The string is a
  // parameter fixed by `requires`, so that each step is proved on its own.

  lemma MatchAtIntro(s: string, i: nat, n1: Number, k1: bool, u: nat, n2: Number, k2: bool)
    requires i < |s| && s[i] == '$'
    requires ScanNumber(s, i + 1) == Some(n1) && SuffixK(s, n1.end) == k1
    requires Separator(s, if k1 then n1.end + 1 else n1.end) == Some(u)
    requires ScanNumber(s, u) == Some(n2) && SuffixK(s, n2.end) == k2
    ensures MatchAt(s, i) == Some(SalaryMatch(n1.value, k1, n2.value, k2))
  {
  }

  lemma SearchHit(s: string, m: SalaryMatch)
    requires s != [] && MatchAt(s, 0) == Some(m)
    ensures ExtractSalary(Some(s), false) == FromMatch(m, false)
    ensures ExtractSalary(Some(s), true) == FromMatch(m, true)
  {
  }

  lemma {:induction false} DigitRunExact(s: string, i: nat, a: nat)
    requires i + a <= |s|
    requires forall k :: i <= k < i + a ==> IsDigit(s[k])
    requires i + a == |s| || !IsDigit(s[i + a])
    ensures DigitRun(s, i) == a
    decreases a
  {
    if a > 0 { DigitRunExact(s, i + 1, a - 1); }
  }

  lemma {:induction false} SpaceRunExact(s: string, i: nat, a: nat)
    requires i + a <= |s|
    requires forall k :: i <= k < i + a ==> IsSpace(s[k])
    requires i + a == |s| || !IsSpace(s[i + a])
    ensures SpaceRun(s, i) == a
    decreases a
  {
    if a > 0 { SpaceRunExact(s, i + 1, a - 1); }
  }

  lemma ScanPlain(s: string, i: nat, a: nat)
    requires a > 0 && i + a <= |s|
    requires forall k :: i <= k < i + a ==> IsDigit(s[k])
    requires i + a == |s| || (!IsDigit(s[i + a]) && s[i + a] != ',' && s[i + a] != '.')
    ensures ScanNumber(s, i) == Some(Number(DigitsValue(s[i..i + a]), i + a))
  {
    DigitRunExact(s, i, a);
  }

  lemma ScanGrouped(s: string, i: nat, a: nat, b: nat)
    requires a > 0 && b > 0 && i + a + 1 + b <= |s|
    requires forall k :: i <= k < i + a ==> IsDigit(s[k])
    requires s[i + a] == ','
    requires forall k :: i + a + 1 <= k < i + a + 1 + b ==> IsDigit(s[k])
    requires var e := i + a + 1 + b; e == |s| || (!IsDigit(s[e]) && s[e] != '.')
    ensures ScanNumber(s, i) == Some(Number(DigitsValue(s[i..i + a] + s[i + a + 1..i + a + 1 + b]), i + a + 1 + b))
  {
    DigitRunExact(s, i, a);
    DigitRunExact(s, i + a + 1, b);
  }

  lemma SeparatorAt(s: string, p: nat, before: nat, after: nat, dollar: bool)
    requires p + before + 1 + after <= |s|
    requires forall k :: p <= k < p + before ==> IsSpace(s[k])
    requires IsDash(s[p + before]) && !IsSpace(s[p + before])
    requires forall k :: p + before + 1 <= k < p + before + 1 + after ==> IsSpace(s[k])
    requires var t := p + before + 1 + after; t < |s| && !IsSpace(s[t]) && (s[t] == '$' <==> dollar)
    ensures Separator(s, p) == Some(p + before + 1 + after + if dollar then 1 else 0)
  {
    SpaceRunExact(s, p, before);
    SpaceRunExact(s, p + before + 1, after);
  }

  /** The value of one digit. */
  function DigitOf(c: char): int {
    c as int - '0' as int
  }

  lemma ScanTwoDigits(s: string, i: nat, a: char, b: char)
    requires i + 2 <= |s| && s[i..i + 2] == [a, b] && IsDigit(a) && IsDigit(b)
    requires i + 2 == |s| || (!IsDigit(s[i + 2]) && s[i + 2] != ',' && s[i + 2] != '.')
    ensures ScanNumber(s, i) == Some(Number(DigitOf(a) * 10 + DigitOf(b), i + 2))
  {
    var w := s[i..i + 2];
    assert w[0] == s[i] && w[1] == s[i + 1];
    ScanPlain(s, i, 2);
    TwoDigits(a, b);
  }

  lemma TwoDigits(a: char, b: char)
    requires IsDigit(a) && IsDigit(b)
    ensures DigitsValue([a, b]) == DigitOf(a) * 10 + DigitOf(b)
  {
    assert [a][..0] == [];
    assert DigitsValue([a]) == DigitOf(a);
    assert [a, b][..1] == [a];
  }

  lemma ScanThreeDigits(s: string, i: nat, a: char, b: char, c: char)
    requires i + 3 <= |s| && s[i..i + 3] == [a, b, c]
    requires IsDigit(a) && IsDigit(b) && IsDigit(c)
    requires i + 3 == |s| || (!IsDigit(s[i + 3]) && s[i + 3] != ',' && s[i + 3] != '.')
    ensures ScanNumber(s, i) == Some(Number(DigitOf(a) * 100 + DigitOf(b) * 10 + DigitOf(c), i + 3))
  {
    var w := s[i..i + 3];
    assert w[0] == s[i] && w[1] == s[i + 1] && w[2] == s[i + 2];
    ScanPlain(s, i, 3);
    ThreeDigits(a, b, c);
  }

  lemma ThreeDigits(a: char, b: char, c: char)
    requires IsDigit(a) && IsDigit(b) && IsDigit(c)
    ensures DigitsValue([a, b, c]) == DigitOf(a) * 100 + DigitOf(b) * 10 + DigitOf(c)
  {
    assert [a, b, c][..2] == [a, b];
    TwoDigits(a, b);
  }

  lemma DigitsSnoc(p: string, c: char)
    requires forall k :: 0 <= k < |p| ==> IsDigit(p[k])
    requires IsDigit(c)
    ensures DigitsValue(p + [c]) == DigitsValue(p) * 10 + (c as int - '0' as int)
  {
    assert (p + [c])[..|p|] == p;
  }

  /** `int` of a five-digit string ending in four zeros. */
  lemma FiveDigits(ds: string, d: char)
    requires ds == [d, '0', '0', '0', '0'] && IsDigit(d)
    ensures DigitsValue(ds) == (d as int - '0' as int) * 10000
  {
    var v := d as int - '0' as int;
    DigitsSnoc([], d);
    assert [] + [d] == [d];
    DigitsSnoc([d], '0');
    assert [d] + ['0'] == [d, '0'];
    DigitsSnoc([d, '0'], '0');
    assert [d, '0'] + ['0'] == [d, '0', '0'];
    DigitsSnoc([d, '0', '0'], '0');
    assert [d, '0', '0'] + ['0'] == [d, '0', '0', '0'];
    DigitsSnoc([d, '0', '0', '0'], '0');
    assert [d, '0', '0', '0'] + ['0'] == ds;
  }

  lemma ScanFiveGrouped(s: string, i: nat, d: char)
    requires i + 6 <= |s| && IsDigit(d)
    requires s[i..i + 6] == [d, '0', ',', '0', '0', '0']
    requires i + 6 == |s| || (!IsDigit(s[i + 6]) && s[i + 6] != '.')
    ensures ScanNumber(s, i) == Some(Number((d as int - '0' as int) * 10000, i + 6))
  {
    var w := s[i..i + 6];
    assert w[0] == s[i] && w[1] == s[i + 1] && w[2] == s[i + 2];
    assert w[3] == s[i + 3] && w[4] == s[i + 4] && w[5] == s[i + 5];
    ScanGrouped(s, i, 2, 3);
    assert s[i..i + 2] + s[i + 3..i + 6] == [d, '0', '0', '0', '0'];
    FiveDigits([d, '0', '0', '0', '0'], d);
  }

  lemma YearlyMatch(s: string)
    requires s == "$50,000 - $70,000"
    ensures MatchAt(s, 0) == Some(SalaryMatch(50000, false, 70000, false))
  {
    YearlyFirst(s);
    YearlySecond(s);
    YearlySeparator(s);
    MatchAtIntro(s, 0, Number(50000, 7), false, 11, Number(70000, 17), false);
  }

  lemma YearlyFirst(s: string)
    requires s == "$50,000 - $70,000"
    ensures 0 < |s| && s[0] == '$' && ScanNumber(s, 1) == Some(Number(50000, 7)) && !SuffixK(s, 7)
  {
    ScanFiveGrouped(s, 1, '5');
  }

  lemma YearlySecond(s: string)
    requires s == "$50,000 - $70,000"
    ensures ScanNumber(s, 11) == Some(Number(70000, 17)) && !SuffixK(s, 17)
  {
    ScanFiveGrouped(s, 11, '7');
  }

  lemma YearlySeparator(s: string)
    requires s == "$50,000 - $70,000"
    ensures Separator(s, 7) == Some(11)
  {
    SeparatorAt(s, 7, 1, 1, true);
  }

  lemma ExampleYearly()
    ensures ExtractSalary(Some("$50,000 - $70,000"), false) == Some(SalaryRange(Yearly, 50000, 70000, "USD"))
  {
    YearlyMatch("$50,000 - $70,000");
    SearchHit("$50,000 - $70,000", SalaryMatch(50000, false, 70000, false));
  }

  lemma HourlyMatch(s: string)
    requires s == "$20 - $30"
    ensures MatchAt(s, 0) == Some(SalaryMatch(20, false, 30, false))
  {
    TwentyDollarOpening(s);
    HourlyMatchSecond(s);
    MatchAtIntro(s, 0, Number(20, 3), false, 7, Number(30, 9), false);
  }

  /** The opening "$20 - $" of the hourly examples: a first number 20
      without a suffix, then a separator that ends after the second `$`. */
  lemma TwentyDollarOpening(s: string)
    requires 7 <= |s| && s[..7] == "$20 - $"
    ensures 0 < |s| && s[0] == '$' && ScanNumber(s, 1) == Some(Number(20, 3)) && !SuffixK(s, 3)
    ensures Separator(s, 3) == Some(7)
  {
    forall k | 0 <= k < 7
      ensures s[k] == "$20 - $"[k]
    {
      assert s[..7][k] == s[k];
    }
    assert s[1..3] == ['2', '0'];
    ScanTwoDigits(s, 1, '2', '0');
    SeparatorAt(s, 3, 1, 1, true);
  }

  lemma HourlyMatchSecond(s: string)
    requires s == "$20 - $30"
    ensures ScanNumber(s, 7) == Some(Number(30, 9)) && !SuffixK(s, 9)
  {
    ScanTwoDigits(s, 7, '3', '0');
  }

  lemma ExampleHourly()
    ensures ExtractSalary(Some("$20 - $30"), false) == Some(SalaryRange(Hourly, 20, 30, "USD"))
    ensures ExtractSalary(Some("$20 - $30"), true) == Some(SalaryRange(Hourly, 41600, 62400, "USD"))
  {
    HourlyMatch("$20 - $30");
    SearchHit("$20 - $30", SalaryMatch(20, false, 30, false));
    HourlyDecision();
  }

  lemma HourlyDecision()
    ensures FromMatch(SalaryMatch(20, false, 30, false), false) == Some(SalaryRange(Hourly, 20, 30, "USD"))
    ensures FromMatch(SalaryMatch(20, false, 30, false), true) == Some(SalaryRange(Hourly, 41600, 62400, "USD"))
  {
  }

  lemma OneSuffixMatch(s: string)
    requires s == "$50k - 70"
    ensures MatchAt(s, 0) == Some(SalaryMatch(50, true, 70, false))
  {
    OneSuffixMatchFirst(s);
    OneSuffixMatchSecond(s);
    OneSuffixMatchSeparator(s);
    MatchAtIntro(s, 0, Number(50, 3), true, 7, Number(70, 9), false);
  }

  lemma OneSuffixMatchFirst(s: string)
    requires s == "$50k - 70"
    ensures 0 < |s| && s[0] == '$' && ScanNumber(s, 1) == Some(Number(50, 3)) && SuffixK(s, 3)
  {
    ScanTwoDigits(s, 1, '5', '0');
  }

  lemma OneSuffixMatchSecond(s: string)
    requires s == "$50k - 70"
    ensures ScanNumber(s, 7) == Some(Number(70, 9)) && !SuffixK(s, 9)
  {
    ScanTwoDigits(s, 7, '7', '0');
  }

  lemma OneSuffixMatchSeparator(s: string)
    requires s == "$50k - 70"
    ensures Separator(s, 4) == Some(7)
  {
    SeparatorAt(s, 4, 1, 1, false);
  }

  /** One `k` suffix scales both ends: "$50k - 70" reads as 50000 to 70000. */
  lemma ExampleOneSuffixScalesBoth()
    ensures ExtractSalary(Some("$50k - 70"), false) == Some(SalaryRange(Yearly, 50000, 70000, "USD"))
  {
    OneSuffixMatch("$50k - 70");
    SearchHit("$50k - 70", SalaryMatch(50, true, 70, false));
  }

  lemma BandMismatchMatch(s: string)
    requires s == "$20 - $400"
    ensures MatchAt(s, 0) == Some(SalaryMatch(20, false, 400, false))
  {
    TwentyDollarOpening(s);
    BandMismatchMatchSecond(s);
    MatchAtIntro(s, 0, Number(20, 3), false, 7, Number(400, 10), false);
  }

  lemma BandMismatchMatchSecond(s: string)
    requires s == "$20 - $400"
    ensures ScanNumber(s, 7) == Some(Number(400, 10)) && !SuffixK(s, 10)
  {
    ScanThreeDigits(s, 7, '4', '0', '0');
  }

  /** A maximum above the minimum's band discards the match: "$20 - $400" has
      an hourly minimum and no hourly maximum. */
  lemma ExampleBandMismatch()
    ensures ExtractSalary(Some("$20 - $400"), false).None?
  {
    BandMismatchMatch("$20 - $400");
    SearchHit("$20 - $400", SalaryMatch(20, false, 400, false));
  }
}
