/** The pure helpers of core/utils.py: the age computation and the
    date-stamped identifier formats, together with the decimal formatting
    they rely on. Dates are plain (year, month, day) triples; the current date
    and the random digits are parameters. */
module CoreUtils {

  datatype Date = Date(year: int, month: int, day: int)

  function DaysInMonth(year: int, month: int): int
  {
    if month == 2 then
      (if (year % 4 == 0 && year % 100 != 0) || year % 400 == 0 then 29 else 28)
    else if month == 4 || month == 6 || month == 9 || month == 11 then 30
    else 31
  }

  /** A date Python's `datetime.date` accepts. */
  predicate ValidDate(d: Date)
  {
    1 <= d.year <= 9999 && 1 <= d.month <= 12 && 1 <= d.day <= DaysInMonth(d.year, d.month)
  }

  /** Lexicographic order on (year, month, day), Python's tuple comparison. */
  predicate DateBefore(a: Date, b: Date)
  {
    a.year < b.year || (a.year == b.year && (a.month < b.month || (a.month == b.month && a.day < b.day)))
  }

  /** The (month, day) pair of `a` is strictly before that of `b`. */
  predicate MonthDayBefore(a: Date, b: Date)
  {
    a.month < b.month || (a.month == b.month && a.day < b.day)
  }

  /** calculate_age: the year difference, one less while this year's birthday
      is still ahead. */
  function CalculateAge(born: Date, today: Date): (age: int)
    ensures !MonthDayBefore(today, born) ==> age == today.year - born.year
    ensures MonthDayBefore(today, born) ==> age == today.year - born.year - 1
    ensures today.month == born.month && today.day == born.day ==> age == today.year - born.year
  {
    today.year - born.year - (if MonthDayBefore(today, born) then 1 else 0)
  }

  /** The k-th anniversary of `born` (the same month and day, k years on). */
  function Anniversary(born: Date, k: int): Date
  {
    Date(born.year + k, born.month, born.day)
  }

  /** The age is the number of anniversaries reached by `today`: the k-th one
      is not after today and the (k+1)-th one is. */
  lemma AgeCountsAnniversaries(born: Date, today: Date)
    ensures var age := CalculateAge(born, today);
      !DateBefore(today, Anniversary(born, age)) && DateBefore(today, Anniversary(born, age + 1))
  {
  }

  // ---------------------------------------------------------------- digits

  predicate IsDigit(c: char)
  {
    '0' <= c <= '9'
  }

  predicate AllDigits(s: string)
  {
    forall i :: 0 <= i < |s| ==> IsDigit(s[i])
  }

  function DigitChar(d: nat): (c: char)
    requires d < 10
    ensures IsDigit(c) && c as int - '0' as int == d
  {
    ('0' as int + d) as char
  }

  function Pow10(k: nat): (p: nat)
    ensures p >= 1
  {
    if k == 0 then 1 else 10 * Pow10(k - 1)
  }

  /** The number a string of decimal digits denotes. */
  function DigitsValue(s: string): nat
    requires AllDigits(s)
  {
    if s == [] then 0 else 10 * DigitsValue(s[..|s| - 1]) + (s[|s| - 1] as int - '0' as int)
  }

  /** Python's `str(n)` for a natural number. */
  function DecimalString(n: nat): (s: string)
    ensures AllDigits(s) && |s| >= 1
    ensures DigitsValue(s) == n
  {
    if n < 10 then
      [DigitChar(n)]
    else
      var s := DecimalString(n / 10) + [DigitChar(n % 10)];
      assert s[..|s| - 1] == DecimalString(n / 10);
      s
  }

  /** `str(n)` has exactly k characters when n has k decimal digits. */
  lemma {:induction false} DecimalStringLength(n: nat, k: nat)
    requires 1 <= k && Pow10(k - 1) <= n < Pow10(k)
    ensures |DecimalString(n)| == k
  {
    if n >= 10 {
      assert k >= 2;
      DecimalStringLength(n / 10, k - 1);
    }
  }

  /** `n` written with exactly `width` digits, zero-padded on the left
      (strftime's `%y`, `%m`, `%d` for width 2), keeping the low digits. */
  function PadDigits(n: nat, width: nat): (s: string)
    ensures |s| == width && AllDigits(s)
    ensures DigitsValue(s) == n % Pow10(width)
  {
    if width == 0 then
      ""
    else
      var s := PadDigits(n / 10, width - 1) + [DigitChar(n % 10)];
      assert s[..|s| - 1] == PadDigits(n / 10, width - 1);
      ModOfShift(n, Pow10(width - 1));
      s
  }

  lemma ModOfShift(n: nat, p: nat)
    requires p >= 1
    ensures 10 * ((n / 10) % p) + n % 10 == n % (10 * p)
  {
    var q, b := (n / 10) / p, (n / 10) % p;
    assert n / 10 == p * q + b;
    assert n == (10 * p) * q + (10 * b + n % 10);
    assert 0 <= 10 * b + n % 10 < 10 * p;
    ModUnique(n, 10 * p, q, 10 * b + n % 10);
  }

  lemma ModUnique(n: int, m: int, q: int, r: int)
    requires m > 0 && n == m * q + r && 0 <= r < m
    ensures n % m == r
  {
    var d := n / m - q;
    assert m * d == r - n % m;
    MulBound(m, d);
  }

  lemma MulBound(m: int, d: int)
    requires m > 0
    ensures d >= 1 ==> m * d >= m
    ensures d <= -1 ==> m * d <= -m
  {
  }

  /** strftime('%y%m%d'): two digits each of the year (mod 100), the month and the day. */
  function Yymmdd(d: Date): (s: string)
    requires ValidDate(d)
    ensures |s| == 6 && AllDigits(s)
    ensures DigitsValue(s[..2]) == d.year % 100
    ensures DigitsValue(s[2..4]) == d.month && DigitsValue(s[4..]) == d.day
  {
    var yy, mm, dd := PadDigits(d.year % 100, 2), PadDigits(d.month, 2), PadDigits(d.day, 2);
    var s := yy + mm + dd;
    PadTwoDigits(d.year % 100);
    PadTwoDigits(d.month);
    PadTwoDigits(d.day);
    assert s[..2] == yy && s[2..4] == mm && s[4..] == dd;
    s
  }

  /** Two zero-padded digits denote a number below 100 exactly. */
  lemma PadTwoDigits(n: nat)
    requires n < 100
    ensures DigitsValue(PadDigits(n, 2)) == n
  {
    assert Pow10(2) == 100;
  }

  /** prefix + date stamp + four random digits (the shape of the core/utils.py ids). */
  function StampedId(prefix: string, today: Date, randomDigits: string): (id: string)
    requires ValidDate(today) && |randomDigits| == 4 && AllDigits(randomDigits)
    ensures |id| == |prefix| + 10 && id[..|prefix|] == prefix
    ensures id[|prefix|..|prefix| + 6] == Yymmdd(today) && id[|prefix| + 6..] == randomDigits
    ensures AllDigits(id[|prefix|..])
  {
    var id := prefix + Yymmdd(today) + randomDigits;
    assert id[|prefix|..] == Yymmdd(today) + randomDigits;
    id
  }

  /** generate_patient_id: "P", then the date stamp, then 4 random digits. */
  function GeneratePatientId(today: Date, randomDigits: string): (id: string)
    requires ValidDate(today) && |randomDigits| == 4 && AllDigits(randomDigits)
    ensures |id| == 11 && id[..1] == "P" && AllDigits(id[1..])
    ensures id[1..7] == Yymmdd(today) && id[7..] == randomDigits
  {
    StampedId("P", today, randomDigits)
  }

  /** generate_lab_test_id: "LT", then the date stamp, then 4 random digits. */
  function GenerateLabTestId(today: Date, randomDigits: string): (id: string)
    requires ValidDate(today) && |randomDigits| == 4 && AllDigits(randomDigits)
    ensures |id| == 12 && id[..2] == "LT" && AllDigits(id[2..])
    ensures id[2..8] == Yymmdd(today) && id[8..] == randomDigits
  {
    StampedId("LT", today, randomDigits)
  }

  /** generate_bill_number: "B", then the date stamp, then 4 random digits. */
  function GenerateBillNumber(today: Date, randomDigits: string): (id: string)
    requires ValidDate(today) && |randomDigits| == 4 && AllDigits(randomDigits)
    ensures |id| == 11 && id[..1] == "B" && AllDigits(id[1..])
    ensures id[1..7] == Yymmdd(today) && id[7..] == randomDigits
  {
    StampedId("B", today, randomDigits)
  }

  /** generate_prescription_id: "RX" + an integer drawn from 10000..99999. */
  function GeneratePrescriptionId(n: nat): (id: string)
    requires 10000 <= n <= 99999
    ensures |id| == 7 && id[..2] == "RX" && AllDigits(id[2..]) && DigitsValue(id[2..]) == n
  {
    assert Pow10(4) == 10000 by {
      assert Pow10(2) == 100;
    }
    assert Pow10(5) == 100000;
    DecimalStringLength(n, 5);
    var id := "RX" + DecimalString(n);
    assert id[2..] == DecimalString(n);
    id
  }
}
