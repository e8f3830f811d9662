/** UTC calendar arithmetic behind `toDate`, `toYYYYMM` and the date part of object keys. */
module Calendar {

  const MS_PER_DAY := 86_400_000
  const DAYS_PER_ERA := 146_097

  datatype Date = Date(year: int, month: int, day: int)

  /** Days since 1970-01-01 of an instant in milliseconds. */
  function DayOf(ms: int): int {
    ms / MS_PER_DAY
  }

  /** Proleptic Gregorian date of a day number; months are counted from March inside a 400-year era. */
  function CivilOf(day: int): Date {
    DateInEra((day + 719_468) / DAYS_PER_ERA, (day + 719_468) % DAYS_PER_ERA)
  }

  /** The date of a day of an era. */
  function DateInEra(era: int, doe: int): Date {
    DateOf(era, YearOfEra(doe), doe - YearStart(YearOfEra(doe)))
  }

  /** The date of a day of an era's year, that year beginning in March. */
  function DateOf(era: int, yoe: int, doy: int): Date {
    var mp := (5 * doy + 2) / 153;
    var month := if mp < 10 then mp + 3 else mp - 9;
    Date(yoe + era * 400 + (if month <= 2 then 1 else 0), month, doy - (153 * mp + 2) / 5 + 1)
  }

  /** Year inside an era, found century by century, then leap cycle by leap cycle. */
  function YearOfEra(doe: int): int {
    var century := if doe / 36_524 < 4 then doe / 36_524 else 3;
    var rest := doe - 36_524 * century;
    var cycle := rest / 1461;
    var tail := rest - 1461 * cycle;
    100 * century + 4 * cycle + (if tail / 365 < 4 then tail / 365 else 3)
  }

  function YearStart(yoe: int): int {
    365 * yoe + yoe / 4 - yoe / 100
  }

  /** Day number of a Gregorian date: the textbook inverse of `CivilOf`. */
  function DayNumber(d: Date): int {
    var y := if d.month <= 2 then d.year - 1 else d.year;
    var mp := if d.month > 2 then d.month - 3 else d.month + 9;
    (y / 400) * DAYS_PER_ERA + YearStart(y % 400) + (153 * mp + 2) / 5 + d.day - 1 - 719_468
  }

  /** The partition expression `toYYYYMM(timestamp)`. */
  function ToYYYYMM(ms: int): int {
    var d := CivilOf(DayOf(ms));
    d.year * 100 + d.month
  }

  lemma YearOfEraBounds(doe: int)
    requires 0 <= doe < DAYS_PER_ERA
    ensures 0 <= YearOfEra(doe) <= 399
    ensures 0 <= doe - YearStart(YearOfEra(doe)) < YearLength(YearOfEra(doe)) <= 366
  {
    var century := if doe / 36_524 < 4 then doe / 36_524 else 3;
    var rest := doe - 36_524 * century;
    var cycle := rest / 1461;
    var tail := rest - 1461 * cycle;
    var y := if tail / 365 < 4 then tail / 365 else 3;
    assert 0 <= cycle <= 24;
    YearStartOf(century, cycle, y);
    YearLengthOf(century, cycle, y);
  }

  lemma YearStartOf(century: int, cycle: int, y: int)
    requires 0 <= century <= 3 && 0 <= cycle <= 24 && 0 <= y <= 3
    ensures YearStart(100 * century + 4 * cycle + y) == 36_524 * century + 1461 * cycle + 365 * y
  {
    assert (100 * century + 4 * cycle + y) / 4 == 25 * century + cycle;
    assert (100 * century + 4 * cycle + y) / 100 == century;
  }

  lemma MonthRecovers(doy: int)
    requires 0 <= doy <= 365
    ensures 0 <= (5 * doy + 2) / 153 <= 11
    ensures 1 <= doy - (153 * ((5 * doy + 2) / 153) + 2) / 5 + 1 <= 31
  {
  }

  lemma EraRecovers(era: int, yoe: int)
    requires 0 <= yoe <= 399
    ensures (yoe + era * 400) / 400 == era && (yoe + era * 400) % 400 == yoe
  {
  }

  lemma DateRecovers(era: int, yoe: int, doy: int)
    requires 0 <= yoe <= 399 && 0 <= doy <= 365
    ensures DayNumber(DateOf(era, yoe, doy)) == era * DAYS_PER_ERA + YearStart(yoe) + doy - 719_468
    ensures 1 <= DateOf(era, yoe, doy).month <= 12 && 1 <= DateOf(era, yoe, doy).day <= 31
  {
    MonthRecovers(doy);
    EraRecovers(era, yoe);
    var d := DateOf(era, yoe, doy);
    assert (if d.month <= 2 then d.year - 1 else d.year) == yoe + era * 400;
  }

  /** Era, year and day of year of a day number. */
  lemma DateParts(day: int) returns (era: int, yoe: int, doy: int)
    ensures 0 <= yoe <= 399 && 0 <= doy < YearLength(yoe) <= 366
    ensures CivilOf(day) == DateOf(era, yoe, doy)
    ensures day == era * DAYS_PER_ERA + YearStart(yoe) + doy - 719_468
  {
    var z := day + 719_468;
    var doe := z % DAYS_PER_ERA;
    era, yoe := z / DAYS_PER_ERA, YearOfEra(doe);
    doy := doe - YearStart(yoe);
    YearOfEraBounds(doe);
    assert z == era * DAYS_PER_ERA + doe;
    CivilParts(day, era, doe);
  }

  /** `CivilOf` loses nothing: distinct days have distinct dates. */
  lemma CivilRoundTrip(day: int)
    ensures DayNumber(CivilOf(day)) == day
    ensures 1 <= CivilOf(day).month <= 12
    ensures 1 <= CivilOf(day).day <= 31
  {
    var era, yoe, doy := DateParts(day);
    DateRecovers(era, yoe, doy);
  }

  // ---------------------------------------------------------------- it is the Gregorian calendar

  predicate Leap(year: int) {
    year % 4 == 0 && (year % 100 != 0 || year % 400 == 0)
  }

  function MonthLength(year: int, month: int): int {
    if month == 2 then if Leap(year) then 29 else 28
    else if month == 4 || month == 6 || month == 9 || month == 11 then 30
    else 31
  }

  function Tomorrow(d: Date): Date {
    if d.day < MonthLength(d.year, d.month) then Date(d.year, d.month, d.day + 1)
    else if d.month < 12 then Date(d.year, d.month + 1, 1)
    else Date(d.year + 1, 1, 1)
  }

  /** Length of the year that begins in March of year `yoe`: it holds the February of the next one. */
  function YearLength(yoe: int): int {
    if Leap(yoe + 1) then 366 else 365
  }

  /** A year of an era by century, leap cycle and year of the cycle. */
  lemma YearLengthOf(century: int, cycle: int, y: int)
    requires 0 <= century <= 3 && 0 <= cycle <= 24 && 0 <= y <= 3
    ensures YearLength(100 * century + 4 * cycle + y) == if y == 3 && (cycle != 24 || century == 3) then 366 else 365
  {
    var next := 100 * century + 4 * cycle + y + 1;
    assert next % 4 == (y + 1) % 4;
    assert next % 100 == (4 * cycle + y + 1) % 100;
  }

  lemma YearOfEraIs(yoe: int, doy: int) returns (doe: int)
    requires 0 <= yoe <= 399 && 0 <= doy < YearLength(yoe)
    ensures doe == YearStart(yoe) + doy && YearOfEra(doe) == yoe && 0 <= doe < DAYS_PER_ERA
  {
    doe := YearStart(yoe) + doy;
    var century, cycle, y := yoe / 100, yoe % 100 / 4, yoe % 4;
    assert yoe == 100 * century + 4 * cycle + y;
    YearLengthOf(century, cycle, y);
    YearStartOf(century, cycle, y);
    YearOfDays(century, cycle, y, doy);
  }

  lemma YearOfDays(century: int, cycle: int, y: int, doy: int)
    requires 0 <= century <= 3 && 0 <= cycle <= 24 && 0 <= y <= 3
    requires 0 <= doy < if y == 3 && (cycle != 24 || century == 3) then 366 else 365
    ensures YearOfEra(36_524 * century + 1461 * cycle + 365 * y + doy) == 100 * century + 4 * cycle + y
    ensures 0 <= 36_524 * century + 1461 * cycle + 365 * y + doy < DAYS_PER_ERA
  {
    var doe := 36_524 * century + 1461 * cycle + 365 * y + doy;
    assert (if doe / 36_524 < 4 then doe / 36_524 else 3) == century;
    var rest := doe - 36_524 * century;
    assert rest / 1461 == cycle;
  }

  lemma DayOfParts(day: int, era: int, yoe: int, doy: int)
    requires 0 <= yoe <= 399 && 0 <= doy < YearLength(yoe)
    requires day == era * DAYS_PER_ERA + YearStart(yoe) + doy - 719_468
    ensures CivilOf(day) == DateOf(era, yoe, doy)
  {
    var doe := YearOfEraIs(yoe, doy);
    CivilParts(day, era, doe);
  }

  lemma CivilParts(day: int, era: int, doe: int)
    requires day + 719_468 == era * DAYS_PER_ERA + doe && 0 <= doe < DAYS_PER_ERA
    ensures CivilOf(day) == DateInEra(era, doe)
  {
    DivideEra(day + 719_468, era, doe);
  }

  lemma DivideEra(z: int, era: int, doe: int)
    requires z == era * DAYS_PER_ERA + doe && 0 <= doe < DAYS_PER_ERA
    ensures z / DAYS_PER_ERA == era && z % DAYS_PER_ERA == doe
  {
  }

  lemma NextYearStarts(yoe: int)
    requires 0 <= yoe <= 399
    ensures yoe < 399 ==> YearStart(yoe + 1) == YearStart(yoe) + YearLength(yoe)
    ensures yoe == 399 ==> DAYS_PER_ERA == YearStart(yoe) + YearLength(yoe)
  {
    var century, cycle, y := yoe / 100, yoe % 100 / 4, yoe % 4;
    assert yoe == 100 * century + 4 * cycle + y;
    NextStart(century, cycle, y);
  }

  lemma NextStart(century: int, cycle: int, y: int)
    requires 0 <= century <= 3 && 0 <= cycle <= 24 && 0 <= y <= 3
    ensures var yoe := 100 * century + 4 * cycle + y;
            YearStart(yoe) + YearLength(yoe) == if yoe < 399 then YearStart(yoe + 1) else DAYS_PER_ERA
  {
    YearLengthOf(century, cycle, y);
    YearStartOf(century, cycle, y);
    if y < 3 {
      YearStartOf(century, cycle, y + 1);
    } else if cycle < 24 {
      YearStartOf(century, cycle + 1, 0);
    } else if century < 3 {
      YearStartOf(century + 1, 0, 0);
    }
  }

  /** Leap years repeat with the era. */
  lemma LeapInEra(era: int, yoe: int)
    requires 0 <= yoe <= 399
    ensures Leap(yoe + 1 + era * 400) <==> Leap(yoe + 1)
  {
    Periodic(yoe + 1, era);
  }

  lemma Periodic(n: int, k: int)
    ensures (n + k * 400) % 4 == n % 4 && (n + k * 400) % 100 == n % 100 && (n + k * 400) % 400 == n % 400
  {
    By4(n, 100 * k);
    By100(n, 4 * k);
    By400(n, k);
  }

  lemma By4(n: int, k: int)
    ensures (n + k * 4) % 4 == n % 4
  {
  }

  lemma By100(n: int, k: int)
    ensures (n + k * 100) % 100 == n % 100
  {
  }

  lemma By400(n: int, k: int)
    ensures (n + k * 400) % 400 == n % 400
  {
  }

  lemma DayWithinYear(era: int, yoe: int, doy: int)
    requires 0 <= yoe <= 399 && 0 <= doy && doy + 1 < YearLength(yoe)
    ensures DateOf(era, yoe, doy + 1) == Tomorrow(DateOf(era, yoe, doy))
  {
    LeapInEra(era, yoe);
  }

  lemma LastDayOfYear(era: int, yoe: int, doy: int)
    requires 0 <= yoe <= 399 && doy + 1 == YearLength(yoe)
    ensures Tomorrow(DateOf(era, yoe, doy)) == Date(yoe + 1 + era * 400, 3, 1)
  {
    LeapInEra(era, yoe);
  }

  /** Day zero is 1 January 1970 and every day's successor is the next date: `CivilOf` is the Gregorian
      calendar. */
  lemma GregorianCalendar(day: int)
    ensures CivilOf(0) == Date(1970, 1, 1)
    ensures CivilOf(day + 1) == Tomorrow(CivilOf(day))
  {
    Epoch();
    var era, yoe, doy := DateParts(day);
    DayAfter(day + 1, era, yoe, doy);
  }

  lemma Epoch()
    ensures CivilOf(0) == Date(1970, 1, 1)
  {
    assert YearOfEra(135_080) == 369 && YearStart(369) == 134_774;
    CivilParts(0, 4, 135_080);
  }

  lemma DayAfter(day: int, era: int, yoe: int, doy: int)
    requires 0 <= yoe <= 399 && 0 <= doy < YearLength(yoe)
    requires day == era * DAYS_PER_ERA + YearStart(yoe) + doy + 1 - 719_468
    ensures CivilOf(day) == Tomorrow(DateOf(era, yoe, doy))
  {
    if doy + 1 < YearLength(yoe) {
      DayWithinYear(era, yoe, doy);
      DayOfParts(day, era, yoe, doy + 1);
    } else {
      DayAfterYear(day, era, yoe, doy);
    }
  }

  lemma DayAfterYear(day: int, era: int, yoe: int, doy: int)
    requires 0 <= yoe <= 399 && doy + 1 == YearLength(yoe)
    requires day == era * DAYS_PER_ERA + YearStart(yoe) + doy + 1 - 719_468
    ensures CivilOf(day) == Tomorrow(DateOf(era, yoe, doy))
  {
    LastDayOfYear(era, yoe, doy);
    NextYearStarts(yoe);
    if yoe < 399 {
      DayOfParts(day, era, yoe + 1, 0);
      MarchFirst(era, yoe + 1);
    } else {
      assert YearStart(0) == 0;
      DayOfParts(day, era + 1, 0, 0);
      MarchFirst(era + 1, 0);
    }
  }

  lemma MarchFirst(era: int, yoe: int)
    ensures DateOf(era, yoe, 0) == Date(yoe + era * 400, 3, 1)
  {
  }
}
