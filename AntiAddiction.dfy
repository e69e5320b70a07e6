/**
 * The play-time rules for minors: the age read from the birth-date digits of
 * a resident identity number (section 5.3 of GB 11643-1999), the age bands
 * that fix a daily limit, the once-only warning and the forced logout run by
 * the per-minute timer, the day rollover of the stored play time, and the
 * two questions the game asks (may the player go on, may the player pay).
 */
module AntiAddiction {
  import opened Common
  import opened Decimal

  /** `userAge`: a whole number of years, or NaN when `parseInt` found no year digits. */
  datatype Age = Years(years: int) | NotANumber

  /** `userAge < n`: a comparison with NaN is false. */
  predicate Below(age: Age, n: int) {
    age.Years? && age.years < n
  }

  /** `userAge >= n`: a comparison with NaN is false. */
  predicate AtLeast(age: Age, n: int) {
    age.Years? && age.years >= n
  }

  /** A calendar day, as `getFullYear()`, `getMonth() + 1` and `getDate()` report it. */
  datatype Date = Date(year: int, month: int, day: int)

  /** Characters [a, b) of the identity number read through `parseInt`; `None` is NaN. */
  function Field(idCard: string, a: nat, b: nat): Option<int>
    requires a <= b
  {
    ParseSignedInt(Substring(idCard, a, b))
  }

  /**
   * Today falls strictly before this year's birthday. Every comparison with a
   * NaN field is false, so a missing month or day never causes a decrement.
   */
  predicate BeforeBirthday(today: Date, birthMonth: Option<int>, birthDay: Option<int>) {
    birthMonth.Some? &&
    (today.month < birthMonth.value ||
     (today.month == birthMonth.value && birthDay.Some? && today.day < birthDay.value))
  }

  /** `calculateAge`: years since the birth year, one less before this year's birthday. */
  function CalculateAge(idCard: string, today: Date): (age: Age)
    ensures age.NotANumber? <==> Field(idCard, 6, 10).None?
    ensures age.Years? ==>
      var years := today.year - Field(idCard, 6, 10).value;
      age.years == years || age.years == years - 1
  {
    match Field(idCard, 6, 10)
    case None => NotANumber
    case Some(birthYear) =>
      var years := today.year - birthYear;
      if BeforeBirthday(today, Field(idCard, 10, 12), Field(idCard, 12, 14)) then Years(years - 1)
      else Years(years)
  }

  /** Without a radix `parseInt` reads a `0x` year field in base 16: `0x19` is the year 25. */
  lemma HexBirthYear()
    ensures CalculateAge("1101010x1901010011", Date(2026, 10, 16)) == Years(2001)
  {
    var id := "1101010x1901010011";
    assert Field(id, 6, 10) == Some(25) by {
      assert Substring(id, 6, 10) == "0x19";
      HexPrefixRead();
    }
    assert Field(id, 10, 12) == Some(1) by {
      assert Substring(id, 10, 12) == "01";
      ReadsOne();
    }
    assert Field(id, 12, 14) == Some(1) by {
      assert Substring(id, 12, 14) == "01";
      ReadsOne();
    }
  }

  lemma ReadsOne()
    ensures ParseSignedInt("01") == Some(1)
  {
    assert AllDigits("01");
    assert "01"[..1] == "0" && "0"[..0] == "";
    assert ParseDigits("0") == 0;
  }

  /** Calendar order on (year, month, day). */
  predicate OnOrBefore(d: Date, e: Date) {
    d.year < e.year ||
    (d.year == e.year && (d.month < e.month || (d.month == e.month && d.day <= e.day)))
  }

  /** Characters 6 to 13 of the identity number are digits (YYYYMMDD). */
  predicate HasBirthDigits(idCard: string) {
    |idCard| >= 14 && AllDigits(idCard[6..14])
  }

  /** The birth date written in characters 6 to 13 of the identity number. */
  function BirthDate(idCard: string): Date
    requires HasBirthDigits(idCard)
  {
    DigitsSlice(idCard, 6, 14, 6, 10);
    DigitsSlice(idCard, 6, 14, 10, 12);
    DigitsSlice(idCard, 6, 14, 12, 14);
    Date(ParseDigits(idCard[6..10]), ParseDigits(idCard[10..12]), ParseDigits(idCard[12..14]))
  }

  lemma DigitsSlice(s: string, a: nat, b: nat, c: nat, d: nat)
    requires a <= c <= d <= b <= |s| && AllDigits(s[a..b])
    ensures AllDigits(s[c..d])
  {
    forall i | 0 <= i < d - c
      ensures IsDigit(s[c..d][i])
    {
      assert s[c..d][i] == s[a..b][c - a + i];
    }
  }

  /** A field made of digits only reads as their decimal value. */
  lemma FieldOfDigits(idCard: string, a: nat, b: nat)
    requires a < b <= |idCard| && AllDigits(idCard[a..b])
    ensures Field(idCard, a, b) == Some(ParseDigits(idCard[a..b]))
  {
    assert Substring(idCard, a, b) == idCard[a..b];
  }

  /**
   * For an identity number whose birth-date characters are digits, the age is
   * the number of birthdays that fall on or before today: the birthday of
   * year `age` has been reached and that of year `age + 1` has not. In
   * particular the birthday itself already counts.
   */
  lemma AgeCountsBirthdays(idCard: string, today: Date)
    requires HasBirthDigits(idCard)
    ensures var b := BirthDate(idCard);
            var age := CalculateAge(idCard, today);
            age.Years? &&
            OnOrBefore(Date(b.year + age.years, b.month, b.day), today) &&
            !OnOrBefore(Date(b.year + age.years + 1, b.month, b.day), today)
  {
    DigitsSlice(idCard, 6, 14, 6, 10);
    DigitsSlice(idCard, 6, 14, 10, 12);
    DigitsSlice(idCard, 6, 14, 12, 14);
    FieldOfDigits(idCard, 6, 10);
    FieldOfDigits(idCard, 10, 12);
    FieldOfDigits(idCard, 12, 14);
  }

  /** `playTimeLimit`: never set (`undefined`), a number of minutes, or `Infinity`. */
  datatype Limit = Unset | Minutes(minutes: nat) | Unlimited

  /** What `setAgeRestrictions` passes on to the game about payments. */
  datatype PaymentRule = PaymentDisabled | PaymentCap(yuan: nat) | PaymentUnrestricted

  datatype Restriction = Restriction(limit: Limit, payment: PaymentRule)

  /** The age bands of `setAgeRestrictions`. */
  function AgeRestriction(age: Age): (r: Restriction)
    ensures r.limit == Unlimited <==> !Below(age, 18)
    ensures r.payment == PaymentUnrestricted <==> !Below(age, 18)
    ensures r.payment == PaymentDisabled <==> Below(age, 8)
    ensures r.limit.Minutes? ==> 60 <= r.limit.minutes <= 180
    ensures Below(age, 8) ==> r == Restriction(Minutes(60), PaymentDisabled)
    ensures !Below(age, 8) && Below(age, 16) ==> r == Restriction(Minutes(120), PaymentCap(50))
    ensures !Below(age, 16) && Below(age, 18) ==> r == Restriction(Minutes(180), PaymentCap(100))
  {
    if Below(age, 8) then Restriction(Minutes(60), PaymentDisabled)
    else if Below(age, 16) then Restriction(Minutes(120), PaymentCap(50))
    else if Below(age, 18) then Restriction(Minutes(180), PaymentCap(100))
    else Restriction(Unlimited, PaymentUnrestricted)
  }

  /** `Infinity` is above every number of minutes; an unset limit is below all. */
  predicate LimitAtMost(a: Limit, b: Limit) {
    match (a, b)
    case (Unset, _) => true
    case (_, Unlimited) => true
    case (Minutes(m), Minutes(n)) => m <= n
    case _ => false
  }

  /** An older player never gets a smaller daily limit. */
  lemma RestrictionGrowsWithAge(younger: int, older: int)
    requires younger <= older
    ensures LimitAtMost(AgeRestriction(Years(younger)).limit, AgeRestriction(Years(older)).limit)
  {
  }

  /** The limit `checkPlayTime` applies to a player not known to be adult. */
  function DailyLimit(age: Age): (m: nat)
    ensures m == 60 || m == 120 || m == 180
    ensures Below(age, 8) <==> m == 60
    ensures !Below(age, 8) && Below(age, 16) <==> m == 120
    ensures !Below(age, 16) <==> m == 180
  {
    if Below(age, 8) then 60 else if Below(age, 16) then 120 else 180
  }

  /** For every numeric age under 18 the two band tables agree. */
  lemma BandsAgree(age: Age)
    requires Below(age, 18)
    ensures AgeRestriction(age).limit == Minutes(DailyLimit(age))
  {
  }

  /**
   * A NaN age falls to the adult branch of `setAgeRestrictions` (no limit)
   * but to the 180-minute branch of `checkPlayTime`.
   */
  lemma NotANumberBandsDisagree()
    ensures AgeRestriction(NotANumber).limit == Unlimited
    ensures DailyLimit(NotANumber) == 180
  {
  }

  /** The part of the manager's state the timer and the check read and write. */
  datatype PlayState = PlayState(verified: bool, age: Age, minutes: nat, warned: bool, timing: bool)

  /** The two pop-ups `checkPlayTime` may raise: the 15-minute warning and the forced logout. */
  datatype Notice = Notice(warned: bool, forcedOffline: bool)

  const QUIET := Notice(false, false)

  /** `checkPlayTime` acts only on a verified player not known to be adult. */
  predicate Supervised(s: PlayState) {
    s.verified && !AtLeast(s.age, 18)
  }

  /**
   * `checkPlayTime`: warn once when at most 15 minutes remain, and force the
   * player offline (which stops the timer) once the limit is reached.
   */
  function Checked(s: PlayState): (r: (PlayState, Notice))
    ensures !Supervised(s) ==> r == (s, QUIET)
    ensures r.0 == s.(warned := r.0.warned, timing := r.0.timing)
    ensures r.1.warned <==> Supervised(s) && !s.warned && s.minutes >= DailyLimit(s.age) - 15
    ensures r.1.forcedOffline <==> Supervised(s) && s.minutes >= DailyLimit(s.age)
    ensures r.0.warned <==> s.warned || r.1.warned
    ensures r.0.timing <==> s.timing && !r.1.forcedOffline
    ensures r.1.forcedOffline ==> r.0.warned
  {
    if !Supervised(s) then (s, QUIET)
    else
      var limit := DailyLimit(s.age);
      var warn := !s.warned && s.minutes >= limit - 15;
      var s1 := if warn then s.(warned := true) else s;
      var off := s1.minutes >= limit;
      var s2 := if off then s1.(timing := false) else s1;
      (s2, Notice(warn, off))
  }

  /** One firing of the per-minute timer: one more minute, then the check. A stopped timer does not fire. */
  function Tick(s: PlayState): (r: (PlayState, Notice))
    ensures s.timing ==> r.0.minutes == s.minutes + 1
    ensures s.timing ==> r == Checked(s.(minutes := s.minutes + 1))
    ensures !s.timing ==> r == (s, QUIET)
  {
    if s.timing then Checked(s.(minutes := s.minutes + 1)) else (s, QUIET)
  }

  /** The state after `n` firings of the timer. */
  function After(s: PlayState, n: nat): PlayState
    decreases n
  {
    if n == 0 then s else After(Tick(s).0, n - 1)
  }

  /** How many warnings `n` firings of the timer raise. */
  function WarningsIn(s: PlayState, n: nat): nat
    decreases n
  {
    if n == 0 then 0
    else (if Tick(s).1.warned then 1 else 0) + WarningsIn(Tick(s).0, n - 1)
  }

  /** However long the timer runs, the warning is raised at most once, and never after it was shown. */
  lemma {:induction false} WarnsAtMostOnce(s: PlayState, n: nat)
    ensures WarningsIn(s, n) <= 1
    ensures s.warned ==> WarningsIn(s, n) == 0
    decreases n
  {
    if n > 0 {
      WarnsAtMostOnce(Tick(s).0, n - 1);
    }
  }

  /** The timer runs only while the minutes are below the limit, and they never pass it. */
  predicate Capped(s: PlayState) {
    s.minutes <= DailyLimit(s.age) && (s.timing ==> s.minutes < DailyLimit(s.age))
  }

  /**
   * A supervised player whose timer starts below the daily limit is stopped
   * exactly at the limit: no number of timer firings takes the play time past it.
   */
  lemma {:induction false} TicksStayWithinLimit(s: PlayState, n: nat)
    requires Supervised(s) && Capped(s)
    ensures Supervised(After(s, n)) && Capped(After(s, n))
    ensures After(s, n).minutes <= DailyLimit(s.age)
    decreases n
  {
    if n > 0 {
      var t := Tick(s).0;
      assert Supervised(t) && Capped(t) && t.age == s.age;
      TicksStayWithinLimit(t, n - 1);
    }
  }

  /** `canContinuePlay`: an unset limit compares false, `Infinity` true. */
  function CanContinuePlay(verified: bool, age: Age, minutes: nat, limit: Limit): (r: bool)
    ensures r ==> verified
    ensures verified && AtLeast(age, 18) ==> r
  {
    if !verified then false
    else if AtLeast(age, 18) then true
    else
      match limit
      case Unset => false
      case Minutes(m) => minutes < m
      case Unlimited => true
  }

  /**
   * After `setAgeRestrictions`, a verified minor may go on exactly while the
   * timer's check would not force them offline.
   */
  lemma ContinueMatchesForcedOffline(age: Age, minutes: nat)
    requires Below(age, 18)
    ensures CanContinuePlay(true, age, minutes, AgeRestriction(age).limit)
        <==> !Checked(PlayState(true, age, minutes, true, true)).1.forcedOffline
  {
  }

  /** A minor verified on start-up, whose limit was never set, may not go on. */
  lemma UnsetLimitStopsMinors(verified: bool, age: Age, minutes: nat)
    requires !AtLeast(age, 18)
    ensures !CanContinuePlay(verified, age, minutes, Unset)
  {
  }

  /**
   * `canMakePayment`: `paymentLimit` is never assigned by the manager, so the
   * final `amount <= paymentLimit` compares with `undefined` and is false.
   */
  function CanMakePayment(verified: bool, age: Age, amount: real): (r: bool)
    ensures r <==> verified && AtLeast(age, 18)
  {
    if !verified then false
    else if Below(age, 8) then false
    else if AtLeast(age, 18) then true
    else false
  }

  /** The `playTimeData` entry of the platform storage. */
  datatype PlayRecord = PlayRecord(date: Option<string>, time: nat)

  /** The stored record was read and is dated today, so its minutes carry on. */
  predicate Resumes(stored: Option<PlayRecord>, loadOk: bool, today: string) {
    loadOk && stored.Some? && stored.value.date == Some(today)
  }

  /** `loadPlayTime`: the minutes played today and the record left in storage. */
  function Loaded(stored: Option<PlayRecord>, loadOk: bool, saveOk: bool, today: string): (r: (nat, Option<PlayRecord>))
    ensures Resumes(stored, loadOk, today) ==> r == (stored.value.time, stored)
    ensures !Resumes(stored, loadOk, today) ==> r.0 == 0
    ensures !Resumes(stored, loadOk, today) && !saveOk ==> r.1 == stored
    ensures !Resumes(stored, loadOk, today) && saveOk ==> r.1 == Some(PlayRecord(Some(today), 0))
  {
    if Resumes(stored, loadOk, today) then (stored.value.time, stored)
    else (0, if saveOk then Some(PlayRecord(Some(today), 0)) else stored)
  }

  /** Loading twice on the same day, the first time with a successful save, gives the same minutes. */
  lemma ReloadSameDay(stored: Option<PlayRecord>, loadOk: bool, today: string, saveOk: bool)
    ensures var first := Loaded(stored, loadOk, true, today);
            Loaded(first.1, true, saveOk, today).0 == first.0
  {
  }

  class AntiAddictionManager {
    var isVerified: bool
    var userAge: Age
    var playTimeToday: nat
    var lastPlayDate: Option<string>
    var warningShown: bool
    /** Whether the per-minute interval timer is installed. */
    var timerRunning: bool
    var playTimeLimit: Limit
    /** The `playTimeData` entry of the platform storage. */
    var savedRecord: Option<PlayRecord>

    function State(): PlayState
      reads this
    {
      PlayState(isVerified, userAge, playTimeToday, warningShown, timerRunning)
    }

    constructor(stored: Option<PlayRecord>)
      ensures State() == PlayState(false, Years(0), 0, false, false)
      ensures lastPlayDate == None && playTimeLimit == Unset && savedRecord == stored
    {
      isVerified := false;
      userAge := Years(0);
      playTimeToday := 0;
      lastPlayDate := None;
      warningShown := false;
      timerRunning := false;
      playTimeLimit := Unset;
      savedRecord := stored;
    }

    /**
     * The verified branch of `initAntiAddiction`: the age comes from the stored
     * real-name record and the play time is loaded; no limit is set.
     */
    method AcceptRealNameInfo(age: Age, today: string, loadOk: bool, saveOk: bool)
      modifies this`isVerified, this`userAge, this`playTimeToday, this`lastPlayDate, this`savedRecord
      ensures isVerified && userAge == age
      ensures (playTimeToday, savedRecord) == Loaded(old(savedRecord), loadOk, saveOk, today)
      ensures lastPlayDate == Some(today)
    {
      isVerified := true;
      userAge := age;
      LoadPlayTime(today, loadOk, saveOk);
    }

    /**
     * `handleVerificationSuccess`: the age is computed from the identity
     * number; once the cloud write succeeds the player is verified and the
     * age bands apply. Returns the payment rule passed on to the game.
     */
    method HandleVerificationSuccess(idCard: string, today: Date, cloudOk: bool) returns (rule: Option<PaymentRule>)
      modifies this`isVerified, this`userAge, this`playTimeLimit
      ensures !cloudOk ==> rule == None && isVerified == old(isVerified) && userAge == old(userAge)
      ensures !cloudOk ==> playTimeLimit == old(playTimeLimit)
      ensures cloudOk ==> isVerified && userAge == CalculateAge(idCard, today)
      ensures cloudOk ==> rule == Some(AgeRestriction(userAge).payment) && playTimeLimit == AgeRestriction(userAge).limit
    {
      var age := CalculateAge(idCard, today);
      if cloudOk {
        isVerified := true;
        userAge := age;
        var r := SetAgeRestrictions();
        rule := Some(r);
      } else {
        rule := None;
      }
    }

    /** `setAgeRestrictions`: sets the daily limit and returns the payment rule passed on to the game. */
    method SetAgeRestrictions() returns (rule: PaymentRule)
      modifies this`playTimeLimit
      ensures playTimeLimit == AgeRestriction(userAge).limit
      ensures rule == AgeRestriction(userAge).payment
    {
      if Below(userAge, 8) {
        playTimeLimit := Minutes(60);
        rule := PaymentDisabled;
      } else if Below(userAge, 16) {
        playTimeLimit := Minutes(120);
        rule := PaymentCap(50);
      } else if Below(userAge, 18) {
        playTimeLimit := Minutes(180);
        rule := PaymentCap(100);
      } else {
        playTimeLimit := Unlimited;
        rule := PaymentUnrestricted;
      }
    }

    /** `loadPlayTime`: keep today's stored minutes, or start the day at zero and save. */
    method LoadPlayTime(today: string, loadOk: bool, saveOk: bool)
      modifies this`playTimeToday, this`lastPlayDate, this`savedRecord
      ensures (playTimeToday, savedRecord) == Loaded(old(savedRecord), loadOk, saveOk, today)
      ensures lastPlayDate == Some(today)
    {
      if loadOk && savedRecord.Some? && savedRecord.value.date == Some(today) {
        playTimeToday := savedRecord.value.time;
        lastPlayDate := Some(today);
      } else {
        playTimeToday := 0;
        lastPlayDate := Some(today);
        SavePlayTime(saveOk);
      }
    }

    /** `savePlayTime`: a failed write is only logged. */
    method SavePlayTime(saveOk: bool)
      modifies this`savedRecord
      ensures savedRecord == if saveOk then Some(PlayRecord(lastPlayDate, playTimeToday)) else old(savedRecord)
    {
      if saveOk {
        savedRecord := Some(PlayRecord(lastPlayDate, playTimeToday));
      }
    }

    /** `startTiming`: installs the timer unless one is installed. */
    method StartTiming()
      modifies this`timerRunning
      ensures timerRunning
    {
      if !timerRunning {
        timerRunning := true;
      }
    }

    /** `stopTiming`, which is also all `dispose` does. */
    method StopTiming()
      modifies this`timerRunning
      ensures !timerRunning
    {
      if timerRunning {
        timerRunning := false;
      }
    }

    /** The body of the per-minute timer: one more minute, save, check. */
    method TimerTick(saveOk: bool) returns (notice: Notice)
      requires timerRunning
      modifies this`playTimeToday, this`savedRecord, this`warningShown, this`timerRunning
      ensures (State(), notice) == Tick(old(State()))
      ensures savedRecord == if saveOk then Some(PlayRecord(lastPlayDate, old(playTimeToday) + 1)) else old(savedRecord)
    {
      playTimeToday := playTimeToday + 1;
      SavePlayTime(saveOk);
      notice := CheckPlayTime();
    }

    /** `checkPlayTime`; `forceOffline` stops the timer before its pop-up ends the game. */
    method CheckPlayTime() returns (notice: Notice)
      modifies this`warningShown, this`timerRunning
      ensures (State(), notice) == Checked(old(State()))
    {
      if !isVerified || AtLeast(userAge, 18) {
        return QUIET;
      }
      var timeLimit: int;
      if Below(userAge, 8) {
        timeLimit := 60;
      } else if Below(userAge, 16) {
        timeLimit := 120;
      } else {
        timeLimit := 180;
      }
      var warn := false;
      if !warningShown && playTimeToday >= timeLimit - 15 {
        warningShown := true;
        warn := true;
      }
      var off := false;
      if playTimeToday >= timeLimit {
        StopTiming();
        off := true;
      }
      notice := Notice(warn, off);
    }
  }
}
