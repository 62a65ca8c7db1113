/**
 * The administrator's dialogues for creating subscription plans and
 * promocodes, and the user's promocode entry. The module-level
 * `admin_state` and `promo_state` dictionaries, the promocode table and
 * the list of created plans are the fields of one object; the checks on
 * the typed parameters are functions.
 */
module Admin {
  import opened Wrappers
  import opened PyStr
  import Seqs

  // ---------------------------------------------------------------------
  // Calendar dates and `datetime.strptime(s, "%Y-%m-%d")`
  // ---------------------------------------------------------------------

  /** A calendar date; `datetime` values at midnight. */
  datatype Date = Date(year: int, month: int, day: int)

  predicate IsLeap(year: int) {
    year % 4 == 0 && (year % 100 != 0 || year % 400 == 0)
  }

  function DaysInMonth(year: int, month: int): (n: int)
    requires 1 <= month <= 12
    ensures 28 <= n <= 31
    ensures n == 29 <==> month == 2 && IsLeap(year)
  {
    if month == 2 then (if IsLeap(year) then 29 else 28)
    else if month == 4 || month == 6 || month == 9 || month == 11 then 30
    else 31
  }

  /** A date `datetime` can hold: years 1 to 9999 and a day the month has. */
  predicate ValidDate(d: Date) {
    1 <= d.year <= 9999 && 1 <= d.month <= 12 && 1 <= d.day <= DaysInMonth(d.year, d.month)
  }

  /** `a <= b` in calendar order. */
  predicate DateLeq(a: Date, b: Date) {
    a.year < b.year || (a.year == b.year && (a.month < b.month || (a.month == b.month && a.day <= b.day)))
  }

  /**
   * `expired_at <= datetime.utcnow()` for an `expired_at` at midnight:
   * it holds exactly when the date is not after today's date in UTC, so
   * only the date part of the clock matters.
   */
  predicate Expired(expiredAt: Date, today: Date) {
    DateLeq(expiredAt, today)
  }

  /** How `strptime` answers. */
  datatype DateParse =
    | DateOk(date: Date)
    | DateMismatch                     // "time data ... does not match format ..."
    | DateUnconverted(rest: string)    // "unconverted data remains: <rest>"
    | DateOutOfRange                   // year 0, or a day the month does not have

  /** The value of four ASCII digits. */
  function Year4(s: string): (n: nat)
    requires |s| == 4 && IsDigits(s)
    ensures n < 10000
  {
    1000 * DigitValue(s[0]) + 100 * DigitValue(s[1]) + 10 * DigitValue(s[2]) + DigitValue(s[3])
  }

  /**
   * The `%m` group followed by the '-' of the format: "10" to "12",
   * "01" to "09", or one digit "1" to "9". The value and the length of
   * the month, which the '-' follows.
   */
  function MonthToken(r: string): (t: Option<(nat, nat)>)
    ensures t.Some? ==> 1 <= t.value.0 <= 12 && 1 <= t.value.1 <= 2
    ensures t.Some? ==> t.value.1 < |r| && r[t.value.1] == '-'
  {
    if |r| >= 3 && r[2] == '-' && ((r[0] == '1' && '0' <= r[1] <= '2') || (r[0] == '0' && '1' <= r[1] <= '9')) then
      Some((10 * DigitValue(r[0]) + DigitValue(r[1]), 2))
    else if |r| >= 2 && r[1] == '-' && '1' <= r[0] <= '9' then
      Some((DigitValue(r[0]), 1))
    else None
  }

  /**
   * The `%d` group, its alternatives tried in order: "30" or "31", "1x"
   * or "2x", "01" to "09", one digit "1" to "9", or a space and one
   * digit. The value and the length matched.
   */
  function DayToken(r: string): (t: Option<(nat, nat)>)
    ensures t.Some? ==> 1 <= t.value.0 <= 31 && 1 <= t.value.1 <= 2 && t.value.1 <= |r|
  {
    if |r| >= 2 && r[0] == '3' && (r[1] == '0' || r[1] == '1') then Some((30 + DigitValue(r[1]), 2))
    else if |r| >= 2 && (r[0] == '1' || r[0] == '2') && IsAsciiDigit(r[1]) then
      Some((10 * DigitValue(r[0]) + DigitValue(r[1]), 2))
    else if |r| >= 2 && r[0] == '0' && '1' <= r[1] <= '9' then Some((DigitValue(r[1]), 2))
    else if |r| >= 1 && '1' <= r[0] <= '9' then Some((DigitValue(r[0]), 1))
    else if |r| >= 2 && r[0] == ' ' && '1' <= r[1] <= '9' then Some((DigitValue(r[1]), 2))
    else None
  }

  /**
   * `datetime.strptime(s, "%Y-%m-%d")`: four digits, '-', a month, '-',
   * a day; text after the day is unconverted data; the date must exist.
   */
  function ParseDate(s: string): (r: DateParse)
    ensures r.DateOk? ==> ValidDate(r.date)
    ensures r.DateOk? ==> |s| >= 8 && IsDigits(s[..4]) && r.date.year == Year4(s[..4])
  {
    if |s| < 5 || !IsDigits(s[..4]) || s[4] != '-' then DateMismatch
    else
      match MonthToken(s[5..])
      case None => DateMismatch
      case Some(month) =>
        var rest := s[5 + month.1 + 1..];
        match DayToken(rest)
        case None => DateMismatch
        case Some(day) =>
          var year := Year4(s[..4]);
          if day.1 < |rest| then DateUnconverted(rest[day.1..])
          else if year == 0 || day.0 > DaysInMonth(year, month.0) then DateOutOfRange
          else DateOk(Date(year, month.0, day.0))
  }

  /** Two zero-padded digits. */
  function Pad2(n: nat): (s: string)
    requires n < 100
    ensures |s| == 2 && IsAsciiDigit(s[0]) && IsAsciiDigit(s[1])
    ensures 10 * DigitValue(s[0]) + DigitValue(s[1]) == n
  {
    [DigitChar(n / 10), DigitChar(n % 10)]
  }

  /** Four zero-padded digits. */
  function Pad4(n: nat): (s: string)
    requires n < 10000
    ensures |s| == 4 && IsDigits(s) && Year4(s) == n
  {
    var q1 := n / 10;
    var q2 := q1 / 10;
    var q3 := q2 / 10;
    assert n == 10 * q1 + n % 10 && q1 == 10 * q2 + q1 % 10 && q2 == 10 * q3 + q2 % 10;
    [DigitChar(q3), DigitChar(q2 % 10), DigitChar(q1 % 10), DigitChar(n % 10)]
  }

  /** A date in the YYYY-MM-DD form the prompt asks for. */
  function FormatDate(d: Date): (s: string)
    requires ValidDate(d)
    ensures |s| == 10 && s[4] == '-' && s[7] == '-'
    ensures forall k :: 0 <= k < 10 && k != 4 && k != 7 ==> IsAsciiDigit(s[k])
  {
    Pad4(d.year) + "-" + Pad2(d.month) + "-" + Pad2(d.day)
  }

  /** Every date written as YYYY-MM-DD reads back as itself. */
  lemma DateRoundTrip(d: Date)
    requires ValidDate(d)
    ensures ParseDate(FormatDate(d)) == DateOk(d)
  {
    var s := FormatDate(d);
    var y, m, dd := Pad4(d.year), Pad2(d.month), Pad2(d.day);
    assert s[..4] == y;
    assert s[5..] == m + "-" + dd;
    MonthTokenPad(d.month, dd);
    assert s[8..] == dd;
    DayTokenPad(d.day);
  }

  /** A padded month followed by '-' is read as that month. */
  lemma MonthTokenPad(month: nat, after: string)
    requires 1 <= month <= 12
    ensures MonthToken(Pad2(month) + "-" + after) == Some((month, 2))
  {
    var r := Pad2(month) + "-" + after;
    assert r[0] == DigitChar(month / 10) && r[1] == DigitChar(month % 10) && r[2] == '-';
  }

  /** A padded day is read as that day, using both of its characters. */
  lemma DayTokenPad(day: nat)
    requires 1 <= day <= 31
    ensures DayToken(Pad2(day)) == Some((day, 2))
  {
  }

  // ---------------------------------------------------------------------
  // The "a | b | c | d" parameter messages
  // ---------------------------------------------------------------------

  /** `[p.strip() for p in text.split("|")]` */
  function Fields(text: string): (parts: seq<string>)
    ensures |parts| >= 1
  {
    StripAll(Split(text, '|'))
  }

  function StripAll(parts: seq<string>): (r: seq<string>)
    ensures |r| == |parts|
  {
    if parts == [] then [] else [Strip(parts[0])] + StripAll(parts[1..])
  }

  /** Stripping each of bare pieces changes none. */
  lemma StripAllBare(parts: seq<string>)
    requires forall k :: 0 <= k < |parts| ==> Bare(parts[k])
    ensures StripAll(parts) == parts
  {
    forall k | 0 <= k < |parts|
      ensures StripAll(parts)[k] == parts[k]
    {
      StripAllAt(parts, k);
      StripBare(parts[k]);
    }
  }

  /** The k-th stripped piece is the k-th piece stripped. */
  lemma {:induction false} StripAllAt(parts: seq<string>, k: nat)
    requires k < |parts|
    ensures StripAll(parts)[k] == Strip(parts[k])
  {
    if k > 0 {
      StripAllAt(parts[1..], k - 1);
    }
  }

  /** Strip leaves a bare piece alone. */
  lemma StripBare(p: string)
    requires Bare(p)
    ensures Strip(p) == p
  {
    if p != [] {
      StripUnchanged(p);
    } else {
      assert SkipSpace(p, 0) == 0 && SkipSpaceBack(p, 0) == 0;
    }
  }

  /** A field that survives joining and splitting: no '|', no surrounding whitespace. */
  predicate Bare(p: string) {
    '|' !in p && (p != [] ==> !IsSpace(p[0]) && !IsSpace(p[|p| - 1]))
  }

  /** Bare fields joined with '|' split back into themselves. */
  lemma FieldsOfJoin(parts: seq<string>)
    requires |parts| >= 1
    requires forall k :: 0 <= k < |parts| ==> Bare(parts[k])
    ensures Fields(Join(parts, '|')) == parts
  {
    SplitJoin(parts, '|');
    StripAllBare(parts);
  }

  /** `str(n)` for a natural number has no '|' and no whitespace. */
  lemma NatStringBare(n: nat)
    ensures Bare(NatToString(n))
  {
    var s := NatToString(n);
    assert IsAsciiDigit(s[0]) && IsAsciiDigit(s[|s| - 1]);
    assert forall k :: 0 <= k < |s| ==> s[k] != '|';
  }

  lemma IntStringBare(n: int)
    ensures Bare(IntToString(n))
  {
    if n < 0 {
      NatStringBare(-n);
      var s := IntToString(n);
      assert s[1..] == NatToString(-n);
      assert s[|s| - 1] == NatToString(-n)[|s| - 2];
      assert forall k :: 1 <= k < |s| ==> s[k] == s[1..][k - 1];
    } else {
      NatStringBare(n);
    }
  }

  /** Python's `ValueError` text names the offending input: a `str(e)` that contains "time data". */
  predicate MentionsTimeData(text: string) {
    Contains(text, "time data")
  }

  // ---------------------------------------------------------------------
  // Promocodes
  // ---------------------------------------------------------------------

  /** A row of the promocode table. */
  datatype Promocode = Promocode(code: string, discountPercent: int, usageLimit: int, usedCount: int, expiredAt: Date)

  /** What creation guarantees of a promocode and what redemption keeps. */
  predicate WellFormed(p: Promocode) {
    0 <= p.discountPercent <= 100 && p.usageLimit > 0 && 0 <= p.usedCount <= p.usageLimit
    && ValidDate(p.expiredAt) && Upper(p.code) == p.code
  }

  /** How the promocode branch of `handle_admin_states` judges the parameters. */
  datatype PromoCheck =
    | PromoWrongFormat                 // not four fields
    | PromoBadNumbers                  // "Неверный формат числовых параметров"
    | DiscountOutOfRange               // the discount is not 0 to 100
    | LimitNotPositive                 // the usage limit is not above 0
    | PromoBadDate                     // "Неверный формат даты"
    | PromoNotInFuture                 // the expiry date is not after now
    | PromoValid(promo: Promocode)

  /**
   * The reply to a `ValueError` from `int(field)`: its text repeats the
   * field, and a text containing "time data" is taken for a date error.
   */
  function IntErrorReply(field: string): (r: PromoCheck)
    ensures r == PromoBadDate || r == PromoBadNumbers
  {
    if MentionsTimeData(field) then PromoBadDate else PromoBadNumbers
  }

  /**
   * The parameter checks of the promocode branch, in the source's order:
   * four fields, `int` of the discount and the limit, the discount range,
   * a positive limit, the date format, a date after now.
   */
  function CheckPromo(text: string, today: Date): (r: PromoCheck)
    ensures r.PromoValid? ==> |Fields(text)| == 4 && r.promo.code == Upper(Fields(text)[0])
    ensures r.PromoValid? ==> WellFormed(r.promo) && r.promo.usedCount == 0 && !Expired(r.promo.expiredAt, today)
  {
    CheckPromoFields(Fields(text), today)
  }

  /** The checks of `CheckPromo` on the stripped fields. */
  function CheckPromoFields(parts: seq<string>, today: Date): (r: PromoCheck)
    ensures r.PromoValid? ==> |parts| == 4 && r.promo.code == Upper(parts[0])
    ensures r.PromoValid? ==> WellFormed(r.promo) && r.promo.usedCount == 0 && !Expired(r.promo.expiredAt, today)
    ensures r.PromoValid? ==> Some(r.promo.discountPercent) == ParseInt(parts[1])
    ensures r.PromoValid? ==> Some(r.promo.usageLimit) == ParseInt(parts[2])
    ensures r.PromoValid? ==> ParseDate(parts[3]) == DateOk(r.promo.expiredAt)
  {
    if |parts| != 4 then PromoWrongFormat
    else
      var discount, limit := ParseInt(parts[1]), ParseInt(parts[2]);
      if discount.None? then IntErrorReply(parts[1])
      else if limit.None? then IntErrorReply(parts[2])
      else if discount.value < 0 || discount.value > 100 then DiscountOutOfRange
      else if limit.value <= 0 then LimitNotPositive
      else
        match ParseDate(parts[3])
        case DateMismatch => PromoBadDate
        case DateUnconverted(rest) => if MentionsTimeData("unconverted data remains: " + rest) then PromoBadDate else PromoBadNumbers
        case DateOutOfRange => PromoBadNumbers
        case DateOk(date) =>
          if Expired(date, today) then PromoNotInFuture
          else
            UpperIdempotent(parts[0]);
            PromoValid(Promocode(Upper(parts[0]), discount.value, limit.value, 0, date))
  }

  /** The message an administrator types for a promocode. */
  function PromoText(code: string, discount: nat, limit: nat, expiredAt: Date): string
    requires ValidDate(expiredAt)
  {
    Join([code, NatToString(discount), NatToString(limit), FormatDate(expiredAt)], '|')
  }

  /** A date written as YYYY-MM-DD is a bare field. */
  lemma FormatDateBare(d: Date)
    requires ValidDate(d)
    ensures Bare(FormatDate(d))
  {
    var s := FormatDate(d);
    assert IsAsciiDigit(s[0]) && IsAsciiDigit(s[9]);
    assert forall k :: 0 <= k < |s| ==> s[k] != '|';
  }

  /** The checks accept the fields of a well-formed promocode. */
  lemma PromoFieldsAccepted(code: string, discount: nat, limit: nat, expiredAt: Date, today: Date)
    requires discount <= 100 && limit > 0 && ValidDate(expiredAt) && !Expired(expiredAt, today)
    ensures CheckPromoFields([code, NatToString(discount), NatToString(limit), FormatDate(expiredAt)], today)
         == PromoValid(Promocode(Upper(code), discount, limit, 0, expiredAt))
  {
    DateRoundTrip(expiredAt);
    assert ParseInt(NatToString(discount)) == Some(discount as int);
    assert ParseInt(NatToString(limit)) == Some(limit as int);
  }

  /**
   * Every promocode an administrator can mean is accepted with exactly
   * the parameters typed, the code upper-cased.
   */
  lemma PromoRoundTrip(code: string, discount: nat, limit: nat, expiredAt: Date, today: Date)
    requires Bare(code)
    requires discount <= 100 && limit > 0 && ValidDate(expiredAt) && !Expired(expiredAt, today)
    ensures CheckPromo(PromoText(code, discount, limit, expiredAt), today)
         == PromoValid(Promocode(Upper(code), discount, limit, 0, expiredAt))
  {
    NatStringBare(discount);
    NatStringBare(limit);
    FormatDateBare(expiredAt);
    FieldsOfJoin([code, NatToString(discount), NatToString(limit), FormatDate(expiredAt)]);
    PromoFieldsAccepted(code, discount, limit, expiredAt, today);
  }

  // ---------------------------------------------------------------------
  // Subscription plans
  // ---------------------------------------------------------------------

  /** A created subscription plan; the price keeps the text `Decimal` accepted. */
  datatype Plan = Plan(name: string, alias: string, price: string, durationDays: int)

  datatype PlanCheck =
    | PlanWrongFormat                  // not four fields
    | PlanBadNumbers                   // `Decimal(price)` or `int(days)` raised
    | PlanValid(plan: Plan)

  predicate AllDigits(s: string) {
    forall k :: 0 <= k < |s| ==> IsAsciiDigit(s[k])
  }

  /** The position of the first `c` in `s`, or `|s|`. */
  function IndexOf(s: string, c: char): (i: nat)
    ensures i <= |s| && (i < |s| ==> s[i] == c)
    ensures forall k :: 0 <= k < i ==> s[k] != c
  {
    if s == [] || s[0] == c then 0 else 1 + IndexOf(s[1..], c)
  }

  /** The position of the first 'e' or 'E' in `s`, or `|s|`. */
  function ExponentAt(s: string): (i: nat)
    ensures i <= |s| && (i < |s| ==> s[i] == 'e' || s[i] == 'E')
    ensures forall k :: 0 <= k < i ==> s[k] != 'e' && s[k] != 'E'
  {
    if s == [] || s[0] == 'e' || s[0] == 'E' then 0 else 1 + ExponentAt(s[1..])
  }

  /** Digits with an optional point, at least one digit. */
  predicate Mantissa(m: string) {
    var p := IndexOf(m, '.');
    AllDigits(m[..p]) && (p == |m| ==> m != [])
    && (p < |m| ==> AllDigits(m[p + 1..]) && (p > 0 || p + 1 < |m|))
  }

  /** A decimal exponent's digits with an optional sign. */
  predicate SignedDigits(x: string) {
    IsDigits(if x != [] && (x[0] == '+' || x[0] == '-') then x[1..] else x)
  }

  /** A finite number: a mantissa, then optionally 'e' and a signed exponent. */
  predicate FiniteDecimal(t: string) {
    var e := ExponentAt(t);
    Mantissa(t[..e]) && (e < |t| ==> SignedDigits(t[e + 1..]))
  }

  /** An infinity or a (signalling) NaN with optional diagnostic digits, in any letter case. */
  predicate SpecialDecimal(t: string) {
    var l := Lower(t);
    l == "inf" || l == "infinity"
    || (StartsWith(l, "nan") && AllDigits(l[3..]))
    || (StartsWith(l, "snan") && AllDigits(l[4..]))
  }

  /** The strings `Decimal(s)` accepts once stripped: an optional sign, then a number. */
  predicate IsDecimal(s: string) {
    var t := if s != [] && (s[0] == '+' || s[0] == '-') then s[1..] else s;
    FiniteDecimal(t) || SpecialDecimal(t)
  }

  /** The parameter checks of the plan branch of `handle_admin_states`. */
  function CheckPlan(text: string): (r: PlanCheck)
    ensures r.PlanValid? <==> |Fields(text)| == 4 && IsDecimal(Fields(text)[2]) && ParseInt(Fields(text)[3]).Some?
    ensures r.PlanValid? ==> r.plan.name == Fields(text)[0] && r.plan.alias == Fields(text)[1]
    ensures r.PlanValid? ==> r.plan.price == Fields(text)[2]
    ensures r.PlanValid? ==> Some(r.plan.durationDays) == ParseInt(Fields(text)[3])
  {
    var parts := Fields(text);
    if |parts| != 4 then PlanWrongFormat
    else
      var days := ParseInt(parts[3]);
      if !IsDecimal(parts[2]) || days.None? then PlanBadNumbers
      else PlanValid(Plan(parts[0], parts[1], parts[2], days.value))
  }

  /** Every plan an administrator can type is created with exactly the parameters typed. */
  lemma PlanRoundTrip(name: string, alias: string, price: string, days: int)
    requires Bare(name) && Bare(alias) && Bare(price) && IsDecimal(price)
    ensures CheckPlan(Join([name, alias, price, IntToString(days)], '|')) == PlanValid(Plan(name, alias, price, days))
  {
    IntStringBare(days);
    FieldsOfJoin([name, alias, price, IntToString(days)]);
    IntRoundTrip(days);
  }

  // ---------------------------------------------------------------------
  // The administrator dialogue
  // ---------------------------------------------------------------------

  /** The values of `admin_state`: "create_plan" and "create_promo". */
  datatype AdminOp = CreatePlan | CreatePromo

  /** What `handle_admin_states` does with a message. */
  datatype AdminReply =
    | NotHandled                       // the user has no dialogue open
    | AccessDenied                     // the user is no longer an administrator
    | PlanReply(plan: PlanCheck)
    | PromoReply(promo: PromoCheck)
    | DuplicateCode                    // the table refused the code as not unique
    | StoreFailed(op: AdminOp)         // any other database error: nothing stored, the dialogue stays open

  /** The replies after which the user's dialogue is closed. */
  predicate Closes(r: AdminReply) {
    r.AccessDenied? || (r.PlanReply? && r.plan.PlanValid?) || (r.PromoReply? && r.promo.PromoValid?)
  }

  /**
   * The reply of `handle_admin_states`, given the open dialogues and the
   * promocode table; `storeFails` says whether the insert of a checked
   * plan or promocode raises a database error other than a duplicate code.
   */
  function AdminAnswer(state: map<int, AdminOp>, codes: map<string, Promocode>, user: int, isAdmin: bool,
                       text: string, today: Date, storeFails: bool): (r: AdminReply)
    ensures r.NotHandled? <==> user !in state
    ensures r.AccessDenied? <==> user in state && !isAdmin
    ensures r.PlanReply? ==> user in state && state[user] == CreatePlan && r.plan == CheckPlan(text)
    ensures r.PromoReply? || r.DuplicateCode? ==> user in state && state[user] == CreatePromo
    ensures r.PromoReply? ==> r.promo == CheckPromo(text, today)
    ensures r.DuplicateCode? ==> CheckPromo(text, today).PromoValid? && CheckPromo(text, today).promo.code in codes
    ensures r.PromoReply? && r.promo.PromoValid? ==> r.promo.promo.code !in codes && WellFormed(r.promo.promo)
    ensures (r.PlanReply? && r.plan.PlanValid?) || (r.PromoReply? && r.promo.PromoValid?) ==> !storeFails
    ensures r.StoreFailed? <==>
      && user in state && isAdmin && storeFails
      && (state[user] == CreatePlan ==> CheckPlan(text).PlanValid?)
      && (state[user] == CreatePromo ==> CheckPromo(text, today).PromoValid? && CheckPromo(text, today).promo.code !in codes)
    ensures r.StoreFailed? ==> r.op == state[user]
  {
    if user !in state then NotHandled
    else if !isAdmin then AccessDenied
    else
      match state[user]
      case CreatePlan =>
        var check := CheckPlan(text);
        if check.PlanValid? && storeFails then StoreFailed(CreatePlan) else PlanReply(check)
      case CreatePromo =>
        var check := CheckPromo(text, today);
        if check.PromoValid? && check.promo.code in codes then DuplicateCode
        else if check.PromoValid? && storeFails then StoreFailed(CreatePromo)
        else PromoReply(check)
  }

  // ---------------------------------------------------------------------
  // Promocode entry by a user
  // ---------------------------------------------------------------------

  const EnterPromoButton: string := "🎟 Ввести промокод"
  const CancelPromoButton: string := "❌ Отменить ввод"

  /** The filter of `handle_promocode_input`. */
  predicate PromoEntry(waiting: set<int>, user: int, text: string) {
    text != [] && text != EnterPromoButton && text != CancelPromoButton
    && user in waiting && !Contains(Lower(text), "avito.ru")
  }

  /** The code looked up: `message.text.strip().upper()`. */
  function TypedCode(text: string): string {
    Upper(Strip(text))
  }

  /** Where the database raises, if at all. */
  datatype Fault = NoFault | LookupFails | ActivationFails

  /** What `handle_promocode_input` does with a message. */
  datatype RedeemReply =
    | NotForPromo                      // the filter rejects the message
    | UnknownCode
    | CodeExpired
    | LimitReached
    | UnknownUser
    | Activated(promo: Promocode)      // the promocode after its use is counted
    | LookupFailed                     // the database raised before anything was written
    | ActivationFailed                 // the database raised after the use was counted

  /** The replies for which the use was counted. */
  predicate Counted(r: RedeemReply) {
    r.Activated? || r.ActivationFailed?
  }

  /** The replies after which the user no longer waits for a code. */
  predicate EndsEntry(r: RedeemReply) {
    r.Activated? || r.LookupFailed? || r.ActivationFailed?
  }

  /** The promocode with one more use counted. */
  function Used(p: Promocode): (q: Promocode)
    ensures q.usedCount == p.usedCount + 1
    ensures q.(usedCount := p.usedCount) == p
  {
    p.(usedCount := p.usedCount + 1)
  }

  /** A known code, not expired, used fewer times than its limit. */
  predicate Redeemable(codes: map<string, Promocode>, code: string, today: Date) {
    code in codes && !Expired(codes[code].expiredAt, today) && codes[code].usedCount < codes[code].usageLimit
  }

  /** The reply of `handle_promocode_input`. */
  function RedeemAnswer(waiting: set<int>, codes: map<string, Promocode>, user: int, text: string, today: Date,
                        userExists: bool, fault: Fault): (r: RedeemReply)
    ensures r.NotForPromo? <==> !PromoEntry(waiting, user, text)
    ensures Counted(r) ==> Redeemable(codes, TypedCode(text), today) && userExists
    ensures r.Activated? ==> r.promo == Used(codes[TypedCode(text)])
    ensures PromoEntry(waiting, user, text) && fault == NoFault && Redeemable(codes, TypedCode(text), today) && userExists
            ==> r == Activated(Used(codes[TypedCode(text)]))
  {
    if !PromoEntry(waiting, user, text) then NotForPromo
    else if fault == LookupFails then LookupFailed
    else Lookup(codes, TypedCode(text), today, userExists, fault)
  }

  /** The checks of `handle_promocode_input` once the code is looked up. */
  function Lookup(codes: map<string, Promocode>, code: string, today: Date, userExists: bool, fault: Fault): (r: RedeemReply)
    ensures !r.NotForPromo? && !r.LookupFailed?
    ensures Counted(r) ==> Redeemable(codes, code, today) && userExists
    ensures r.Activated? ==> r.promo == Used(codes[code])
    ensures r.UnknownCode? <==> code !in codes
    ensures r.CodeExpired? <==> code in codes && Expired(codes[code].expiredAt, today)
    ensures r.LimitReached? <==>
      code in codes && !Expired(codes[code].expiredAt, today) && codes[code].usedCount >= codes[code].usageLimit
    ensures r.UnknownUser? <==> Redeemable(codes, code, today) && !userExists
    ensures r.Activated? <==> Redeemable(codes, code, today) && userExists && fault != ActivationFails
  {
    if code !in codes then UnknownCode
    else
      var p := codes[code];
      if Expired(p.expiredAt, today) then CodeExpired
      else if p.usedCount >= p.usageLimit then LimitReached
      else if !userExists then UnknownUser
      else if fault == ActivationFails then ActivationFailed
      else Activated(Used(p))
  }

  /** A counted use keeps a promocode within its limit. */
  lemma UsedWellFormed(p: Promocode)
    requires WellFormed(p) && p.usedCount < p.usageLimit
    ensures WellFormed(Used(p))
  {
  }

  /**
   * A promocode as creation leaves it (well formed, unused, not expired)
   * can be entered at once, by a known user, in any letter case that
   * upper-cases to its code.
   */
  lemma FreshPromoRedeems(p: Promocode, today: Date, waiting: set<int>, user: int, typed: string)
    requires WellFormed(p) && p.usedCount == 0 && !Expired(p.expiredAt, today)
    requires PromoEntry(waiting, user, typed) && TypedCode(typed) == p.code
    ensures RedeemAnswer(waiting, map[p.code := p], user, typed, today, true, NoFault) == Activated(Used(p))
  {
  }

  /** Each promocode sits under its own code, upper-case, within its limit. */
  predicate TableValid(codes: map<string, Promocode>) {
    forall code :: code in codes ==> codes[code].code == code && WellFormed(codes[code])
  }

  // ---------------------------------------------------------------------
  // The dialogue state
  // ---------------------------------------------------------------------

  /**
   * `admin_state`, `promo_state` (whose only value is "enter_promo", so
   * it is the set of users waiting for a code), the promocode table keyed
   * by its unique code, and the subscription plans created.
   */
  class AdminDialogs {
    var adminState: map<int, AdminOp>
    var promoState: set<int>
    var promocodes: map<string, Promocode>
    var plans: seq<Plan>

    ghost predicate Valid()
      reads this
    {
      TableValid(promocodes)
    }

    constructor()
      ensures adminState == map[] && promoState == {} && promocodes == map[] && plans == []
      ensures Valid()
    {
      adminState := map[];
      promoState := {};
      promocodes := map[];
      plans := [];
    }

    /** `create_plan_prompt` and `create_promo_prompt`: an administrator opens a dialogue. */
    method StartCreation(user: int, isAdmin: bool, op: AdminOp)
      modifies this
      ensures adminState == if isAdmin then old(adminState)[user := op] else old(adminState)
      ensures promoState == old(promoState) && promocodes == old(promocodes) && plans == old(plans)
    {
      if isAdmin {
        adminState := adminState[user := op];
      }
    }

    /** `cancel_creation`: an administrator drops the open dialogue. */
    method CancelCreation(user: int, isAdmin: bool)
      modifies this
      ensures adminState == if isAdmin then old(adminState) - {user} else old(adminState)
      ensures promoState == old(promoState) && promocodes == old(promocodes) && plans == old(plans)
    {
      if isAdmin && user in adminState {
        adminState := adminState - {user};
      }
    }

    /**
     * `handle_admin_states`: a created plan is appended, a created
     * promocode is added under its code and the dialogue closes; a refused
     * message or a failed insert keeps the dialogue open for another try.
     */
    method AdminInput(user: int, isAdmin: bool, text: string, today: Date, storeFails: bool) returns (reply: AdminReply)
      requires Valid()
      modifies this
      ensures Valid()
      ensures reply == AdminAnswer(old(adminState), old(promocodes), user, isAdmin, text, today, storeFails)
      ensures adminState == if Closes(reply) then old(adminState) - {user} else old(adminState)
      ensures plans == if reply.PlanReply? && reply.plan.PlanValid? then old(plans) + [reply.plan.plan] else old(plans)
      ensures promocodes == if reply.PromoReply? && reply.promo.PromoValid?
                            then old(promocodes)[reply.promo.promo.code := reply.promo.promo]
                            else old(promocodes)
      ensures promoState == old(promoState)
    {
      reply := AdminAnswer(adminState, promocodes, user, isAdmin, text, today, storeFails);
      if Closes(reply) {
        adminState := adminState - {user};
      }
      if reply.PlanReply? && reply.plan.PlanValid? {
        plans := plans + [reply.plan.plan];
      }
      if reply.PromoReply? && reply.promo.PromoValid? {
        AddPromocode(reply.promo.promo);
      }
    }

    /** The insert of a new promocode row. */
    method AddPromocode(p: Promocode)
      requires Valid() && WellFormed(p) && p.code !in promocodes
      modifies this
      ensures Valid()
      ensures promocodes == old(promocodes)[p.code := p]
      ensures adminState == old(adminState) && promoState == old(promoState) && plans == old(plans)
    {
      promocodes := promocodes[p.code := p];
    }

    /** `enter_promocode_prompt`: the user now waits for a code. */
    method EnterPromo(user: int)
      modifies this
      ensures promoState == old(promoState) + {user}
      ensures adminState == old(adminState) && promocodes == old(promocodes) && plans == old(plans)
    {
      promoState := promoState + {user};
    }

    /** `cancel_promocode_input` */
    method CancelPromo(user: int)
      modifies this
      ensures promoState == old(promoState) - {user}
      ensures adminState == old(adminState) && promocodes == old(promocodes) && plans == old(plans)
    {
      promoState := promoState - {user};
    }

    /**
     * `handle_promocode_input`: a use is counted only for a known,
     * unexpired code under its limit, for a known user; the table then
     * never holds a promocode used more often than its limit allows.
     */
    method Redeem(user: int, text: string, today: Date, userExists: bool, fault: Fault) returns (reply: RedeemReply)
      requires Valid()
      modifies this
      ensures Valid()
      ensures reply == RedeemAnswer(old(promoState), old(promocodes), user, text, today, userExists, fault)
      ensures Counted(reply) ==> promocodes == old(promocodes)[TypedCode(text) := Used(old(promocodes)[TypedCode(text)])]
      ensures !Counted(reply) ==> promocodes == old(promocodes)
      ensures promoState == if EndsEntry(reply) then old(promoState) - {user} else old(promoState)
      ensures adminState == old(adminState) && plans == old(plans)
    {
      reply := RedeemAnswer(promoState, promocodes, user, text, today, userExists, fault);
      if Counted(reply) {
        var code := TypedCode(text);
        UsedWellFormed(promocodes[code]);
        promocodes := promocodes[code := Used(promocodes[code])];
      }
      if EndsEntry(reply) {
        promoState := promoState - {user};
      }
    }
  }
}
