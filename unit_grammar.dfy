/**
 * The grammar of unit specifications and its meaning, as functions of the
 * token sequence and a position in it. Each function returns the value the
 * corresponding parse routine computes and the position after the tokens it
 * consumed, or the error it raises. The parser class in unit_parser.dfy
 * implements these with a mutable cursor and is proved to agree with them.
 */
module UnitGrammar {
  import opened Wrappers
  import opened JavaInt
  import opened Lexical
  import opened Calendar
  import opened Units

  // Token kinds of the generated token manager.
  const EOF: int := 0
  const INTEGER: int := 4
  const REAL: int := 7
  const WHITESPACE: int := 8
  const SHIFT: int := 11
  const DIVIDE: int := 12
  const NAME: int := 14
  const DATE: int := 18
  const TIME: int := 22
  /** "." is both a multiplication operator and a decimal point. */
  const POINT: int := 23
  const STAR: int := 24
  const LPAREN: int := 25
  const RPAREN: int := 26
  /** The optional exponent marker. */
  const CARET: int := 27

  /** A token: its kind and the text it matched. */
  datatype Token = Token(kind: int, image: string)

  /** The exceptions a parse can end in. */
  datatype ParseError =
    | Syntax(at: nat)            // a token of the wrong kind at index `at`
    | NoSuchUnit(name: string)   // a name the units database does not hold
    | CannotDivide               // "Couldn't divide units"
    | CannotRaise                // "Couldn't raise unit to a power"
    | InvalidSpec                // "Invalid unit specification": the origin could not be applied
    | NegativeFraction           // "negative sign follows decimal point"
    | NonTimeTimestamp           // "non-time unit with timestamp"
    | InvalidTimestamp           // "invalid timestamp"
    | InvalidTimeZone            // "invalid time zone"
    | BadNumber(image: string)   // a token image the Java number and string routines reject
    | ZeroDivisor                // a numeric origin divided by zero

  /** What a rule returns: its value and the index of the first token it did not consume. */
  datatype Parsed<T> = Done(value: T, next: nat) | Fail(error: ParseError)

  /** A rule's result, with the next token at next when it succeeds. */
  function AsParsed<T>(r: Result<T, ParseError>, next: nat): (p: Parsed<T>)
    ensures p.Done? <==> r.Ok?
    ensures p.Done? ==> p.value == r.value && p.next == next
    ensures p.Fail? ==> p.error == r.error
  {
    match r
    case Err(e) => Fail(e)
    case Ok(v) => Done(v, next)
  }

  /** The kind of the token at p; past the end the token manager keeps returning EOF. */
  function Kind(toks: seq<Token>, p: nat): int {
    if p < |toks| then toks[p].kind else EOF
  }

  function Image(toks: seq<Token>, p: nat): string {
    if p < |toks| then toks[p].image else ""
  }

  predicate StartsNumber(k: int) {
    k == INTEGER || k == REAL || k == POINT
  }

  /** A token that can follow a factor of a product: another factor or an explicit operator. */
  predicate ContinuesProduct(k: int) {
    k == INTEGER || k == REAL || k == WHITESPACE || k == NAME || k == POINT || k == STAR || k == LPAREN
  }

  predicate IsMultiplyOperator(k: int) {
    k == WHITESPACE || k == POINT || k == STAR
  }

  // ---------------------------------------------------------------------
  // numberExpression

  /** INTEGER ['.' [INTEGER]] | '.' INTEGER | REAL */
  function NumberExpr(toks: seq<Token>, p: nat): (r: Parsed<real>)
    requires p <= |toks|
    ensures r.Done? ==> p < r.next <= |toks|
  {
    var k := Kind(toks, p);
    if k == INTEGER then WholeNumber(toks, p)
    else if k == POINT then BareFraction(toks, p)
    else if k == REAL then RealLiteral(toks, p)
    else Fail(Syntax(p))
  }

  /** The INTEGER ['.' [INTEGER]] alternative of a number. */
  function WholeNumber(toks: seq<Token>, p: nat): (r: Parsed<real>)
    requires p < |toks| && Kind(toks, p) == INTEGER
    ensures r.Done? ==> p < r.next <= |toks|
  {
    match ParseInt(Image(toks, p))
    case None => Fail(BadNumber(Image(toks, p)))
    case Some(n) => FractionTail(toks, n as real, p + 1)
  }

  /** The '.' INTEGER alternative of a number. */
  function BareFraction(toks: seq<Token>, p: nat): (r: Parsed<real>)
    requires p < |toks| && Kind(toks, p) == POINT
    ensures r.Done? ==> r.next == p + 2 <= |toks|
  {
    if Kind(toks, p + 1) != INTEGER then Fail(Syntax(p + 1))
    else AsParsed(WithFraction(0.0, Image(toks, p + 1)), p + 2)
  }

  /** The REAL alternative of a number. */
  function RealLiteral(toks: seq<Token>, p: nat): (r: Parsed<real>)
    requires p < |toks| && Kind(toks, p) == REAL
    ensures r.Done? ==> r.next == p + 1
  {
    match ParseDecimal(Image(toks, p))
    case None => Fail(BadNumber(Image(toks, p)))
    case Some(v) => Done(v, p + 1)
  }

  /** What may follow the integer part of a number: ['.' [INTEGER]]. */
  function FractionTail(toks: seq<Token>, whole: real, q: nat): (r: Parsed<real>)
    requires q <= |toks|
    ensures r.Done? ==> q <= r.next <= |toks|
  {
    if Kind(toks, q) != POINT then Done(whole, q)
    else if Kind(toks, q + 1) != INTEGER then Done(whole, q + 1)
    else AsParsed(WithFraction(whole, Image(toks, q + 1)), q + 2)
  }

  /** A whole part plus the fraction ".digits"; a negative sum is refused. */
  function WithFraction(whole: real, digits: string): Result<real, ParseError> {
    match ParseDecimal("." + digits)
    case None => Err(BadNumber("." + digits))
    case Some(f) => if whole + f < 0.0 then Err(NegativeFraction) else Ok(whole + f)
  }

  // ---------------------------------------------------------------------
  // nameExpression, powerExpression, unitProductList

  /** NAME, looked up in the units database. */
  function NameExpr(toks: seq<Token>, db: map<string, Unit>, p: nat): (r: Parsed<Unit>)
    requires p <= |toks|
    ensures r.Done? ==> r.next == p + 1 <= |toks|
    ensures r.Done? <==> Kind(toks, p) == NAME && Image(toks, p) in db
  {
    if Kind(toks, p) != NAME then Fail(Syntax(p))
    else if Image(toks, p) !in db then Fail(NoSuchUnit(Image(toks, p)))
    else Done(db[Image(toks, p)], p + 1)
  }

  /** The optional power after a name or a parenthesised product: ['^'] INTEGER. */
  function PowerSuffix(toks: seq<Token>, u: Unit, q: nat): (r: Parsed<Unit>)
    requires q <= |toks|
    ensures r.Done? ==> q <= r.next <= |toks|
  {
    var k := Kind(toks, q);
    if k != INTEGER && k != CARET then Done(u, q)
    else
      var q1 := if k == CARET then q + 1 else q;
      if Kind(toks, q1) != INTEGER then Fail(Syntax(q1))
      else
        // (int) Float.parseFloat(image), so that a sign such as "+2" is accepted
        match ParseFloatToInt(Image(toks, q1))
        case None => Fail(BadNumber(Image(toks, q1)))
        case Some(n) =>
          match Pow(u, n)
          case Err(_) => Fail(ParseError.CannotRaise)
          case Ok(v) => Done(v, q1 + 1)
  }

  /** A number, or a name or parenthesised product with an optional power. */
  function PowerExpr(toks: seq<Token>, db: map<string, Unit>, p: nat): (r: Parsed<Unit>)
    requires p <= |toks|
    ensures r.Done? ==> p < r.next <= |toks|
    decreases |toks| - p, 0
  {
    var k := Kind(toks, p);
    if StartsNumber(k) then
      match NumberExpr(toks, p)
      case Fail(e) => Fail(e)
      case Done(v, q) => Done(Scaled(v), q)
    else if k == NAME then
      match NameExpr(toks, db, p)
      case Fail(e) => Fail(e)
      case Done(u, q) => PowerSuffix(toks, u, q)
    else if k == LPAREN then
      match ProductList(toks, db, p + 1)
      case Fail(e) => Fail(e)
      case Done(u, q) =>
        if Kind(toks, q) != RPAREN then Fail(Syntax(q)) else PowerSuffix(toks, u, q + 1)
    else Fail(Syntax(p))
  }

  /** powerExpression ( [multiply] powerExpression | DIVIDE powerExpression )*, folded from the left. */
  function ProductList(toks: seq<Token>, db: map<string, Unit>, p: nat): (r: Parsed<Unit>)
    requires p <= |toks|
    ensures r.Done? ==> p < r.next <= |toks|
    decreases |toks| - p, 2
  {
    match PowerExpr(toks, db, p)
    case Fail(e) => Fail(e)
    case Done(u, q) => ProductRest(toks, db, u, q)
  }

  /** The rest of a product list, with acc the product of the factors already read. */
  function ProductRest(toks: seq<Token>, db: map<string, Unit>, acc: Unit, q: nat): (r: Parsed<Unit>)
    requires q <= |toks|
    ensures r.Done? ==> q <= r.next <= |toks|
    decreases |toks| - q, 1
  {
    var k := Kind(toks, q);
    if ContinuesProduct(k) then
      var q1 := if IsMultiplyOperator(k) then q + 1 else q;
      match PowerExpr(toks, db, q1)
      case Fail(e) => Fail(e)
      case Done(u, q2) => ProductRest(toks, db, Multiply(acc, u), q2)
    else if k == DIVIDE then
      match PowerExpr(toks, db, q + 1)
      case Fail(e) => Fail(e)
      case Done(u, q2) =>
        match Divide(acc, u)
        case Err(_) => Fail(ParseError.CannotDivide)
        case Ok(v) => ProductRest(toks, db, v, q2)
    else Done(acc, q)
  }

  /** A product list ends at the first token that neither multiplies nor divides. */
  lemma ProductEnd(toks: seq<Token>, db: map<string, Unit>, acc: Unit, q: nat)
    requires q <= |toks|
    requires !ContinuesProduct(Kind(toks, q)) && Kind(toks, q) != DIVIDE
    ensures ProductRest(toks, db, acc, q) == Done(acc, q)
  {
  }

  // ---------------------------------------------------------------------
  // valueExpression, numericalTerm

  /** numericalTerm | '(' valueExpression ')' */
  function ValueExpr(toks: seq<Token>, p: nat): (r: Parsed<real>)
    requires p <= |toks|
    ensures r.Done? ==> p < r.next <= |toks|
    decreases |toks| - p
  {
    var k := Kind(toks, p);
    if StartsNumber(k) then NumericalTerm(toks, p)
    else if k == LPAREN then
      match ValueExpr(toks, p + 1)
      case Fail(e) => Fail(e)
      case Done(v, q) => if Kind(toks, q) != RPAREN then Fail(Syntax(q)) else Done(v, q + 1)
    else Fail(Syntax(p))
  }

  /** numberExpression ( numberExpression | DIVIDE numberExpression )*, folded from the left. */
  function NumericalTerm(toks: seq<Token>, p: nat): (r: Parsed<real>)
    requires p <= |toks|
    ensures r.Done? ==> p < r.next <= |toks|
  {
    match NumberExpr(toks, p)
    case Fail(e) => Fail(e)
    case Done(v, q) => NumberRest(toks, v, q)
  }

  /** `value1 *= value2`, as a function of its own so that products are compared by their operands. */
  function Times(a: real, b: real): real {
    a * b
  }

  /** `value1 /= value2`. */
  function Over(a: real, b: real): real
    requires b != 0.0
  {
    a / b
  }

  function NumberRest(toks: seq<Token>, acc: real, q: nat): (r: Parsed<real>)
    requires q <= |toks|
    ensures r.Done? ==> q <= r.next <= |toks|
    decreases |toks| - q
  {
    var k := Kind(toks, q);
    if StartsNumber(k) then
      match NumberExpr(toks, q)
      case Fail(e) => Fail(e)
      case Done(v, q2) => NumberRest(toks, Times(acc, v), q2)
    else if k == DIVIDE then
      match NumberExpr(toks, q + 1)
      case Fail(e) => Fail(e)
      case Done(v, q2) => if v == 0.0 then Fail(ZeroDivisor) else NumberRest(toks, Over(acc, v), q2)
    else Done(acc, q)
  }

  /** A numerical term ends at the first token that is neither a number nor a division sign. */
  lemma NumberEnd(toks: seq<Token>, acc: real, q: nat)
    requires q <= |toks|
    requires !StartsNumber(Kind(toks, q)) && Kind(toks, q) != DIVIDE
    ensures NumberRest(toks, acc, q) == Done(acc, q)
  {
  }

  // ---------------------------------------------------------------------
  // timestampExpression, timestampTerm

  /** The time of day and zone that may follow a date; all zero when absent. */
  datatype Clock = Clock(hour: int, minute: int, second: real, zone: int)

  /** The year, month and day of a DATE image "Y-M-D". */
  function DateFields(image: string): Option<(int, int, int)> {
    var f := Fields(image, '-');
    if |f| < 3 then None
    else
      match (ParseInt(f[0]), ParseInt(f[1]), ParseInt(f[2]))
      case (Some(y), Some(m), Some(d)) => Some((y, m, d))
      case _ => None
  }

  /** The hour, minute and optional second of a TIME image "H:M[:S]". */
  function TimeFields(image: string): Option<(int, int, real)> {
    var f := Fields(image, ':');
    if |f| < 2 then None
    else
      match (ParseInt(f[0]), ParseInt(f[1]), if |f| > 2 then ParseDecimal(f[2]) else Some(0.0))
      case (Some(h), Some(m), Some(s)) => Some((h, m, s))
      case _ => None
  }

  /** An INTEGER zone: hours, or hours and minutes packed as HHMM when it has three digits or more. */
  function IntegerZone(n: int): int {
    if n <= -100 || n >= 100 then Quot(n, 100) * 60 + Rem(n, 100) else n * 60
  }

  /** A TIME zone "±H:M": the minutes take the sign of the image (`zoneMinute*sign`, sign being ±1). */
  function TimeZoneFields(image: string): Option<int> {
    var negative := |image| > 0 && image[0] == '-';
    var f := Fields(image, ':');
    if |f| < 2 then None
    else
      match (ParseFloatToInt(f[0]), ParseInt(f[1]))
      case (Some(h), Some(m)) => Some(ZoneMinutes(h, m, negative))
      case _ => None
  }

  /** `zoneHour*60 + zoneMinute*sign` in 32-bit arithmetic. */
  function ZoneMinutes(h: int, m: int, negative: bool): int {
    Wrap32(Wrap32(h * 60) + Wrap32(if negative then -m else m))
  }

  predicate IsZoneName(s: string) {
    s == "UTC" || s == "GMT" || s == "ZULU" || s == "Z"
  }

  /** The hour: an INTEGER, or a TIME with minutes and perhaps seconds. */
  function TimeOfDay(toks: seq<Token>, q: nat): (r: Parsed<(int, int, real)>)
    requires q <= |toks|
    ensures r.Done? ==> r.next == q + 1 <= |toks|
  {
    var k := Kind(toks, q);
    if k == INTEGER then
      match ParseInt(Image(toks, q))
      case None => Fail(BadNumber(Image(toks, q)))
      case Some(h) => Done((h, 0, 0.0), q + 1)
    else if k == TIME then
      match TimeFields(Image(toks, q))
      case None => Fail(BadNumber(Image(toks, q)))
      case Some(t) => Done(t, q + 1)
    else Fail(Syntax(q))
  }

  /** The optional zone: [WHITESPACE] (INTEGER | TIME | NAME), in minutes. */
  function Zone(toks: seq<Token>, q: nat): (r: Parsed<int>)
    requires q <= |toks|
    ensures r.Done? ==> q <= r.next <= |toks|
  {
    var k := Kind(toks, q);
    if k != INTEGER && k != WHITESPACE && k != NAME && k != TIME then Done(0, q)
    else if k == WHITESPACE then ZoneValue(toks, q + 1)
    else ZoneValue(toks, q)
  }

  /** The zone token itself: an INTEGER, a TIME or a zone name. */
  function ZoneValue(toks: seq<Token>, q1: nat): (r: Parsed<int>)
    requires q1 <= |toks|
    ensures r.Done? ==> r.next == q1 + 1 <= |toks|
  {
    var k1 := Kind(toks, q1);
    if k1 == INTEGER then
      match ParseFloatToInt(Image(toks, q1))
      case None => Fail(BadNumber(Image(toks, q1)))
      case Some(n) => Done(IntegerZone(n), q1 + 1)
    else if k1 == TIME then
      match TimeZoneFields(Image(toks, q1))
      case None => Fail(BadNumber(Image(toks, q1)))
      case Some(z) => Done(z, q1 + 1)
    else if k1 == NAME then
      if IsZoneName(Image(toks, q1)) then Done(0, q1 + 1) else Fail(InvalidTimeZone)
    else Fail(Syntax(q1))
  }

  /** What may follow a date: [('T' | WHITESPACE)] time-of-day [zone]. */
  function ClockPart(toks: seq<Token>, q: nat): (r: Parsed<Clock>)
    requires q <= |toks|
    ensures r.Done? ==> q <= r.next <= |toks|
    ensures r.Done? && !(Kind(toks, q) in {INTEGER, WHITESPACE, NAME, TIME}) ==>
      r == Done(Clock(0, 0, 0.0, 0), q)
    ensures r.Done? && (Kind(toks, q) == NAME || Kind(toks, q) == WHITESPACE) ==>
      q + 1 < |toks| && (Kind(toks, q + 1) == INTEGER || Kind(toks, q + 1) == TIME)
    ensures r.Done? && (Kind(toks, q) == NAME || Kind(toks, q) == WHITESPACE) ==>
      Zone(toks, q + 2) == Done(r.value.zone, r.next)
    ensures r.Done? && (Kind(toks, q) == INTEGER || Kind(toks, q) == TIME) ==>
      Zone(toks, q + 1) == Done(r.value.zone, r.next)
  {
    var k := Kind(toks, q);
    if k != INTEGER && k != WHITESPACE && k != NAME && k != TIME then Done(Clock(0, 0, 0.0, 0), q)
    else if k == NAME && !IsLetterT(Image(toks, q)) then Fail(InvalidTimestamp)
    else if k == NAME || k == WHITESPACE then ClockAfter(toks, q + 1)
    else ClockAfter(toks, q)
  }

  /** The time of day and the optional zone after it. */
  function ClockAfter(toks: seq<Token>, q1: nat): (r: Parsed<Clock>)
    requires q1 <= |toks|
    ensures r.Done? ==> q1 < r.next <= |toks|
    ensures r.Done? ==> Kind(toks, q1) == INTEGER || Kind(toks, q1) == TIME
    ensures r.Done? ==> Zone(toks, q1 + 1) == Done(r.value.zone, r.next)
  {
    match TimeOfDay(toks, q1)
    case Fail(e) => Fail(e)
    case Done(t, q2) =>
      match Zone(toks, q2)
      case Fail(e) => Fail(e)
      case Done(z, q3) => Done(Clock(t.0, t.1, t.2, z), q3)
  }

  /** The ranges the parser accepts before encoding a timestamp. */
  predicate ValidTimestamp(month: int, day: int, c: Clock) {
    && 1 <= month <= 12
    && 1 <= day <= 31
    && 0 <= c.hour <= 23
    && 0 <= c.minute <= 59
    && 0.0 <= c.second <= 61.0
    && -1440 <= c.zone <= 1440
  }

  /** DATE [clock]: the timestamp in seconds since 2001-01-01 00:00 UTC. */
  function TimestampTerm(toks: seq<Token>, p: nat): (r: Parsed<real>)
    requires p <= |toks|
    ensures r.Done? ==> p < r.next <= |toks|
  {
    if Kind(toks, p) != DATE then Fail(Syntax(p))
    else
      match DateFields(Image(toks, p))
      case None => Fail(BadNumber(Image(toks, p)))
      case Some(date) =>
        match ClockPart(toks, p + 1)
        case Fail(e) => Fail(e)
        case Done(c, q) =>
          if !ValidTimestamp(date.1, date.2, c) then Fail(InvalidTimestamp)
          else Done(EncodeTimestamp(date.0, date.1, date.2, c.hour, c.minute, c.second, c.zone), q)
  }

  /** timestampTerm | '(' timestampExpression ')' */
  function TimestampExpr(toks: seq<Token>, p: nat): (r: Parsed<real>)
    requires p <= |toks|
    ensures r.Done? ==> p < r.next <= |toks|
    decreases |toks| - p
  {
    var k := Kind(toks, p);
    if k == DATE then TimestampTerm(toks, p)
    else if k == LPAREN then
      match TimestampExpr(toks, p + 1)
      case Fail(e) => Fail(e)
      case Done(v, q) => if Kind(toks, q) != RPAREN then Fail(Syntax(q)) else Done(v, q + 1)
    else Fail(Syntax(p))
  }

  // ---------------------------------------------------------------------
  // The bounded lookahead that chooses a timestamp origin (jj_2_1(3)).

  /**
   * The scanner's state: `at` is the index of the next token to scan, `last`
   * one past the furthest token scanned so far, and `la` how many new tokens
   * may still be scanned before the lookahead succeeds.
   */
  datatype ScanState = ScanState(at: nat, last: nat, la: int)

  /** A scan either fails (the state keeps `last` and `la`), matches, or reaches the limit. */
  datatype Scan = Miss(st: ScanState) | Hit(st: ScanState) | Found

  function Restore(st: ScanState, at: nat): ScanState {
    ScanState(at, st.last, st.la)
  }

  /** jj_scan_token: step over one token; the lookahead succeeds once the la-th new token matches. */
  function ScanToken(toks: seq<Token>, st: ScanState, kind: int): (r: Scan)
    ensures r.Hit? ==> r.st.at == st.at + 1 && Kind(toks, st.at) == kind
  {
    var st1 := if st.at == st.last then ScanState(st.at + 1, st.at + 1, st.la - 1)
               else ScanState(st.at + 1, st.last, st.la);
    if Kind(toks, st.at) != kind then Miss(st1)
    else if st1.la == 0 && st1.at == st1.last then Found
    else Hit(st1)
  }

  /** jj_3R_12: [WHITESPACE] (INTEGER | TIME | NAME) */
  function ScanZone(toks: seq<Token>, st: ScanState): Scan {
    var ws := ScanToken(toks, st, WHITESPACE);
    if ws.Found? then Found
    else
      var st1 := if ws.Hit? then ws.st else Restore(ws.st, st.at);
      match ScanToken(toks, st1, INTEGER)
      case Found => Found
      case Hit(s) => Hit(s)
      case Miss(s) =>
        match ScanToken(toks, Restore(s, st1.at), TIME)
        case Found => Found
        case Hit(s2) => Hit(s2)
        case Miss(s2) => ScanToken(toks, Restore(s2, st1.at), NAME)
  }

  /** The separator of jj_3R_7: NAME | [WHITESPACE]; being optional, it never misses. */
  function ScanSeparator(toks: seq<Token>, st: ScanState): Scan {
    match ScanToken(toks, st, NAME)
    case Found => Found
    case Hit(s) => Hit(s)
    case Miss(s) =>
      match ScanToken(toks, Restore(s, st.at), WHITESPACE)
      case Found => Found
      case Hit(s2) => Hit(s2)
      case Miss(s2) => Hit(Restore(s2, st.at))
  }

  /** The hour of jj_3R_7: INTEGER | TIME */
  function ScanHour(toks: seq<Token>, st: ScanState): Scan {
    match ScanToken(toks, st, INTEGER)
    case Found => Found
    case Hit(s) => Hit(s)
    case Miss(s) => ScanToken(toks, Restore(s, st.at), TIME)
  }

  /** jj_3R_7: (NAME | [WHITESPACE]) (INTEGER | TIME) [jj_3R_12] */
  function ScanClock(toks: seq<Token>, st: ScanState): Scan {
    match ScanSeparator(toks, st)
    case Found => Found
    case Miss(s) => Miss(s)
    case Hit(s) =>
      match ScanHour(toks, s)
      case Found => Found
      case Miss(s1) => Miss(s1)
      case Hit(s1) =>
        match ScanZone(toks, s1)
        case Found => Found
        case Hit(s2) => Hit(s2)
        case Miss(s2) => Hit(Restore(s2, s1.at))
  }

  /** jj_3R_6: DATE [jj_3R_7] */
  function ScanTimestampTerm(toks: seq<Token>, st: ScanState): Scan {
    match ScanToken(toks, st, DATE)
    case Found => Found
    case Miss(s) => Miss(s)
    case Hit(s) =>
      match ScanClock(toks, s)
      case Found => Found
      case Hit(s2) => Hit(s2)
      case Miss(s2) => Hit(Restore(s2, s.at))
  }

  /** jj_3R_3: jj_3R_6 | jj_3R_5 */
  function ScanTimestampExpr(toks: seq<Token>, st: ScanState): Scan
    requires st.at <= |toks|
    decreases |toks| - st.at, 1
  {
    match ScanTimestampTerm(toks, st)
    case Found => Found
    case Hit(s) => Hit(s)
    case Miss(s) => ScanParenthesised(toks, Restore(s, st.at))
  }

  /** jj_3R_5: '(' jj_3R_3 ')' */
  function ScanParenthesised(toks: seq<Token>, st: ScanState): Scan
    requires st.at <= |toks|
    decreases |toks| - st.at, 0
  {
    match ScanToken(toks, st, LPAREN)
    case Found => Found
    case Miss(s) => Miss(s)
    case Hit(s) =>
      match ScanTimestampExpr(toks, s)
      case Found => Found
      case Miss(s2) => Miss(s2)
      case Hit(s2) => ScanToken(toks, s2, RPAREN)
  }

  /** jj_2_1(3): whether the origin after the shift token at p - 1 is read as a timestamp. */
  predicate TimestampAhead(toks: seq<Token>, p: nat)
    requires p <= |toks|
  {
    !ScanTimestampExpr(toks, ScanState(p, p, 3)).Miss?
  }

  // ---------------------------------------------------------------------
  // shiftExpression, unitSpec

  /** SHIFT (timestampExpression | valueExpression): the origin. */
  function ShiftExpr(toks: seq<Token>, isTime: bool, p: nat): (r: Parsed<real>)
    requires p <= |toks|
    ensures r.Done? ==> p < r.next <= |toks|
  {
    if Kind(toks, p) != SHIFT then Fail(Syntax(p))
    else if TimestampAhead(toks, p + 1) then
      match TimestampExpr(toks, p + 1)
      case Fail(e) => Fail(e)
      case Done(v, q) => if !isTime then Fail(NonTimeTimestamp) else Done(v, q)
    else if StartsNumber(Kind(toks, p + 1)) || Kind(toks, p + 1) == LPAREN then ValueExpr(toks, p + 1)
    else Fail(Syntax(p + 1))
  }

  /** The end of unitSpec: the input must be exhausted, then the origin is applied. */
  function ApplyOrigin(toks: seq<Token>, q: nat, u: Unit, origin: real,
                       originSpecified: bool, isTime: bool): (r: Result<Unit, ParseError>)
  {
    if Kind(toks, q) != EOF then Err(Syntax(q))
    else if originSpecified && isTime then
      match ToThis(u, origin)
      case Err(_) => Err(InvalidSpec)
      case Ok(o) => Ok(Shift(u, o))
    else if origin != 0.0 then Ok(Shift(u, origin))
    else Ok(u)
  }

  /** [unitProductList [shiftExpression]] EOF: the unit a whole specification denotes. */
  function UnitSpec(toks: seq<Token>, db: map<string, Unit>, p: nat): (r: Result<Unit, ParseError>)
    requires p <= |toks|
  {
    var k := Kind(toks, p);
    if StartsNumber(k) || k == NAME || k == LPAREN then
      match ProductList(toks, db, p)
      case Fail(e) => Err(e)
      case Done(u, q) =>
        var isTime := IsTimeConvertible(u);
        if Kind(toks, q) == SHIFT then
          match ShiftExpr(toks, isTime, q)
          case Fail(e) => Err(e)
          case Done(origin, q2) => ApplyOrigin(toks, q2, u, origin, true, isTime)
        else ApplyOrigin(toks, q, u, 0.0, false, isTime)
    else ApplyOrigin(toks, p, Dimensionless(), 0.0, false, false)
  }
}
