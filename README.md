# VisAD unit-specification parser and McIDAS AREA directory, in Dafny

This project models two parts of VisAD.

**The unit-specification parser** (`UnitParser`) is a JavaCC-generated recursive-descent parser. It reads strings such as `m/s^2`, `kg.m2` or `s @ 2001-01-01T12:30Z` and builds the unit they denote. The model covers:

- the calendar arithmetic behind timestamp origins: `julianDay`, the artificial origin `julianDayOrigin` (2001-01-01) and `encodeTimestamp`;
- every parse routine from `unitSpec` down to `timestampTerm`;
- the three-token lookahead `jj_2_1(3)` and its `jj_3R_*` scan routines, which choose whether the origin after `@` (or `since`, `from`, ...) is a timestamp or a number.

**The directory of a McIDAS AREA file** (`AreaDirectory`) is a 64-word block. The model covers:

- the constructor: its size check, version check, in-place byte flipping of a block written in the other byte order, image times and band list;
- the copy constructor, `getValue`, and the getters for the block, times, band count, lines, elements and bands.

Files:

- `calendar.dfy`, module `Calendar`: the Julian Day Number formula and the timestamp encoding. They are proved equal to independent proleptic Julian and Gregorian day counts.
- `java_int.dfy`, module `JavaInt`: Java's truncating `/` and `%`, the `(int)` cast of a floating-point value, and 32-bit wrap-around.
- `lexical.dfy`, module `Lexical`: `Integer.parseInt`, `Float.parseFloat`/`new Double(...)` on decimal images, `StringTokenizer`, and their round-trip lemmas.
- `units.dfy`, module `Units`: unit values as scale, base-unit exponents and origin, and the operations the parser calls on them (multiply, divide, pow, shift, toThis, canConvert), with their algebraic laws.
- `unit_grammar.dfy`, module `UnitGrammar`: one pure function per grammar rule, from a token sequence and a position to a value and the next position, or to the error raised. It also holds the lookahead scan, written literally over a `(at, last, la)` scanner state.
- `unit_parser.dfy`, module `UnitParsing`: class `UnitParser`, which has a mutable cursor `pos` and the `isTime` flag. It has one method per rule, and each method is proved to agree with its grammar function in both the value and the cursor.
- `grammar_facts.dfy`, module `UnitGrammarFacts`: properties of the grammar. These include:
  - products fold from the left;
  - the lookahead never misses a well-formed timestamp;
  - the `(((5)))` case;
  - numbers, powers, zones and dates decode as written;
  - the origin lands where the unit's zero is.
- `area_directory.dfy`, module `McidasArea`: the directory words as `bv32` and the flipping as byte reversal. It has in-place methods on `array<bv32>`, the band-list decoding and class `AreaDirectory`.
- `wrappers.dfy`: the `Option` and `Result` types.

## Model

| member | source | states |
|---|---|---|
| Calendar.IsGregorian | core/src/visad/branches/linestyle_20080630/data/units/UnitParser.java:104 | the reform test on `day + 31*(month + 12*iy)`; GregorianFromReform states that it holds exactly from 15 October 1582 on |
| Calendar.JulianDay | core/src/visad/branches/linestyle_20080630/data/units/UnitParser.java:56-113 | julianDay; JulianDayUnfolded gives its closed form, JulianDayIsGregorian and JulianDayIsJulian equate it with the two calendars' day counts, NextDay and ReformSkipsTenDays relate consecutive days |
| Calendar.EncodeTimestamp | core/src/visad/branches/linestyle_20080630/data/units/UnitParser.java:119-125 | encodeTimestamp, in seconds since julianDayOrigin (lines 49-50); EncodeTimestampFields, OriginIsZero and EncodeTimestampNextDay state its value |
| Calendar.AstronomicalYear | core/src/visad/branches/linestyle_20080630/data/units/UnitParser.java:70-75 | year 0 is read as year 1, positive years are kept, negative years move up by one |
| Calendar.YearZeroIsYearOne | core/src/visad/branches/linestyle_20080630/data/units/UnitParser.java:66-71 | julianDay of year 0 equals julianDay of year 1 for every month and day |
| Calendar.GregorianFromReform | core/src/visad/branches/linestyle_20080630/data/units/UnitParser.java:104 | the Gregorian correction applies exactly to dates on or after 15 October 1582 |
| Calendar.MonthTerm | core/src/visad/branches/linestyle_20080630/data/units/UnitParser.java:76-88 | the truncated `30.6001 * jm` equals the cumulative month-length table plus a constant, for every month |
| Calendar.YearTerm | core/src/visad/branches/linestyle_20080630/data/units/UnitParser.java:89-101 | `365*jy + 0.25*jy` truncated (jy >= 0) and `floor(365.25*jy)` (jy < 0) both equal `365*jy + floor(jy/4)` |
| Calendar.JulianDayUnfolded | core/src/visad/branches/linestyle_20080630/data/units/UnitParser.java:56-113 | julianDay in closed form, with every floating-point truncation resolved |
| Calendar.JulianDayIsGregorian | core/src/visad/branches/linestyle_20080630/data/units/UnitParser.java:56-113 | from the reform on, julianDay is the proleptic Gregorian day count plus 1721425 |
| Calendar.JulianDayIsJulian | core/src/visad/branches/linestyle_20080630/data/units/UnitParser.java:56-113 | before the reform, julianDay is the proleptic Julian-calendar day count plus 1721423 |
| Calendar.NoYearZero | core/src/visad/branches/linestyle_20080630/data/units/UnitParser.java:66-75 | 1 January AD 1 is JDN 1721424, and 1 BC (a Julian leap year) is 366 days before it |
| Calendar.J2000 | core/src/visad/branches/linestyle_20080630/data/units/UnitParser.java:56-113 | 1 January 2000 is JDN 2451545 |
| Calendar.ReformSkipsTenDays | core/src/visad/branches/linestyle_20080630/data/units/UnitParser.java:104-110 | 4 October 1582 (Julian) and 15 October 1582 (Gregorian) are consecutive Julian days |
| Calendar.NextDay | core/src/visad/branches/linestyle_20080630/data/units/UnitParser.java:56-113 | within one calendar, the next day of the month has the next Julian Day Number |
| Calendar.OriginIsZero | core/src/visad/branches/linestyle_20080630/data/units/UnitParser.java:49-50 | julianDayOrigin is 2451911, so 2001-01-01 00:00 UTC encodes as 0 and 01:00 encodes as 3600 |
| Calendar.EncodeTimestampFields | core/src/visad/branches/linestyle_20080630/data/units/UnitParser.java:119-125 | the encoding is 86400 seconds per day since the origin, plus 3600·hour + 60·minute + second, minus 60·zone |
| Calendar.EncodeTimestampNextDay | core/src/visad/branches/linestyle_20080630/data/units/UnitParser.java:119-125 | the next day (same calendar) encodes exactly 86400 seconds later |
| JavaInt.Quot | core/src/visad/branches/linestyle_20080630/data/units/UnitParser.java:620-624 | Java integer division: the remainder is smaller than the divisor in magnitude and has the sign of the dividend; for non-negative operands it is floor division |
| JavaInt.QuotRemainder | core/src/visad/branches/linestyle_20080630/data/units/UnitParser.java:620-624 | the remainder left by the truncated quotient is the magnitude remainder with the dividend's sign |
| JavaInt.Rem | core/src/visad/branches/linestyle_20080630/data/units/UnitParser.java:622 | Java `%`: n == Quot(n, d)·d + r, with r smaller than d in magnitude and of the dividend's sign |
| JavaInt.CastToInt | core/src/visad/branches/linestyle_20080630/data/units/UnitParser.java:347 | the `(int)` cast always yields a 32-bit int |
| JavaInt.CastTowardZero | core/src/visad/branches/linestyle_20080630/data/units/UnitParser.java:618 | the cast truncates toward zero and, within the int range, loses less than one |
| JavaInt.Wrap32 | core/src/visad/branches/linestyle_20080630/data/units/UnitParser.java:639 | 32-bit int arithmetic: the result is in range, congruent to the exact value modulo 2^32, and equal to it when the exact value fits |
| Lexical.ParseInt | core/src/visad/branches/linestyle_20080630/data/units/UnitParser.java:389 | `Integer.parseInt` only ever returns a 32-bit int |
| Lexical.IntRoundTrip | core/src/visad/branches/linestyle_20080630/data/units/UnitParser.java:389 | `Integer.parseInt` reads back every int written in decimal |
| Lexical.FloatRoundTrip | core/src/visad/branches/linestyle_20080630/data/units/UnitParser.java:347 | with the literal parsed exactly, `(int) Float.parseFloat` reads back every int written in decimal; the exponents and zone hours it reads are far below 2^24, where a float is exact |
| Lexical.DecimalOfDigits | core/src/visad/branches/linestyle_20080630/data/units/UnitParser.java:423 | a literal made only of digits parses to its integer value |
| Lexical.FractionInUnitInterval | core/src/visad/branches/linestyle_20080630/data/units/UnitParser.java:396-400 | `new Double("." + digits)` succeeds and lies in [0, 1) |
| Lexical.SignedFractionRefused | core/src/visad/branches/linestyle_20080630/data/units/UnitParser.java:415-418 | a sign after the decimal point makes the conversion fail |
| Lexical.Run | core/src/visad/branches/linestyle_20080630/data/units/UnitParser.java:553 | a token is the longest prefix free of the delimiter, and is followed by the delimiter or the end |
| Lexical.FieldsOfJoin | core/src/visad/branches/linestyle_20080630/data/units/UnitParser.java:553-557 | `StringTokenizer` splits a delimiter-joined list of non-empty fields back into those fields |
| Units.Multiply | core/src/visad/branches/linestyle_20080630/data/units/UnitParser.java:257 | `multiply` in this model: SumDims, MultiplyCommutes, MultiplyAssociates and DivideUndoesMultiply state its laws |
| Units.Shift | core/src/visad/branches/linestyle_20080630/data/units/UnitParser.java:201-204 | `shift(o)` in this model: ShiftMovesZero and ShiftToOrigin state where the unit's zero lands |
| Units.IsTimeConvertible | core/src/visad/branches/linestyle_20080630/data/units/UnitParser.java:181 | `Unit.canConvert(unit, second)` in this model, the isTime flag; TimeOrigin and ShiftTakesTimestamp state how it steers the origin |
| Units.Divide | core/src/visad/branches/linestyle_20080630/data/units/UnitParser.java:264-274 | in this model, dividing fails exactly when the divisor's scale is zero, and otherwise divides the scales and subtracts the exponents |
| Units.Pow | core/src/visad/branches/linestyle_20080630/data/units/UnitParser.java:342-354 | in this model, raising fails exactly for a negative power of a zero-scale unit |
| Units.ToThis | core/src/visad/branches/linestyle_20080630/data/units/UnitParser.java:201-202 | in this model, `toThis(origin, second)` gives the value in the unit that stands for `origin` seconds, and fails exactly for a zero-scale unit |
| Units.SumDims | core/src/visad/branches/linestyle_20080630/data/units/UnitParser.java:257 | the exponents of a product are the sums of the factors' exponents, and no zero exponent is kept |
| Units.DifferenceDims | core/src/visad/branches/linestyle_20080630/data/units/UnitParser.java:269 | the exponents of a quotient are the differences, and no zero exponent is kept |
| Units.ScaleDims | core/src/visad/branches/linestyle_20080630/data/units/UnitParser.java:347 | the exponents of a power are n times the unit's, and no zero exponent is kept |
| Units.MultiplyCommutes | core/src/visad/branches/linestyle_20080630/data/units/UnitParser.java:257 | multiplication of units is commutative |
| Units.MultiplyAssociates | core/src/visad/branches/linestyle_20080630/data/units/UnitParser.java:257 | multiplication of units is associative |
| Units.DivideUndoesMultiply | core/src/visad/branches/linestyle_20080630/data/units/UnitParser.java:254-274 | dividing by a nonzero-scale v undoes multiplying by v (the origin is dropped) |
| Units.PowStep | core/src/visad/branches/linestyle_20080630/data/units/UnitParser.java:347 | u^(n+1) is u^n multiplied by u |
| Units.PowZeroAndMinusOne | core/src/visad/branches/linestyle_20080630/data/units/UnitParser.java:347 | u^0 is the dimensionless unit 1, and u^-1 is 1 divided by u |
| Units.ShiftToOrigin | core/src/visad/branches/linestyle_20080630/data/units/UnitParser.java:201-202 | after `shift(toThis(origin, second))` the unit's zero stands for `origin` seconds |
| Units.ShiftMovesZero | core/src/visad/branches/linestyle_20080630/data/units/UnitParser.java:203-204 | `shift(o)` puts the zero where o was, and shifting by 0 changes nothing |
| UnitGrammar.WholeNumber | core/src/visad/branches/linestyle_20080630/data/units/UnitParser.java:387-411 | the INTEGER branch of numberExpression consumes at least one token; IntegerNumber, IntegerWithPoint and IntegerWithFraction state its value |
| UnitGrammar.FractionTail | core/src/visad/branches/linestyle_20080630/data/units/UnitParser.java:390-410 | the optional `.` [INTEGER] after an integer never moves backwards; IntegerWithPoint and IntegerWithFraction state what it adds |
| UnitGrammar.WithFraction | core/src/visad/branches/linestyle_20080630/data/units/UnitParser.java:396-400 | `value += new Double("." + image)` with the negative-value check; FractionAdded and FractionInUnitInterval state when it is refused |
| UnitGrammar.PowerSuffix | core/src/visad/branches/linestyle_20080630/data/units/UnitParser.java:331-359 | the optional [`^`] INTEGER after a factor never moves backwards; PowerOfName states that it raises the unit to the exponent |
| UnitGrammar.PowerExpr | core/src/visad/branches/linestyle_20080630/data/units/UnitParser.java:304-368 | powerExpression consumes at least one token; PowerOfName and PowerExprStart state its value and its first token |
| UnitGrammar.ProductList | core/src/visad/branches/linestyle_20080630/data/units/UnitParser.java:215-284 | unitProductList consumes at least one token; ProductListFold and ProductListChain state that it is the left fold of its factors |
| UnitGrammar.ProductRest | core/src/visad/branches/linestyle_20080630/data/units/UnitParser.java:220-283 | the loop of unitProductList; ProductFold and ProductFails state that it folds any run of factors from the left and stops at the first error |
| UnitGrammar.ValueExpr | core/src/visad/branches/linestyle_20080630/data/units/UnitParser.java:460-480 | valueExpression consumes at least one token; TwoParenthesesAreAValue and ShiftTakesValue state its value |
| UnitGrammar.NumericalTerm | core/src/visad/branches/linestyle_20080630/data/units/UnitParser.java:482-518 | numericalTerm consumes at least one token; NumericalTermFold states that it is the left fold of its numbers |
| UnitGrammar.NumberRest | core/src/visad/branches/linestyle_20080630/data/units/UnitParser.java:485-516 | the loop of numericalTerm; NumbersFold and NumbersFail state that it multiplies and divides from the left and stops at the first error |
| UnitGrammar.NumberExpr | core/src/visad/branches/linestyle_20080630/data/units/UnitParser.java:383-432 | a number consumes at least one token and stays within the input |
| UnitGrammar.BareFraction | core/src/visad/branches/linestyle_20080630/data/units/UnitParser.java:412-419 | `.` INTEGER consumes exactly two tokens |
| UnitGrammar.RealLiteral | core/src/visad/branches/linestyle_20080630/data/units/UnitParser.java:420-424 | a REAL consumes exactly one token |
| UnitGrammar.NameExpr | core/src/visad/branches/linestyle_20080630/data/units/UnitParser.java:370-381 | a name expression succeeds exactly when the token is a NAME the database holds, and it consumes one token |
| UnitGrammar.DateFields | core/src/visad/branches/linestyle_20080630/data/units/UnitParser.java:552-557 | the year, month and day of a DATE image; DateRoundTrip states that it reads back the fields a date was written from |
| UnitGrammar.TimeFields | core/src/visad/branches/linestyle_20080630/data/units/UnitParser.java:585-593 | the hour, minute and optional second of a TIME image; TimeOfClock states its value on `H:M` |
| UnitGrammar.IntegerZone | core/src/visad/branches/linestyle_20080630/data/units/UnitParser.java:620-626 | an INTEGER zone; IntegerZoneFields and IntegerZoneHours state its value |
| UnitGrammar.TimeZoneFields | core/src/visad/branches/linestyle_20080630/data/units/UnitParser.java:628-640 | a TIME zone; TimeZoneOfParts and TimeZoneOfFields state its value |
| UnitGrammar.ZoneMinutes | core/src/visad/branches/linestyle_20080630/data/units/UnitParser.java:639 | the 32-bit int expression `zoneHour*60 + zoneMinute*sign`; ZoneNoWrap states that it does not wrap for zones of plausible size |
| UnitGrammar.Zone | core/src/visad/branches/linestyle_20080630/data/units/UnitParser.java:600-660 | the optional zone never moves backwards; ZoneExtentOf states its extent and WordsAfterDate the names it accepts |
| UnitGrammar.ZoneValue | core/src/visad/branches/linestyle_20080630/data/units/UnitParser.java:614-650 | the zone token after the optional space is exactly one token; IntegerZoneFields, TimeZoneOfFields and WordsAfterDate state its value |
| UnitGrammar.ClockAfter | core/src/visad/branches/linestyle_20080630/data/units/UnitParser.java:580-660 | after the separator: an INTEGER or TIME hour, then the zone read right after it |
| UnitGrammar.ValidTimestamp | core/src/visad/branches/linestyle_20080630/data/units/UnitParser.java:666-674 | the range check of timestampTerm; DateTimeZone and AcceptedTimestampInRange state that exactly the timestamps passing it are accepted |
| UnitGrammar.TimestampTerm | core/src/visad/branches/linestyle_20080630/data/units/UnitParser.java:540-679 | timestampTerm consumes at least one token; DateTimeZone, AcceptedTimestampInRange, DateAlone and DateTimeInUtc state its value |
| UnitGrammar.TimestampExpr | core/src/visad/branches/linestyle_20080630/data/units/UnitParser.java:520-538 | timestampExpression consumes at least one token; ExprReaches ties it to the lookahead |
| UnitGrammar.ClockPart | core/src/visad/branches/linestyle_20080630/data/units/UnitParser.java:558-665 | with no clock token after the date, the time is 00:00:00 UTC and nothing is consumed; after a `T` or a space an INTEGER or TIME hour must follow; the zone is what the optional zone rule reads right after the hour |
| UnitGrammar.TimeOfDay | core/src/visad/branches/linestyle_20080630/data/units/UnitParser.java:580-598 | the hour is exactly one INTEGER or TIME token |
| UnitGrammar.ScanZone | core/src/visad/branches/linestyle_20080630/data/units/UnitParser.java:706-719 | jj_3R_12; ZoneAbsent and ZoneReaches state when it misses and that it scans through every zone |
| UnitGrammar.ScanSeparator | core/src/visad/branches/linestyle_20080630/data/units/UnitParser.java:741-747 | the separator part of jj_3R_7; SeparatorReaches states that it never misses |
| UnitGrammar.ScanHour | core/src/visad/branches/linestyle_20080630/data/units/UnitParser.java:748-752 | the hour part of jj_3R_7; HourReaches states that it matches an INTEGER or TIME hour |
| UnitGrammar.ScanClock | core/src/visad/branches/linestyle_20080630/data/units/UnitParser.java:741-756 | jj_3R_7; ClockAbsent and ClockReaches state when it misses and that it scans through every time of day |
| UnitGrammar.ScanTimestampTerm | core/src/visad/branches/linestyle_20080630/data/units/UnitParser.java:693-699 | jj_3R_6; TermReaches states that it scans through every timestamp term |
| UnitGrammar.ScanTimestampExpr | core/src/visad/branches/linestyle_20080630/data/units/UnitParser.java:721-729 | jj_3R_3; ExprReaches states that it scans through every timestamp expression |
| UnitGrammar.ScanParenthesised | core/src/visad/branches/linestyle_20080630/data/units/UnitParser.java:773-778 | jj_3R_5, `(` and a timestamp expression; ThreeParenthesesAreATimestamp shows the three-token limit |
| UnitGrammar.TimestampAhead | core/src/visad/branches/linestyle_20080630/data/units/UnitParser.java:681-686 | jj_2_1(3); TimestampAlwaysSeen states that it never misses a timestamp the parser reads |
| UnitGrammar.ShiftExpr | core/src/visad/branches/linestyle_20080630/data/units/UnitParser.java:434-458 | shiftExpression consumes at least one token; ShiftTakesTimestamp and ShiftTakesValue state which branch it takes and what it reads |
| UnitGrammar.ApplyOrigin | core/src/visad/branches/linestyle_20080630/data/units/UnitParser.java:197-211 | the final shift of unitSpec; TimeOrigin and ValueOrigin state where the unit's zero lands |
| UnitGrammar.UnitSpec | core/src/visad/branches/linestyle_20080630/data/units/UnitParser.java:168-213 | unitSpec; EmptySpec, LeadingShift, TrailingTokens, ProductSpec, TimeOrigin and ValueOrigin state its result |
| UnitGrammar.ScanToken | core/src/visad/branches/linestyle_20080630/data/units/UnitParser.java:897-916 | a scanned token that does not end the lookahead matched the expected kind and advanced the scan by one |
| UnitGrammarFacts.ZoneExtentOf | core/src/visad/branches/linestyle_20080630/data/units/UnitParser.java:600-660 | the zone the parser reads is either nothing, one token, or WHITESPACE followed by an INTEGER, TIME or NAME |
| UnitGrammarFacts.ClockHour | core/src/visad/branches/linestyle_20080630/data/units/UnitParser.java:558-599 | a clock that was read has an INTEGER or TIME hour right after its optional `T` or space |
| UnitGrammarFacts.ClockZone | core/src/visad/branches/linestyle_20080630/data/units/UnitParser.java:600-660 | a clock that was read ends where the optional zone after its hour ends |
| UnitParsing.UnitParser.Consume | core/src/visad/branches/linestyle_20080630/data/units/UnitParser.java:871-894 | jj_consume_token: on the expected kind, returns the image and advances one token; otherwise raises a syntax error at that token and leaves the cursor where it was |
| UnitParsing.UnitParser.NumberExpression | core/src/visad/branches/linestyle_20080630/data/units/UnitParser.java:383-432 | agrees with NumberExpr in its value or error and in its final cursor |
| UnitParsing.UnitParser.IntegerNumber | core/src/visad/branches/linestyle_20080630/data/units/UnitParser.java:387-411 | the INTEGER branch agrees with WholeNumber |
| UnitParsing.UnitParser.FractionPart | core/src/visad/branches/linestyle_20080630/data/units/UnitParser.java:390-410 | the optional `.` [INTEGER] agrees with FractionTail |
| UnitParsing.UnitParser.AddFraction | core/src/visad/branches/linestyle_20080630/data/units/UnitParser.java:396-400 | `value += new Double("." + image)` with the negative-value check is WithFraction |
| UnitParsing.UnitParser.PointNumber | core/src/visad/branches/linestyle_20080630/data/units/UnitParser.java:412-419 | the `.` INTEGER branch agrees with BareFraction |
| UnitParsing.UnitParser.RealNumber | core/src/visad/branches/linestyle_20080630/data/units/UnitParser.java:420-424 | the REAL branch agrees with RealLiteral |
| UnitParsing.UnitParser.NameExpression | core/src/visad/branches/linestyle_20080630/data/units/UnitParser.java:370-381 | agrees with NameExpr: the database unit, or NoSuchUnit for an unknown name |
| UnitParsing.UnitParser.MultiplyOperator | core/src/visad/branches/linestyle_20080630/data/units/UnitParser.java:286-302 | consumes one of `.`, `*` or WHITESPACE; any other token is a syntax error and is not consumed |
| UnitParsing.UnitParser.PowerSuffixOf | core/src/visad/branches/linestyle_20080630/data/units/UnitParser.java:331-359 | the optional [`^`] INTEGER power agrees with PowerSuffix |
| UnitParsing.UnitParser.PowerExpression | core/src/visad/branches/linestyle_20080630/data/units/UnitParser.java:304-368 | agrees with PowerExpr |
| UnitParsing.UnitParser.UnitProductList | core/src/visad/branches/linestyle_20080630/data/units/UnitParser.java:215-284 | the loop agrees with ProductList (invariant: the rest of the product from the cursor, folded into the current unit, is the whole product) |
| UnitParsing.UnitParser.ProductFactor | core/src/visad/branches/linestyle_20080630/data/units/UnitParser.java:220-280 | one loop round either folds a factor, leaving the rest of the product unchanged in meaning, or ends the product as ProductRest says |
| UnitParsing.UnitParser.NumericalTerm | core/src/visad/branches/linestyle_20080630/data/units/UnitParser.java:482-518 | the loop agrees with the NumericalTerm function |
| UnitParsing.UnitParser.ValueExpression | core/src/visad/branches/linestyle_20080630/data/units/UnitParser.java:460-480 | agrees with ValueExpr |
| UnitParsing.UnitParser.ZoneOf | core/src/visad/branches/linestyle_20080630/data/units/UnitParser.java:600-660 | the optional zone (nothing, or an optional WHITESPACE and the zone token) agrees with Zone in its value or error and in its final cursor |
| UnitParsing.UnitParser.ZoneValueOf | core/src/visad/branches/linestyle_20080630/data/units/UnitParser.java:614-650 | the zone token (INTEGER hours or HHMM, TIME `±H:M`, or a zone name) agrees with ZoneValue |
| UnitParsing.UnitParser.HourOf | core/src/visad/branches/linestyle_20080630/data/units/UnitParser.java:580-599 | the INTEGER or TIME hour agrees with TimeOfDay, consuming it through jj_consume_token |
| UnitParsing.UnitParser.TimestampTerm | core/src/visad/branches/linestyle_20080630/data/units/UnitParser.java:540-679 | agrees with the TimestampTerm function |
| UnitParsing.UnitParser.TimestampExpression | core/src/visad/branches/linestyle_20080630/data/units/UnitParser.java:520-538 | agrees with TimestampExpr |
| UnitParsing.UnitParser.ShiftExpression | core/src/visad/branches/linestyle_20080630/data/units/UnitParser.java:434-457 | agrees with ShiftExpr, which takes the timestamp branch exactly when the jj_2_1(3) scan does not miss |
| UnitParsing.UnitParser.UnitSpec | core/src/visad/branches/linestyle_20080630/data/units/UnitParser.java:168-213 | returns exactly the unit or error that the UnitSpec function gives for the whole token sequence |
| UnitGrammarFacts.ChainStart | core/src/visad/branches/linestyle_20080630/data/units/UnitParser.java:331-333 | the token after a factor of a chain is never read as a power |
| UnitGrammarFacts.FactorStep | core/src/visad/branches/linestyle_20080630/data/units/UnitParser.java:236-275 | one named factor: an unknown name fails; after DIVIDE the product is divided; otherwise it is multiplied |
| UnitGrammarFacts.ProductChain | core/src/visad/branches/linestyle_20080630/data/units/UnitParser.java:215-283 | the product loop over a chain of names is the left fold of their units: multiply, or divide after DIVIDE, with the first failure as the result |
| UnitGrammarFacts.ProductListChain | core/src/visad/branches/linestyle_20080630/data/units/UnitParser.java:215-283 | a product list made of names is the left fold starting from the first name's unit |
| UnitGrammarFacts.OperandStep | core/src/visad/branches/linestyle_20080630/data/units/UnitParser.java:220-275 | one factor of any form (an optional operator, then a power expression): after DIVIDE the product so far is divided by its unit, or fails with CannotDivide; otherwise it is multiplied |
| UnitGrammarFacts.ProductFold | core/src/visad/branches/linestyle_20080630/data/units/UnitParser.java:215-283 | the product loop over any run of factors, up to a token that neither multiplies nor divides, is the left fold of their units, with the first failed division as the result |
| UnitGrammarFacts.FactorFails | core/src/visad/branches/linestyle_20080630/data/units/UnitParser.java:236-275 | a factor whose power expression fails ends the product with that error |
| UnitGrammarFacts.ProductFails | core/src/visad/branches/linestyle_20080630/data/units/UnitParser.java:215-283 | after any run of factors, a factor that fails ends the product with its error, unless a division before it has already failed |
| UnitGrammarFacts.ProductListFold | core/src/visad/branches/linestyle_20080630/data/units/UnitParser.java:215-283 | a whole product list is the left fold of its factors starting from the first factor's unit |
| UnitGrammarFacts.PowerExprStart | core/src/visad/branches/linestyle_20080630/data/units/UnitParser.java:304-368 | a power expression that parses starts with a number, a name or `(` |
| UnitGrammarFacts.ProductSpec | core/src/visad/branches/linestyle_20080630/data/units/UnitParser.java:168-213 | a whole specification made of names, such as `kg m/s`, denotes the left fold of their units |
| UnitGrammarFacts.TokenScan | core/src/visad/branches/linestyle_20080630/data/units/UnitParser.java:897-916 | scanning one token keeps the scan state consistent; a matching kind reaches the next token, and any other kind misses |
| UnitGrammarFacts.ZoneAbsent | core/src/visad/branches/linestyle_20080630/data/units/UnitParser.java:706-719 | jj_3R_12 misses, harmlessly, where no zone starts |
| UnitGrammarFacts.ZoneReaches | core/src/visad/branches/linestyle_20080630/data/units/UnitParser.java:706-719 | jj_3R_12 scans through every zone the parser reads |
| UnitGrammarFacts.ClockAbsent | core/src/visad/branches/linestyle_20080630/data/units/UnitParser.java:741-756 | jj_3R_7 misses, harmlessly, where no time of day starts |
| UnitGrammarFacts.SeparatorReaches | core/src/visad/branches/linestyle_20080630/data/units/UnitParser.java:741-747 | the separator scan (NAME, or optional WHITESPACE) never misses |
| UnitGrammarFacts.HourReaches | core/src/visad/branches/linestyle_20080630/data/units/UnitParser.java:748-752 | the hour scan matches an INTEGER or TIME hour |
| UnitGrammarFacts.ClockReaches | core/src/visad/branches/linestyle_20080630/data/units/UnitParser.java:741-756 | jj_3R_7 scans through every time of day the parser reads |
| UnitGrammarFacts.TermReaches | core/src/visad/branches/linestyle_20080630/data/units/UnitParser.java:693-699 | jj_3R_6 scans through every timestamp term the parser reads |
| UnitGrammarFacts.ExprReaches | core/src/visad/branches/linestyle_20080630/data/units/UnitParser.java:721-729 | jj_3R_3 scans through every timestamp expression the parser reads |
| UnitGrammarFacts.TimestampAlwaysSeen | core/src/visad/branches/linestyle_20080630/data/units/UnitParser.java:681-686 | soundness of jj_2_1(3): wherever a timestamp expression parses, the lookahead chooses the timestamp branch |
| UnitGrammarFacts.ShiftTakesTimestamp | core/src/visad/branches/linestyle_20080630/data/units/UnitParser.java:434-441 | a shift before a well-formed timestamp reads it, and accepts it only for a unit convertible to seconds |
| UnitGrammarFacts.ShiftTakesValue | core/src/visad/branches/linestyle_20080630/data/units/UnitParser.java:442-456 | a shift before anything but a date or `(` does not look like a timestamp, and reads a numeric origin or fails at that token |
| UnitGrammarFacts.TwoParenthesesAreAValue | core/src/visad/branches/linestyle_20080630/data/units/UnitParser.java:681-797 | `m @ ((5))` is the metre shifted by 5 |
| UnitGrammarFacts.ThreeParenthesesAreATimestamp | core/src/visad/branches/linestyle_20080630/data/units/UnitParser.java:681-797 | `m @ (((5)))` exhausts the three-token lookahead, commits to a timestamp, and fails at the 5 |
| UnitGrammarFacts.EmptySpec | core/src/visad/branches/linestyle_20080630/data/units/UnitParser.java:192-200 | an empty specification is the dimensionless unit 1 |
| UnitGrammarFacts.LeadingShift | core/src/visad/branches/linestyle_20080630/data/units/UnitParser.java:174-196 | a specification that starts with the shift token is a syntax error at that token |
| UnitGrammarFacts.TimeOrigin | core/src/visad/branches/linestyle_20080630/data/units/UnitParser.java:201-210 | for a unit of time the new zero stands for `origin` seconds; a zero-scale unit is an invalid specification |
| UnitGrammarFacts.ValueOrigin | core/src/visad/branches/linestyle_20080630/data/units/UnitParser.java:203-205 | for any other unit the new zero is `origin` old units |
| UnitGrammarFacts.TrailingTokens | core/src/visad/branches/linestyle_20080630/data/units/UnitParser.java:196 | tokens left after the specification are a syntax error at the first of them |
| UnitGrammarFacts.IntegerWithFraction | core/src/visad/branches/linestyle_20080630/data/units/UnitParser.java:387-400 | `a.d` is a + 0.d for a >= 0, and a negative integer before the point is refused |
| UnitGrammarFacts.FractionAdded | core/src/visad/branches/linestyle_20080630/data/units/UnitParser.java:397-400 | a fraction in [0, 1) added to a whole part of -1 or less is refused, and added to 0 or more is accepted |
| UnitGrammarFacts.IntegerWithPoint | core/src/visad/branches/linestyle_20080630/data/units/UnitParser.java:387-404 | `a.` with no digits after it is the integer a, and it consumes both tokens |
| UnitGrammarFacts.IntegerNumber | core/src/visad/branches/linestyle_20080630/data/units/UnitParser.java:387-409 | a decimal integer not followed by `.` is its value, and it consumes one token |
| UnitGrammarFacts.NumberProduct | core/src/visad/branches/linestyle_20080630/data/units/UnitParser.java:482-503 | two adjacent integers in a numeric origin multiply |
| UnitGrammarFacts.NumberQuotient | core/src/visad/branches/linestyle_20080630/data/units/UnitParser.java:482-508 | `a/b` in a numeric origin is a / b, and a zero divisor is refused |
| UnitGrammarFacts.NumbersFold | core/src/visad/branches/linestyle_20080630/data/units/UnitParser.java:485-516 | the loop of numericalTerm over any run of numbers, each perhaps after DIVIDE, multiplies and divides from the left, and a zero divisor is refused |
| UnitGrammarFacts.NumbersFail | core/src/visad/branches/linestyle_20080630/data/units/UnitParser.java:485-516 | a number that fails to parse ends the term with its error, unless a division by zero before it has already failed |
| UnitGrammarFacts.NumericalTermFold | core/src/visad/branches/linestyle_20080630/data/units/UnitParser.java:482-518 | a numerical term is the left fold of the numbers after its first one |
| UnitGrammarFacts.IntegerZoneFields | core/src/visad/branches/linestyle_20080630/data/units/UnitParser.java:615-626 | an INTEGER zone of three or more digits is HHMM, with the sign on both the hours and the minutes |
| UnitGrammarFacts.IntegerZoneHours | core/src/visad/branches/linestyle_20080630/data/units/UnitParser.java:615-626 | a shorter INTEGER zone counts hours |
| UnitGrammarFacts.ColonFields | core/src/visad/branches/linestyle_20080630/data/units/UnitParser.java:587-591 | a TIME image `A:B` splits into exactly A and B |
| UnitGrammarFacts.TimeZoneOfParts | core/src/visad/branches/linestyle_20080630/data/units/UnitParser.java:628-639 | a TIME zone is `zoneHour*60 + zoneMinute*sign` of its two fields, with the sign taken from the image |
| UnitGrammarFacts.ZoneNoWrap | core/src/visad/branches/linestyle_20080630/data/units/UnitParser.java:639 | for zones of plausible size the 32-bit arithmetic does not wrap |
| UnitGrammarFacts.ZoneHourField | core/src/visad/branches/linestyle_20080630/data/units/UnitParser.java:634-636 | the hour field is read with its sign, including `-0` |
| UnitGrammarFacts.TimeZoneOfFields | core/src/visad/branches/linestyle_20080630/data/units/UnitParser.java:628-639 | `H:M` is H·60 + M minutes and `-H:M` is -(H·60 + M) |
| UnitGrammarFacts.PowerOfName | core/src/visad/branches/linestyle_20080630/data/units/UnitParser.java:315-354 | `name^n` and `name n` are the named unit raised to n |
| UnitGrammarFacts.DateRoundTrip | core/src/visad/branches/linestyle_20080630/data/units/UnitParser.java:552-557 | the year, month and day are read back from the `Y-M-D` image they were written to |
| UnitGrammarFacts.DateAlone | core/src/visad/branches/linestyle_20080630/data/units/UnitParser.java:540-679 | a date alone is midnight UTC of that day when the month and day are in range, and an invalid timestamp otherwise |
| UnitGrammarFacts.WordsAfterDate | core/src/visad/branches/linestyle_20080630/data/units/UnitParser.java:564-649 | after a date, a word other than `T` is an invalid timestamp; as a zone, only UTC, GMT, ZULU and Z are accepted, and they mean offset 0 |
| UnitGrammarFacts.DateTimeInUtc | core/src/visad/branches/linestyle_20080630/data/units/UnitParser.java:540-679 | `Y-M-DTH:MZ` is encodeTimestamp of that date and time with zone 0, consuming all four tokens |
| UnitGrammarFacts.ZuluTimestamp | core/src/visad/branches/linestyle_20080630/data/units/UnitParser.java:540-679 | DateTimeInUtc for any date and time images that read back as the given fields |
| UnitGrammarFacts.DateTimeZone | core/src/visad/branches/linestyle_20080630/data/units/UnitParser.java:540-679 | a date, `T` or a space, a time of day and a zone give encodeTimestamp of those fields when month, day, hour, minute, second and zone are all in range, and an invalid timestamp otherwise |
| UnitGrammarFacts.AcceptedTimestampInRange | core/src/visad/branches/linestyle_20080630/data/units/UnitParser.java:666-677 | every accepted timestamp has its month, day, hour, minute, second and zone in range, and is encodeTimestamp of them |
| UnitGrammarFacts.HalfPastNoonEncoded | core/src/visad/branches/linestyle_20080630/data/units/UnitParser.java:119-125 | 2001-01-01 12:30 UTC encodes as 45000 seconds |
| UnitGrammarFacts.TimeOfClock | core/src/visad/branches/linestyle_20080630/data/units/UnitParser.java:585-593 | a TIME image `H:M` is H hours and M minutes with no seconds |
| McidasArea.Flip | core/src/edu/trunk/wisc/ssec/mcidas/AreaDirectory.java:183 | `McIDASUtil.flip` on one word; FlipReversesBytes and FlipFlip state that it reverses the bytes and is its own inverse |
| McidasArea.FlipNumeric | core/src/edu/trunk/wisc/ssec/mcidas/AreaDirectory.java:188-196 | the second flipping stage; FlipNumericWords states exactly which words it flips |
| McidasArea.Normalize | core/src/edu/trunk/wisc/ssec/mcidas/AreaDirectory.java:179-197 | the block as the constructor leaves it; NormalizeWords, NormalizedVersion, NormalizeIdempotent and ReadsForeignOrder state what it does |
| McidasArea.SetBits | core/src/edu/trunk/wisc/ssec/mcidas/AreaDirectory.java:221-230 | the bands one band-mask loop lists; SetBitsMembers and SetBitsAscending state them |
| McidasArea.FoundBands | core/src/edu/trunk/wisc/ssec/mcidas/AreaDirectory.java:218-241 | the bands both loops list; FoundBandsMembers and FoundBandsAscending state them |
| McidasArea.BandSlots | core/src/edu/trunk/wisc/ssec/mcidas/AreaDirectory.java:218-241 | the band array or TooManyBands; FillAllBands states that the in-place loops produce it |
| McidasArea.BandList | core/src/edu/trunk/wisc/ssec/mcidas/AreaDirectory.java:218-241 | the band array of a block; BandListLength, BandListMembers, BandListLow, BandListHigh, BandListRange and BandListAscending state it |
| McidasArea.NominalTime | core/src/edu/trunk/wisc/ssec/mcidas/AreaDirectory.java:204-207 | the image date and time words; GetNominalTime states them for a directory |
| McidasArea.AreaDirectory.Valid | core/src/edu/trunk/wisc/ssec/mcidas/AreaDirectory.java:169-248 | what the constructor establishes; FromBlock ensures it and the getters rely on it |
| McidasArea.FlipReversesBytes | core/src/edu/trunk/wisc/ssec/mcidas/AreaDirectory.java:183 | flipping a word reverses its four bytes |
| McidasArea.FlipFlip | core/src/edu/trunk/wisc/ssec/mcidas/AreaDirectory.java:183 | flipping twice gives the word back |
| McidasArea.VersionNotPalindrome | core/src/edu/trunk/wisc/ssec/mcidas/AreaDirectory.java:181-186 | the version number flipped is a different word, so the two byte orders can be told apart |
| McidasArea.FlipWords | core/src/edu/trunk/wisc/ssec/mcidas/AreaDirectory.java:183-196 | exactly the words in the range are flipped, and the others are unchanged |
| McidasArea.FlipNumericWords | core/src/edu/trunk/wisc/ssec/mcidas/AreaDirectory.java:188-196 | the second stage flips word 20 only when its low half is zero, then words 21-23, 32-50, 53-55 and 57-63, and nothing else |
| McidasArea.NormalizeWords | core/src/edu/trunk/wisc/ssec/mcidas/AreaDirectory.java:181-197 | a block in the other byte order comes out with exactly its numeric words flipped |
| McidasArea.CharacterWordsKept | core/src/edu/trunk/wisc/ssec/mcidas/AreaDirectory.java:191-195 | the memo (24-31), calibration (51-52) and source-type (56) words are never flipped |
| McidasArea.NormalizedVersion | core/src/edu/trunk/wisc/ssec/mcidas/AreaDirectory.java:181-187 | an accepted block comes out with its version word reading 4 |
| McidasArea.NormalizeIdempotent | core/src/edu/trunk/wisc/ssec/mcidas/AreaDirectory.java:179-197 | normalizing an accepted block twice is normalizing it once |
| McidasArea.SmallNumberFlipped | core/src/edu/trunk/wisc/ssec/mcidas/AreaDirectory.java:189 | a small number written in the other byte order has a zero low half, so the word-20 test recognises it |
| McidasArea.ForeignHeader | core/src/edu/trunk/wisc/ssec/mcidas/AreaDirectory.java:181-189 | a native block written in the other byte order fails the first version test, passes after the flip, and its word 20 is classified as it was written |
| McidasArea.ReadsForeignOrder | core/src/edu/trunk/wisc/ssec/mcidas/AreaDirectory.java:179-197 | round trip: a native block written in the other byte order is read back as the native block, except when word 20 holds characters with a zero low half |
| McidasArea.FlipRange | core/src/edu/trunk/wisc/ssec/mcidas/AreaDirectory.java:183-196 | the in-place flip of a word range leaves the array as FlipWords says |
| McidasArea.NormalizeInPlace | core/src/edu/trunk/wisc/ssec/mcidas/AreaDirectory.java:181-197 | the in-place flips leave the block as Normalize says, and the result is true exactly when the version word reads right before or after the flip |
| McidasArea.Zeros | core/src/edu/trunk/wisc/ssec/mcidas/AreaDirectory.java:219 | `new int[n]` is n zeros |
| McidasArea.SetBitsMembers | core/src/edu/trunk/wisc/ssec/mcidas/AreaDirectory.java:221-230 | the band-mask loop lists position i + offset exactly when bit i of the mask is set |
| McidasArea.SetBitsAscending | core/src/edu/trunk/wisc/ssec/mcidas/AreaDirectory.java:221-230 | the bands the loop lists are strictly ascending and within its 32 positions |
| McidasArea.FoundBandsMembers | core/src/edu/trunk/wisc/ssec/mcidas/AreaDirectory.java:218-241 | bands 1-32 come from the band map, bands 33-64 from the next word (only with more than 32 bands), and no others |
| McidasArea.BandListLength | core/src/edu/trunk/wisc/ssec/mcidas/AreaDirectory.java:218-219 | the band array has as many slots as the band-count word says |
| McidasArea.BandListMembers | core/src/edu/trunk/wisc/ssec/mcidas/AreaDirectory.java:218-241 | a band is listed exactly when its bit is set (bands 33-64 only for more than 32 bands), and every other slot is zero |
| McidasArea.BandListLow | core/src/edu/trunk/wisc/ssec/mcidas/AreaDirectory.java:221-230 | bands 1-32 are listed exactly when their bit is set in the band map |
| McidasArea.BandListHigh | core/src/edu/trunk/wisc/ssec/mcidas/AreaDirectory.java:231-241 | bands 33-64 are listed exactly when there are more than 32 bands and their bit is set in the second word |
| McidasArea.BandListRange | core/src/edu/trunk/wisc/ssec/mcidas/AreaDirectory.java:218-241 | every nonzero slot holds a band from 1 to 64 |
| McidasArea.FoundBandsAscending | core/src/edu/trunk/wisc/ssec/mcidas/AreaDirectory.java:218-241 | the bands found are positive and strictly ascending |
| McidasArea.BandListAscending | core/src/edu/trunk/wisc/ssec/mcidas/AreaDirectory.java:218-241 | the band array is strictly ascending up to its zero padding |
| McidasArea.ThreeBands | core/src/edu/trunk/wisc/ssec/mcidas/AreaDirectory.java:218-241 | three bands with map 0b1011 give bands 1, 2 and 4 |
| McidasArea.TwoBandsOverflow | core/src/edu/trunk/wisc/ssec/mcidas/AreaDirectory.java:218-230 | the same map with a band count of 2 overruns the band array |
| McidasArea.FillBands | core/src/edu/trunk/wisc/ssec/mcidas/AreaDirectory.java:221-230 | the band-mask loop writes the set bits (plus offset) after position j0 and leaves the rest of the array as it was; it overflows exactly when they do not fit |
| McidasArea.FillAllBands | core/src/edu/trunk/wisc/ssec/mcidas/AreaDirectory.java:220-241 | the two loops on a zeroed array produce BandSlots, or overflow exactly when BandSlots is an error |
| McidasArea.DecodeBands | core/src/edu/trunk/wisc/ssec/mcidas/AreaDirectory.java:218-241 | a fresh array holding BandList of the block, or BandList's error (a negative count or too many set bits) |
| McidasArea.StartTime | core/src/edu/trunk/wisc/ssec/mcidas/AreaDirectory.java:209-216 | the start time is the nominal time when the start date and start time words are both zero, and those words otherwise |
| McidasArea.AreaDirectory.FromBlock | core/src/edu/trunk/wisc/ssec/mcidas/AreaDirectory.java:169-248 | wrong size: an error, with the block untouched; otherwise the caller's block is left normalized (even when the version check then fails); a bad version is an error; otherwise the object is built around that same array, with the band list and times of the block |
| McidasArea.AreaDirectory.Copy | core/src/edu/trunk/wisc/ssec/mcidas/AreaDirectory.java:257-261 | runs the block constructor on the other object's own block, so every outcome of FromBlock carries over, stated on that shared block as it was before the call; for a valid directory it succeeds, leaves the shared block unchanged, and gives the same bands and times |
| McidasArea.AreaDirectory.DirectoryBlock | core/src/edu/trunk/wisc/ssec/mcidas/AreaDirectory.java:284-287 | returns the directory array itself, not a copy |
| McidasArea.AreaDirectory.Value | core/src/edu/trunk/wisc/ssec/mcidas/AreaDirectory.java:271-277 | corrected getValue: the word for 0 <= pointer < 64, and "Invalid pointer" for every other pointer |
| McidasArea.AreaDirectory.ValueAsWritten | core/src/edu/trunk/wisc/ssec/mcidas/AreaDirectory.java:271-277 | getValue as written: the word for 0 <= pointer < 64; "Invalid pointer" exactly for pointer < 0 or pointer > 64; pointer 64 passes the guard and fails on the array read instead |
| McidasArea.DirSizePassesGuard | core/src/edu/trunk/wisc/ssec/mcidas/AreaDirectory.java:273-276 | pointer 64 passes the guard as written and the read fails; the corrected version rejects it |
| McidasArea.AreaDirectory.NumberOfBands | core/src/edu/trunk/wisc/ssec/mcidas/AreaDirectory.java:314-317 | the band-count word, which is also the length of the band array |
| McidasArea.AreaDirectory.Lines | core/src/edu/trunk/wisc/ssec/mcidas/AreaDirectory.java:324-327 | the number-of-lines word (word 8) |
| McidasArea.AreaDirectory.Elements | core/src/edu/trunk/wisc/ssec/mcidas/AreaDirectory.java:334-337 | the number-of-elements word (word 9) |
| McidasArea.AreaDirectory.GetNominalTime | core/src/edu/trunk/wisc/ssec/mcidas/AreaDirectory.java:294-297 | the image date and time words (3 and 4) of a valid directory |
| McidasArea.AreaDirectory.GetStartTime | core/src/edu/trunk/wisc/ssec/mcidas/AreaDirectory.java:304-307 | the start date and time words (45 and 46), or the nominal time when both are zero |
| McidasArea.AreaDirectory.GetBands | core/src/edu/trunk/wisc/ssec/mcidas/AreaDirectory.java:365-368 | the band array itself, whose contents are BandList of the block |

## Left out

- The token manager (`UnitParserTokenManager`, not part of this model): the parser takes a token sequence. A position past the end reads as EOF, as the token manager keeps returning EOF.
- The units database (`UnitsDB`) is a parameter `db: map<string, Unit>`. The unit class hierarchy (ScaledUnit, DerivedUnit, OffsetUnit and so on) is not part of this model. A unit is a value made of a scale, base-unit exponents and an origin.
- Units.Divide: the Java unit classes are not part of this model, so the refusal condition (a divisor of scale 0) is a modelling assumption, not taken from the Java `divide`.
- Units.Pow: likewise, refusing exactly a negative power of a zero-scale unit is a modelling assumption about the Java `pow`.
- Units.ToThis: likewise, refusing exactly a zero-scale unit is a modelling assumption about the Java `toThis`.
- Units.IsTimeConvertible: `Unit.canConvert(unit, second)` is modelled as the unit's dimension being exactly seconds (`dims == {"s": 1}`), a modelling assumption since the Java unit classes are not part of this model.
- Lexical.FloatRoundTrip: the model parses decimal literals exactly. `Float.parseFloat` rounds to 24 significant bits, so the Java `(int) Float.parseFloat` loses ints beyond ±2^24; the exponents and zone hours it is applied to are far smaller.
- Units.Multiply: never fails. The Java `multiply` declares a UnitException ("Couldn't multiply units") that these unit values never trigger.
- `main`, `ReInit`, the constructors from streams, error reporting (`generateParseException`, `jj_expentries`, `jj_la1` tables, tracing) and the `jj_2_rtns` memo cache: I/O and diagnostics that do not change what is parsed.
- Floating-point rounding: numbers are exact reals. `Float.parseFloat`, `new Double(...)`, `second` as a `float`, and the `double` products of `numericalTerm` are not rounded. NaN, infinities, hexadecimal literals and the `d`/`f` suffixes are not among the images the grammar produces, so they are not modelled.
- NumberRest: a numeric origin divided by zero is an error (`ZeroDivisor`). Java would continue with Infinity or NaN, which real numbers cannot represent.
- Calendar.JulianDay: the `int` and `long` arithmetic is exact. Overflow for years beyond about ±5.8 million is not modelled.
- Lexical.ParseInt: follows the older `Integer.parseInt`, which refuses a leading `+`. The source comments at UnitParser.java lines 345-346 and 634-635 rely on this.
- Lexical.Fields: has no ensures of its own. The properties of the tokenizer are stated by Lexical.FieldsOfJoin and Lexical.Run.
- UnitParsing.UnitParser.PointNumber: checks the INTEGER after the point itself instead of calling Consume. It raises the same error as `jj_consume_token` would.
- `McIDASUtil.mcDayTimeToSecs` and `java.util.Date` are not part of this model. The nominal and start times are kept as the raw (day, time) word pairs.
- AreaFile.java and McIDASUtil.java are not part of this model. The `AreaFile.AD_*` word indices are taken from the McIDAS AREA directory layout: size 64, version word 1 (number 4), date 3, time 4, lines 8, elements 9, band count 13, band map 18 and 19, start date 45 and start time 46. `McIDASUtil.flip` is modelled as a byte reversal of each word in the range.
- The memo and calibration-type strings (`intBitsToString`), `getMemoField`, `getCalibrationType`, `getSensorType`, `setCalInfo`/`getCalInfo`, the centre latitude/longitude and resolution setters and getters, and `toString`. None of them reads or changes anything the rest of the directory depends on.
- An out-of-memory failure for a huge positive band count in `new int[numbands]`: memory is not modelled.

Three behaviours of the code worth knowing; the model follows them:

- a specification that starts with the shift token is a syntax error (UnitGrammarFacts.LeadingShift);
- a numeric origin on a unit of time is read in seconds through `toThis(origin, second)`, not in the unit's own scale (UnitGrammarFacts.TimeOrigin);
- the timestamp lookahead is the literal three-token scan, so `m @ (((5)))` fails where a backtracking reading would accept it (UnitGrammarFacts.ThreeParenthesesAreATimestamp).

## Findings

| source | as written | input that shows it | evidently intended | confidence | as-written member | corrected member |
|---|---|---|---|---|---|---|
| core/src/edu/trunk/wisc/ssec/mcidas/AreaDirectory.java:273-276 | `getValue` rejects `pointer > AD_DIRSIZE`, so `pointer == AD_DIRSIZE` (64) passes the guard and `dir[64]` throws ArrayIndexOutOfBoundsException instead of "Invalid pointer" | `getValue(64)` on any directory | reject `pointer >= AD_DIRSIZE` | not executed | McidasArea.AreaDirectory.ValueAsWritten, McidasArea.DirSizePassesGuard | McidasArea.AreaDirectory.Value |
