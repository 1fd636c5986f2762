/**
 * The recursive-descent parser: one method per grammar rule, advancing a
 * cursor over the token sequence. Each method is proved to compute what the
 * grammar function of the same rule in UnitGrammar says, both the value and
 * the position it leaves the cursor at.
 */
module UnitParsing {
  import opened Wrappers
  import opened Lexical
  import opened Calendar
  import opened Units
  import opened UnitGrammar

  /** A method's outcome agrees with a rule's: the same value and cursor, or the same error. */
  ghost predicate Agrees<T>(r: Result<T, ParseError>, s: Parsed<T>, pos: nat) {
    match s
    case Done(v, n) => r == Ok(v) && pos == n
    case Fail(e) => r == Err(e)
  }

  /** One step of a product list: the factor at q (after its operator, if any) decides the rest. */
  lemma ProductStep(toks: seq<Token>, db: map<string, Unit>, acc: Unit, q: nat, q1: nat,
                    factor: Result<Unit, ParseError>, next: nat)
    requires q <= q1 <= |toks| && next <= |toks|
    requires ContinuesProduct(Kind(toks, q)) || Kind(toks, q) == DIVIDE
    requires q1 == if Kind(toks, q) == DIVIDE || IsMultiplyOperator(Kind(toks, q)) then q + 1 else q
    requires Agrees(factor, PowerExpr(toks, db, q1), next)
    ensures factor.Err? ==> ProductRest(toks, db, acc, q) == Fail(factor.error)
    ensures factor.Ok? && Kind(toks, q) != DIVIDE ==>
      ProductRest(toks, db, acc, q) == ProductRest(toks, db, Multiply(acc, factor.value), next)
    ensures factor.Ok? && Kind(toks, q) == DIVIDE ==>
      ProductRest(toks, db, acc, q) ==
        match Divide(acc, factor.value)
        case Err(_) => Fail(ParseError.CannotDivide)
        case Ok(v) => ProductRest(toks, db, v, next)
  {
  }

  /** The first factor of a product list decides whether the rest is parsed. */
  lemma ProductStart(toks: seq<Token>, db: map<string, Unit>, p: nat,
                     first: Result<Unit, ParseError>, next: nat)
    requires p <= |toks| && next <= |toks|
    requires Agrees(first, PowerExpr(toks, db, p), next)
    ensures first.Err? ==> ProductList(toks, db, p) == Fail(first.error)
    ensures first.Ok? ==> ProductList(toks, db, p) == ProductRest(toks, db, first.value, next)
  {
  }

  /** The first number of a numerical term decides whether the rest is parsed. */
  lemma NumberStart(toks: seq<Token>, p: nat, first: Result<real, ParseError>, next: nat)
    requires p <= |toks| && next <= |toks|
    requires Agrees(first, NumberExpr(toks, p), next)
    ensures first.Err? ==> UnitGrammar.NumericalTerm(toks, p) == Fail(first.error)
    ensures first.Ok? ==> UnitGrammar.NumericalTerm(toks, p) == NumberRest(toks, first.value, next)
  {
  }

  /** A number after a number multiplies the value so far. */
  lemma NumberTimes(toks: seq<Token>, acc: real, q: nat, factor: Result<real, ParseError>, next: nat)
    requires q <= |toks| && next <= |toks|
    requires StartsNumber(Kind(toks, q))
    requires Agrees(factor, NumberExpr(toks, q), next)
    ensures factor.Err? ==> NumberRest(toks, acc, q) == Fail(factor.error)
    ensures factor.Ok? ==> NumberRest(toks, acc, q) == NumberRest(toks, Times(acc, factor.value), next)
  {
  }

  /** A division sign and a number divide the value so far; a zero divisor is refused. */
  lemma NumberOver(toks: seq<Token>, acc: real, q: nat, q1: nat, factor: Result<real, ParseError>, next: nat)
    requires q < q1 == q + 1 <= |toks| && next <= |toks|
    requires Kind(toks, q) == DIVIDE
    requires Agrees(factor, NumberExpr(toks, q1), next)
    ensures factor.Err? ==> NumberRest(toks, acc, q) == Fail(factor.error)
    ensures factor.Ok? && factor.value == 0.0 ==> NumberRest(toks, acc, q) == Fail(ZeroDivisor)
    ensures factor.Ok? && factor.value != 0.0 ==>
      NumberRest(toks, acc, q) == NumberRest(toks, Over(acc, factor.value), next)
  {
  }

  class UnitParser {
    /** The tokens of the specification, ending implicitly with EOF. */
    const tokens: seq<Token>
    /** The units database: unit names and the units they denote. */
    const db: map<string, Unit>
    /** The index of the next token to be consumed. */
    var pos: nat
    /** Whether the unit being decoded is convertible to seconds. */
    var isTime: bool

    constructor (tokens: seq<Token>, db: map<string, Unit>)
      ensures this.tokens == tokens && this.db == db
      ensures pos == 0 && !isTime
    {
      this.tokens := tokens;
      this.db := db;
      pos := 0;
      isTime := false;
    }

    /** jj_consume_token: take the next token if it has the expected kind. */
    method Consume(kind: int) returns (r: Result<string, ParseError>)
      requires pos <= |tokens| && kind != EOF
      modifies this`pos
      ensures Kind(tokens, old(pos)) == kind ==> r == Ok(Image(tokens, old(pos))) && pos == old(pos) + 1
      ensures Kind(tokens, old(pos)) != kind ==> r == Err(Syntax(old(pos))) && pos == old(pos)
      ensures pos <= |tokens|
    {
      if Kind(tokens, pos) == kind {
        r := Ok(Image(tokens, pos));
        pos := pos + 1;
      } else {
        r := Err(Syntax(pos));
      }
    }

    /** numberExpression */
    method NumberExpression() returns (r: Result<real, ParseError>)
      requires pos <= |tokens|
      modifies this`pos
      ensures pos <= |tokens|
      ensures Agrees(r, NumberExpr(tokens, old(pos)), pos)
    {
      var k := Kind(tokens, pos);
      if k == INTEGER {
        r := IntegerNumber();
      } else if k == POINT {
        r := PointNumber();
      } else if k == REAL {
        r := RealNumber();
      } else {
        r := Err(Syntax(pos));
      }
    }

    /** The '.' INTEGER alternative of numberExpression. */
    method PointNumber() returns (r: Result<real, ParseError>)
      requires pos <= |tokens| && Kind(tokens, pos) == POINT
      modifies this`pos
      ensures pos <= |tokens|
      ensures Agrees(r, BareFraction(tokens, old(pos)), pos)
    {
      pos := pos + 1;
      if Kind(tokens, pos) != INTEGER { return Err(Syntax(pos)); }
      var digits := Image(tokens, pos);
      pos := pos + 1;
      r := AddFraction(0.0, digits);
    }

    /** The REAL alternative of numberExpression. */
    method RealNumber() returns (r: Result<real, ParseError>)
      requires pos <= |tokens| && Kind(tokens, pos) == REAL
      modifies this`pos
      ensures pos <= |tokens|
      ensures Agrees(r, RealLiteral(tokens, old(pos)), pos)
    {
      var t := Consume(REAL);
      var v := ParseDecimal(t.value);
      if v.None? { return Err(BadNumber(t.value)); }
      r := Ok(v.value);
    }

    /** The INTEGER ['.' [INTEGER]] alternative of numberExpression. */
    method IntegerNumber() returns (r: Result<real, ParseError>)
      requires pos <= |tokens| && Kind(tokens, pos) == INTEGER
      modifies this`pos
      ensures pos <= |tokens|
      ensures Agrees(r, WholeNumber(tokens, old(pos)), pos)
    {
      ghost var p := pos;
      var t := Consume(INTEGER);
      assert t.value == Image(tokens, p) && pos == p + 1;
      var n := ParseInt(t.value);
      if n.None? {
        r := Err(BadNumber(t.value));
      } else {
        r := FractionPart(n.value as real);
      }
    }

    /** The optional '.' [INTEGER] after the integer part, added to it. */
    method FractionPart(whole: real) returns (r: Result<real, ParseError>)
      requires pos <= |tokens|
      modifies this`pos
      ensures pos <= |tokens|
      ensures Agrees(r, FractionTail(tokens, whole, old(pos)), pos)
    {
      if Kind(tokens, pos) == POINT {
        pos := pos + 1;
        if Kind(tokens, pos) == INTEGER {
          var t := Consume(INTEGER);
          r := AddFraction(whole, t.value);
          return;
        }
      }
      r := Ok(whole);
    }

    /** `value += new Double("." + image)`, refusing a negative sum. */
    static method AddFraction(whole: real, digits: string) returns (r: Result<real, ParseError>)
      ensures r == WithFraction(whole, digits)
    {
      var f := ParseDecimal("." + digits);
      if f.None? { return Err(BadNumber("." + digits)); }
      var value := whole + f.value;
      if value < 0.0 { return Err(NegativeFraction); }
      r := Ok(value);
    }

    /** nameExpression */
    method NameExpression() returns (r: Result<Unit, ParseError>)
      requires pos <= |tokens|
      modifies this`pos
      ensures pos <= |tokens|
      ensures Agrees(r, NameExpr(tokens, db, old(pos)), pos)
    {
      var t := Consume(NAME);
      if t.Err? { return Err(t.error); }
      if t.value !in db { return Err(NoSuchUnit(t.value)); }
      r := Ok(db[t.value]);
    }

    /** multiply: one of the explicit multiplication operators. */
    method MultiplyOperator() returns (r: Result<(), ParseError>)
      requires pos <= |tokens|
      modifies this`pos
      ensures IsMultiplyOperator(Kind(tokens, old(pos))) ==> r.Ok? && pos == old(pos) + 1
      ensures !IsMultiplyOperator(Kind(tokens, old(pos))) ==> r == Err(Syntax(old(pos))) && pos == old(pos)
      ensures pos <= |tokens|
    {
      if IsMultiplyOperator(Kind(tokens, pos)) {
        pos := pos + 1;
        r := Ok(());
      } else {
        r := Err(Syntax(pos));
      }
    }

    /** The optional ['^'] INTEGER after a name or a parenthesised product. */
    method PowerSuffixOf(u: Unit) returns (r: Result<Unit, ParseError>)
      requires pos <= |tokens|
      modifies this`pos
      ensures pos <= |tokens|
      ensures Agrees(r, PowerSuffix(tokens, u, old(pos)), pos)
    {
      var k := Kind(tokens, pos);
      if k != INTEGER && k != CARET { return Ok(u); }
      if k == CARET { pos := pos + 1; }
      var t := Consume(INTEGER);
      if t.Err? { return Err(t.error); }
      var n := ParseFloatToInt(t.value);
      if n.None? { return Err(BadNumber(t.value)); }
      var v := Pow(u, n.value);
      if v.Err? { return Err(ParseError.CannotRaise); }
      r := Ok(v.value);
    }

    /** powerExpression */
    method PowerExpression() returns (r: Result<Unit, ParseError>)
      requires pos <= |tokens|
      modifies this`pos
      ensures pos <= |tokens|
      ensures Agrees(r, PowerExpr(tokens, db, old(pos)), pos)
      decreases |tokens| - pos, 0
    {
      var k := Kind(tokens, pos);
      if StartsNumber(k) {
        var v := NumberExpression();
        if v.Err? { return Err(v.error); }
        r := Ok(Scaled(v.value));
      } else if k == NAME {
        var u := NameExpression();
        if u.Err? { return u; }
        r := PowerSuffixOf(u.value);
      } else if k == LPAREN {
        pos := pos + 1;
        var u := UnitProductList();
        if u.Err? { return u; }
        var t := Consume(RPAREN);
        if t.Err? { return Err(t.error); }
        r := PowerSuffixOf(u.value);
      } else {
        r := Err(Syntax(pos));
      }
    }

    /** unitProductList: factors folded from the left by multiplication and division. */
    method UnitProductList() returns (r: Result<Unit, ParseError>)
      requires pos <= |tokens|
      modifies this`pos
      ensures pos <= |tokens|
      ensures Agrees(r, ProductList(tokens, db, old(pos)), pos)
      decreases |tokens| - pos, 2
    {
      var p0 := pos;
      var first := PowerExpression();
      ProductStart(tokens, db, p0, first, pos);
      if first.Err? { return first; }
      var unit1 := first.value;
      while true
        invariant p0 < pos <= |tokens|
        invariant ProductRest(tokens, db, unit1, pos) == ProductList(tokens, db, p0)
        decreases |tokens| - pos
      {
        var next, more := ProductFactor(unit1);
        if !more {
          return next;
        }
        unit1 := next.value;
      }
    }

    /**
     * One round of the unitProductList loop: an optional multiplication
     * operator and a factor, or a division and a factor, folded into acc;
     * or, at any other token, the end of the list.
     */
    method ProductFactor(acc: Unit) returns (r: Result<Unit, ParseError>, more: bool)
      requires pos <= |tokens|
      modifies this`pos
      ensures pos <= |tokens|
      ensures more ==> r.Ok? && old(pos) < pos
      ensures more ==> ProductRest(tokens, db, acc, old(pos)) == ProductRest(tokens, db, r.value, pos)
      ensures !more ==> Agrees(r, ProductRest(tokens, db, acc, old(pos)), pos)
      decreases |tokens| - pos, 1
    {
      var k := Kind(tokens, pos);
      ghost var q := pos;
      if ContinuesProduct(k) {
        if IsMultiplyOperator(k) {
          var m := MultiplyOperator();
        }
        ghost var q1 := pos;
        var factor := PowerExpression();
        ProductStep(tokens, db, acc, q, q1, factor, pos);
        if factor.Err? { return factor, false; }
        return Ok(Multiply(acc, factor.value)), true;
      } else if k == DIVIDE {
        pos := pos + 1;
        var factor := PowerExpression();
        ProductStep(tokens, db, acc, q, q + 1, factor, pos);
        if factor.Err? { return factor, false; }
        var d := Divide(acc, factor.value);
        if d.Err? { return Err(ParseError.CannotDivide), false; }
        return Ok(d.value), true;
      } else {
        ProductEnd(tokens, db, acc, pos);
        return Ok(acc), false;
      }
    }

    /** numericalTerm: numbers folded from the left by multiplication and division. */
    method NumericalTerm() returns (r: Result<real, ParseError>)
      requires pos <= |tokens|
      modifies this`pos
      ensures pos <= |tokens|
      ensures Agrees(r, UnitGrammar.NumericalTerm(tokens, old(pos)), pos)
    {
      var p0 := pos;
      var first := NumberExpression();
      NumberStart(tokens, p0, first, pos);
      if first.Err? { return first; }
      var value1 := first.value;
      while StartsNumber(Kind(tokens, pos)) || Kind(tokens, pos) == DIVIDE
        invariant p0 < pos <= |tokens|
        invariant NumberRest(tokens, value1, pos) == UnitGrammar.NumericalTerm(tokens, p0)
        decreases |tokens| - pos
      {
        ghost var q := pos;
        if Kind(tokens, pos) == DIVIDE {
          pos := pos + 1;
          ghost var q1 := pos;
          var value2 := NumberExpression();
          NumberOver(tokens, value1, q, q1, value2, pos);
          if value2.Err? { return value2; }
          if value2.value == 0.0 { return Err(ZeroDivisor); }
          value1 := Over(value1, value2.value);
        } else {
          var value2 := NumberExpression();
          NumberTimes(tokens, value1, q, value2, pos);
          if value2.Err? { return value2; }
          value1 := Times(value1, value2.value);
        }
      }
      NumberEnd(tokens, value1, pos);
      r := Ok(value1);
    }

    /** valueExpression */
    method ValueExpression() returns (r: Result<real, ParseError>)
      requires pos <= |tokens|
      modifies this`pos
      ensures pos <= |tokens|
      ensures Agrees(r, ValueExpr(tokens, old(pos)), pos)
      decreases |tokens| - pos
    {
      var k := Kind(tokens, pos);
      if StartsNumber(k) {
        r := NumericalTerm();
      } else if k == LPAREN {
        pos := pos + 1;
        var v := ValueExpression();
        if v.Err? { return v; }
        var t := Consume(RPAREN);
        if t.Err? { return Err(t.error); }
        r := v;
      } else {
        r := Err(Syntax(pos));
      }
    }

    /** The optional zone of a timestamp, in minutes. */
    method ZoneOf() returns (r: Result<int, ParseError>)
      requires pos <= |tokens|
      modifies this`pos
      ensures pos <= |tokens|
      ensures Agrees(r, Zone(tokens, old(pos)), pos)
    {
      var k := Kind(tokens, pos);
      if k != INTEGER && k != WHITESPACE && k != NAME && k != TIME { return Ok(0); }
      if k == WHITESPACE {
        var _ := Consume(WHITESPACE);
      }
      r := ZoneValueOf();
    }

    /** The zone token: hours (or HHMM), "±H:M", or a zone name. */
    method ZoneValueOf() returns (r: Result<int, ParseError>)
      requires pos <= |tokens|
      modifies this`pos
      ensures pos <= |tokens|
      ensures Agrees(r, ZoneValue(tokens, old(pos)), pos)
    {
      var k := Kind(tokens, pos);
      if k == INTEGER {
        var t := Consume(INTEGER);
        var n := ParseFloatToInt(t.value);
        if n.None? { return Err(BadNumber(t.value)); }
        r := Ok(IntegerZone(n.value));
      } else if k == TIME {
        var t := Consume(TIME);
        var z := TimeZoneFields(t.value);
        if z.None? { return Err(BadNumber(t.value)); }
        r := Ok(z.value);
      } else if k == NAME {
        var t := Consume(NAME);
        if !IsZoneName(t.value) { return Err(InvalidTimeZone); }
        r := Ok(0);
      } else {
        r := Err(Syntax(pos));
      }
    }

    /** The hour of a timestamp: an INTEGER hour, or a TIME "H:M[:S]". */
    method HourOf() returns (r: Result<(int, int, real), ParseError>)
      requires pos <= |tokens|
      modifies this`pos
      ensures pos <= |tokens|
      ensures Agrees(r, TimeOfDay(tokens, old(pos)), pos)
    {
      var k := Kind(tokens, pos);
      if k == INTEGER {
        var t := Consume(INTEGER);
        var h := ParseInt(t.value);
        if h.None? { return Err(BadNumber(t.value)); }
        r := Ok((h.value, 0, 0.0));
      } else if k == TIME {
        var t := Consume(TIME);
        var clock := TimeFields(t.value);
        if clock.None? { return Err(BadNumber(t.value)); }
        r := Ok(clock.value);
      } else {
        r := Err(Syntax(pos));
      }
    }

    /** timestampTerm: a date with an optional time of day and zone, in seconds since 2001. */
    method TimestampTerm() returns (r: Result<real, ParseError>)
      requires pos <= |tokens|
      modifies this`pos
      ensures pos <= |tokens|
      ensures Agrees(r, UnitGrammar.TimestampTerm(tokens, old(pos)), pos)
    {
      var t := Consume(DATE);
      if t.Err? { return Err(t.error); }
      var date := DateFields(t.value);
      if date.None? { return Err(BadNumber(t.value)); }
      var (year, month, day) := date.value;
      var hour, minute, second, zone := 0, 0, 0.0, 0;
      var k := Kind(tokens, pos);
      if k == INTEGER || k == WHITESPACE || k == NAME || k == TIME {
        if k == NAME {
          var sep := Consume(NAME);
          if !IsLetterT(sep.value) { return Err(InvalidTimestamp); }
        } else if k == WHITESPACE {
          var _ := Consume(WHITESPACE);
        }
        var h := HourOf();
        if h.Err? { return Err(h.error); }
        hour, minute, second := h.value.0, h.value.1, h.value.2;
        var z := ZoneOf();
        if z.Err? { return Err(z.error); }
        zone := z.value;
      }
      if !ValidTimestamp(month, day, Clock(hour, minute, second, zone)) {
        return Err(InvalidTimestamp);
      }
      r := Ok(EncodeTimestamp(year, month, day, hour, minute, second, zone));
    }

    /** timestampExpression */
    method TimestampExpression() returns (r: Result<real, ParseError>)
      requires pos <= |tokens|
      modifies this`pos
      ensures pos <= |tokens|
      ensures Agrees(r, TimestampExpr(tokens, old(pos)), pos)
      decreases |tokens| - pos
    {
      var k := Kind(tokens, pos);
      if k == DATE {
        r := TimestampTerm();
      } else if k == LPAREN {
        pos := pos + 1;
        var v := TimestampExpression();
        if v.Err? { return v; }
        var t := Consume(RPAREN);
        if t.Err? { return Err(t.error); }
        r := v;
      } else {
        r := Err(Syntax(pos));
      }
    }

    /** shiftExpression: the origin, chosen by a three-token lookahead for a timestamp. */
    method ShiftExpression() returns (r: Result<real, ParseError>)
      requires pos <= |tokens|
      modifies this`pos
      ensures pos <= |tokens|
      ensures Agrees(r, ShiftExpr(tokens, isTime, old(pos)), pos)
    {
      var t := Consume(SHIFT);
      if t.Err? { return Err(t.error); }
      if TimestampAhead(tokens, pos) {
        var origin := TimestampExpression();
        if origin.Err? { return origin; }
        if !isTime { return Err(NonTimeTimestamp); }
        r := origin;
      } else {
        var k := Kind(tokens, pos);
        if StartsNumber(k) || k == LPAREN {
          r := ValueExpression();
        } else {
          r := Err(Syntax(pos));
        }
      }
    }

    /** unitSpec: the unit the whole token sequence denotes. */
    method UnitSpec() returns (r: Result<Unit, ParseError>)
      requires pos <= |tokens|
      modifies this`pos, this`isTime
      ensures r == UnitGrammar.UnitSpec(tokens, db, old(pos))
    {
      var p0 := pos;
      var unit := Dimensionless();
      var origin := 0.0;
      var originSpecified := false;
      isTime := false;
      var k := Kind(tokens, pos);
      if StartsNumber(k) || k == NAME || k == LPAREN {
        var u := UnitProductList();
        if u.Err? { return u; }
        unit := u.value;
        isTime := IsTimeConvertible(unit);
        if Kind(tokens, pos) == SHIFT {
          var o := ShiftExpression();
          if o.Err? { return Err(o.error); }
          origin := o.value;
          originSpecified := true;
        }
      }
      if Kind(tokens, pos) != EOF { return Err(Syntax(pos)); }
      if originSpecified && isTime {
        var o := ToThis(unit, origin);
        if o.Err? { return Err(InvalidSpec); }
        r := Ok(Shift(unit, o.value));
      } else if origin != 0.0 {
        r := Ok(Shift(unit, origin));
      } else {
        r := Ok(unit);
      }
    }
  }
}
