/**
 * Properties of the unit-specification grammar: how products fold, how
 * names, powers and origins are evaluated, what the timestamp lookahead
 * decides, and how time zones are read.
 */
module UnitGrammarFacts {
  import opened Wrappers
  import opened JavaInt
  import opened Lexical
  import opened Calendar
  import opened Units
  import opened UnitGrammar

  // ---------------------------------------------------------------------
  // Products of named units

  /** How a factor is attached to the factors before it: by adjacency or by an operator token. */
  datatype Link = Adjacent | Operator(kind: int)

  /** A named unit in a product, with its link. */
  datatype Factor = Factor(link: Link, name: string)

  /** The number of tokens a factor occupies. */
  function Width(f: Factor): nat {
    if f.link.Adjacent? then 1 else 2
  }

  function ChainWidth(fs: seq<Factor>): nat {
    if fs == [] then 0 else Width(fs[0]) + ChainWidth(fs[1..])
  }

  /** The tokens from q on spell the factors fs, each an optional operator followed by a name. */
  ghost predicate ChainAt(toks: seq<Token>, q: nat, fs: seq<Factor>)
    decreases |fs|
  {
    fs == [] ||
    (var f := fs[0];
     && (f.link.Operator? ==>
           (IsMultiplyOperator(f.link.kind) || f.link.kind == DIVIDE) && Kind(toks, q) == f.link.kind)
     && Kind(toks, q + Width(f) - 1) == NAME
     && Image(toks, q + Width(f) - 1) == f.name
     && ChainAt(toks, q + Width(f), fs[1..]))
  }

  /** A token that ends a product list: neither a factor, an operator nor a power. */
  predicate EndsProduct(k: int) {
    !ContinuesProduct(k) && k != DIVIDE && k != CARET
  }

  /**
   * The reference meaning of a chain: fold the looked-up units into acc from
   * the left, dividing after a DIVIDE token and multiplying otherwise.
   */
  function FoldFactors(db: map<string, Unit>, acc: Unit, fs: seq<Factor>): Result<Unit, ParseError>
    decreases |fs|
  {
    if fs == [] then Ok(acc)
    else if fs[0].name !in db then Err(NoSuchUnit(fs[0].name))
    else if fs[0].link == Operator(DIVIDE) then
      var d := Divide(acc, db[fs[0].name]);
      if d.Err? then Err(ParseError.CannotDivide) else FoldFactors(db, d.value, fs[1..])
    else FoldFactors(db, Multiply(acc, db[fs[0].name]), fs[1..])
  }


  /** A name that is not followed by a power keeps the unit the database gives it. */
  lemma NameWithoutPower(toks: seq<Token>, db: map<string, Unit>, at: nat)
    requires at < |toks| && Kind(toks, at) == NAME
    requires Kind(toks, at + 1) != INTEGER && Kind(toks, at + 1) != CARET
    ensures PowerExpr(toks, db, at) ==
      if Image(toks, at) in db then Done(db[Image(toks, at)], at + 1) else Fail(NoSuchUnit(Image(toks, at)))
  {
  }

  /** The first token of a chain is a name or an operator, so it is never a power. */
  lemma ChainStart(toks: seq<Token>, q: nat, fs: seq<Factor>)
    requires ChainAt(toks, q, fs) && fs != []
    ensures Kind(toks, q) != INTEGER && Kind(toks, q) != CARET
  {
  }

  /** One factor of a chain: look the name up, then divide or multiply and carry on. */
  lemma FactorStep(toks: seq<Token>, db: map<string, Unit>, acc: Unit, q: nat, f: Factor, at: nat)
    requires at == q + Width(f) - 1 && at < |toks|
    requires f.link.Operator? ==>
      (IsMultiplyOperator(f.link.kind) || f.link.kind == DIVIDE) && Kind(toks, q) == f.link.kind
    requires Kind(toks, at) == NAME && Image(toks, at) == f.name
    requires Kind(toks, at + 1) != INTEGER && Kind(toks, at + 1) != CARET
    ensures f.name !in db ==> ProductRest(toks, db, acc, q) == Fail(NoSuchUnit(f.name))
    ensures f.name in db && f.link == Operator(DIVIDE) ==>
      ProductRest(toks, db, acc, q) ==
        var d := Divide(acc, db[f.name]);
        if d.Err? then Fail(ParseError.CannotDivide) else ProductRest(toks, db, d.value, at + 1)
    ensures f.name in db && f.link != Operator(DIVIDE) ==>
      ProductRest(toks, db, acc, q) == ProductRest(toks, db, Multiply(acc, db[f.name]), at + 1)
  {
    NameWithoutPower(toks, db, at);
    if f.name in db {
      OperandStep(toks, db, acc, q, Operand(f.link, db[f.name], at + 1));
    } else {
      FactorFails(toks, db, acc, q, NoSuchUnit(f.name));
    }
  }

  /**
   * What follows the first factor of a chain: the rest of the chain, ending
   * where the whole chain ends, and no power applied to the first name.
   */
  lemma ChainTail(toks: seq<Token>, q: nat, fs: seq<Factor>)
    requires fs != [] && q + ChainWidth(fs) <= |toks|
    requires ChainAt(toks, q, fs)
    requires EndsProduct(Kind(toks, q + ChainWidth(fs)))
    ensures var at := q + Width(fs[0]) - 1;
      && at < |toks|
      && (fs[0].link.Operator? ==>
            (IsMultiplyOperator(fs[0].link.kind) || fs[0].link.kind == DIVIDE) && Kind(toks, q) == fs[0].link.kind)
      && Kind(toks, at) == NAME && Image(toks, at) == fs[0].name
      && Kind(toks, at + 1) != INTEGER && Kind(toks, at + 1) != CARET
      && at + 1 + ChainWidth(fs[1..]) <= |toks|
      && ChainAt(toks, at + 1, fs[1..])
      && EndsProduct(Kind(toks, at + 1 + ChainWidth(fs[1..])))
      && q + ChainWidth(fs) == at + 1 + ChainWidth(fs[1..])
  {
    var at := q + Width(fs[0]) - 1;
    var rest := fs[1..];
    assert ChainAt(toks, at + 1, rest);
    assert q + ChainWidth(fs) == at + 1 + ChainWidth(rest);
    if rest != [] {
      ChainStart(toks, at + 1, rest);
    }
  }

  /** The parser folds a chain of names from the left, exactly as FoldFactors does. */
  lemma {:induction false} ProductChain(toks: seq<Token>, db: map<string, Unit>, acc: Unit,
                                        q: nat, fs: seq<Factor>)
    requires q + ChainWidth(fs) <= |toks|
    requires ChainAt(toks, q, fs)
    requires EndsProduct(Kind(toks, q + ChainWidth(fs)))
    ensures ProductRest(toks, db, acc, q) == AsParsed(FoldFactors(db, acc, fs), q + ChainWidth(fs))
    decreases |fs|
  {
    if fs == [] {
      ProductEnd(toks, db, acc, q);
    } else {
      var f := fs[0];
      var at := q + Width(f) - 1;
      var rest := fs[1..];
      ChainTail(toks, q, fs);
      if f.name !in db {
        assert FoldFactors(db, acc, fs) == Err(NoSuchUnit(f.name));
        FactorStep(toks, db, acc, q, f, at);
      } else if f.link == Operator(DIVIDE) {
        var d := Divide(acc, db[f.name]);
        if d.Err? {
          assert FoldFactors(db, acc, fs) == Err(ParseError.CannotDivide);
          FactorStep(toks, db, acc, q, f, at);
        } else {
          assert FoldFactors(db, acc, fs) == FoldFactors(db, d.value, rest);
          ProductChain(toks, db, d.value, at + 1, rest);
          FactorStep(toks, db, acc, q, f, at);
        }
      } else {
        var m := Multiply(acc, db[f.name]);
        assert FoldFactors(db, acc, fs) == FoldFactors(db, m, rest);
        ProductChain(toks, db, m, at + 1, rest);
        FactorStep(toks, db, acc, q, f, at);
      }
    }
  }

  /** A product list that is a chain of names covering all the tokens. */
  lemma ProductListChain(toks: seq<Token>, db: map<string, Unit>, fs: seq<Factor>)
    requires fs != [] && fs[0].link == Adjacent
    requires ChainAt(toks, 0, fs) && ChainWidth(fs) == |toks|
    ensures ProductList(toks, db, 0) ==
      if fs[0].name !in db then Fail(NoSuchUnit(fs[0].name))
      else AsParsed(FoldFactors(db, db[fs[0].name], fs[1..]), |toks|)
  {
    var rest := fs[1..];
    assert ChainAt(toks, 1, rest);
    if rest != [] {
      ChainStart(toks, 1, rest);
    }
    NameWithoutPower(toks, db, 0);
    if fs[0].name in db {
      var u := db[fs[0].name];
      assert ChainWidth(fs) == 1 + ChainWidth(rest);
      assert EndsProduct(Kind(toks, 1 + ChainWidth(rest)));
      ProductChain(toks, db, u, 1, rest);
      assert ProductList(toks, db, 0) == ProductRest(toks, db, u, 1);
    }
  }

  /** A whole specification that is a chain of names denotes the left fold of their units. */
  lemma ProductSpec(toks: seq<Token>, db: map<string, Unit>, fs: seq<Factor>)
    requires fs != [] && fs[0].link == Adjacent
    requires ChainAt(toks, 0, fs) && ChainWidth(fs) == |toks|
    ensures fs[0].name !in db ==> UnitSpec(toks, db, 0) == Err(NoSuchUnit(fs[0].name))
    ensures fs[0].name in db ==>
      UnitSpec(toks, db, 0) ==
        match FoldFactors(db, db[fs[0].name], fs[1..])
        case Err(e) => Err(e)
        case Ok(u) => Ok(u)
  {
    ProductListChain(toks, db, fs);
    assert Kind(toks, 0) == NAME;
    assert Kind(toks, |toks|) == EOF;
    if fs[0].name in db {
      match FoldFactors(db, db[fs[0].name], fs[1..])
      case Err(e) =>
      case Ok(u) =>
        assert ApplyOrigin(toks, |toks|, u, 0.0, false, IsTimeConvertible(u)) == Ok(u);
    }
  }

  // ---------------------------------------------------------------------
  // Products of arbitrary factors: numbers, powers and parenthesised products

  /**
   * A factor of a product as the parser reads it: how it is attached, the
   * unit its power expression denotes, and the index just after it.
   */
  datatype Operand = Operand(link: Link, unit: Unit, next: nat)

  /** Where an operand's power expression starts: after its operator token, if it has one. */
  function OperandStart(q: nat, o: Operand): nat {
    if o.link.Operator? then q + 1 else q
  }

  /**
   * The tokens from q on are the operands os: each an optional operator
   * followed by a power expression that parses to the operand's unit. An
   * adjacent operand cannot start with ".", which would be read as the
   * multiplication operator.
   */
  ghost predicate OperandsAt(toks: seq<Token>, db: map<string, Unit>, q: nat, os: seq<Operand>)
    decreases |os|
  {
    os == [] ||
    (var o := os[0];
     && (o.link.Operator? ==>
           (IsMultiplyOperator(o.link.kind) || o.link.kind == DIVIDE) && Kind(toks, q) == o.link.kind)
     && (o.link.Adjacent? ==> Kind(toks, q) != POINT)
     && OperandStart(q, o) <= |toks|
     && PowerExpr(toks, db, OperandStart(q, o)) == Done(o.unit, o.next)
     && OperandsAt(toks, db, o.next, os[1..]))
  }

  /** The index just after the last operand. */
  function OperandsEnd(q: nat, os: seq<Operand>): nat
    decreases |os|
  {
    if os == [] then q else OperandsEnd(os[0].next, os[1..])
  }

  /** The reference meaning of a product: fold the operands' units into acc from the left. */
  function FoldOperands(acc: Unit, os: seq<Operand>): Result<Unit, ParseError>
    decreases |os|
  {
    if os == [] then Ok(acc)
    else if os[0].link == Operator(DIVIDE) then
      var d := Divide(acc, os[0].unit);
      if d.Err? then Err(ParseError.CannotDivide) else FoldOperands(d.value, os[1..])
    else FoldOperands(Multiply(acc, os[0].unit), os[1..])
  }

  /** A power expression starts with a number, a name or an opening parenthesis. */
  lemma PowerExprStart(toks: seq<Token>, db: map<string, Unit>, p: nat)
    requires p <= |toks| && PowerExpr(toks, db, p).Done?
    ensures StartsNumber(Kind(toks, p)) || Kind(toks, p) == NAME || Kind(toks, p) == LPAREN
  {
  }

  /** One operand: the product so far is multiplied by its unit, or divided after DIVIDE. */
  lemma OperandStep(toks: seq<Token>, db: map<string, Unit>, acc: Unit, q: nat, o: Operand)
    requires q <= |toks|
    requires o.link.Operator? ==>
      (IsMultiplyOperator(o.link.kind) || o.link.kind == DIVIDE) && Kind(toks, q) == o.link.kind
    requires o.link.Adjacent? ==> Kind(toks, q) != POINT
    requires OperandStart(q, o) <= |toks| && PowerExpr(toks, db, OperandStart(q, o)) == Done(o.unit, o.next)
    ensures o.next <= |toks|
    ensures o.link == Operator(DIVIDE) ==>
      ProductRest(toks, db, acc, q) ==
        var d := Divide(acc, o.unit);
        if d.Err? then Fail(ParseError.CannotDivide) else ProductRest(toks, db, d.value, o.next)
    ensures o.link != Operator(DIVIDE) ==>
      ProductRest(toks, db, acc, q) == ProductRest(toks, db, Multiply(acc, o.unit), o.next)
  {
    if o.link.Adjacent? {
      PowerExprStart(toks, db, q);
    }
  }

  /**
   * The parser folds any sequence of factors from the left: the rest of a
   * product, up to a token that neither multiplies nor divides, is
   * FoldOperands of the units of its factors.
   */
  lemma {:induction false} ProductFold(toks: seq<Token>, db: map<string, Unit>, acc: Unit,
                                       q: nat, os: seq<Operand>)
    requires q <= |toks| && OperandsAt(toks, db, q, os)
    requires !ContinuesProduct(Kind(toks, OperandsEnd(q, os))) && Kind(toks, OperandsEnd(q, os)) != DIVIDE
    ensures ProductRest(toks, db, acc, q) == AsParsed(FoldOperands(acc, os), OperandsEnd(q, os))
    decreases |os|
  {
    if os == [] {
      ProductEnd(toks, db, acc, q);
    } else {
      var o := os[0];
      var rest := os[1..];
      assert OperandsAt(toks, db, o.next, rest);
      assert OperandsEnd(q, os) == OperandsEnd(o.next, rest);
      OperandStep(toks, db, acc, q, o);
      if o.link == Operator(DIVIDE) {
        var d := Divide(acc, o.unit);
        if d.Err? {
          assert FoldOperands(acc, os) == Err(ParseError.CannotDivide);
        } else {
          assert FoldOperands(acc, os) == FoldOperands(d.value, rest);
          ProductFold(toks, db, d.value, o.next, rest);
        }
      } else {
        var m := Multiply(acc, o.unit);
        assert FoldOperands(acc, os) == FoldOperands(m, rest);
        ProductFold(toks, db, m, o.next, rest);
      }
    }
  }

  /**
   * At q the product goes on (a factor, an operator or a division sign), but
   * the power expression after the operator, if any, fails with e.
   */
  ghost predicate FactorFailsAt(toks: seq<Token>, db: map<string, Unit>, q: nat, e: ParseError) {
    && q < |toks|
    && (ContinuesProduct(Kind(toks, q)) || Kind(toks, q) == DIVIDE)
    && PowerExpr(toks, db, if IsMultiplyOperator(Kind(toks, q)) || Kind(toks, q) == DIVIDE then q + 1 else q)
         == Fail(e)
  }

  /** A factor whose power expression fails makes the rest of the product fail with the same error. */
  lemma FactorFails(toks: seq<Token>, db: map<string, Unit>, acc: Unit, q: nat, e: ParseError)
    requires FactorFailsAt(toks, db, q, e)
    ensures ProductRest(toks, db, acc, q) == Fail(e)
  {
  }

  /**
   * A factor that fails to parse ends the product with its error, unless a
   * division before it has already failed.
   */
  lemma {:induction false} ProductFails(toks: seq<Token>, db: map<string, Unit>, acc: Unit,
                                        q: nat, os: seq<Operand>, e: ParseError)
    requires q <= |toks| && OperandsAt(toks, db, q, os)
    requires FactorFailsAt(toks, db, OperandsEnd(q, os), e)
    ensures var r := FoldOperands(acc, os);
      ProductRest(toks, db, acc, q) == if r.Err? then Fail(r.error) else Fail(e)
    decreases |os|
  {
    if os == [] {
      FactorFails(toks, db, acc, q, e);
    } else {
      var o := os[0];
      var rest := os[1..];
      assert OperandsAt(toks, db, o.next, rest);
      assert OperandsEnd(q, os) == OperandsEnd(o.next, rest);
      OperandStep(toks, db, acc, q, o);
      if o.link == Operator(DIVIDE) {
        var d := Divide(acc, o.unit);
        if d.Err? {
          assert FoldOperands(acc, os) == Err(ParseError.CannotDivide);
        } else {
          assert FoldOperands(acc, os) == FoldOperands(d.value, rest);
          ProductFails(toks, db, d.value, o.next, rest, e);
        }
      } else {
        var m := Multiply(acc, o.unit);
        assert FoldOperands(acc, os) == FoldOperands(m, rest);
        ProductFails(toks, db, m, o.next, rest, e);
      }
    }
  }

  /** A whole product list is the fold of its factors, starting from the first factor's unit. */
  lemma ProductListFold(toks: seq<Token>, db: map<string, Unit>, p: nat, first: Unit, q: nat,
                        os: seq<Operand>)
    requires p <= |toks| && PowerExpr(toks, db, p) == Done(first, q)
    requires OperandsAt(toks, db, q, os)
    requires !ContinuesProduct(Kind(toks, OperandsEnd(q, os))) && Kind(toks, OperandsEnd(q, os)) != DIVIDE
    ensures ProductList(toks, db, p) == AsParsed(FoldOperands(first, os), OperandsEnd(q, os))
  {
    ProductFold(toks, db, first, q, os);
  }

  // ---------------------------------------------------------------------
  // Numeric origins

  /** A number of a numeric origin: whether a division sign precedes it, its value, and the index after it. */
  datatype NumberOperand = NumberOperand(divides: bool, value: real, next: nat)

  /** The tokens from q on are the numbers ns, each perhaps after a division sign. */
  ghost predicate NumbersAt(toks: seq<Token>, q: nat, ns: seq<NumberOperand>)
    decreases |ns|
  {
    ns == [] ||
    (var n := ns[0];
     var s := if n.divides then q + 1 else q;
     && (n.divides ==> Kind(toks, q) == DIVIDE)
     && s <= |toks|
     && NumberExpr(toks, s) == Done(n.value, n.next)
     && NumbersAt(toks, n.next, ns[1..]))
  }

  /** The index just after the last number. */
  function NumbersEnd(q: nat, ns: seq<NumberOperand>): nat
    decreases |ns|
  {
    if ns == [] then q else NumbersEnd(ns[0].next, ns[1..])
  }

  /** The reference meaning of a numerical term: multiply and divide from the left. */
  function FoldNumbers(acc: real, ns: seq<NumberOperand>): Result<real, ParseError>
    decreases |ns|
  {
    if ns == [] then Ok(acc)
    else if ns[0].divides then
      if ns[0].value == 0.0 then Err(ZeroDivisor) else FoldNumbers(acc / ns[0].value, ns[1..])
    else FoldNumbers(acc * ns[0].value, ns[1..])
  }

  /**
   * The rest of a numerical term, up to a token that is neither a number nor
   * a division sign, is FoldNumbers of its numbers.
   */
  lemma {:induction false} NumbersFold(toks: seq<Token>, acc: real, q: nat, ns: seq<NumberOperand>)
    requires q <= |toks| && NumbersAt(toks, q, ns)
    requires !StartsNumber(Kind(toks, NumbersEnd(q, ns))) && Kind(toks, NumbersEnd(q, ns)) != DIVIDE
    ensures NumberRest(toks, acc, q) == AsParsed(FoldNumbers(acc, ns), NumbersEnd(q, ns))
    decreases |ns|
  {
    if ns == [] {
      NumberEnd(toks, acc, q);
    } else {
      var n := ns[0];
      var rest := ns[1..];
      assert NumbersAt(toks, n.next, rest);
      assert NumbersEnd(q, ns) == NumbersEnd(n.next, rest);
      if !n.divides {
        assert NumberRest(toks, acc, q) == NumberRest(toks, Times(acc, n.value), n.next);
        NumbersFold(toks, Times(acc, n.value), n.next, rest);
      } else if n.value != 0.0 {
        assert NumberRest(toks, acc, q) == NumberRest(toks, Over(acc, n.value), n.next);
        NumbersFold(toks, Over(acc, n.value), n.next, rest);
      }
    }
  }

  /** At q the term goes on (a number or a division sign), but the number there fails with e. */
  ghost predicate NumberFailsAt(toks: seq<Token>, q: nat, e: ParseError) {
    && q < |toks|
    && (StartsNumber(Kind(toks, q)) || Kind(toks, q) == DIVIDE)
    && NumberExpr(toks, if Kind(toks, q) == DIVIDE then q + 1 else q) == Fail(e)
  }

  /**
   * A number that fails to parse ends the term with its error, unless a
   * division by zero before it has already failed.
   */
  lemma {:induction false} NumbersFail(toks: seq<Token>, acc: real, q: nat, ns: seq<NumberOperand>,
                                       e: ParseError)
    requires q <= |toks| && NumbersAt(toks, q, ns)
    requires NumberFailsAt(toks, NumbersEnd(q, ns), e)
    ensures var r := FoldNumbers(acc, ns);
      NumberRest(toks, acc, q) == if r.Err? then Fail(r.error) else Fail(e)
    decreases |ns|
  {
    if ns != [] {
      var n := ns[0];
      var rest := ns[1..];
      assert NumbersAt(toks, n.next, rest);
      assert NumbersEnd(q, ns) == NumbersEnd(n.next, rest);
      if !n.divides {
        assert NumberRest(toks, acc, q) == NumberRest(toks, Times(acc, n.value), n.next);
        NumbersFail(toks, Times(acc, n.value), n.next, rest, e);
      } else if n.value != 0.0 {
        assert NumberRest(toks, acc, q) == NumberRest(toks, Over(acc, n.value), n.next);
        NumbersFail(toks, Over(acc, n.value), n.next, rest, e);
      }
    }
  }

  /** A numerical term is the fold of the numbers after its first one. */
  lemma NumericalTermFold(toks: seq<Token>, p: nat, first: real, q: nat, ns: seq<NumberOperand>)
    requires p <= |toks| && NumberExpr(toks, p) == Done(first, q)
    requires NumbersAt(toks, q, ns)
    requires !StartsNumber(Kind(toks, NumbersEnd(q, ns))) && Kind(toks, NumbersEnd(q, ns)) != DIVIDE
    ensures UnitGrammar.NumericalTerm(toks, p) == AsParsed(FoldNumbers(first, ns), NumbersEnd(q, ns))
  {
    NumbersFold(toks, first, q, ns);
  }

  // ---------------------------------------------------------------------
  // The timestamp lookahead

  /** The tokens that start the time of day after a date, and the zone after it. */
  predicate StartsClock(k: int) {
    k == INTEGER || k == WHITESPACE || k == NAME || k == TIME
  }

  /** The tokens a zone is made of after its optional white space. */
  predicate ZoneToken(k: int) {
    k == INTEGER || k == TIME || k == NAME
  }

  /** The zone the parser reads at q ends just before n: [WHITESPACE] (INTEGER | TIME | NAME), or nothing. */
  predicate ZoneExtent(toks: seq<Token>, q: nat, n: nat) {
    if !StartsClock(Kind(toks, q)) then n == q
    else if Kind(toks, q) == WHITESPACE then ZoneToken(Kind(toks, q + 1)) && n == q + 2
    else n == q + 1
  }

  lemma ZoneExtentOf(toks: seq<Token>, q: nat, z: int, n: nat)
    requires q <= |toks| && Zone(toks, q) == Done(z, n)
    ensures ZoneExtent(toks, q, n)
  {
  }

  /** A scan result whose state is consistent (at <= last) and whose furthest position did not move back. */
  predicate Sane(st: ScanState, r: Scan) {
    r.Found? || (r.st.at <= r.st.last && st.last <= r.st.last)
  }

  /** The scan got through the tokens up to n without failing, or stopped early at its token limit. */
  predicate Reaches(st: ScanState, r: Scan, n: nat) {
    r.Found? || (r.Hit? && r.st.at == n && Sane(st, r))
  }

  lemma TokenScan(toks: seq<Token>, st: ScanState, kind: int)
    requires st.at <= st.last
    ensures Sane(st, ScanToken(toks, st, kind))
    ensures Kind(toks, st.at) == kind ==> Reaches(st, ScanToken(toks, st, kind), st.at + 1)
    ensures Kind(toks, st.at) != kind ==> ScanToken(toks, st, kind).Miss?
  {
  }

  /** When no zone follows, its scan fails without harm to the state. */
  lemma ZoneAbsent(toks: seq<Token>, st: ScanState)
    requires st.at <= st.last
    requires !StartsClock(Kind(toks, st.at))
    ensures ScanZone(toks, st).Miss? && Sane(st, ScanZone(toks, st))
  {
  }

  /** A zone the parser reads is scanned to its end. */
  lemma ZoneReaches(toks: seq<Token>, st: ScanState, n: nat)
    requires st.at <= st.last
    requires StartsClock(Kind(toks, st.at)) && ZoneExtent(toks, st.at, n)
    ensures Reaches(st, ScanZone(toks, st), n)
  {
  }

  /** When nothing of a time of day follows a date, its scan fails without harm to the state. */
  lemma ClockAbsent(toks: seq<Token>, st: ScanState)
    requires st.at <= st.last
    requires !StartsClock(Kind(toks, st.at))
    ensures ScanClock(toks, st).Miss? && Sane(st, ScanClock(toks, st))
  {
  }

  lemma SeparatorReaches(toks: seq<Token>, st: ScanState, q1: nat)
    requires st.at <= st.last
    requires q1 == if Kind(toks, st.at) == NAME || Kind(toks, st.at) == WHITESPACE then st.at + 1 else st.at
    ensures Reaches(st, ScanSeparator(toks, st), q1)
  {
  }

  lemma HourReaches(toks: seq<Token>, st: ScanState)
    requires st.at <= st.last
    requires Kind(toks, st.at) == INTEGER || Kind(toks, st.at) == TIME
    ensures Reaches(st, ScanHour(toks, st), st.at + 1)
  {
  }

  /** A clock the parser reads has an INTEGER or TIME hour after its optional separator. */
  lemma ClockHour(toks: seq<Token>, q: nat, q1: nat, c: Clock, n: nat)
    requires q <= |toks| && StartsClock(Kind(toks, q))
    requires q1 == if Kind(toks, q) == NAME || Kind(toks, q) == WHITESPACE then q + 1 else q
    requires ClockPart(toks, q) == Done(c, n)
    ensures q1 < |toks| && (Kind(toks, q1) == INTEGER || Kind(toks, q1) == TIME)
  {
  }

  /** The clock ends where the zone after its hour ends. */
  lemma ClockZone(toks: seq<Token>, q: nat, q1: nat, c: Clock, n: nat)
    requires q <= |toks| && StartsClock(Kind(toks, q))
    requires q1 == if Kind(toks, q) == NAME || Kind(toks, q) == WHITESPACE then q + 1 else q
    requires ClockPart(toks, q) == Done(c, n)
    ensures ZoneExtent(toks, q1 + 1, n)
  {
    if Kind(toks, q) == NAME || Kind(toks, q) == WHITESPACE {
      assert Zone(toks, q + 2) == Done(c.zone, n);
    } else {
      assert Zone(toks, q + 1) == Done(c.zone, n);
    }
    ZoneExtentOf(toks, q1 + 1, c.zone, n);
  }

  /** A time of day the parser reads is scanned to its end. */
  lemma ClockReaches(toks: seq<Token>, st: ScanState, q1: nat, n: nat)
    requires st.at <= st.last
    requires q1 == if Kind(toks, st.at) == NAME || Kind(toks, st.at) == WHITESPACE then st.at + 1 else st.at
    requires Kind(toks, q1) == INTEGER || Kind(toks, q1) == TIME
    requires ZoneExtent(toks, q1 + 1, n)
    ensures Reaches(st, ScanClock(toks, st), n)
  {
    var sep := ScanSeparator(toks, st);
    SeparatorReaches(toks, st, q1);
    if sep.Hit? {
      var hour := ScanHour(toks, sep.st);
      HourReaches(toks, sep.st);
      if hour.Hit? {
        var s := hour.st;
        if StartsClock(Kind(toks, s.at)) {
          ZoneReaches(toks, s, n);
        } else {
          ZoneAbsent(toks, s);
        }
      }
    }
  }

  /** A timestamp term the parser reads is scanned to its end. */
  lemma TermReaches(toks: seq<Token>, st: ScanState, v: real, n: nat)
    requires st.at <= st.last && st.at <= |toks|
    requires TimestampTerm(toks, st.at) == Done(v, n)
    ensures Reaches(st, ScanTimestampTerm(toks, st), n)
  {
    var date := ScanToken(toks, st, DATE);
    TokenScan(toks, st, DATE);
    if date.Hit? {
      var s := date.st;
      var c := ClockPart(toks, st.at + 1);
      assert c.Done? && c.next == n;
      if StartsClock(Kind(toks, s.at)) {
        var q1 := if Kind(toks, s.at) == NAME || Kind(toks, s.at) == WHITESPACE then s.at + 1 else s.at;
        ClockHour(toks, s.at, q1, c.value, n);
        ClockZone(toks, s.at, q1, c.value, n);
        ClockReaches(toks, s, q1, n);
      } else {
        ClockAbsent(toks, s);
      }
    }
  }

  /**
   * Soundness of the three-token lookahead: every timestamp expression the
   * parser can read is also accepted by the scan that precedes it.
   */
  lemma {:induction false} ExprReaches(toks: seq<Token>, st: ScanState, v: real, n: nat)
    requires st.at <= st.last && st.at <= |toks|
    requires TimestampExpr(toks, st.at) == Done(v, n)
    ensures Reaches(st, ScanTimestampExpr(toks, st), n)
    decreases |toks| - st.at
  {
    if Kind(toks, st.at) == DATE {
      TermReaches(toks, st, v, n);
    } else {
      assert Kind(toks, st.at) == LPAREN;
      var term := ScanTimestampTerm(toks, st);
      assert term.Miss? && Sane(st, term);
      var st0 := Restore(term.st, st.at);
      var open := ScanToken(toks, st0, LPAREN);
      TokenScan(toks, st0, LPAREN);
      if open.Hit? {
        var inner := TimestampExpr(toks, st.at + 1);
        assert inner.Done? && Kind(toks, inner.next) == RPAREN && n == inner.next + 1;
        ExprReaches(toks, open.st, inner.value, inner.next);
        var body := ScanTimestampExpr(toks, open.st);
        if body.Hit? {
          TokenScan(toks, body.st, RPAREN);
        }
      }
    }
  }

  /** So a shift followed by a well-formed timestamp always takes the timestamp branch. */
  lemma TimestampAlwaysSeen(toks: seq<Token>, p: nat)
    requires p <= |toks|
    requires TimestampExpr(toks, p).Done?
    ensures TimestampAhead(toks, p)
  {
    ExprReaches(toks, ScanState(p, p, 3), TimestampExpr(toks, p).value, TimestampExpr(toks, p).next);
  }

  /** A shift followed by a timestamp reads it, and accepts it only for a unit convertible to seconds. */
  lemma ShiftTakesTimestamp(toks: seq<Token>, isTime: bool, p: nat)
    requires p < |toks| && Kind(toks, p) == SHIFT
    requires TimestampExpr(toks, p + 1).Done?
    ensures ShiftExpr(toks, isTime, p) ==
      if isTime then TimestampExpr(toks, p + 1) else Fail(NonTimeTimestamp)
  {
    TimestampAlwaysSeen(toks, p + 1);
  }

  /** A shift followed by anything but a date or a parenthesis reads a numeric origin. */
  lemma ShiftTakesValue(toks: seq<Token>, isTime: bool, p: nat)
    requires p < |toks| && Kind(toks, p) == SHIFT
    requires Kind(toks, p + 1) != DATE && Kind(toks, p + 1) != LPAREN
    ensures !TimestampAhead(toks, p + 1)
    ensures ShiftExpr(toks, isTime, p) ==
      if StartsNumber(Kind(toks, p + 1)) then ValueExpr(toks, p + 1) else Fail(Syntax(p + 1))
  {
    var st := ScanState(p + 1, p + 1, 3);
    var term := ScanTimestampTerm(toks, st);
    assert term.Miss?;
    assert ScanParenthesised(toks, Restore(term.st, p + 1)).Miss?;
  }

  function Tok(kind: int): Token {
    Token(kind, "")
  }

  /** The metre, for the examples below. */
  function Metre(): Unit {
    Unit(1.0, map["m" := 1], 0.0)
  }

  /** "m @ ((5))": the lookahead runs out of parentheses and the origin is read as a number. */
  lemma TwoParenthesesAreAValue()
    ensures UnitSpec([Token(NAME, "m"), Tok(SHIFT), Tok(LPAREN), Tok(LPAREN), Token(INTEGER, "5"),
                      Tok(RPAREN), Tok(RPAREN)], map["m" := Metre()], 0)
            == Ok(Shift(Metre(), 5.0))
  {
    var toks := [Token(NAME, "m"), Tok(SHIFT), Tok(LPAREN), Tok(LPAREN), Token(INTEGER, "5"),
                 Tok(RPAREN), Tok(RPAREN)];
    assert ScanTimestampTerm(toks, ScanState(4, 4, 1)) == Miss(ScanState(5, 5, 0));
    assert ScanParenthesised(toks, ScanState(4, 5, 0)).Miss?;
    assert ScanTimestampExpr(toks, ScanState(4, 4, 1)).Miss?;
    assert ScanTimestampTerm(toks, ScanState(3, 3, 2)) == Miss(ScanState(4, 4, 1));
    assert ScanParenthesised(toks, ScanState(3, 4, 1)).Miss?;
    assert ScanTimestampExpr(toks, ScanState(3, 3, 2)).Miss?;
    assert ScanTimestampTerm(toks, ScanState(2, 2, 3)) == Miss(ScanState(3, 3, 2));
    assert ScanParenthesised(toks, ScanState(2, 3, 2)).Miss?;
    assert !TimestampAhead(toks, 2);
    assert ParseDecimal("5") == Some(5.0) by {
      DecimalOfDigits("5");
    }
    assert ValueExpr(toks, 4) == Done(5.0, 5);
    assert ValueExpr(toks, 2) == Done(5.0, 7);
    assert ProductList(toks, map["m" := Metre()], 0) == Done(Metre(), 1);
    assert ShiftExpr(toks, false, 1) == Done(5.0, 7);
  }

  /**
   * "m @ (((5)))": three opening parentheses fill the three-token lookahead,
   * so the parser commits to a timestamp and then fails at the number.
   */
  lemma ThreeParenthesesAreATimestamp()
    ensures UnitSpec([Token(NAME, "m"), Tok(SHIFT), Tok(LPAREN), Tok(LPAREN), Tok(LPAREN),
                      Token(INTEGER, "5"), Tok(RPAREN), Tok(RPAREN), Tok(RPAREN)],
                     map["m" := Metre()], 0)
            == Err(Syntax(5))
  {
    var toks := [Token(NAME, "m"), Tok(SHIFT), Tok(LPAREN), Tok(LPAREN), Tok(LPAREN),
                 Token(INTEGER, "5"), Tok(RPAREN), Tok(RPAREN), Tok(RPAREN)];
    assert ScanTimestampTerm(toks, ScanState(4, 4, 1)) == Miss(ScanState(5, 5, 0));
    assert ScanParenthesised(toks, ScanState(4, 5, 0)) == Found;
    assert ScanTimestampExpr(toks, ScanState(4, 4, 1)) == Found;
    assert ScanTimestampTerm(toks, ScanState(3, 3, 2)) == Miss(ScanState(4, 4, 1));
    assert ScanParenthesised(toks, ScanState(3, 4, 1)) == Found;
    assert ScanTimestampExpr(toks, ScanState(3, 3, 2)) == Found;
    assert ScanTimestampTerm(toks, ScanState(2, 2, 3)) == Miss(ScanState(3, 3, 2));
    assert ScanParenthesised(toks, ScanState(2, 3, 2)) == Found;
    assert TimestampAhead(toks, 2);
    assert TimestampExpr(toks, 5) == Fail(Syntax(5));
    assert TimestampExpr(toks, 4) == Fail(Syntax(5));
    assert TimestampExpr(toks, 3) == Fail(Syntax(5));
    assert TimestampExpr(toks, 2) == Fail(Syntax(5));
    assert ProductList(toks, map["m" := Metre()], 0) == Done(Metre(), 1);
    assert ShiftExpr(toks, false, 1) == Fail(Syntax(5));
  }

  // ---------------------------------------------------------------------
  // Whole specifications and origins

  /** An empty specification is the dimensionless unit 1. */
  lemma EmptySpec(db: map<string, Unit>)
    ensures UnitSpec([], db, 0) == Ok(Dimensionless())
  {
  }

  /** An origin with no unit in front of it is refused at the shift. */
  lemma LeadingShift(toks: seq<Token>, db: map<string, Unit>)
    requires |toks| > 0 && Kind(toks, 0) == SHIFT
    ensures UnitSpec(toks, db, 0) == Err(Syntax(0))
  {
  }

  /** With an origin given to a unit of time, the new unit's zero is the origin, read in seconds. */
  lemma TimeOrigin(toks: seq<Token>, q: nat, u: Unit, origin: real)
    requires Kind(toks, q) == EOF && IsTimeConvertible(u)
    ensures u.scale == 0.0 ==> ApplyOrigin(toks, q, u, origin, true, true) == Err(InvalidSpec)
    ensures u.scale != 0.0 ==>
      ApplyOrigin(toks, q, u, origin, true, true).Ok? &&
      ToBase(ApplyOrigin(toks, q, u, origin, true, true).value, 0.0) == origin
  {
    if u.scale != 0.0 {
      ShiftToOrigin(u, origin);
    }
  }

  /** For any other unit the origin is in the unit itself: the new zero is `origin` old units. */
  lemma ValueOrigin(toks: seq<Token>, q: nat, u: Unit, origin: real, specified: bool)
    requires Kind(toks, q) == EOF
    ensures ApplyOrigin(toks, q, u, origin, specified, false).Ok?
    ensures ToBase(ApplyOrigin(toks, q, u, origin, specified, false).value, 0.0) == ToBase(u, origin)
  {
    ShiftMovesZero(u, origin);
  }

  /** Tokens left over after a specification are a syntax error at the first of them. */
  lemma TrailingTokens(toks: seq<Token>, q: nat, u: Unit, origin: real, specified: bool, isTime: bool)
    requires q < |toks| && Kind(toks, q) != EOF
    ensures ApplyOrigin(toks, q, u, origin, specified, isTime) == Err(Syntax(q))
  {
  }

  // ---------------------------------------------------------------------
  // Numbers

  /**
   * INTEGER '.' INTEGER is the integer plus the fraction the digits denote,
   * and a negative integer in front of a decimal point is refused.
   */
  lemma IntegerWithFraction(toks: seq<Token>, p: nat, a: int, d: string)
    requires p + 2 < |toks| && IsInt32(a) && AllDigits(d) && d != []
    requires Kind(toks, p) == INTEGER && Image(toks, p) == IntToString(a)
    requires Kind(toks, p + 1) == POINT
    requires Kind(toks, p + 2) == INTEGER && Image(toks, p + 2) == d
    ensures a >= 0 ==>
      NumberExpr(toks, p) == Done(a as real + FractionValue(d), p + 3)
    ensures a < 0 ==> NumberExpr(toks, p) == Fail(NegativeFraction)
  {
    IntRoundTrip(a);
    assert ParseInt(Image(toks, p)) == Some(a);
    FractionInUnitInterval(d);
    var f := ParseDecimal("." + d).value;
    assert NumberExpr(toks, p) == AsParsed(WithFraction(a as real, d), p + 3);
    FractionAdded(a as real, d, f);
  }

  lemma FractionAdded(whole: real, d: string, f: real)
    requires ParseDecimal("." + d) == Some(f) && 0.0 <= f < 1.0
    ensures whole <= -1.0 ==> WithFraction(whole, d) == Err(NegativeFraction)
    ensures whole >= 0.0 ==> WithFraction(whole, d) == Ok(whole + f)
  {
  }

  /** INTEGER '.' with nothing numeric after the point is just the integer. */
  lemma IntegerWithPoint(toks: seq<Token>, p: nat, a: int)
    requires p + 1 < |toks| && IsInt32(a)
    requires Kind(toks, p) == INTEGER && Image(toks, p) == IntToString(a)
    requires Kind(toks, p + 1) == POINT && Kind(toks, p + 2) != INTEGER
    ensures NumberExpr(toks, p) == Done(a as real, p + 2)
  {
    IntRoundTrip(a);
  }

  /** The integer a written in decimal, as the parser's number rule reads it. */
  lemma IntegerNumber(toks: seq<Token>, p: nat, a: int)
    requires IsInt32(a) && p < |toks|
    requires Kind(toks, p) == INTEGER && Image(toks, p) == IntToString(a)
    requires Kind(toks, p + 1) != POINT
    ensures NumberExpr(toks, p) == Done(a as real, p + 1)
  {
    IntRoundTrip(a);
  }

  /** Two adjacent integers in a numeric origin multiply. */
  lemma NumberProduct(toks: seq<Token>, p: nat, a: int, b: int)
    requires IsInt32(a) && IsInt32(b) && p + 1 < |toks|
    requires Kind(toks, p) == INTEGER && Image(toks, p) == IntToString(a)
    requires Kind(toks, p + 1) == INTEGER && Image(toks, p + 1) == IntToString(b)
    requires !StartsNumber(Kind(toks, p + 2)) && Kind(toks, p + 2) != DIVIDE
    ensures NumericalTerm(toks, p) == Done(a as real * b as real, p + 2)
  {
    IntegerNumber(toks, p, a);
    IntegerNumber(toks, p + 1, b);
    assert NumberRest(toks, a as real, p + 1) == NumberRest(toks, Times(a as real, b as real), p + 2);
  }

  /** Integers separated by DIVIDE in a numeric origin divide; a zero divisor is refused. */
  lemma NumberQuotient(toks: seq<Token>, p: nat, a: int, b: int)
    requires IsInt32(a) && IsInt32(b) && p + 2 < |toks|
    requires Kind(toks, p) == INTEGER && Image(toks, p) == IntToString(a)
    requires Kind(toks, p + 1) == DIVIDE
    requires Kind(toks, p + 2) == INTEGER && Image(toks, p + 2) == IntToString(b)
    requires !StartsNumber(Kind(toks, p + 3)) && Kind(toks, p + 3) != DIVIDE
    ensures b == 0 ==> NumericalTerm(toks, p) == Fail(ZeroDivisor)
    ensures b != 0 ==> NumericalTerm(toks, p) == Done(a as real / b as real, p + 3)
  {
    IntegerNumber(toks, p, a);
    IntegerNumber(toks, p + 2, b);
    if b != 0 {
      assert NumberRest(toks, a as real, p + 1) == NumberRest(toks, Over(a as real, b as real), p + 3);
    }
  }

  // ---------------------------------------------------------------------
  // Time zones

  /**
   * An INTEGER zone of three or more digits packs hours and minutes as
   * HHMM, with the sign on both; a shorter one counts hours.
   */
  lemma IntegerZoneFields(h: nat, m: nat)
    requires 1 <= h && m < 100
    ensures IntegerZone(h * 100 + m) == h * 60 + m
    ensures IntegerZone(-(h * 100 + m)) == -(h * 60 + m)
  {
    var n := h * 100 + m;
    assert Quot(n, 100) == h by {
      assert n / 100 == h;
    }
    var q := Quot(-n, 100);
    var hi: int := h;
    assert -100 < -n - q * 100 <= 0;
    assert q == -hi;
  }

  lemma IntegerZoneHours(n: int)
    requires -100 < n < 100
    ensures IntegerZone(n) == n * 60
  {
  }

  /** The two fields of "A:B" as the tokenizer splits them. */
  lemma ColonFields(a: string, b: string)
    requires a != [] && b != [] && ':' !in a && ':' !in b
    ensures Fields(a + ":" + b, ':') == [a, b]
  {
    FieldsOfJoin([a, b], ':');
    assert Join([a, b], ':') == a + [':'] + Join([b], ':');
  }

  lemma TimeZoneOfParts(image: string, hour: string, minutes: string, h: int, m: int, negative: bool)
    requires Fields(image, ':') == [hour, minutes]
    requires ParseFloatToInt(hour) == Some(h) && ParseInt(minutes) == Some(m)
    requires negative <==> |image| > 0 && image[0] == '-'
    ensures TimeZoneFields(image) == Some(ZoneMinutes(h, m, negative))
  {
  }

  /** Small zones do not wrap around. */
  lemma ZoneNoWrap(h: int, m: int, negative: bool)
    requires -1000 <= h <= 1000 && -1000 <= m <= 1000
    ensures ZoneMinutes(h, m, negative) == h * 60 + (if negative then -m else m)
  {
  }

  /** The hour field of a TIME zone, read with `(int) Float.parseFloat`, sign included. */
  lemma ZoneHourField(h: nat, negative: bool)
    requires h <= 1000
    ensures ParseFloatToInt((if negative then "-" else "") + DigitsOf(h)) == Some(if negative then -(h as int) else h)
  {
    if negative && h == 0 {
      assert "-" + DigitsOf(h) == "-0";
      assert "-0"[1..] == "0";
      DecimalOfDigits("0");
    } else if negative {
      FloatRoundTrip(-(h as int));
      assert IntToString(-(h as int)) == "-" + DigitsOf(h);
    } else {
      FloatRoundTrip(h);
      assert IntToString(h) == "" + DigitsOf(h);
    }
  }

  /** A TIME zone "H:M" or "-H:M" is H hours and M minutes, both taking the sign. */
  lemma TimeZoneOfFields(h: nat, m: nat, negative: bool)
    requires h <= 1000 && m <= 1000
    ensures TimeZoneFields((if negative then "-" else "") + DigitsOf(h) + ":" + DigitsOf(m)) ==
      Some(if negative then -(h * 60 + m) else h * 60 + m)
  {
    var hour := (if negative then "-" else "") + DigitsOf(h);
    var image := hour + ":" + DigitsOf(m);
    DigitsExclude(DigitsOf(h), ':');
    DigitsExclude(DigitsOf(m), ':');
    ColonFields(hour, DigitsOf(m));
    ZoneHourField(h, negative);
    IntRoundTrip(m);
    assert ParseInt(DigitsOf(m)) == Some(m);
    assert image[0] == '-' <==> negative;
    var hv: int := if negative then -(h as int) else h;
    TimeZoneOfParts(image, hour, DigitsOf(m), hv, m, negative);
    ZoneNoWrap(hv, m, negative);
    assert TimeZoneFields(image) == Some(ZoneMinutes(hv, m, negative));
    assert ZoneMinutes(hv, m, negative) == (if negative then -(h * 60 + m) else h * 60 + m);
  }

  // ---------------------------------------------------------------------
  // Powers

  /** An integer exponent, with or without a caret, raises the unit it follows. */
  lemma SuffixOfInteger(toks: seq<Token>, u: Unit, q: nat, caret: bool, n: int)
    requires q < |toks|
    requires caret ==> Kind(toks, q) == CARET
    requires var e := if caret then q + 1 else q;
      Kind(toks, e) == INTEGER && ParseFloatToInt(Image(toks, e)) == Some(n)
    ensures var e := if caret then q + 1 else q;
      PowerSuffix(toks, u, q) ==
        match Pow(u, n)
        case Err(_) => Fail(ParseError.CannotRaise)
        case Ok(v) => Done(v, e + 1)
  {
  }

  /** A known name hands its unit to the optional power that follows it. */
  lemma NameThenSuffix(toks: seq<Token>, db: map<string, Unit>, at: nat)
    requires at < |toks| && Kind(toks, at) == NAME && Image(toks, at) in db
    ensures PowerExpr(toks, db, at) == PowerSuffix(toks, db[Image(toks, at)], at + 1)
  {
    assert NameExpr(toks, db, at) == Done(db[Image(toks, at)], at + 1);
  }

  /**
   * A name followed by an integer, with or without the power marker, is the
   * named unit raised to that integer; raising a zero-scale unit to a
   * negative power is refused.
   */
  lemma PowerOfName(toks: seq<Token>, db: map<string, Unit>, at: nat, caret: bool, n: int)
    requires IsInt32(n)
    requires at < |toks| && Kind(toks, at) == NAME && Image(toks, at) in db
    requires caret ==> Kind(toks, at + 1) == CARET
    requires var e := if caret then at + 2 else at + 1;
      Kind(toks, e) == INTEGER && Image(toks, e) == IntToString(n)
    ensures var e := if caret then at + 2 else at + 1;
      PowerExpr(toks, db, at) ==
        match Pow(db[Image(toks, at)], n)
        case Err(_) => Fail(ParseError.CannotRaise)
        case Ok(v) => Done(v, e + 1)
  {
    var e := if caret then at + 2 else at + 1;
    FloatRoundTrip(n);
    SuffixOfInteger(toks, db[Image(toks, at)], at + 1, caret, n);
    NameThenSuffix(toks, db, at);
  }

  // ---------------------------------------------------------------------
  // Timestamps

  /** The image of a DATE token for a non-negative year, month and day. */
  function DateImage(y: nat, m: nat, d: nat): string {
    DigitsOf(y) + "-" + DigitsOf(m) + "-" + DigitsOf(d)
  }

  /** The date fields are read back from the image they were written to. */
  lemma DateRoundTrip(y: nat, m: nat, d: nat)
    requires y <= IntMax && m <= IntMax && d <= IntMax
    ensures DateFields(DateImage(y, m, d)) == Some((y, m, d))
  {
    var fields := [DigitsOf(y), DigitsOf(m), DigitsOf(d)];
    assert Join(fields, '-') == DateImage(y, m, d) by {
      assert Join(fields[2..], '-') == DigitsOf(d);
      assert Join(fields[1..], '-') == DigitsOf(m) + "-" + DigitsOf(d);
    }
    DigitsExclude(DigitsOf(y), '-');
    DigitsExclude(DigitsOf(m), '-');
    DigitsExclude(DigitsOf(d), '-');
    FieldsOfJoin(fields, '-');
    IntRoundTrip(y);
    IntRoundTrip(m);
    IntRoundTrip(d);
    assert ParseInt(DigitsOf(y)) == Some(y as int);
    assert ParseInt(DigitsOf(m)) == Some(m as int);
    assert ParseInt(DigitsOf(d)) == Some(d as int);
  }

  /**
   * A date on its own is midnight UTC of that day, provided the month and
   * day are in range; out of range it is an invalid timestamp.
   */
  lemma DateAlone(toks: seq<Token>, p: nat, y: nat, m: nat, d: nat)
    requires y <= IntMax && m <= IntMax && d <= IntMax
    requires p < |toks| && Kind(toks, p) == DATE && Image(toks, p) == DateImage(y, m, d)
    requires !StartsClock(Kind(toks, p + 1))
    ensures 1 <= m <= 12 && 1 <= d <= 31 ==>
      TimestampTerm(toks, p) == Done(EncodeTimestamp(y, m, d, 0, 0, 0.0, 0), p + 1)
    ensures !(1 <= m <= 12 && 1 <= d <= 31) ==> TimestampTerm(toks, p) == Fail(InvalidTimestamp)
  {
    DateRoundTrip(y, m, d);
    assert ClockPart(toks, p + 1) == Done(Clock(0, 0, 0.0, 0), p + 1);
  }

  /** After a date, a word other than "T" is refused as a separator, and an unknown zone name as a zone. */
  lemma WordsAfterDate(toks: seq<Token>, q: nat)
    requires q < |toks|
    ensures Kind(toks, q) == NAME && !IsLetterT(Image(toks, q)) ==> ClockPart(toks, q) == Fail(InvalidTimestamp)
    ensures Kind(toks, q) == NAME && !IsZoneName(Image(toks, q)) ==> Zone(toks, q) == Fail(InvalidTimeZone)
    ensures Kind(toks, q) == NAME && IsZoneName(Image(toks, q)) ==> Zone(toks, q) == Done(0, q + 1)
  {
  }

  /** "Y-M-DTH:MZ": a date, the letter T, an hour and minute, and the zone Z is that minute in UTC. */
  lemma DateTimeInUtc(toks: seq<Token>, y: nat, m: nat, d: nat, h: nat, mi: nat)
    requires y <= IntMax && 1 <= m <= 12 && 1 <= d <= 31 && h <= 23 && mi <= 59
    requires toks == [Token(DATE, DateImage(y, m, d)), Token(NAME, "T"),
                      Token(TIME, DigitsOf(h) + ":" + DigitsOf(mi)), Token(NAME, "Z")]
    ensures TimestampTerm(toks, 0) == Done(EncodeTimestamp(y, m, d, h, mi, 0.0, 0), 4)
  {
    DateRoundTrip(y, m, d);
    TimeOfClock(h, mi);
    ZuluTimestamp(toks, DateImage(y, m, d), DigitsOf(h) + ":" + DigitsOf(mi), y, m, d, h, mi);
  }

  /** DateTimeInUtc for any date and time images that read back as the given fields. */
  lemma ZuluTimestamp(toks: seq<Token>, date: string, time: string, y: int, m: int, d: int, h: int, mi: int)
    requires 1 <= m <= 12 && 1 <= d <= 31 && 0 <= h <= 23 && 0 <= mi <= 59
    requires DateFields(date) == Some((y, m, d)) && TimeFields(time) == Some((h, mi, 0.0))
    requires toks == [Token(DATE, date), Token(NAME, "T"), Token(TIME, time), Token(NAME, "Z")]
    ensures TimestampTerm(toks, 0) == Done(EncodeTimestamp(y, m, d, h, mi, 0.0, 0), 4)
  {
    assert Kind(toks, 0) == DATE && Image(toks, 0) == date;
    assert Kind(toks, 1) == NAME && Image(toks, 1) == "T";
    assert TimeOfDay(toks, 2) == Done((h, mi, 0.0), 3);
    assert Kind(toks, 3) == NAME && Image(toks, 3) == "Z";
    WordsAfterDate(toks, 3);
    DateTimeZone(toks, 0, y, m, d, h, mi, 0.0, 0, 4);
  }

  /**
   * A date, "T" or a space, a time of day and a zone: the timestamp is the
   * encoded instant when every field is in range, and an invalid timestamp
   * otherwise.
   */
  lemma DateTimeZone(toks: seq<Token>, p: nat, y: int, m: int, d: int, h: int, mi: int, s: real,
                     z: int, n: nat)
    requires p + 2 < |toks| && Kind(toks, p) == DATE && DateFields(Image(toks, p)) == Some((y, m, d))
    requires (Kind(toks, p + 1) == NAME && IsLetterT(Image(toks, p + 1))) || Kind(toks, p + 1) == WHITESPACE
    requires TimeOfDay(toks, p + 2) == Done((h, mi, s), p + 3)
    requires Zone(toks, p + 3) == Done(z, n)
    ensures 1 <= m <= 12 && 1 <= d <= 31 && 0 <= h <= 23 && 0 <= mi <= 59 && 0.0 <= s <= 61.0 &&
            -1440 <= z <= 1440 ==>
      TimestampTerm(toks, p) == Done(EncodeTimestamp(y, m, d, h, mi, s, z), n)
    ensures !(1 <= m <= 12 && 1 <= d <= 31 && 0 <= h <= 23 && 0 <= mi <= 59 && 0.0 <= s <= 61.0 &&
              -1440 <= z <= 1440) ==>
      TimestampTerm(toks, p) == Fail(InvalidTimestamp)
  {
    assert ClockPart(toks, p + 1) == Done(Clock(h, mi, s, z), n);
  }

  /**
   * Every timestamp the parser accepts has a date whose month and day, and a
   * clock whose hour, minute, second and zone, are in range, and is the
   * encoding of those fields.
   */
  lemma AcceptedTimestampInRange(toks: seq<Token>, p: nat)
    requires p <= |toks| && TimestampTerm(toks, p).Done?
    ensures Kind(toks, p) == DATE && DateFields(Image(toks, p)).Some? && ClockPart(toks, p + 1).Done?
    ensures var date := DateFields(Image(toks, p)).value;
            var c := ClockPart(toks, p + 1).value;
      && 1 <= date.1 <= 12 && 1 <= date.2 <= 31
      && 0 <= c.hour <= 23 && 0 <= c.minute <= 59 && 0.0 <= c.second <= 61.0 && -1440 <= c.zone <= 1440
      && TimestampTerm(toks, p).value == EncodeTimestamp(date.0, date.1, date.2, c.hour, c.minute, c.second, c.zone)
      && TimestampTerm(toks, p).next == ClockPart(toks, p + 1).next
  {
  }

  lemma HalfPastNoonEncoded()
    ensures EncodeTimestamp(2001, 1, 1, 12, 30, 0.0, 0) == 45000.0
  {
    OriginIsZero();
    EncodeTimestampFields(2001, 1, 1, 12, 30, 0.0, 0);
  }

  /** A TIME image "H:M" is H hours and M minutes with no seconds. */
  lemma TimeOfClock(h: nat, m: nat)
    requires h <= IntMax && m <= IntMax
    ensures TimeFields(DigitsOf(h) + ":" + DigitsOf(m)) == Some((h as int, m as int, 0.0))
  {
    DigitsExclude(DigitsOf(h), ':');
    DigitsExclude(DigitsOf(m), ':');
    ColonFields(DigitsOf(h), DigitsOf(m));
    IntRoundTrip(h);
    IntRoundTrip(m);
    assert ParseInt(DigitsOf(h)) == Some(h as int);
    assert ParseInt(DigitsOf(m)) == Some(m as int);
  }
}
