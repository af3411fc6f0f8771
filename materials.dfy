/**
 * Material: reads the DATA blocks of one material file, already loaded from
 * YAML and converted to numbers, into at most one refractive-index evaluator
 * and at most one extinction-coefficient evaluator, and answers queries by
 * forwarding them.
 */
module Materials {
  import opened Outcomes
  import opened Interpolation
  import opened Formula
  import opened Tabulated
  import opened Evaluators

  /**
   * One entry of a material's DATA list: the `type` entry split at
   * whitespace, the `data` entry split into lines and each line into numbers,
   * and the numbers of the `coefficients` and `range` entries.
   */
  datatype Block = Block(typeTokens: seq<string>, rows: seq<seq<real>>, coefficients: seq<real>, range: seq<real>)

  /** The three columns collected from a tabulated block. */
  datatype Columns = Columns(wavelengths: seq<real>, n: seq<real>, k: seq<real>)

  /** The evaluators a material holds; None where the Python field is None. */
  datatype MaterialState = MaterialState(refractiveIndex: Option<RefractiveIndexData>, extinctionCoefficient: Option<ExtinctionData>)
  {
    ghost predicate Valid()
    {
      (refractiveIndex.Some? ==> refractiveIndex.value.Valid())
      && (extinctionCoefficient.Some? ==> extinctionCoefficient.value.Valid())
    }
  }

  const Empty := MaterialState(None, None)

  /** int() of a formula type token: an optional sign followed by decimal digits. */
  function ParseInt(s: string): Option<int>
  {
    if |s| > 1 && s[0] == '-' && IsDigits(s[1..]) then Some(-(DigitsValue(s[1..]) as int))
    else if |s| > 1 && s[0] == '+' && IsDigits(s[1..]) then Some(DigitsValue(s[1..]))
    else if |s| > 0 && IsDigits(s) then Some(DigitsValue(s))
    else None
  }

  predicate IsDigits(s: string)
  {
    forall i :: 0 <= i < |s| ==> '0' <= s[i] <= '9'
  }

  function DigitsValue(s: string): nat
    requires IsDigits(s)
  {
    if s == [] then 0
    else DigitsValue(s[..|s| - 1]) * 10 + (s[|s| - 1] as int - '0' as int)
  }

  /** A literal int() accepts: decimal digits, with a leading sign or without. */
  predicate SignedDigits(s: string)
  {
    (|s| > 0 && IsDigits(s))
    || (|s| > 1 && (s[0] == '-' || s[0] == '+') && IsDigits(s[1..]))
  }

  /** The decimal rendering of a natural number, most significant digit first. */
  function ShowNat(n: nat): string
  {
    if n < 10 then [('0' as int + n) as char]
    else ShowNat(n / 10) + [('0' as int + n % 10) as char]
  }

  /** The decimal rendering of an integer, with a minus sign when it is negative. */
  function ShowInt(n: int): string
  {
    if n < 0 then "-" + ShowNat(-n) else ShowNat(n)
  }

  /**
   * int() of a token succeeds exactly on an optionally signed, non-empty run
   * of decimal digits.
   */
  lemma ParseIntAccepts(s: string)
    ensures ParseInt(s).Some? <==> SignedDigits(s)
  {
    if |s| > 0 && IsDigits(s) {
      assert '0' <= s[0] <= '9';
    }
  }

  /** A sign applies to the value of the digits after it; unsigned digits read as their value. */
  lemma ParseIntValue(s: string)
    ensures |s| > 0 && IsDigits(s) ==> ParseInt(s) == Some(DigitsValue(s))
    ensures |s| > 1 && s[0] == '-' && IsDigits(s[1..]) ==> ParseInt(s) == Some(-(DigitsValue(s[1..]) as int))
    ensures |s| > 1 && s[0] == '+' && IsDigits(s[1..]) ==> ParseInt(s) == Some(DigitsValue(s[1..]) as int)
  {
    if |s| > 0 && IsDigits(s) {
      assert '0' <= s[0] <= '9';
    }
  }

  /** The rendering of a natural number is a digit string whose value is that number. */
  lemma {:induction false} ShowNatValue(n: nat)
    ensures |ShowNat(n)| > 0 && IsDigits(ShowNat(n))
    ensures DigitsValue(ShowNat(n)) == n
  {
    var s := ShowNat(n);
    if n >= 10 {
      ShowNatValue(n / 10);
      assert s[..|s| - 1] == ShowNat(n / 10);
    }
  }

  /** Reading back the decimal rendering of any integer gives that integer. */
  lemma ParseIntRoundTrip(n: int)
    ensures ParseInt(ShowInt(n)) == Some(n)
  {
    if n < 0 {
      ShowNatValue(-n);
      var s := ShowInt(n);
      assert s[0] == '-' && s[1..] == ShowNat(-n);
      ParseIntValue(s);
    } else {
      ShowNatValue(n);
      ParseIntValue(ShowInt(n));
    }
  }

  /** The entries of column c, from the rows that are wide enough to have one, in order. */
  function Column(rows: seq<seq<real>>, c: nat): (col: seq<real>)
    ensures |col| <= |rows|
  {
    if rows == [] then []
    else (if |rows[0]| > c then [rows[0][c]] else []) + Column(rows[1..], c)
  }

  /**
   * The row loop of a tabulated block: a blank row is skipped, a row with a
   * single number fails on its missing second column, and every other row
   * adds a wavelength and an n, and a k when it has a third number.
   */
  function ParseRows(rows: seq<seq<real>>): Result<Columns>
  {
    if rows == [] then Ok(Columns([], [], []))
    else
      var s := rows[0];
      if |s| == 0 then ParseRows(rows[1..])
      else if |s| == 1 then Err(IndexError)
      else
        match ParseRows(rows[1..])
        case Err(e) => Err(e)
        case Ok(rest) =>
          Ok(Columns([s[0]] + rest.wavelengths, [s[1]] + rest.n, (if |s| > 2 then [s[2]] else []) + rest.k))
  }

  /**
   * Row parsing fails exactly when some row holds a single number, and then
   * with IndexError; otherwise each list is the column of that index over the
   * rows wide enough to have it, so there are as many wavelengths as n values
   * and at least as many as k values.
   */
  lemma {:induction false} ParseRowsColumns(rows: seq<seq<real>>)
    ensures ParseRows(rows).Ok? <==> forall i :: 0 <= i < |rows| ==> |rows[i]| != 1
    ensures ParseRows(rows).Err? ==> ParseRows(rows).error == IndexError
    ensures ParseRows(rows).Ok? ==> ParseRows(rows).value == Columns(Column(rows, 0), Column(rows, 1), Column(rows, 2))
    ensures ParseRows(rows).Ok? ==> |ParseRows(rows).value.wavelengths| == |ParseRows(rows).value.n| >= |ParseRows(rows).value.k|
  {
    if rows != [] {
      ParseRowsColumns(rows[1..]);
      assert forall i :: 1 <= i < |rows| ==> rows[1..][i - 1] == rows[i];
    }
  }

  /** Puts the columns gathered so far in front of those still to come. */
  function Prepend(done: Columns, r: Result<Columns>): Result<Columns>
  {
    match r
    case Ok(c) => Ok(Columns(done.wavelengths + c.wavelengths, done.n + c.n, done.k + c.k))
    case Err(e) => Err(e)
  }

  /** The columns one row adds. */
  function RowColumns(s: seq<real>): Columns
    requires |s| != 1
  {
    if |s| == 0 then Columns([], [], [])
    else Columns([s[0]], [s[1]], if |s| > 2 then [s[2]] else [])
  }

  /** Nothing gathered yet: the columns still to come are all there is. */
  lemma PrependNothing(r: Result<Columns>)
    ensures Prepend(Columns([], [], []), r) == r
  {
    if r.Ok? {
      var c := r.value;
      assert [] + c.wavelengths == c.wavelengths && [] + c.n == c.n && [] + c.k == c.k;
    }
  }

  /** The columns of two stretches of rows, one after the other. */
  function Concat(a: Columns, b: Columns): Columns
  {
    Columns(a.wavelengths + b.wavelengths, a.n + b.n, a.k + b.k)
  }

  lemma PrependPrepend(a: Columns, b: Columns, r: Result<Columns>)
    ensures Prepend(a, Prepend(b, r)) == Prepend(Concat(a, b), r)
  {
    if r.Ok? {
      var c := r.value;
      assert a.wavelengths + (b.wavelengths + c.wavelengths) == (a.wavelengths + b.wavelengths) + c.wavelengths;
      assert a.n + (b.n + c.n) == (a.n + b.n) + c.n;
      assert a.k + (b.k + c.k) == (a.k + b.k) + c.k;
    }
  }

  /** A row without a single number contributes its own columns in front of the rest. */
  lemma ParseRowsFront(rows: seq<seq<real>>)
    requires rows != [] && |rows[0]| != 1
    ensures ParseRows(rows) == Prepend(RowColumns(rows[0]), ParseRows(rows[1..]))
  {
    if |rows[0]| == 0 {
      PrependNothing(ParseRows(rows[1..]));
    }
  }

  /** Gathering the columns row by row from the front gives the same columns as ParseRows. */
  lemma PrependRow(done: Columns, rows: seq<seq<real>>)
    requires rows != [] && |rows[0]| != 1
    ensures Prepend(done, ParseRows(rows)) == Prepend(Concat(done, RowColumns(rows[0])), ParseRows(rows[1..]))
  {
    ParseRowsFront(rows);
    PrependPrepend(done, RowColumns(rows[0]), ParseRows(rows[1..]));
  }

  /** The row loop of Material.__init__, appending to the three lists. */
  method SplitColumns(rows: seq<seq<real>>) returns (r: Result<Columns>)
    ensures r == ParseRows(rows)
  {
    var wavelengths: seq<real>, n: seq<real>, k: seq<real> := [], [], [];
    var i := 0;
    assert rows[0..] == rows;
    PrependNothing(ParseRows(rows));
    while i < |rows|
      invariant 0 <= i <= |rows|
      invariant ParseRows(rows) == Prepend(Columns(wavelengths, n, k), ParseRows(rows[i..]))
    {
      var s := rows[i];
      assert rows[i..][0] == s && rows[i..][1..] == rows[i + 1..];
      if |s| == 1 {
        wavelengths := wavelengths + [s[0]];
        return Err(IndexError);
      }
      PrependRow(Columns(wavelengths, n, k), rows[i..]);
      ghost var next := Concat(Columns(wavelengths, n, k), RowColumns(s));
      if |s| > 0 {
        wavelengths := wavelengths + [s[0]];
        n := n + [s[1]];
        if |s| > 2 {
          k := k + [s[2]];
        }
      } else {
        assert wavelengths + [] == wavelengths && n + [] == n && k + [] == k;
      }
      assert next == Columns(wavelengths, n, k);
      i := i + 1;
    }
    assert rows[i..] == [];
    assert wavelengths + [] == wavelengths && n + [] == n && k + [] == k;
    r := Ok(Columns(wavelengths, n, k));
  }

  /**
   * The wavelengths of a block are ones the model can hand to its
   * interpolant: increasing or all equal for a `tabulated n` block (which
   * never interpolates when they are all equal), strictly increasing for a
   * `k` or `nk` block (whose extinction coefficient always interpolates).
   * Other blocks never build a tabulated evaluator and are unconstrained.
   */
  predicate SortedSamples(b: Block)
  {
    (TabulatedBlock(b, "n") ==> Interpolable(Column(b.rows, 0)))
    && (DefinesK(b) ==> Increasing(Column(b.rows, 0)))
  }

  predicate AllSorted(blocks: seq<Block>)
  {
    forall i :: 0 <= i < |blocks| ==> SortedSamples(blocks[i])
  }

  /** Stores an evaluator the factory built as the refractive index, or passes its failure on. */
  function SetRefractiveIndex(st: MaterialState, d: Result<RefractiveIndexData>): Result<MaterialState>
  {
    match d
    case Ok(v) => Ok(st.(refractiveIndex := Some(v)))
    case Err(e) => Err(e)
  }

  /** Stores an extinction evaluator, or passes its failure on. */
  function SetExtinction(st: MaterialState, e: Result<ExtinctionData>): Result<MaterialState>
  {
    match e
    case Ok(v) => Ok(st.(extinctionCoefficient := Some(v)))
    case Err(err) => Err(err)
  }

  /** No row of the block holds a single number, so its rows parse. */
  predicate RowsParse(b: Block)
  {
    forall i :: 0 <= i < |b.rows| ==> |b.rows[i]| != 1
  }

  /** A tabulated block with the given subkind. */
  predicate TabulatedBlock(b: Block, subkind: string)
  {
    |b.typeTokens| >= 2 && b.typeTokens[0] == "tabulated" && b.typeTokens[1] == subkind
  }

  /** A block that sets the extinction coefficient when it loads. */
  predicate DefinesK(b: Block)
  {
    TabulatedBlock(b, "k") || TabulatedBlock(b, "nk")
  }

  /**
   * The subkind dispatch of a tabulated block, once its rows are split into
   * columns. A `k` block takes its values from the second column; an unknown
   * subkind changes nothing.
   */
  function LoadTabulated(st: MaterialState, subkind: string, cols: Columns): (r: Result<MaterialState>)
    requires st.Valid()
    requires subkind == "n" ==> Interpolable(cols.wavelengths)
    requires subkind == "k" || subkind == "nk" ==> Increasing(cols.wavelengths)
    ensures r.Ok? ==> r.value.Valid()
  {
    if subkind == "n" then
      SetRefractiveIndex(st, SetupRefractiveIndex(-1, TabulatedArgs(cols.wavelengths, cols.n)))
    else if subkind == "k" then
      SetExtinction(st, SetupExtinction(cols.wavelengths, cols.n))
    else if subkind == "nk" then
      match SetupRefractiveIndex(-1, TabulatedArgs(cols.wavelengths, cols.n))
      case Err(e) => Err(e)
      case Ok(d) => SetExtinction(st.(refractiveIndex := Some(d)), SetupExtinction(cols.wavelengths, cols.k))
    else Ok(st)
  }

  /**
   * One pass of the block loop in Material.__init__. A block that defines the
   * refractive index again replaces the first definition: the code builds an
   * Exception for that case and never raises it.
   */
  function Step(st: MaterialState, b: Block): (r: Result<MaterialState>)
    requires st.Valid() && SortedSamples(b)
    ensures r.Ok? ==> r.value.Valid()
  {
    var t := b.typeTokens;
    if |t| == 0 then Err(IndexError)
    else if t[0] == "tabulated" then
      ParseRowsColumns(b.rows);
      match ParseRows(b.rows)
      case Err(e) => Err(e)
      case Ok(cols) =>
        if |t| < 2 then Err(IndexError) else LoadTabulated(st, t[1], cols)
    else if t[0] == "formula" then
      if |t| < 2 then Err(IndexError)
      else
        match ParseInt(t[1])
        case None => Err(NotAnInteger)
        case Some(id) =>
          if |b.range| < 2 then Err(IndexError)
          else SetRefractiveIndex(st, SetupRefractiveIndex(id, FormulaArgs(b.range[0], b.range[1], b.coefficients)))
    else Ok(st)
  }

  /** A tabulated block whose rows parse is handled by the subkind dispatch over its columns. */
  lemma TabulatedStep(st: MaterialState, b: Block)
    requires st.Valid() && SortedSamples(b) && RowsParse(b)
    requires |b.typeTokens| >= 2 && b.typeTokens[0] == "tabulated"
    ensures b.typeTokens[1] == "n" ==> Interpolable(Column(b.rows, 0))
    ensures b.typeTokens[1] == "k" || b.typeTokens[1] == "nk" ==> Increasing(Column(b.rows, 0))
    ensures |Column(b.rows, 0)| == |Column(b.rows, 1)| >= |Column(b.rows, 2)|
    ensures Step(st, b)
      == LoadTabulated(st, b.typeTokens[1], Columns(Column(b.rows, 0), Column(b.rows, 1), Column(b.rows, 2)))
  {
    ParseRowsColumns(b.rows);
  }

  /** The whole block loop: blocks are read in order and the first failure ends it. */
  function Route(st: MaterialState, blocks: seq<Block>): (r: Result<MaterialState>)
    requires st.Valid() && AllSorted(blocks)
    ensures r.Ok? ==> r.value.Valid()
    decreases |blocks|
  {
    if blocks == [] then Ok(st)
    else
      match Step(st, blocks[0])
      case Err(e) => Err(e)
      case Ok(next) => Route(next, blocks[1..])
  }

  /**
   * A `tabulated n` block loads exactly when it has a non-blank row (else
   * numpy.min fails on no samples) and replaces the refractive index by the
   * evaluator over the first two columns, whatever was there before.
   */
  lemma TabulatedNBlock(st: MaterialState, b: Block)
    requires st.Valid() && SortedSamples(b) && RowsParse(b) && TabulatedBlock(b, "n")
    ensures |Column(b.rows, 0)| == |Column(b.rows, 1)|
    ensures Step(st, b).Ok? <==> |Column(b.rows, 0)| > 0
    ensures Step(st, b).Err? ==> Step(st, b) == Err(NoSamples)
    ensures Step(st, b).Ok? ==>
      Step(st, b).value == st.(refractiveIndex := Some(TabulatedBased(SetupTabulatedN(Column(b.rows, 0), Column(b.rows, 1)).value)))
  {
    TabulatedStep(st, b);
  }

  /**
   * A `tabulated n` block whose rows all sit at 500 nm loads as the constant
   * of its first row: the interpolant is never built.
   */
  lemma DegenerateNBlockExample()
    ensures var b := Block(["tabulated", "n"], [[0.5, 1.5], [0.5, 1.6]], [], []);
      AllSorted([b]) && Route(Empty, [b]) == Ok(MaterialState(Some(TabulatedBased(TabulatedN(0.5, 0.5, Constant(1.5)))), None))
  {
    var b := Block(["tabulated", "n"], [[0.5, 1.5], [0.5, 1.6]], [], []);
    DegenerateNStep(b);
    RouteSingle(Empty, b);
  }

  /** A material of one block is what that block's step leaves. */
  lemma RouteSingle(st: MaterialState, b: Block)
    requires st.Valid() && SortedSamples(b)
    ensures AllSorted([b]) && Route(st, [b]) == Step(st, b)
  {
    assert [b][1..] == [];
    match Step(st, b) {
      case Err(_) =>
      case Ok(next) => assert Route(next, []) == Ok(next);
    }
  }

  lemma DegenerateNStep(b: Block)
    requires b == Block(["tabulated", "n"], [[0.5, 1.5], [0.5, 1.6]], [], [])
    ensures SortedSamples(b)
    ensures Step(Empty, b) == Ok(MaterialState(Some(TabulatedBased(TabulatedN(0.5, 0.5, Constant(1.5)))), None))
  {
    var xs, ns := [0.5, 0.5], [1.5, 1.6];
    DegenerateColumns(b.rows);
    assert AllEqual(xs);
    DegenerateRange(xs);
    assert SetupTabulatedN(xs, ns) == Ok(TabulatedN(0.5, 0.5, Constant(1.5)));
    assert TabulatedBlock(b, "n");
    TabulatedNBlock(Empty, b);
  }

  lemma DegenerateColumns(rows: seq<seq<real>>)
    requires rows == [[0.5, 1.5], [0.5, 1.6]]
    ensures Column(rows, 0) == [0.5, 0.5] && Column(rows, 1) == [1.5, 1.6]
    ensures forall i :: 0 <= i < |rows| ==> |rows[i]| != 1
  {
    assert rows[1..][1..] == [];
  }

  /** That material answers 1.5 at exactly 500 nm and is out of bounds at 600 nm. */
  lemma DegenerateNQueryExample(num: Numerics)
    ensures var d := TabulatedBased(TabulatedN(0.5, 0.5, Constant(1.5)));
      d.Valid() && RefractiveIndexAt(num, d, 500.0) == Ok(1.5)
      && RefractiveIndexAt(num, d, 600.0) == Err(OutOfBounds(0.6, 0.5, 0.5))
  {
  }

  /**
   * A `tabulated k` block takes the extinction coefficient from the second
   * column: it loads exactly when there are at least two non-blank rows, and leaves
   * the refractive index alone.
   */
  lemma TabulatedKBlock(st: MaterialState, b: Block)
    requires st.Valid() && SortedSamples(b) && RowsParse(b) && TabulatedBlock(b, "k")
    ensures Step(st, b).Ok? <==> |Column(b.rows, 0)| >= 2
    ensures Step(st, b).Err? ==> Step(st, b) == Err(InterpolationRejected)
    ensures Step(st, b).Ok? ==>
      var xs := Column(b.rows, 0);
      Step(st, b).value
      == st.(extinctionCoefficient := Some(ExtinctionData(xs, Column(b.rows, 1), xs[0], xs[|xs| - 1])))
  {
    TabulatedStep(st, b);
    LoadK(st, Columns(Column(b.rows, 0), Column(b.rows, 1), Column(b.rows, 2)));
  }

  /** The `k` branch over given columns: the second column becomes k when there are two samples or more. */
  lemma LoadK(st: MaterialState, cols: Columns)
    requires st.Valid() && Increasing(cols.wavelengths) && |cols.wavelengths| == |cols.n|
    ensures var xs := cols.wavelengths;
      LoadTabulated(st, "k", cols)
      == if |xs| >= 2 then Ok(st.(extinctionCoefficient := Some(ExtinctionData(xs, cols.n, xs[0], xs[|xs| - 1]))))
         else Err(InterpolationRejected)
  {
    if |cols.wavelengths| >= 2 {
      IncreasingRange(cols.wavelengths);
    }
  }

  /**
   * A `tabulated nk` block builds both evaluators over the same wavelengths,
   * n from the second column and k from the third: it loads exactly when
   * there are at least two non-blank rows and each has a third number.
   */
  lemma TabulatedNKBlock(st: MaterialState, b: Block)
    requires st.Valid() && SortedSamples(b) && RowsParse(b) && TabulatedBlock(b, "nk")
    ensures Step(st, b).Ok? <==> |Column(b.rows, 0)| >= 2 && |Column(b.rows, 2)| == |Column(b.rows, 0)|
    ensures Step(st, b).Ok? ==>
      var xs := Column(b.rows, 0);
      var lo, hi := xs[0], xs[|xs| - 1];
      Step(st, b).value == MaterialState(
        Some(TabulatedBased(TabulatedN(lo, hi, Linear(xs, Column(b.rows, 1))))),
        Some(ExtinctionData(xs, Column(b.rows, 2), lo, hi)))
  {
    TabulatedStep(st, b);
    var xs, ns, ks := Column(b.rows, 0), Column(b.rows, 1), Column(b.rows, 2);
    if |xs| >= 2 {
      IncreasingRange(xs);
      DegenerateRange(xs);
      assert xs[0] < xs[1];
      var n := SetupTabulatedN(xs, ns);
      assert n == Ok(TabulatedN(xs[0], xs[|xs| - 1], Linear(xs, ns)));
      assert SetupRefractiveIndex(-1, TabulatedArgs(xs, ns)) == Ok(TabulatedBased(n.value));
    }
  }

  /**
   * A formula block with a non-negative id replaces the refractive index by a
   * formula evaluator, whatever was there before: the duplicate-definition
   * Exception is built and dropped, so the later block wins.
   */
  lemma FormulaBlockReplaces(st: MaterialState, b: Block, id: int)
    requires st.Valid() && SortedSamples(b)
    requires |b.typeTokens| >= 2 && b.typeTokens[0] == "formula" && ParseInt(b.typeTokens[1]) == Some(id)
    requires id >= 0 && |b.range| >= 2
    ensures Step(st, b) == Ok(st.(refractiveIndex := Some(FormulaBased(FormulaData(id, b.range[0], b.range[1], b.coefficients)))))
  {
  }

  /**
   * A formula block whose id is negative fails: -1 hands the formula
   * arguments to the tabulated evaluator, anything lower is a bad data type.
   */
  lemma FormulaBlockRefused(st: MaterialState, b: Block, id: int)
    requires st.Valid() && SortedSamples(b)
    requires |b.typeTokens| >= 2 && b.typeTokens[0] == "formula" && ParseInt(b.typeTokens[1]) == Some(id)
    requires id < 0 && |b.range| >= 2
    ensures Step(st, b) == Err(if id == -1 then UnexpectedArguments else BadDataType(id))
  {
  }

  /**
   * A block whose kind is neither `tabulated` nor `formula`, whatever its
   * data (which is never read), or a tabulated block whose rows parse and
   * whose subkind is none of n, k, nk, changes nothing.
   */
  lemma UnknownBlockIgnored(st: MaterialState, b: Block)
    requires st.Valid() && SortedSamples(b) && |b.typeTokens| >= 1
    requires b.typeTokens[0] != "formula"
    requires b.typeTokens[0] == "tabulated" ==>
      RowsParse(b) && |b.typeTokens| >= 2
      && b.typeTokens[1] != "n" && b.typeTokens[1] != "k" && b.typeTokens[1] != "nk"
    ensures Step(st, b) == Ok(st)
  {
    ParseRowsColumns(b.rows);
  }

  /** Loading one more block runs one more step on what the earlier blocks left. */
  lemma {:induction false} RouteSnoc(st: MaterialState, blocks: seq<Block>, b: Block)
    requires st.Valid() && AllSorted(blocks) && SortedSamples(b)
    ensures AllSorted(blocks + [b])
    ensures Route(st, blocks + [b]) ==
      match Route(st, blocks)
      case Err(e) => Err(e)
      case Ok(mid) => Step(mid, b)
    decreases |blocks|
  {
    if blocks == [] {
      assert [b][1..] == [];
    } else {
      assert (blocks + [b])[0] == blocks[0];
      assert (blocks + [b])[1..] == blocks[1..] + [b];
      match Step(st, blocks[0]) {
        case Err(_) =>
        case Ok(next) => RouteSnoc(next, blocks[1..], b);
      }
    }
  }

  /**
   * Of two definitions of the refractive index the later one wins: after
   * any blocks that load, a valid formula block leaves its own evaluator.
   */
  lemma LaterDefinitionWins(st: MaterialState, blocks: seq<Block>, b: Block, id: int)
    requires st.Valid() && AllSorted(blocks) && SortedSamples(b)
    requires Route(st, blocks).Ok?
    requires |b.typeTokens| >= 2 && b.typeTokens[0] == "formula" && ParseInt(b.typeTokens[1]) == Some(id)
    requires id >= 0 && |b.range| >= 2
    ensures AllSorted(blocks + [b])
    ensures Route(st, blocks + [b]).Ok?
    ensures Route(st, blocks + [b]).value.refractiveIndex
      == Some(FormulaBased(FormulaData(id, b.range[0], b.range[1], b.coefficients)))
    ensures Route(st, blocks + [b]).value.extinctionCoefficient == Route(st, blocks).value.extinctionCoefficient
  {
    RouteSnoc(st, blocks, b);
    FormulaBlockReplaces(Route(st, blocks).value, b, id);
  }

  /** Without a `k` or `nk` block the extinction coefficient is never set. */
  lemma {:induction false} ExtinctionOnlyFromKBlocks(st: MaterialState, blocks: seq<Block>)
    requires st.Valid() && AllSorted(blocks)
    requires forall i :: 0 <= i < |blocks| ==> !DefinesK(blocks[i])
    ensures Route(st, blocks).Ok? ==> Route(st, blocks).value.extinctionCoefficient == st.extinctionCoefficient
    decreases |blocks|
  {
    if blocks != [] {
      assert !DefinesK(blocks[0]);
      match Step(st, blocks[0]) {
        case Err(_) =>
        case Ok(next) =>
          assert next.extinctionCoefficient == st.extinctionCoefficient;
          assert forall i :: 0 <= i < |blocks[1..]| ==> blocks[1..][i] == blocks[i + 1];
          ExtinctionOnlyFromKBlocks(next, blocks[1..]);
      }
    }
  }

  class Material {
    var refractiveIndex: Option<RefractiveIndexData>
    var extinctionCoefficient: Option<ExtinctionData>

    function State(): MaterialState
      reads this
    {
      MaterialState(refractiveIndex, extinctionCoefficient)
    }

    ghost predicate Valid()
      reads this
    {
      State().Valid()
    }

    /** Both evaluators start out absent. */
    constructor ()
      ensures State() == Empty && Valid()
    {
      refractiveIndex := None;
      extinctionCoefficient := None;
    }

    /**
     * The block loop of Material.__init__: on success the fields hold what
     * Route computes from the state before; on failure the error is the one
     * the first failing block raises.
     */
    method Load(blocks: seq<Block>) returns (outcome: Result<()>)
      requires Valid() && AllSorted(blocks)
      modifies this
      ensures outcome.Ok? <==> Route(old(State()), blocks).Ok?
      ensures outcome.Ok? ==> Valid() && State() == Route(old(State()), blocks).value
      ensures outcome.Err? ==> outcome.error == Route(old(State()), blocks).error
    {
      var i := 0;
      assert blocks[0..] == blocks;
      while i < |blocks|
        invariant 0 <= i <= |blocks|
        invariant Valid()
        invariant Route(old(State()), blocks) == Route(State(), blocks[i..])
      {
        assert blocks[i..][0] == blocks[i] && blocks[i..][1..] == blocks[i + 1..];
        var step := LoadBlock(blocks[i]);
        if step.Err? {
          return step;
        }
        i := i + 1;
      }
      outcome := Ok(());
    }

    /**
     * One pass of the block loop: the fields are overwritten as the block
     * says, and a failure is reported as the block raises it.
     */
    method LoadBlock(data: Block) returns (outcome: Result<()>)
      requires Valid() && SortedSamples(data)
      modifies this
      ensures outcome.Ok? <==> Step(old(State()), data).Ok?
      ensures outcome.Ok? ==> Valid() && State() == Step(old(State()), data).value
      ensures outcome.Err? ==> outcome.error == Step(old(State()), data).error
    {
      var t := data.typeTokens;
      if |t| == 0 {
        return Err(IndexError);
      }
      if t[0] == "tabulated" {
        var cols := SplitColumns(data.rows);
        ParseRowsColumns(data.rows);
        if cols.Err? {
          return Err(cols.error);
        }
        var wavelengths, n, k := cols.value.wavelengths, cols.value.n, cols.value.k;
        if |t| < 2 {
          return Err(IndexError);
        }
        TabulatedStep(State(), data);
        if t[1] == "n" {
          var d := SetupRefractiveIndex(-1, TabulatedArgs(wavelengths, n));
          if d.Err? {
            return Err(d.error);
          }
          refractiveIndex := Some(d.value);
        } else if t[1] == "k" {
          var e := SetupExtinction(wavelengths, n);
          if e.Err? {
            return Err(e.error);
          }
          extinctionCoefficient := Some(e.value);
        } else if t[1] == "nk" {
          var d := SetupRefractiveIndex(-1, TabulatedArgs(wavelengths, n));
          if d.Err? {
            return Err(d.error);
          }
          refractiveIndex := Some(d.value);
          var e := SetupExtinction(wavelengths, k);
          if e.Err? {
            return Err(e.error);
          }
          extinctionCoefficient := Some(e.value);
        }
      } else if t[0] == "formula" {
        if |t| < 2 {
          return Err(IndexError);
        }
        var formula := ParseInt(t[1]);
        if formula.None? {
          return Err(NotAnInteger);
        }
        if |data.range| < 2 {
          return Err(IndexError);
        }
        var d := SetupRefractiveIndex(formula.value, FormulaArgs(data.range[0], data.range[1], data.coefficients));
        if d.Err? {
          return Err(d.error);
        }
        refractiveIndex := Some(d.value);
      }
      outcome := Ok(());
    }

    /** Material.getRefractiveIndex: fails when no block defined n, else asks the evaluator. */
    method GetRefractiveIndex(num: Numerics, wavelength: real) returns (r: Result<real>)
      requires Valid()
      ensures refractiveIndex.None? ==> r == Err(NoRefractiveIndex)
      ensures refractiveIndex.Some? ==> r == RefractiveIndexAt(num, refractiveIndex.value, wavelength)
    {
      if refractiveIndex.None? {
        r := Err(NoRefractiveIndex);
      } else {
        r := Evaluators.GetRefractiveIndex(num, refractiveIndex.value, wavelength);
      }
    }

    /** Material.getExtinctionCoefficient: fails when no block defined k, else asks the evaluator. */
    method GetExtinctionCoefficient(wavelength: real) returns (r: Result<real>)
      requires Valid()
      ensures extinctionCoefficient.None? ==> r == Err(NoExtinctionCoefficient)
      ensures extinctionCoefficient.Some? ==> r == ExtinctionAt(extinctionCoefficient.value, wavelength)
    {
      if extinctionCoefficient.None? {
        r := Err(NoExtinctionCoefficient);
      } else {
        r := ExtinctionAt(extinctionCoefficient.value, wavelength);
      }
    }
  }

  /** Material(filename) once the file is loaded: a fresh material, or the error its blocks raise. */
  method OpenMaterial(blocks: seq<Block>) returns (r: Result<Material>)
    requires AllSorted(blocks)
    ensures r.Ok? <==> Route(Empty, blocks).Ok?
    ensures r.Ok? ==> fresh(r.value) && r.value.Valid() && r.value.State() == Route(Empty, blocks).value
    ensures r.Err? ==> r.error == Route(Empty, blocks).error
  {
    var m := new Material();
    var outcome := m.Load(blocks);
    if outcome.Ok? {
      r := Ok(m);
    } else {
      r := Err(outcome.error);
    }
  }
}
