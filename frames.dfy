/** Values shared by every part of the pipeline: optional values, results that
    carry the exception the Python code would raise, the cell values of a
    DataFrame row, and the two conversions between integers and text that the
    pipeline uses (`str(int)` and `pd.to_numeric`). */
module Frames {

  datatype Option<+T> = None | Some(value: T)

  /** The exceptions the modelled code can raise and does not catch. An API
      error that the code catches is not a fault: it becomes an empty result. */
  datatype Fault =
    | KeyArity(given: nat)          // ValueError: the key tuple does not unpack into two names
    | MissingColumn(name: string)   // KeyError: a DataFrame column that is not there
    | MissingKey(name: string)      // KeyError: a dictionary key that is not there
    | MissingManagerEntry           // KeyError: the seed has no entry in manager_client_map
    | NotAClientRow                 // AttributeError: `.manager` on an entry already converted
    | NoDateWindow                  // min()/max() of a date column without any date
    | NotADate                      // a date column holding a value that is not a date
    | BadType                       // TypeError: a value of an unexpected kind
    | AssertionFailed               // a failing `assert` on an API response
    | NoMatch                       // IndexError: `.iloc[0]` of an empty selection
    | BadFormat                     // a replacement field other than {start_date} and {end_date}
    | NoSeeds                       // manager_client_map read before any seed assigned it
    | SearchFailed                  // GoogleAdsException raised inside get_clients
    | ReadFailed                    // pandas_gbq.read_gbq raised
    | WriteFailed                   // pandas_gbq.to_gbq raised
    | OutOfFuel                     // the walk needed more search calls than the bound allows
    | OutOfResponses                // a page was requested beyond the canned responses

  datatype Result<+T> = Ok(value: T) | Err(error: Fault) {
    predicate IsFailure() { Err? }
    function PropagateFailure<U>(): Result<U>
      requires Err?
    {
      Err(error)
    }
    function Extract(): T
      requires Ok?
    {
      value
    }
  }

  /** One cell of a DataFrame. A floating-point value is kept as the real
      number it denotes. */
  datatype Value =
    | VNone                 // None / NaN / NaT
    | VBool(b: bool)
    | VInt(i: int)
    | VFloat(x: real)       // a finite floating-point value
    | VText(s: string)
    | VDate(day: int)       // a calendar day, already normalised
    | VOther                // a nested value (list or dictionary), kept opaque

  /** One DataFrame row: column name to cell. */
  type Row = map<string, Value>

  /** The cell of column `c`, or a missing value when the row has no such column. */
  function Cell(r: Row, c: string): Value
  {
    if c in r then r[c] else VNone
  }

  /** `DataFrame.empty`: no rows, or no columns. */
  predicate EmptyFrame(rows: seq<Row>)
  {
    forall k :: 0 <= k < |rows| ==> rows[k] == map[]
  }

  /** Concatenation of a list of tables (`pd.concat(..., axis=0)`). */
  function Concat(tables: seq<seq<Row>>): (rows: seq<Row>)
    ensures forall x :: x in rows <==> exists t :: t in tables && x in t
  {
    if tables == [] then []
    else
      assert forall t :: t in tables <==> t == tables[0] || t in tables[1..];
      tables[0] + Concat(tables[1..])
  }

  lemma {:induction false} ConcatAppend(tables: seq<seq<Row>>, t: seq<Row>)
    ensures Concat(tables + [t]) == Concat(tables) + t
  {
    if tables == [] {
      assert tables + [t] == [t];
    } else {
      assert (tables + [t])[1..] == tables[1..] + [t];
      ConcatAppend(tables[1..], t);
    }
  }

  // ---------------------------------------------------------------------
  // Decimal text: Python's str(int) and the integer part of pd.to_numeric

  predicate IsDigit(ch: char) { '0' <= ch <= '9' }

  predicate AllDigits(s: string) { forall k :: 0 <= k < |s| ==> IsDigit(s[k]) }

  function DigitChar(d: nat): (ch: char)
    requires d < 10
    ensures IsDigit(ch) && ch as int - '0' as int == d
  {
    (d + '0' as int) as char
  }

  function DigitValue(ch: char): (d: nat)
    requires IsDigit(ch)
    ensures d < 10
  {
    ch as int - '0' as int
  }

  /** The decimal digits of `n`, most significant first, without leading zeros. */
  function NatText(n: nat): (s: string)
    ensures |s| >= 1 && AllDigits(s)
    ensures |s| > 1 ==> s[0] != '0'
  {
    if n < 10 then [DigitChar(n)] else NatText(n / 10) + [DigitChar(n % 10)]
  }

  /** Python's `str(i)` for an int. */
  function IntText(i: int): string
  {
    if i < 0 then "-" + NatText(-i) else NatText(i)
  }

  /** The number a non-empty string of decimal digits denotes. */
  function DigitsValue(s: string): nat
    requires AllDigits(s)
  {
    if s == [] then 0 else DigitsValue(s[..|s| - 1]) * 10 + DigitValue(s[|s| - 1])
  }

  /** `pd.to_numeric(s, errors="coerce")` restricted to integer texts: an
      optional sign followed by at least one digit; anything else is None. */
  function ParseInt(s: string): (r: Option<int>)
    ensures r.Some? ==> |s| >= 1
  {
    if |s| >= 2 && (s[0] == '-' || s[0] == '+') && AllDigits(s[1..]) then
      var magnitude: int := DigitsValue(s[1..]);
      Some(if s[0] == '-' then -magnitude else magnitude)
    else if |s| >= 1 && AllDigits(s) then
      Some(DigitsValue(s))
    else
      None
  }

  lemma {:induction false} DigitsOfNatText(n: nat)
    ensures DigitsValue(NatText(n)) == n
  {
    var s := NatText(n);
    if n >= 10 {
      DigitsOfNatText(n / 10);
      assert s[..|s| - 1] == NatText(n / 10);
    }
  }

  /** The text `str(i)` reads back as `i`: the two conversions are inverse. */
  lemma IntTextRoundTrip(i: int)
    ensures ParseInt(IntText(i)) == Some(i)
  {
    var s := IntText(i);
    if i < 0 {
      var digits := NatText(-i);
      DigitsOfNatText(-i);
      assert s == "-" + digits && s[0] == '-' && s[1..] == digits;
    } else {
      DigitsOfNatText(i);
      assert IsDigit(s[0]);
    }
  }

  /** `str()` is injective on ints: distinct ids give distinct texts. */
  lemma IntTextInjective(i: int, j: int)
    requires IntText(i) == IntText(j)
    ensures i == j
  {
    IntTextRoundTrip(i);
    IntTextRoundTrip(j);
  }

  // ---------------------------------------------------------------------
  // The `impressions > 0` filter shared by both sources

  /** `row["impressions"] > 0`: an integer or float above zero, or `True`
      (which compares as 1); a missing or non-numeric value compares false. */
  predicate HasImpressions(r: Row)
  {
    match Cell(r, "impressions")
    case VInt(i) => i > 0
    case VFloat(x) => x > 0.0
    case VBool(b) => b
    case _ => false
  }

  /** `df[df["impressions"] > 0]`: keeps the rows with impressions, in order. */
  function KeepImpressions(rows: seq<Row>): (kept: seq<Row>)
    ensures |kept| <= |rows|
    ensures forall r :: r in kept <==> r in rows && HasImpressions(r)
  {
    if rows == [] then []
    else if HasImpressions(rows[0]) then [rows[0]] + KeepImpressions(rows[1..])
    else KeepImpressions(rows[1..])
  }

  /** `a` is `b` with some rows left out, the rest in their order. */
  predicate IsSubsequence(a: seq<Row>, b: seq<Row>)
    decreases |b|
  {
    a == [] || (b != [] && ((a[0] == b[0] && IsSubsequence(a[1..], b[1..])) || IsSubsequence(a, b[1..])))
  }

  /** The mask keeps the rows in their order. */
  lemma {:induction false} KeepImpressionsIsSubsequence(rows: seq<Row>)
    ensures IsSubsequence(KeepImpressions(rows), rows)
  {
    if rows != [] {
      KeepImpressionsIsSubsequence(rows[1..]);
    }
  }

  /** The mask keeps every row with impressions as often as it occurs, and
      no other row: duplicates are not collapsed. */
  lemma {:induction false} KeepImpressionsCount(rows: seq<Row>, r: Row)
    ensures multiset(KeepImpressions(rows))[r] == if HasImpressions(r) then multiset(rows)[r] else 0
  {
    if rows != [] {
      KeepImpressionsCount(rows[1..], r);
      assert rows == [rows[0]] + rows[1..];
    }
  }

  /** Masking a concatenation masks each part: the order of the kept rows
      is the order of the table. */
  lemma {:induction false} KeepImpressionsAppend(a: seq<Row>, b: seq<Row>)
    ensures KeepImpressions(a + b) == KeepImpressions(a) + KeepImpressions(b)
  {
    if a == [] {
      assert a + b == b;
    } else {
      assert (a + b)[0] == a[0] && (a + b)[1..] == a[1..] + b;
      KeepImpressionsAppend(a[1..], b);
    }
  }

  /** The comparison is numeric across cell kinds: a positive float and
      `True` pass, while a zero float, `False` and NaN do not. */
  lemma KeepImpressionsMixedKinds(a: Row, b: Row, c: Row, d: Row, e: Row, x: real)
    requires x > 0.0 && Cell(a, "impressions") == VFloat(x) && Cell(b, "impressions") == VFloat(0.0)
    requires Cell(c, "impressions") == VBool(true) && Cell(d, "impressions") == VBool(false)
    requires Cell(e, "impressions") == VNone
    ensures KeepImpressions([a, b, c, d, e]) == [a, c]
  {
    assert [e][1..] == [];
    assert KeepImpressions([e]) == [];
    assert [d, e][1..] == [e];
    assert KeepImpressions([d, e]) == [];
    assert [c, d, e][1..] == [d, e];
    assert KeepImpressions([c, d, e]) == [c];
    assert [b, c, d, e][1..] == [c, d, e];
    assert KeepImpressions([b, c, d, e]) == [c];
    assert [a, b, c, d, e][1..] == [b, c, d, e];
  }

  /** The non-empty tables among `tables`, in order. */
  function NonEmptyTables(tables: seq<seq<Row>>): seq<seq<Row>>
  {
    if tables == [] then []
    else (if EmptyFrame(tables[0]) then [] else [tables[0]]) + NonEmptyTables(tables[1..])
  }

  lemma {:induction false} NonEmptyTablesMembers(tables: seq<seq<Row>>, t: seq<Row>)
    ensures t in NonEmptyTables(tables) <==> t in tables && !EmptyFrame(t)
  {
    if tables != [] {
      NonEmptyTablesMembers(tables[1..], t);
      assert t in tables <==> t == tables[0] || t in tables[1..];
    }
  }

  lemma {:induction false} NonEmptyTablesAppend(tables: seq<seq<Row>>, t: seq<Row>)
    ensures NonEmptyTables(tables + [t]) == NonEmptyTables(tables) + NonEmptyTables([t])
  {
    if tables != [] {
      assert (tables + [t])[1..] == tables[1..] + [t];
      NonEmptyTablesAppend(tables[1..], t);
    }
  }
}
