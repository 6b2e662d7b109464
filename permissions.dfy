/** internal/data/permissions.go: permission membership and the INSERT
    statement AddForUser issues. The database is an input: the error the
    statement's execution returned, if any. */
module Permissions {
  import opened Wrappers
  import opened GoStrings
  import opened StrConv

  type Permissions = seq<string>

  /** Permissions.Include: a scan that stops at the first equal code. */
  method Include(p: Permissions, code: string) returns (found: bool)
    ensures found <==> code in p
  {
    for i := 0 to |p|
      invariant code !in p[..i]
    {
      if code == p[i] {
        return true;
      }
    }
    assert p[..|p|] == p;
    return false;
  }

  /** The values passed with the statement: the user id, then the codes. */
  datatype Arg = IntArg(i: int) | StrArg(s: string)

  datatype Statement = Statement(query: string, args: seq<Arg>)

  const NoPermissionsError: string := "must supply at least one permission"

  const Indent: string := "\n\t\t"

  /** The statement's head, up to the first VALUES tuple. */
  const Insert: string := "INSERT INTO " + "users_permissions(user_id, permission_id)" + Indent + "VALUES "

  /** The raw string literal the query starts from, tabs and newlines included. */
  const BaseQuery: string := Indent + Insert + FirstTuple + Indent

  /** The text of a VALUES tuple between its two placeholders. */
  const TupleMiddle: string := ", (SELECT id FROM permissions WHERE code = "

  /** A VALUES tuple up to the number of its second placeholder. */
  const TupleOpen: string := "(" + "$1" + TupleMiddle + "$"

  /** The tuple written in the literal: "($1, (SELECT id FROM permissions WHERE code = $2))". */
  const FirstTuple: string := TupleOpen + "2))"

  /** The VALUES tuple whose code is the k-th placeholder. */
  function Tuple(k: nat): string {
    TupleOpen + FormatInt(k) + "))"
  }

  /** The tuples for placeholders $from..$to, each after ",\n". */
  function MoreTuples(from: nat, to: int): string
    decreases to - from
  {
    if from > to then "" else MoreTuples(from, to - 1) + ",\n" + Tuple(to)
  }

  /** The statement text for n permissions: the first tuple ($2) from the
      literal, then one tuple per further permission with placeholders
      $3..$(n+1) in order, then ";". With more than one permission the
      literal's leading white space is trimmed away; its trailing "\n\t\t"
      stays before the second tuple. */
  function QueryText(n: nat): (q: string)
    requires n >= 1
    ensures |q| > 0 && q[|q| - 1] == ';'
  {
    var text := if n == 1 then BaseQuery else Insert + FirstTuple + Indent + MoreTuples(3, n + 1);
    text + ";"
  }

  lemma EndsWith(x: string, t: string)
    ensures exists before, after :: x + t == before + t + after
  {
    assert x + t == x + t + "";
  }

  lemma Splice(x: string, y: string, before: string, t: string, after: string)
    requires x == before + t + after
    ensures exists b, a :: x + y == b + t + a
  {
    assert x + y == before + t + (after + y);
  }

  lemma {:induction false} MoreTuplesHold(from: nat, to: int, k: nat)
    decreases to - k
    requires from <= k <= to
    ensures exists before, after :: MoreTuples(from, to) == before + Tuple(k) + after
  {
    if k == to {
      EndsWith(MoreTuples(from, to - 1) + ",\n", Tuple(k));
    } else {
      MoreTuplesHold(from, to - 1, k);
      var before, after :| MoreTuples(from, to - 1) == before + Tuple(k) + after;
      Splice(MoreTuples(from, to - 1), ",\n" + Tuple(to), before, Tuple(k), after);
      Assoc(MoreTuples(from, to - 1), ",\n", Tuple(to));
    }
  }

  lemma OnlyTupleInQuery()
    ensures exists before, after :: QueryText(1) == before + Tuple(2) + after
  {
    FirstTupleIsSecondPlaceholder();
    var q := QueryText(1);
    assert q == Indent + Insert + FirstTuple + Indent + ";";
    assert q == (Indent + Insert) + Tuple(2) + (Indent + ";");
  }

  lemma FirstTupleInQuery(n: nat)
    requires n > 1
    ensures exists before, after :: QueryText(n) == before + Tuple(2) + after
  {
    FirstTupleIsSecondPlaceholder();
    var q := QueryText(n);
    var rest := MoreTuples(3, n + 1);
    assert q == Insert + FirstTuple + Indent + rest + ";";
    assert q == Insert + FirstTuple + (Indent + rest + ";");
    assert q == Insert + Tuple(2) + (Indent + rest + ";");
  }

  lemma LaterTupleInQuery(n: nat, k: nat)
    requires n > 1 && 3 <= k <= n + 1
    ensures exists before, after :: QueryText(n) == before + Tuple(k) + after
  {
    var q := QueryText(n);
    var rest := MoreTuples(3, n + 1);
    MoreTuplesHold(3, n + 1, k);
    var before, after :| rest == before + Tuple(k) + after;
    var p := Insert + FirstTuple + Indent;
    InsideTail(q, p, rest, ";", before, Tuple(k), after);
  }

  /** A piece of the middle part of p + rest + semi is a piece of the whole. */
  lemma InsideTail(q: string, p: string, rest: string, semi: string, before: string, t: string, after: string)
    requires q == p + rest + semi && rest == before + t + after
    ensures exists b, a :: q == b + t + a
  {
    assert q == (p + before) + t + (after + semi);
  }

  /** The statement holds the tuple of every placeholder $2..$(n+1). */
  lemma TupleInQuery(n: nat, k: nat)
    requires n >= 1 && 2 <= k <= n + 1
    ensures exists before, after :: QueryText(n) == before + Tuple(k) + after
  {
    if n == 1 {
      OnlyTupleInQuery();
    } else if k == 2 {
      FirstTupleInQuery(n);
    } else {
      LaterTupleInQuery(n, k);
    }
  }

  // ---------------------------------------------------------------------
  // The positional parameters ($1, $2, ...) a statement refers to

  /** The number of decimal digits s starts with. */
  function DigitRun(s: string): (d: nat)
    ensures d <= |s| && AllDigits(s[..d])
    ensures d < |s| ==> !IsDigit(s[d])
  {
    if s == [] || !IsDigit(s[0]) then 0
    else
      var d := 1 + DigitRun(s[1..]);
      assert forall i :: 1 <= i < d ==> s[..d][i] == s[1..][..d - 1][i - 1];
      d
  }

  /** The positional parameters of a statement text, in order of appearance:
      every '$' followed by a run of digits names the parameter of that number. */
  function Parameters(s: string): seq<int>
    decreases |s|
  {
    if s == [] then []
    else if s[0] == '$' && |s| > 1 && IsDigit(s[1]) then
      var d := DigitRun(s[1..]);
      [DigitsValue(s[1..][..d])] + Parameters(s[1 + d..])
    else Parameters(s[1..])
  }

  /** Digits that are followed by a non-digit stop there. */
  lemma {:induction false} DigitRunAppend(x: string, b: string)
    requires b == [] || !IsDigit(b[0])
    ensures DigitRun(x + b) == DigitRun(x)
    decreases |x|
  {
    if x == [] {
      assert x + b == b;
    } else if IsDigit(x[0]) {
      assert (x + b)[1..] == x[1..] + b;
      DigitRunAppend(x[1..], b);
    }
  }

  /** A run of digits that ends inside x is not extended by what follows x. */
  lemma {:induction false} DigitRunInside(x: string, b: string)
    requires DigitRun(x) < |x|
    ensures DigitRun(x + b) == DigitRun(x)
    decreases |x|
  {
    if IsDigit(x[0]) {
      assert (x + b)[1..] == x[1..] + b;
      DigitRunInside(x[1..], b);
    }
  }

  /** A text with no '$' refers to no parameter. */
  lemma {:induction false} NoDollar(s: string)
    requires '$' !in s
    ensures Parameters(s) == []
    decreases |s|
  {
    if s != [] {
      assert '$' !in s[1..];
      NoDollar(s[1..]);
    }
  }

  /** Reading parameters distributes over a concatenation whose right part
      does not start with a digit. */
  lemma {:induction false} ParametersAppend(a: string, b: string)
    requires b == [] || !IsDigit(b[0])
    ensures Parameters(a + b) == Parameters(a) + Parameters(b)
    decreases |a|
  {
    var ab := a + b;
    if a == [] {
      assert ab == b;
    } else if |a| > 1 && a[0] == '$' && IsDigit(a[1]) {
      AppendDollar(a, b);
    } else if |a| == 1 && a[0] == '$' {
      assert ab[0] == '$' && ab[1..] == b;
      assert Parameters(ab) == Parameters(b);
      assert Parameters(a) == [];
    } else {
      assert ab[0] == a[0] && ab[1..] == a[1..] + b;
      assert |a| > 1 ==> ab[1] == a[1];
      assert Parameters(ab) == Parameters(a[1..] + b);
      assert Parameters(a) == Parameters(a[1..]);
      ParametersAppend(a[1..], b);
    }
  }

  /** ParametersAppend when a starts with a parameter. */
  lemma {:induction false} AppendDollar(a: string, b: string)
    requires |a| > 1 && a[0] == '$' && IsDigit(a[1])
    requires b == [] || !IsDigit(b[0])
    ensures Parameters(a + b) == Parameters(a) + Parameters(b)
    decreases |a|, 0
  {
    var ab := a + b;
    var x := a[1..];
    assert ab[0] == '$' && ab[1] == a[1] && ab[1..] == x + b;
    var d := DigitRun(x);
    DigitRunAppend(x, b);
    assert (x + b)[..d] == x[..d];
    var rest := a[1 + d..];
    assert ab[1 + d..] == rest + b;
    var v := DigitsValue(x[..d]);
    ParametersAt(ab);
    assert DigitRun(ab[1..]) == d && ab[1..][..d] == x[..d];
    assert Parameters(ab) == [v] + Parameters(rest + b);
    ParametersAt(a);
    assert Parameters(a) == [v] + Parameters(rest);
    ParametersAppend(rest, b);
    SeqAssoc([v], Parameters(rest), Parameters(b));
  }

  /** Reading parameters distributes over a concatenation whose left part
      ends with a character that is neither a digit nor '$'. */
  lemma {:induction false} ParametersAfterClosed(a: string, b: string)
    requires a != [] && !IsDigit(a[|a| - 1]) && a[|a| - 1] != '$'
    ensures Parameters(a + b) == Parameters(a) + Parameters(b)
    decreases |a|
  {
    var ab := a + b;
    if |a| > 1 && a[0] == '$' && IsDigit(a[1]) {
      ClosedDollar(a, b);
    } else if |a| == 1 {
      assert ab[0] == a[0] && ab[1..] == b;
      assert Parameters(ab) == Parameters(b);
      assert Parameters(a) == Parameters(a[1..]) && a[1..] == [];
    } else {
      assert ab[0] == a[0] && ab[1] == a[1] && ab[1..] == a[1..] + b;
      assert Parameters(ab) == Parameters(a[1..] + b);
      assert Parameters(a) == Parameters(a[1..]);
      ParametersAfterClosed(a[1..], b);
    }
  }

  /** ParametersAfterClosed when a starts with a parameter. */
  lemma {:induction false} ClosedDollar(a: string, b: string)
    requires |a| > 1 && a[0] == '$' && IsDigit(a[1])
    requires !IsDigit(a[|a| - 1]) && a[|a| - 1] != '$'
    ensures Parameters(a + b) == Parameters(a) + Parameters(b)
    decreases |a|, 0
  {
    var ab := a + b;
    var x := a[1..];
    assert ab[0] == '$' && ab[1] == a[1] && ab[1..] == x + b;
    assert x[|x| - 1] == a[|a| - 1];
    RunBeforeClosed(x);
    var d := DigitRun(x);
    DigitRunInside(x, b);
    assert (x + b)[..d] == x[..d];
    var rest := a[1 + d..];
    assert ab[1 + d..] == rest + b;
    assert rest[|rest| - 1] == a[|a| - 1];
    var v := DigitsValue(x[..d]);
    ParametersAt(ab);
    assert DigitRun(ab[1..]) == d && ab[1..][..d] == x[..d];
    assert Parameters(ab) == [v] + Parameters(rest + b);
    ParametersAt(a);
    assert Parameters(a) == [v] + Parameters(rest);
    ParametersAfterClosed(rest, b);
    SeqAssoc([v], Parameters(rest), Parameters(b));
  }

  /** A run of digits stops before a last character that is not a digit. */
  lemma RunBeforeClosed(x: string)
    requires x != [] && !IsDigit(x[|x| - 1])
    ensures DigitRun(x) < |x|
  {
  }

  /** One step of reading parameters at a '$' followed by a digit. */
  lemma ParametersAt(s: string)
    requires |s| > 1 && s[0] == '$' && IsDigit(s[1])
    ensures Parameters(s) == [DigitsValue(s[1..][..DigitRun(s[1..])])] + Parameters(s[1 + DigitRun(s[1..])..])
  {
  }

  /** "$" followed by the decimal form of k names parameter k. */
  lemma DollarNumber(k: nat)
    ensures Parameters("$" + FormatInt(k)) == [k]
  {
    var f := FormatNat(k);
    var s := "$" + f;
    assert s[1..] == f;
    DigitRunAll(f);
    assert f[..|f|] == f;
    DigitsValueFormatNat(k);
    assert s[1 + |f|..] == [];
  }

  lemma {:induction false} DigitRunAll(s: string)
    requires AllDigits(s)
    ensures DigitRun(s) == |s|
    decreases |s|
  {
    if s != [] {
      assert AllDigits(s[1..]) by {
        assert forall i :: 0 <= i < |s[1..]| ==> s[1..][i] == s[i + 1];
      }
      DigitRunAll(s[1..]);
    }
  }

  lemma SeqAssoc(a: seq<int>, b: seq<int>, c: seq<int>)
    ensures a + (b + c) == a + b + c
  {
  }

  lemma Assoc(a: string, b: string, c: string)
    ensures a + b + c == a + (b + c)
  {
  }

  /** "(", "$1" and a text without '$' name parameter $1 only. */
  lemma OpenParameters(open: string, dollarOne: string, middle: string)
    requires open == "(" && dollarOne == "$1" && '$' !in middle
    requires middle == [] || !IsDigit(middle[0])
    ensures Parameters(open + dollarOne + middle) == [1]
  {
    NoDollar(middle);
    assert Parameters(dollarOne) == [1] by {
      assert dollarOne[1..] == "1";
      assert DigitRun("1") == 1 by {
        assert "1"[1..] == [];
      }
      assert "1"[..1] == "1";
      assert dollarOne[2..] == [];
    }
    ParametersAppend(open, dollarOne);
    assert Parameters(open) == [] by {
      assert open[1..] == [];
    }
    ParametersAppend(open + dollarOne, middle);
  }

  lemma MiddleHasNoParameter()
    ensures '$' !in TupleMiddle && TupleMiddle[0] == ','
  {
  }

  /** Each tuple names $1, then its own code parameter. */
  lemma TupleParameters(k: nat)
    ensures Parameters(Tuple(k)) == [1, k]
  {
    MiddleHasNoParameter();
    OpenParameters("(", "$1", TupleMiddle);
    var head := "(" + "$1" + TupleMiddle;
    var num := "$" + FormatInt(k);
    Assoc(head, "$", FormatInt(k));
    DollarNumber(k);
    NoDollar("))");
    ThreePieces(head, num, "))", k);
  }

  lemma ThreePieces(head: string, num: string, close: string, k: int)
    requires Parameters(head) == [1] && Parameters(num) == [k] && Parameters(close) == []
    requires num != [] && num[0] == '$' && close != [] && close[0] == ')'
    ensures Parameters(head + num + close) == [1, k]
  {
    ParametersAppend(head, num);
    ParametersAppend(head + num, close);
  }

  /** The parameters a run of tuples names: $1 and the code, tuple after tuple. */
  function Pairs(from: int, to: int): seq<int>
    decreases to - from
  {
    if from > to then [] else Pairs(from, to - 1) + [1, to]
  }

  /** Pairs from..to lists $1 at every even position and the codes
      from, from+1, ... at the odd ones. */
  lemma {:induction false} PairsShape(from: int, to: int)
    decreases to - from
    ensures |Pairs(from, to)| == (if from > to then 0 else 2 * (to - from + 1))
    ensures forall i :: 0 <= i < |Pairs(from, to)| ==> Pairs(from, to)[i] == (if i % 2 == 0 then 1 else from + i / 2)
  {
    if from <= to {
      PairsShape(from, to - 1);
      var prev := Pairs(from, to - 1);
      assert |prev| == 2 * (to - from);
      assert (2 * (to - from) + 1) / 2 == to - from;
      assert (2 * (to - from)) % 2 == 0 && (2 * (to - from) + 1) % 2 == 1;
    }
  }

  lemma {:induction false} PairsCons(from: int, to: int)
    decreases to - from
    requires from <= to
    ensures Pairs(from, to) == [1, from] + Pairs(from + 1, to)
  {
    if from < to {
      PairsCons(from, to - 1);
    }
  }

  lemma {:induction false} MoreTuplesParameters(from: nat, to: int)
    decreases to - from
    ensures Parameters(MoreTuples(from, to)) == Pairs(from, to)
  {
    if from <= to {
      MoreTuplesParameters(from, to - 1);
      NoDollar(",\n");
      TupleParameters(to);
      TupleStep(MoreTuples(from, to - 1), ",\n", Tuple(to), Pairs(from, to - 1), to);
    }
  }

  /** Appending a separator and a tuple appends the tuple's two parameters. */
  lemma TupleStep(prev: string, sep: string, t: string, pairs: seq<int>, k: int)
    requires Parameters(prev) == pairs && Parameters(sep) == [] && Parameters(t) == [1, k]
    requires sep != [] && sep[0] == ',' && t != [] && t[0] == '('
    ensures Parameters(prev + sep + t) == pairs + [1, k]
  {
    ParametersAppend(prev, sep);
    ParametersAppend(prev + sep, t);
  }

  /** Reading parameters distributes over five pieces none of which but the
      first starts with a digit. */
  lemma FiveParts(a: string, b: string, c: string, d: string, e: string)
    requires b == [] || !IsDigit(b[0])
    requires c == [] || !IsDigit(c[0])
    requires d == [] || !IsDigit(d[0])
    requires e == [] || !IsDigit(e[0])
    ensures Parameters(a + b + c + d + e)
         == Parameters(a) + Parameters(b) + Parameters(c) + Parameters(d) + Parameters(e)
  {
    ParametersAppend(a, b);
    ParametersAppend(a + b, c);
    ParametersAppend(a + b + c, d);
    ParametersAppend(a + b + c + d, e);
  }

  /** The further tuples, when there are any, start with their separator. */
  lemma {:induction false} MoreTuplesStart(from: nat, to: int)
    decreases to - from
    requires from <= to
    ensures MoreTuples(from, to)[0] == ','
  {
    if from <= to - 1 {
      MoreTuplesStart(from, to - 1);
    }
  }

  /** The statement for n permissions names, in order, $1, $2, $1, $3, ...,
      $1, $(n+1): one tuple per permission, the codes in order, and no
      parameter beyond the n + 1 arguments. */
  lemma QueryParameters(n: nat)
    requires n >= 1
    ensures Parameters(QueryText(n)) == Pairs(2, n + 1)
  {
    if n == 1 {
      OneQueryParameters();
    } else {
      MoreQueryParameters(n);
    }
  }

  lemma OneQueryParameters()
    ensures Parameters(QueryText(1)) == [1, 2]
  {
    PiecesParameters();
    FiveParts(Indent, Insert, FirstTuple, Indent, ";");
  }

  lemma MoreQueryParameters(n: nat)
    requires n >= 2
    ensures Parameters(QueryText(n)) == Pairs(2, n + 1)
  {
    var rest := MoreTuples(3, n + 1);
    assert QueryText(n) == Insert + FirstTuple + Indent + rest + ";";
    PiecesParameters();
    MoreTuplesParameters(3, n + 1);
    MoreTuplesStart(3, n + 1);
    PairsCons(2, n + 1);
    HeadAndRest(Insert, FirstTuple, Indent, rest, ";", Pairs(3, n + 1));
  }

  /** Five pieces of which the second names $1, $2 and the fourth the rest. */
  lemma HeadAndRest(a: string, b: string, c: string, d: string, e: string, tail: seq<int>)
    requires Parameters(a) == [] && Parameters(b) == [1, 2] && Parameters(c) == []
    requires Parameters(d) == tail && Parameters(e) == []
    requires b != [] && c != [] && d != [] && e != []
    requires b[0] == '(' && c[0] == '\n' && d[0] == ',' && e[0] == ';'
    ensures Parameters(a + b + c + d + e) == [1, 2] + tail
  {
    FiveParts(a, b, c, d, e);
  }

  /** The fixed pieces of the statement: only the first tuple names parameters. */
  lemma PiecesParameters()
    ensures Parameters(Insert) == [] && Parameters(Indent) == [] && Parameters(";") == []
    ensures Parameters(FirstTuple) == [1, 2]
    ensures Indent[0] == '\n' && Insert[0] == 'I' && FirstTuple[0] == '('
  {
    InsertParameters();
    NoDollar(Indent);
    NoDollar(";");
    FirstTupleParameters();
  }

  lemma InsertParameters()
    ensures Parameters(Insert) == [] && Insert[0] == 'I'
  {
    assert '$' !in Insert;
    NoDollar(Insert);
  }

  lemma FirstTupleParameters()
    ensures Parameters(FirstTuple) == [1, 2] && FirstTuple[0] == '('
  {
    FirstTupleIsSecondPlaceholder();
    TupleParameters(2);
  }

  /** The statement and its n + 1 arguments agree: every parameter it names
      is an argument, and every argument is named. */
  lemma ParametersMatchArgs(n: nat)
    requires n >= 1
    ensures forall i :: 0 <= i < |Parameters(QueryText(n))| ==> 1 <= Parameters(QueryText(n))[i] <= n + 1
    ensures forall k :: 1 <= k <= n + 1 ==> k in Parameters(QueryText(n))
  {
    QueryParameters(n);
    PairsBounds(2, n + 1);
    PairsCover(2, n + 1);
  }

  lemma PairsBounds(from: int, to: int)
    requires 1 <= from
    ensures forall i :: 0 <= i < |Pairs(from, to)| ==> 1 <= Pairs(from, to)[i] <= to
  {
    PairsShape(from, to);
  }

  lemma PairsCover(from: int, to: int)
    requires from == 2 <= to
    ensures forall k :: 1 <= k <= to ==> k in Pairs(from, to)
  {
    PairsShape(from, to);
    var p := Pairs(from, to);
    forall k | 1 <= k <= to
      ensures k in p
    {
      if k == 1 {
        assert p[0] == 1;
      } else {
        assert p[2 * (k - 2) + 1] == k;
      }
    }
  }

  /** Where [1, k] appears as a window of Pairs(from, to), from >= 2, it is
      the (k - from)-th tuple's. */
  lemma PairsWindow(from: int, to: int, x: seq<int>, k: int, y: seq<int>)
    requires from >= 2 && Pairs(from, to) == x + [1, k] + y
    ensures |x| % 2 == 0 && k == from + |x| / 2 && from <= k <= to
  {
    PairsShape(from, to);
    var p := Pairs(from, to);
    assert p[|x|] == 1 && p[|x| + 1] == k;
  }

  /** A tuple that occurs in the statement for n permissions is that of a
      placeholder $2..$(n+1), and the text before it names 2(k-2) parameters. */
  lemma TupleOccurrence(n: nat, k: nat, before: string, after: string)
    requires n >= 1 && QueryText(n) == before + Tuple(k) + after
    ensures 2 <= k <= n + 1
    ensures |Parameters(before)| == 2 * (k - 2)
  {
    TupleParameters(k);
    assert Tuple(k)[0] == '(';
    ParametersAppend(before, Tuple(k));
    var upTo := before + Tuple(k);
    assert upTo[|upTo| - 1] == ')';
    ParametersAfterClosed(upTo, after);
    QueryParameters(n);
    assert Pairs(2, n + 1) == Parameters(before) + [1, k] + Parameters(after);
    PairsWindow(2, n + 1, Parameters(before), k, Parameters(after));
  }

  /** The tuples appear in the order of their placeholders: any occurrence of
      Tuple(j) starts before any occurrence of Tuple(k) when j < k. */
  lemma TuplesInOrder(n: nat, j: nat, k: nat, b1: string, a1: string, b2: string, a2: string)
    requires n >= 1 && j < k
    requires QueryText(n) == b1 + Tuple(j) + a1
    requires QueryText(n) == b2 + Tuple(k) + a2
    ensures |b1| < |b2|
  {
    TupleOccurrence(n, j, b1, a1);
    TupleOccurrence(n, k, b2, a2);
    assert Tuple(k)[0] == '(';
    Assoc(b1, Tuple(j), a1);
    Assoc(b2, Tuple(k), a2);
    FewerBefore(QueryText(n), b1, Tuple(j) + a1, b2, Tuple(k) + a2);
  }

  /** Of two splits of one text, the one whose left part names fewer
      parameters splits earlier, when the other's right part opens with '('. */
  lemma FewerBefore(q: string, b1: string, r1: string, b2: string, r2: string)
    requires q == b1 + r1 && q == b2 + r2
    requires r2 != [] && r2[0] == '('
    requires |Parameters(b1)| < |Parameters(b2)|
    ensures |b1| < |b2|
  {
    if |b2| <= |b1| {
      assert b1 == q[..|b1|] && b2 == q[..|b2|];
      var m := q[|b2|..|b1|];
      assert b1 == b2 + m;
      if m != [] {
        assert m[0] == r2[0];
      }
      ParametersAppend(b2, m);
      assert false;
    }
  }

  /** Regrouping with the strings as variables, so that the verifier does not
      expand the literals. */
  lemma Regroup(a: string, b: string, c: string, d: string, e: string)
    ensures a + b + c + d + e == a + (b + c + d + e)
  {
  }

  lemma TrimLeftPrefix(ws: string, s: string)
    requires forall i :: 0 <= i < |ws| ==> IsSpace(ws[i])
    requires s != [] && !IsSpace(s[0])
    ensures TrimLeft(ws + s) == s
    decreases |ws|
  {
    if ws != [] {
      assert (ws + s)[1..] == ws[1..] + s;
      TrimLeftPrefix(ws[1..], s);
    } else {
      assert ws + s == s;
    }
  }

  /** The literal's own tuple is the one for placeholder $2. */
  lemma FirstTupleIsSecondPlaceholder()
    ensures FirstTuple == Tuple(2)
  {
    assert FormatInt(2) == "2";
  }

  lemma TrimIndented(body: string)
    requires body != [] && !IsSpace(body[0]) && !IsSpace(body[|body| - 1])
    ensures TrimSpace(Indent + body) == body
  {
    TrimLeftPrefix(Indent, body);
  }

  /** Trimming the built text removes exactly the literal's leading "\n\t\t". */
  lemma TrimBuilt(tail: string)
    requires tail != [] && tail[|tail| - 1] == ')'
    ensures TrimSpace(BaseQuery + tail) == Insert + FirstTuple + Indent + tail
  {
    var body := Insert + FirstTuple + Indent + tail;
    assert body[0] == 'I' by {
      assert body == Insert + (FirstTuple + Indent + tail);
      assert Insert[0] == 'I';
    }
    assert body[|body| - 1] == ')' by {
      assert body == (Insert + FirstTuple + Indent) + tail;
    }
    TrimIndented(body);
    Regroup(Indent, Insert, FirstTuple, Indent, tail);
  }

  /** One iteration of the builder loop adds the tuple of placeholder i + 2. */
  lemma AppendTuple(prefix: string, i: nat)
    requires i >= 1
    ensures prefix + MoreTuples(3, i + 1) + ",\n" + Tuple(i + 2) == prefix + MoreTuples(3, i + 2)
  {
    assert MoreTuples(3, i + 2) == MoreTuples(3, i + 1) + ",\n" + Tuple(i + 2);
  }

  /** The text the strings.Builder loop and the final ";" produce. */
  method BuildQuery(n: nat) returns (query: string)
    requires n >= 1
    ensures query == QueryText(n)
  {
    query := BaseQuery;
    if n > 1 {
      var builder := "";
      for i := 0 to n
        invariant i == 0 ==> builder == ""
        invariant i > 0 ==> builder == BaseQuery + MoreTuples(3, i + 1)
      {
        if i == 0 {
          builder := builder + query;
          assert builder == query;
          continue;
        }
        AppendTuple(BaseQuery, i);
        builder := builder + ",\n" + Tuple(i + 2);
      }
      assert Tuple(n + 1)[|Tuple(n + 1)| - 1] == ')';
      TrimBuilt(MoreTuples(3, n + 1));
      query := TrimSpace(builder);
    }
    query := query + ";";
  }

  /** The args slice: the user id, then each code in order. */
  method BuildArgs(userID: int, permissions: seq<string>) returns (args: seq<Arg>)
    ensures |args| == |permissions| + 1 && args[0] == IntArg(userID)
    ensures forall i :: 0 <= i < |permissions| ==> args[i + 1] == StrArg(permissions[i])
  {
    var a := new Arg[|permissions| + 1](_ => IntArg(0));
    a[0] := IntArg(userID);
    for i := 0 to |permissions|
      invariant a[0] == IntArg(userID)
      invariant forall k :: 0 <= k < i ==> a[k + 1] == StrArg(permissions[k])
    {
      a[i + 1] := StrArg(permissions[i]);
    }
    args := a[..];
  }

  /** AddForUser: no statement for an empty list; otherwise the statement
      built from the literal and the arguments, whose execution error is
      returned. */
  method AddForUser(userID: int, permissions: seq<string>, execErr: Option<string>)
    returns (issued: Option<Statement>, err: Option<string>)
    ensures |permissions| == 0 ==> issued.None? && err == Some(NoPermissionsError)
    ensures |permissions| > 0 ==> issued.Some? && err == execErr
    ensures issued.Some? ==> issued.value.query == QueryText(|permissions|)
    ensures issued.Some? ==>
              |issued.value.args| == |permissions| + 1 && issued.value.args[0] == IntArg(userID)
    ensures issued.Some? ==>
              forall i :: 0 <= i < |permissions| ==> issued.value.args[i + 1] == StrArg(permissions[i])
  {
    if |permissions| < 1 {
      return None, Some(NoPermissionsError);
    }
    var query := BuildQuery(|permissions|);
    var args := BuildArgs(userID, permissions);
    return Some(Statement(query, args)), execErr;
  }
}
