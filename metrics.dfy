/** Model of src/core/metrics.py: the filter -> map -> reduce pipeline
    `analisar` and its fold step `acumulador`.

    Python's `x % 2` and Dafny's `%` agree for the divisor 2 (the remainder is
    0 or 1 for every sign of x), and Python's `//` agrees with Dafny's `/`
    whenever the divisor is positive (both round toward minus infinity), so
    both operators are used as they are. */
module Metrics {

  /** The filter test: even and strictly greater than the limit. */
  predicate Selected(x: int, limite: int) {
    x % 2 == 0 && x > limite
  }

  /** Step 1, `filter`: the selected values, kept in list order. */
  function Filter(lista: seq<int>, limite: int): (r: seq<int>)
    ensures |r| <= |lista|
    ensures forall x :: x in r <==> x in lista && Selected(x, limite)
  {
    if lista == [] then []
    else
      assert lista == [lista[0]] + lista[1..];
      (if Selected(lista[0], limite) then [lista[0]] else []) + Filter(lista[1..], limite)
  }

  /** Step 2, `map`: every value squared, position by position. */
  function Squares(s: seq<int>): (r: seq<int>)
    ensures |r| == |s|
    ensures forall i :: 0 <= i < |s| ==> r[i] == s[i] * s[i]
  {
    if s == [] then [] else [s[0] * s[0]] + Squares(s[1..])
  }

  /** The accumulator of the fold: a running (soma, contagem) pair. */
  datatype Acc = Acc(soma: int, contagem: int)

  /** `acumulador`: adds one value to the sum and one to the count. */
  function Acumulador(acc: Acc, valor: int): Acc {
    Acc(acc.soma + valor, acc.contagem + 1)
  }

  /** Sum of a sequence. */
  function Sum(s: seq<int>): int {
    if s == [] then 0 else s[0] + Sum(s[1..])
  }

  /** Step 3, `functools.reduce(acumulador, xs, acc)`: a single left-to-right
      pass. Whatever the start, it adds the sum and the length of `xs`. */
  function Reduce(acc: Acc, xs: seq<int>): (r: Acc)
    ensures r.soma == acc.soma + Sum(xs)
    ensures r.contagem == acc.contagem + |xs|
    decreases xs
  {
    if xs == [] then acc else Reduce(Acumulador(acc, xs[0]), xs[1..])
  }

  /** The dictionary `analisar` returns. */
  datatype Analysis = Analysis(somaQuadrados: int, contagem: int, mediaInteira: int)

  // ---------------------------------------------------------------------
  // Reference definitions, which do not call Filter, Squares or Reduce

  /** The positions of `lista` that hold a selected value. */
  function SelectedIndices(lista: seq<int>, limite: int): set<int> {
    set i | 0 <= i < |lista| && Selected(lista[i], limite)
  }

  /** The sum of x*x over the selected elements, read straight off the list. */
  function SelectedSquareSum(lista: seq<int>, limite: int): (r: int)
    ensures r >= 0
  {
    if lista == [] then 0
    else
      (if Selected(lista[0], limite) then lista[0] * lista[0] else 0)
      + SelectedSquareSum(lista[1..], limite)
  }

  // ---------------------------------------------------------------------
  // The pipeline

  /** `analisar(lista, limite)`: filter, square, fold from (0, 0), then the
      floor mean, which is 0 (and no division happens) when nothing passed
      the filter. */
  function Analisar(lista: seq<int>, limite: int): (r: Analysis)
    ensures r.contagem == |SelectedIndices(lista, limite)|
    ensures r.somaQuadrados == SelectedSquareSum(lista, limite)
    ensures 0 <= r.contagem <= |lista| && r.somaQuadrados >= 0
    ensures r.contagem > 0 ==>
              r.mediaInteira * r.contagem <= r.somaQuadrados < (r.mediaInteira + 1) * r.contagem
    ensures r.mediaInteira == if r.contagem > 0 then r.somaQuadrados / r.contagem else 0
    ensures r.contagem == 0 ==> r.somaQuadrados == 0
    ensures lista == [] ==> r == Analysis(0, 0, 0)
  {
    var quadrados := Squares(Filter(lista, limite));
    var acc := Reduce(Acc(0, 0), quadrados);
    FilterCount(lista, limite);
    FilterSquareSum(lista, limite);
    if acc.contagem > 0 then
      FloorDivBounds(acc.soma, acc.contagem);
      Analysis(acc.soma, acc.contagem, acc.soma / acc.contagem)
    else
      Analysis(acc.soma, acc.contagem, 0)
  }

  // ---------------------------------------------------------------------
  // Lemmas

  /** Filtering distributes over concatenation. */
  lemma {:induction false} FilterAppend(a: seq<int>, b: seq<int>, limite: int)
    ensures Filter(a + b, limite) == Filter(a, limite) + Filter(b, limite)
  {
    if a == [] {
      assert a + b == b;
    } else {
      assert (a + b)[0] == a[0];
      assert (a + b)[1..] == a[1..] + b;
      FilterAppend(a[1..], b, limite);
    }
  }

  /** The filter keeps exactly one element per selected position. */
  lemma {:induction false} FilterCount(lista: seq<int>, limite: int)
    ensures |Filter(lista, limite)| == |SelectedIndices(lista, limite)|
    decreases |lista|
  {
    if lista == [] {
      assert SelectedIndices(lista, limite) == {};
    } else {
      var n := |lista| - 1;
      var p := lista[..n];
      assert lista == p + [lista[n]];
      FilterAppend(p, [lista[n]], limite);
      FilterCount(p, limite);
      SelectedIndicesSnoc(p, lista[n], limite);
    }
  }

  /** The selected positions of `p + [x]`: those of `p`, plus the new last
      position when `x` is selected. */
  lemma SelectedIndicesSnoc(p: seq<int>, x: int, limite: int)
    ensures |SelectedIndices(p + [x], limite)|
            == |SelectedIndices(p, limite)| + (if Selected(x, limite) then 1 else 0)
  {
    var n := |p|;
    var s := p + [x];
    var last: set<int> := if Selected(x, limite) then {n} else {};
    forall i | 0 <= i < n ensures s[i] == p[i] { }
    assert SelectedIndices(s, limite) == SelectedIndices(p, limite) + last;
    assert n !in SelectedIndices(p, limite);
  }

  /** Squaring then summing the filtered values gives the reference sum. */
  lemma {:induction false} FilterSquareSum(lista: seq<int>, limite: int)
    ensures Sum(Squares(Filter(lista, limite))) == SelectedSquareSum(lista, limite)
  {
    if lista != [] {
      var head := if Selected(lista[0], limite) then [lista[0]] else [];
      var tail := Filter(lista[1..], limite);
      assert Filter(lista, limite) == head + tail;
      SquaresAppend(head, tail);
      SumAppend(Squares(head), Squares(tail));
      FilterSquareSum(lista[1..], limite);
    }
  }

  lemma {:induction false} SquaresAppend(a: seq<int>, b: seq<int>)
    ensures Squares(a + b) == Squares(a) + Squares(b)
  {
  }

  lemma {:induction false} SumAppend(a: seq<int>, b: seq<int>)
    ensures Sum(a + b) == Sum(a) + Sum(b)
  {
    if a == [] {
      assert a + b == b;
    } else {
      assert (a + b)[1..] == a[1..] + b;
      SumAppend(a[1..], b);
    }
  }

  /** Python's `s // c` for a positive count lies in [s / c, s / c + 1). */
  lemma FloorDivBounds(s: int, c: int)
    requires c > 0
    ensures (s / c) * c <= s < (s / c + 1) * c
  {
  }

  /** The reference sum splits over concatenation. */
  lemma {:induction false} SelectedSquareSumAppend(a: seq<int>, b: seq<int>, limite: int)
    ensures SelectedSquareSum(a + b, limite) == SelectedSquareSum(a, limite) + SelectedSquareSum(b, limite)
  {
    if a == [] {
      assert a + b == b;
    } else {
      assert (a + b)[0] == a[0];
      assert (a + b)[1..] == a[1..] + b;
      SelectedSquareSumAppend(a[1..], b, limite);
    }
  }

  /** The fold is additive: the (soma, contagem) of `a + b` is the
      component-wise sum of those of `a` and of `b`. */
  lemma FoldAdditive(a: seq<int>, b: seq<int>, limite: int)
    ensures Analisar(a + b, limite).somaQuadrados
            == Analisar(a, limite).somaQuadrados + Analisar(b, limite).somaQuadrados
    ensures Analisar(a + b, limite).contagem
            == Analisar(a, limite).contagem + Analisar(b, limite).contagem
  {
    SelectedSquareSumAppend(a, b, limite);
    FilterAppend(a, b, limite);
    FilterCount(a + b, limite);
    FilterCount(a, limite);
    FilterCount(b, limite);
  }

  /** The mean is determined by the sum and the count. */
  lemma SameTotalsSameResult(l1: seq<int>, l2: seq<int>, limite: int)
    requires Analisar(l1, limite).somaQuadrados == Analisar(l2, limite).somaQuadrados
    requires Analisar(l1, limite).contagem == Analisar(l2, limite).contagem
    ensures Analisar(l1, limite) == Analisar(l2, limite)
  {
  }

  /** A value that fails the filter (odd, or not above the limit, which
      includes the limit itself) changes nothing, wherever it sits. */
  lemma NotSelectedIgnored(a: seq<int>, x: int, b: seq<int>, limite: int)
    requires x % 2 != 0 || x <= limite
    ensures Analisar(a + [x] + b, limite) == Analisar(a + b, limite)
  {
    assert Analisar([x], limite).contagem == 0 by {
      assert SelectedIndices([x], limite) == {};
    }
    FoldAdditive(a + [x], b, limite);
    FoldAdditive(a, [x], limite);
    FoldAdditive(a, b, limite);
    SameTotalsSameResult(a + [x] + b, a + b, limite);
  }

  /** An even value above the limit, negative or not, adds its square to
      the sum and one to the count. */
  lemma SelectedCounted(a: seq<int>, x: int, b: seq<int>, limite: int)
    requires x % 2 == 0 && x > limite
    ensures Analisar(a + [x] + b, limite).somaQuadrados
            == Analisar(a + b, limite).somaQuadrados + x * x
    ensures Analisar(a + [x] + b, limite).contagem
            == Analisar(a + b, limite).contagem + 1
  {
    assert SelectedIndices([x], limite) == {0};
    assert SelectedSquareSum([x], limite) == x * x;
    FoldAdditive(a + [x], b, limite);
    FoldAdditive(a, [x], limite);
    FoldAdditive(a, b, limite);
  }

  /** Worked example: [1..6] with limit 2 keeps [4, 6]; 16 + 36 = 52, 52 // 2 = 26. */
  lemma ExampleOneToSix(s: seq<int>)
    requires s == [1, 2, 3, 4, 5, 6]
    ensures Analisar(s, 2) == Analysis(52, 2, 26)
  {
    assert Analisar(s, 2).contagem == 2 by { ExampleOneToSixIndices(); }
    assert Analisar(s, 2).somaQuadrados == 52 by { ExampleOneToSixSum(); }
  }

  lemma ExampleOneToSixIndices()
    ensures SelectedIndices([1, 2, 3, 4, 5, 6], 2) == {3, 5}
  {
  }

  lemma ExampleOneToSixSum()
    ensures SelectedSquareSum([1, 2, 3, 4, 5, 6], 2) == 52
  {
  }
}
