/** Row-major arrays: where an index lands, and what reshaping and transposing do to it. */
module Tensors {
  import opened Arith

  /** How many elements a shape has. */
  function Size(shape: seq<nat>): nat {
    if shape == [] then 1 else Size(shape[..|shape| - 1]) * shape[|shape| - 1]
  }

  predicate InBounds(shape: seq<nat>, index: seq<nat>) {
    |index| == |shape| && forall i :: 0 <= i < |shape| ==> index[i] < shape[i]
  }

  /** Where an index lands, the last axis moving fastest. */
  function Ravel(shape: seq<nat>, index: seq<nat>): nat
    requires |index| == |shape|
  {
    if shape == [] then 0
    else
      var n := |shape| - 1;
      Ravel(shape[..n], index[..n]) * shape[n] + index[n]
  }

  /** And back. */
  function Unravel(shape: seq<nat>, at: nat): (index: seq<nat>)
    ensures |index| == |shape|
  {
    if shape == [] then []
    else
      var n := |shape| - 1;
      if shape[n] == 0 then Unravel(shape[..n], 0) + [0]
      else Unravel(shape[..n], at / shape[n]) + [at % shape[n]]
  }

  lemma {:induction false} RavelFits(shape: seq<nat>, index: seq<nat>)
    requires InBounds(shape, index)
    ensures Ravel(shape, index) < Size(shape)
  {
    if shape != [] {
      var n := |shape| - 1;
      RavelFits(shape[..n], index[..n]);
      MulLe(Ravel(shape[..n], index[..n]) + 1, Size(shape[..n]), shape[n]);
      MulDistribute(Ravel(shape[..n], index[..n]), 1, shape[n]);
    }
  }

  lemma {:induction false} UnravelRavel(shape: seq<nat>, index: seq<nat>)
    requires InBounds(shape, index)
    ensures Unravel(shape, Ravel(shape, index)) == index
  {
    if shape != [] {
      var n := |shape| - 1;
      UnravelRavel(shape[..n], index[..n]);
      DivModUnique(Ravel(shape, index), shape[n], Ravel(shape[..n], index[..n]), index[n]);
      assert index == index[..n] + [index[n]];
    }
  }

  lemma {:induction false} SizeOfConcat(a: seq<nat>, b: seq<nat>)
    ensures Size(a + b) == Size(a) * Size(b)
  {
    if b == [] {
      assert a + b == a;
    } else {
      var n := |b| - 1;
      SizeOfConcat(a, b[..n]);
      assert (a + b)[..|a + b| - 1] == a + b[..n];
      MulAssociates(Size(a), Size(b[..n]), b[n]);
    }
  }

  lemma MulAssociates(a: int, b: int, c: int)
    ensures (a * b) * c == a * (b * c)
  {
  }

  /** Leading axes count in units of the trailing block. */
  lemma {:induction false} RavelOfConcat(a: seq<nat>, b: seq<nat>, i: seq<nat>, j: seq<nat>)
    requires |i| == |a| && |j| == |b|
    ensures Ravel(a + b, i + j) == Ravel(a, i) * Size(b) + Ravel(b, j)
  {
    if b == [] {
      assert a + b == a && i + j == i;
    } else {
      var n := |b| - 1;
      RavelOfConcat(a, b[..n], i, j[..n]);
      assert (a + b)[..|a + b| - 1] == a + b[..n] && (i + j)[..|a + b| - 1] == i + j[..n];
      MulDistribute(Ravel(a, i) * Size(b[..n]), Ravel(b[..n], j[..n]), b[n]);
      MulAssociates(Ravel(a, i), Size(b[..n]), b[n]);
    }
  }

  lemma RavelOne(n: nat, i: nat)
    ensures Ravel([n], [i]) == i && Size([n]) == n
  {
    assert [n][..0] == [] && [i][..0] == [];
    assert Ravel([], []) == 0 && Size([]) == 1;
  }

  lemma MergeLast(a: seq<nat>, s: seq<nat>, i: seq<nat>, j: seq<nat>)
    requires |i| == |a| && |j| == |s|
    ensures Ravel(a + s, i + j) == Ravel(a + [Size(s)], i + [Ravel(s, j)])
    ensures Size(a + s) == Size(a + [Size(s)])
  {
    RavelOne(Size(s), Ravel(s, j));
    RavelOfConcat(a, s, i, j);
    RavelOfConcat(a, [Size(s)], i, [Ravel(s, j)]);
    SizeOfConcat(a, s);
    SizeOfConcat(a, [Size(s)]);
  }

  lemma SameHead(a: seq<nat>, c: seq<nat>, b: seq<nat>, i: seq<nat>, m: seq<nat>, k: seq<nat>)
    requires |i| == |a| && |m| == |c| && |k| == |b|
    requires Ravel(a, i) == Ravel(c, m) && Size(a) == Size(c)
    ensures Ravel(a + b, i + k) == Ravel(c + b, m + k) && Size(a + b) == Size(c + b)
  {
    RavelOfConcat(a, b, i, k);
    RavelOfConcat(c, b, m, k);
    SizeOfConcat(a, b);
    SizeOfConcat(c, b);
  }

  /** Merging adjacent axes into one moves nothing. */
  lemma MergeAxes(a: seq<nat>, s: seq<nat>, b: seq<nat>, i: seq<nat>, j: seq<nat>, k: seq<nat>)
    requires |i| == |a| && |j| == |s| && |k| == |b|
    ensures Ravel(a + s + b, i + j + k) == Ravel(a + [Size(s)] + b, i + [Ravel(s, j)] + k)
    ensures Size(a + s + b) == Size(a + [Size(s)] + b)
  {
    MergeLast(a, s, i, j);
    SameHead(a + s, a + [Size(s)], b, i + j, i + [Ravel(s, j)], k);
  }

  // ----- tensors

  datatype Tensor = Tensor(shape: seq<nat>, data: seq<real>) {
    predicate Valid() {
      |data| == Size(shape)
    }
  }

  /** The element at an index, or zero where there is none. */
  function Elem(t: Tensor, index: seq<nat>): real {
    if InBounds(t.shape, index) && Ravel(t.shape, index) < |t.data| then t.data[Ravel(t.shape, index)] else 0.0
  }

  /** The tensor whose elements a function gives. */
  function Build(shape: seq<nat>, f: seq<nat> -> real): (t: Tensor)
    ensures t.Valid() && t.shape == shape
  {
    Tensor(shape, seq(Size(shape), k requires 0 <= k < Size(shape) => f(Unravel(shape, k))))
  }

  lemma BuildAt(shape: seq<nat>, f: seq<nat> -> real, index: seq<nat>)
    requires InBounds(shape, index)
    ensures Elem(Build(shape, f), index) == f(index)
  {
    RavelFits(shape, index);
    UnravelRavel(shape, index);
  }

  function Reshape(t: Tensor, shape: seq<nat>): (r: Tensor)
    requires t.Valid() && Size(shape) == Size(t.shape)
    ensures r.Valid() && r.shape == shape
  {
    Tensor(shape, t.data)
  }

  /** Reshaping keeps what lies at each place in memory. */
  lemma ReshapeAt(t: Tensor, shape: seq<nat>, before: seq<nat>, after: seq<nat>)
    requires t.Valid() && Size(shape) == Size(t.shape)
    requires InBounds(t.shape, before) && InBounds(shape, after) && Ravel(t.shape, before) == Ravel(shape, after)
    ensures Elem(Reshape(t, shape), after) == Elem(t, before)
  {
    RavelFits(shape, after);
  }

  /** Each axis named once. */
  predicate Permutation(axes: seq<nat>) {
    && (forall i :: 0 <= i < |axes| ==> axes[i] < |axes|)
    && (forall i, j :: 0 <= i < j < |axes| ==> axes[i] != axes[j])
    && (forall a :: 0 <= a < |axes| ==> a in axes)
  }

  function Permute(x: seq<nat>, axes: seq<nat>): (r: seq<nat>)
    requires |x| == |axes| && Permutation(axes)
    ensures |r| == |axes| && forall i :: 0 <= i < |axes| ==> r[i] == x[axes[i]]
  {
    seq(|axes|, i requires 0 <= i < |axes| => x[axes[i]])
  }

  function IndexOf(axes: seq<nat>, a: nat): (i: nat)
    requires a in axes
    ensures i < |axes| && axes[i] == a
  {
    if axes[0] == a then 0 else 1 + IndexOf(axes[1..], a)
  }

  function Unpermute(x: seq<nat>, axes: seq<nat>): (r: seq<nat>)
    requires |x| == |axes| && Permutation(axes)
    ensures |r| == |axes| && forall a :: 0 <= a < |axes| ==> a in axes && r[a] == x[IndexOf(axes, a)]
  {
    seq(|axes|, a requires 0 <= a < |axes| => x[IndexOf(axes, a)])
  }

  lemma UnpermutePermute(x: seq<nat>, axes: seq<nat>)
    requires |x| == |axes| && Permutation(axes)
    ensures Unpermute(Permute(x, axes), axes) == x
  {
    forall a | 0 <= a < |axes| ensures Unpermute(Permute(x, axes), axes)[a] == x[a] {
      assert a in axes;
    }
  }

  function Transpose(t: Tensor, axes: seq<nat>): (r: Tensor)
    requires |t.shape| == |axes| && Permutation(axes)
    ensures r.Valid() && r.shape == Permute(t.shape, axes)
  {
    Build(Permute(t.shape, axes), index => if |index| == |axes| then Elem(t, Unpermute(index, axes)) else 0.0)
  }

  /** Transposing moves each element to the permuted index. */
  lemma TransposeAt(t: Tensor, axes: seq<nat>, index: seq<nat>)
    requires |t.shape| == |axes| && Permutation(axes) && InBounds(t.shape, index)
    ensures Elem(Transpose(t, axes), Permute(index, axes)) == Elem(t, index)
  {
    UnpermutePermute(index, axes);
    BuildAt(Permute(t.shape, axes), i => if |i| == |axes| then Elem(t, Unpermute(i, axes)) else 0.0, Permute(index, axes));
  }

  /** Two tensors of one shape, element by element. */
  function Zip(x: Tensor, y: Tensor, f: (real, real) -> real): (r: Tensor)
    ensures r.Valid() && r.shape == x.shape
  {
    Build(x.shape, index => f(Elem(x, index), Elem(y, index)))
  }

  lemma ZipAt(x: Tensor, y: Tensor, f: (real, real) -> real, index: seq<nat>)
    requires InBounds(x.shape, index)
    ensures Elem(Zip(x, y, f), index) == f(Elem(x, index), Elem(y, index))
  {
    BuildAt(x.shape, i => f(Elem(x, i), Elem(y, i)), index);
  }

  /** Two tensors side by side on a new axis. */
  function Stack(x: Tensor, y: Tensor, axis: nat): (r: Tensor)
    requires axis <= |x.shape|
    ensures r.Valid() && r.shape == x.shape[..axis] + [2] + x.shape[axis..]
  {
    Build(x.shape[..axis] + [2] + x.shape[axis..], index => Stacked(x, y, axis, index))
  }

  function Stacked(x: Tensor, y: Tensor, axis: nat, index: seq<nat>): real {
    if axis >= |index| then 0.0
    else Elem(if index[axis] == 0 then x else y, index[..axis] + index[axis + 1..])
  }

  lemma StackAt(x: Tensor, y: Tensor, front: seq<nat>, part: nat, back: seq<nat>)
    requires InBounds(x.shape, front + back) && part < 2
    ensures Elem(Stack(x, y, |front|), front + [part] + back) == Elem(if part == 0 then x else y, front + back)
  {
    var axis, whole := |front|, front + [part] + back;
    assert whole[..axis] == front && whole[axis + 1..] == back;
    var shape := x.shape[..axis] + [2] + x.shape[axis..];
    forall i | 0 <= i < |shape| ensures whole[i] < shape[i] {
      if i < axis { assert (front + back)[i] < x.shape[i]; }
      if i > axis { assert (front + back)[i - 1] < x.shape[i - 1]; }
    }
    BuildAt(shape, index => Stacked(x, y, axis, index), whole);
  }

  /** One position of the last axis. */
  function Pick(t: Tensor, part: nat): (r: Tensor)
    requires |t.shape| > 0
    ensures r.Valid() && r.shape == t.shape[..|t.shape| - 1]
  {
    Build(t.shape[..|t.shape| - 1], index => Elem(t, index + [part]))
  }

  lemma PickAt(t: Tensor, part: nat, index: seq<nat>)
    requires |t.shape| > 0 && InBounds(t.shape[..|t.shape| - 1], index)
    ensures Elem(Pick(t, part), index) == Elem(t, index + [part])
  {
    BuildAt(t.shape[..|t.shape| - 1], i => Elem(t, i + [part]), index);
  }
}
