/** details::inspector<T>::getDimensions: the shape of a nested container,
    the outer size first and then the dimensions of its first element. */
module Inspector {
  import opened Wrappers

  /** The C++ type being inspected (one inspector specialisation each). */
  datatype Shape =
    | Scalar                            // any T without a specialisation
    | FixedStrings                      // FixedLenStringArray<N>
    | Vector(elem: Shape)               // std::vector<T>
    | Pointer(elem: Shape)              // T*
    | CArray(n: nat, elem: Shape)       // T[N]
    | StdArray(n: nat, elem: Shape)     // std::array<T, N>

  /** A value of such a type. */
  datatype Value =
    | Atom                              // a scalar, or a pointer (opaque)
    | Strings(count: nat)               // a FixedLenStringArray of `count` entries
    | Items(items: seq<Value>)          // the elements of a container

  /** recursive_ndim. */
  function RecursiveNdim(t: Shape): nat {
    match t
    case Scalar => 0
    case FixedStrings => 1
    case Vector(e) => 1 + RecursiveNdim(e)
    case Pointer(e) => 1 + RecursiveNdim(e)
    case CArray(_, e) => 1 + RecursiveNdim(e)
    case StdArray(_, e) => 1 + RecursiveNdim(e)
  }

  /** v is a value of type t. */
  predicate Conforms(t: Shape, v: Value)
    decreases v
  {
    match t
    case Scalar => v.Atom?
    case FixedStrings => v.Strings?
    case Pointer(_) => v.Atom?
    case Vector(e) =>
      v.Items? && forall i :: 0 <= i < |v.items| ==> Conforms(e, v.items[i])
    case CArray(n, e) =>
      v.Items? && |v.items| == n && forall i :: 0 <= i < |v.items| ==> Conforms(e, v.items[i])
    case StdArray(n, e) =>
      v.Items? && |v.items| == n && forall i :: 0 <= i < |v.items| ==> Conforms(e, v.items[i])
  }

  /** Every container whose element type has dimensions of its own holds
      an element 0 to take them from (reading val[0] of an empty container
      is undefined). */
  predicate Inspectable(t: Shape, v: Value)
    decreases v
  {
    Conforms(t, v) &&
    match t
    case Vector(e) => InspectableItems(e, v.items)
    case CArray(_, e) => InspectableItems(e, v.items)
    case StdArray(_, e) => InspectableItems(e, v.items)
    case _ => true
  }

  predicate InspectableItems(e: Shape, items: seq<Value>)
    decreases items
  {
    (RecursiveNdim(e) > 0 ==> |items| > 0) &&
    (|items| > 0 && RecursiveNdim(e) > 0 ==> Inspectable(e, items[0]))
  }

  /** getDimensions: None where the source throws (a T* anywhere on the
      path through element 0). */
  function GetDimensions(t: Shape, v: Value): (r: Option<seq<nat>>)
    requires Inspectable(t, v)
    ensures r.Some? ==> |r.value| == RecursiveNdim(t)
    decreases v
  {
    match t
    case Scalar => Some([])
    case FixedStrings => Some([v.count])
    case Pointer(_) => None
    case Vector(e) => Outer(|v.items|, e, v.items)
    case CArray(n, e) => Outer(n, e, v.items)
    case StdArray(n, e) => Outer(n, e, v.items)
  }

  /** sizes = {outer}, followed by the dimensions of element 0. */
  function Outer(outer: nat, e: Shape, items: seq<Value>): (r: Option<seq<nat>>)
    requires InspectableItems(e, items)
    ensures r.Some? ==> |r.value| == 1 + RecursiveNdim(e)
    decreases items, 0
  {
    if RecursiveNdim(e) == 0 then Some([outer])
    else match GetDimensions(e, items[0])
      case None => None
      case Some(inner) => Some([outer] + inner)
  }

  /** No pointer type on the path getDimensions follows. */
  predicate PointerFree(t: Shape) {
    match t
    case Scalar => true
    case FixedStrings => true
    case Pointer(_) => false
    case Vector(e) => PointerFree(e)
    case CArray(_, e) => PointerFree(e)
    case StdArray(_, e) => PointerFree(e)
  }

  /** The dimensions of an inspectable value: first the number of elements
      of the outer container, then those of its element 0; getDimensions
      fails exactly when a pointer type is on the path. */
  lemma {:induction false} DimensionsShape(t: Shape, v: Value)
    requires Inspectable(t, v)
    ensures GetDimensions(t, v).Some? <==> PointerFree(t)
    ensures t.Vector? && PointerFree(t) ==> GetDimensions(t, v).value[0] == |v.items|
    ensures (t.CArray? || t.StdArray?) && PointerFree(t) ==> GetDimensions(t, v).value[0] == t.n
    ensures (t.Vector? || t.CArray? || t.StdArray?) && PointerFree(t) && RecursiveNdim(t.elem) > 0 ==>
      |v.items| > 0 && Inspectable(t.elem, v.items[0]) && GetDimensions(t.elem, v.items[0]).Some? &&
      GetDimensions(t, v).value[1..] == GetDimensions(t.elem, v.items[0]).value
    decreases v
  {
    match t
    case Scalar =>
    case FixedStrings =>
    case Pointer(_) =>
    case Vector(e) => ItemsShape(e, v.items);
    case CArray(_, e) => ItemsShape(e, v.items);
    case StdArray(_, e) => ItemsShape(e, v.items);
  }

  lemma {:induction false} ItemsShape(e: Shape, items: seq<Value>)
    requires InspectableItems(e, items)
    ensures RecursiveNdim(e) > 0 ==> (GetDimensions(e, items[0]).Some? <==> PointerFree(e))
    ensures RecursiveNdim(e) == 0 ==> PointerFree(e)
    decreases items, 0
  {
    if RecursiveNdim(e) > 0 {
      DimensionsShape(e, items[0]);
    } else {
      ZeroNdimPointerFree(e);
    }
  }

  lemma ZeroNdimPointerFree(e: Shape)
    requires RecursiveNdim(e) == 0
    ensures PointerFree(e) && e == Scalar
  {
  }

  // ---------------------------------------------------------------------
  // What the dimensions mean: for a rectangular value their product is
  // the number of scalars it holds.
  // ---------------------------------------------------------------------

  function Product(d: seq<nat>): nat {
    if d == [] then 1 else d[0] * Product(d[1..])
  }

  /** The number of scalars (or fixed-length strings) held by v. */
  function LeafCount(v: Value): nat
    decreases v
  {
    match v
    case Atom => 1
    case Strings(k) => k
    case Items(items) => SumLeaves(items)
  }

  function SumLeaves(items: seq<Value>): nat
    decreases items
  {
    if items == [] then 0 else SumLeaves(items[..|items| - 1]) + LeafCount(items[|items| - 1])
  }

  /** Every element has the same dimensions as element 0, recursively. */
  predicate Rectangular(t: Shape, v: Value)
    requires Inspectable(t, v)
    decreases v
  {
    match t
    case Vector(e) => RectangularItems(e, v.items)
    case CArray(_, e) => RectangularItems(e, v.items)
    case StdArray(_, e) => RectangularItems(e, v.items)
    case _ => true
  }

  predicate RectangularItems(e: Shape, items: seq<Value>)
    requires InspectableItems(e, items)
    requires forall i :: 0 <= i < |items| ==> Conforms(e, items[i])
    decreases items
  {
    RecursiveNdim(e) > 0 ==>
      forall i :: 0 <= i < |items| ==>
        Inspectable(e, items[i]) && Rectangular(e, items[i]) &&
        GetDimensions(e, items[i]) == GetDimensions(e, items[0])
  }

  lemma {:induction false} SumOfEqual(items: seq<Value>, c: nat)
    requires forall i :: 0 <= i < |items| ==> LeafCount(items[i]) == c
    ensures SumLeaves(items) == |items| * c
    decreases items
  {
    if items != [] {
      SumOfEqual(items[..|items| - 1], c);
    }
  }

  /** For a rectangular, pointer-free value, the product of getDimensions
      is the number of scalars: the dimensions describe the whole data,
      not only element 0. */
  lemma {:induction false} DimensionsCountLeaves(t: Shape, v: Value)
    requires Inspectable(t, v) && Rectangular(t, v) && PointerFree(t)
    ensures GetDimensions(t, v).Some?
    ensures Product(GetDimensions(t, v).value) == LeafCount(v)
    decreases v
  {
    DimensionsShape(t, v);
    match t
    case Scalar =>
    case FixedStrings =>
      assert GetDimensions(t, v).value[1..] == [];
    case Vector(e) => ItemsCountLeaves(e, v.items);
    case CArray(_, e) => ItemsCountLeaves(e, v.items);
    case StdArray(_, e) => ItemsCountLeaves(e, v.items);
  }

  lemma {:induction false} ItemsCountLeaves(e: Shape, items: seq<Value>)
    requires InspectableItems(e, items)
    requires forall i :: 0 <= i < |items| ==> Conforms(e, items[i])
    requires RectangularItems(e, items) && PointerFree(e)
    ensures Outer(|items|, e, items).Some?
    ensures Product(Outer(|items|, e, items).value) == SumLeaves(items)
    decreases items, 0
  {
    if RecursiveNdim(e) == 0 {
      var r := Outer(|items|, e, items).value;
      ZeroNdimPointerFree(e);
      forall i | 0 <= i < |items|
        ensures LeafCount(items[i]) == 1
      {
      }
      SumOfEqual(items, 1);
      assert r[1..] == [];
    } else {
      var inner := GetDimensions(e, items[0]);
      DimensionsShape(e, items[0]);
      DimensionsCountLeaves(e, items[0]);
      var r := Outer(|items|, e, items).value;
      var c := LeafCount(items[0]);
      forall i | 0 <= i < |items|
        ensures LeafCount(items[i]) == c
      {
        DimensionsCountLeaves(e, items[i]);
      }
      SumOfEqual(items, c);
      assert r[1..] == inner.value;
    }
  }

  /** A 2 x 3 std::vector<std::vector<int>> has dimensions {2, 3}, and a
      std::vector<int*> cannot be sized. */
  lemma DimensionsExample()
    ensures GetDimensions(Vector(Vector(Scalar)),
      Items([Items([Atom, Atom, Atom]), Items([Atom, Atom, Atom])])) == Some([2, 3])
    ensures GetDimensions(Vector(Pointer(Scalar)), Items([Atom])) == None
  {
    var row := Items([Atom, Atom, Atom]);
    assert Inspectable(Vector(Scalar), row);
    assert GetDimensions(Vector(Scalar), row) == Some([3]);
    var table := Items([row, row]);
    assert Conforms(Vector(Vector(Scalar)), table);
    assert Inspectable(Vector(Vector(Scalar)), table);
    assert GetDimensions(Vector(Vector(Scalar)), table) == Some([2] + [3]);
    assert [2] + [3] == [2, 3];
    assert Inspectable(Pointer(Scalar), Atom);
    assert Inspectable(Vector(Pointer(Scalar)), Items([Atom]));
  }
}
