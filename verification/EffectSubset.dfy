// The ceiling test on authorized effects: what a projection may carry.
module EffectSubset {
  import opened Text
  import opened JsNumbers
  import opened JsNumberValues
  import opened CanonicalJson
  import opened CanonicalText

  type Effects = Json<Number>

  // A scalar up to Python's `==`: `True == 1 == 1.0` and `0.0 == -0.0`.
  datatype Scalar = NoneValue | Text(s: string) | Quantity(v: real)

  function ScalarOf(v: Effects): Scalar
    requires !v.Obj? && !v.Arr?
  {
    match v
    case Null => NoneValue
    case Str(s) => Text(s)
    case Bool(b) => Quantity(if b then 1.0 else 0.0)
    case Num(n) => Quantity(Value(n))
  }

  // List items are compared by their canonical text.
  predicate Offered(item: Effects, items: seq<Effects>)
    requires Serializable(item) && forall j | 0 <= j < |items| :: Serializable(items[j])
  {
    exists j | 0 <= j < |items| :: DumpsText(item) == DumpsText(items[j])
  }

  // `_is_subset(selected, ceiling)`.
  predicate IsSubset(selected: Effects, ceiling: Effects)
    requires Serializable(selected) && Serializable(ceiling)
  {
    match selected
    case Obj(fields) =>
      ceiling.Obj? && forall k | k in fields :: k in ceiling.fields && IsSubset(fields[k], ceiling.fields[k])
    case Arr(items) =>
      ceiling.Arr? && forall i | 0 <= i < |items| :: Offered(items[i], ceiling.items)
    case _ => !ceiling.Obj? && !ceiling.Arr? && ScalarOf(selected) == ScalarOf(ceiling)
  }

  // ---- What a tree says ---------------------------------------------------------

  datatype Fact = IsMap | IsList | HasItem(item: Effects) | HasScalar(s: Scalar)

  // The tree says `f` at the end of the path of map keys.
  ghost predicate Says(v: Effects, path: seq<string>, f: Fact) {
    if path != [] then v.Obj? && path[0] in v.fields && Says(v.fields[path[0]], path[1..], f)
    else match v
      case Obj(_) => f == IsMap
      case Arr(items) => f == IsList || (f.HasItem? && f.item in items)
      case _ => f == HasScalar(ScalarOf(v))
  }

  function RootFact(v: Effects): (f: Fact)
    ensures Says(v, [], f)
  {
    match v case Obj(_) => IsMap case Arr(_) => IsList case _ => HasScalar(ScalarOf(v))
  }

  ghost predicate SaysNoMore(selected: Effects, ceiling: Effects) {
    forall path, f | Says(selected, path, f) :: Says(ceiling, path, f)
  }

  lemma {:induction false} SubsetSaysNoMore(s: Effects, c: Effects, path: seq<string>, f: Fact)
    requires Serializable(s) && Serializable(c) && IsSubset(s, c) && Says(s, path, f)
    ensures Says(c, path, f)
    decreases |path|
  {
    if path != [] {
      SubsetSaysNoMore(s.fields[path[0]], c.fields[path[0]], path[1..], f);
    } else if f.HasItem? {
      var i :| 0 <= i < |s.items| && s.items[i] == f.item;
      assert Offered(s.items[i], c.items);
      var j :| 0 <= j < |c.items| && DumpsText(s.items[i]) == DumpsText(c.items[j]);
      DumpsInjective(s.items[i], c.items[j]);
    }
  }

  lemma {:induction false} SaysNoMoreIsSubset(s: Effects, c: Effects)
    requires Serializable(s) && Serializable(c) && SaysNoMore(s, c)
    ensures IsSubset(s, c)
    decreases s
  {
    assert Says(c, [], RootFact(s));
    match s
    case Obj(fields) =>
      forall k | k in fields ensures k in c.fields && IsSubset(fields[k], c.fields[k]) {
        var root := RootFact(fields[k]);
        assert [k][1..] == [];
        assert Says(s, [k], root) && Says(c, [k], root);
        forall path, f | Says(fields[k], path, f) ensures Says(c.fields[k], path, f) {
          assert ([k] + path)[1..] == path;
          assert Says(s, [k] + path, f);
        }
        SaysNoMoreIsSubset(fields[k], c.fields[k]);
      }
    case Arr(items) =>
      forall i | 0 <= i < |items| ensures Offered(items[i], c.items) {
        assert Says(s, [], HasItem(items[i])) && Says(c, [], HasItem(items[i]));
      }
    case _ =>
  }

  // The test passes exactly when the selection says nothing the ceiling does not say.
  lemma SubsetIffSaysNoMore(s: Effects, c: Effects)
    requires Serializable(s) && Serializable(c)
    ensures IsSubset(s, c) <==> SaysNoMore(s, c)
  {
    if IsSubset(s, c) {
      forall path, f | Says(s, path, f) ensures Says(c, path, f) { SubsetSaysNoMore(s, c, path, f); }
    }
    if SaysNoMore(s, c) { SaysNoMoreIsSubset(s, c); }
  }

  // Hence projecting a projection again never widens the ceiling.
  lemma SubsetIsPreorder(a: Effects, b: Effects, c: Effects)
    requires Serializable(a) && Serializable(b) && Serializable(c)
    ensures IsSubset(a, a)
    ensures IsSubset(a, b) && IsSubset(b, c) ==> IsSubset(a, c)
  {
    SubsetIffSaysNoMore(a, a);
    SubsetIffSaysNoMore(a, b);
    SubsetIffSaysNoMore(b, c);
    SubsetIffSaysNoMore(a, c);
  }

  // What passes for a scalar: nothing but nothing for `None`, no other text for a text, and
  // for a truth value or a number whatever counts as much.
  lemma ScalarsPass(b: bool, c: bool, n: Number, m: Number, s: string, t: string)
    requires Valid(n) && Valid(m)
    ensures IsSubset(Null, Null) && (IsSubset(Str(s), Str(t)) <==> s == t) && (IsSubset(Bool(b), Bool(c)) <==> b == c)
    ensures IsSubset(Num(n), Num(m)) <==> Value(n) == Value(m)
    ensures IsSubset(Bool(b), Num(n)) <==> Value(n) == (if b then 1.0 else 0.0)
    ensures IsSubset(Num(n), Bool(b)) <==> Value(n) == (if b then 1.0 else 0.0)
    ensures !IsSubset(Null, Str(s)) && !IsSubset(Str(s), Null) && !IsSubset(Null, Bool(b)) && !IsSubset(Bool(b), Null)
    ensures !IsSubset(Null, Num(n)) && !IsSubset(Num(n), Null)
    ensures !IsSubset(Str(s), Bool(b)) && !IsSubset(Bool(b), Str(s)) && !IsSubset(Str(s), Num(n)) && !IsSubset(Num(n), Str(s))
  {
  }

  // It is not antisymmetric: `True` and `1` pass for each other as scalars,
  // though never as items of a list.
  lemma BooleanPassesForOne()
    ensures var (t, one) := (Bool(true), Num(Int(1)));
      IsSubset(t, one) && IsSubset(one, t) && !IsSubset(Arr([t]), Arr([one]))
  {
    var (t, one) := (Bool(true), Num(Int(1)));
    var (ts, ones) := (Arr([t]), Arr([one]));
    assert Serializable(ts) && Serializable(ones);
    SubsetIffSaysNoMore(ts, ones);
    assert Says(ts, [], HasItem(t)) && !Says(ones, [], HasItem(t));
  }
}
