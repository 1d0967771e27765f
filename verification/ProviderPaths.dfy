/** Where a schema keeps provider names inside a JSON value, and rewriting just
    there. */
module ProviderPaths {
  import opened Prelude
  import opened Json

  /** The places a schema defines: this value, members of an object, every
      element of an array, or one of two shapes by the `method` member. */
  datatype Shape =
    | Nowhere
    | Here
    | Members(members: map<string, Shape>)
    | Elements(inner: Shape)
    | ByMethod(methods: set<string>, inner: Shape, otherwise: Shape)

  function MethodOf(v: Value): Option<string> { AsStr(Get(v, "method")) }

  /** The shape that `ByMethod` selects for `v`. */
  function Chosen(shape: Shape, v: Value): Shape
    requires shape.ByMethod?
  {
    if MethodOf(v).Some? && MethodOf(v).value in shape.methods then shape.inner else shape.otherwise
  }

  /** Shapes chosen by method leave the `method` member alone. */
  predicate Sound(shape: Shape) {
    match shape
    case Nowhere => true
    case Here => true
    case Members(members) => forall key :: key in members ==> Sound(members[key])
    case Elements(inner) => Sound(inner)
    case ByMethod(_, inner, otherwise) =>
      Sound(inner) && Sound(otherwise) && KeepsMethod(inner) && KeepsMethod(otherwise)
  }

  predicate KeepsMethod(shape: Shape) {
    match shape
    case Nowhere => true
    case Members(members) => "method" !in members
    case ByMethod(_, inner, otherwise) => KeepsMethod(inner) && KeepsMethod(otherwise)
    case _ => false
  }

  /** Every value at the shape's places satisfies `p`. */
  predicate Every(shape: Shape, v: Value, p: Value -> bool)
    decreases shape
  {
    match shape
    case Nowhere => true
    case Here => p(v)
    case Members(members) =>
      v.Obj? ==> forall key :: key in members && key in v.fields ==> Every(members[key], v.fields[key], p)
    case Elements(inner) => v.Arr? ==> forall i :: 0 <= i < |v.items| ==> Every(inner, v.items[i], p)
    case ByMethod(_, inner, otherwise) =>
      if Chosen(shape, v) == inner then Every(inner, v, p) else Every(otherwise, v, p)
  }

  /** `v` with `f` applied at the shape's places. */
  function Apply(shape: Shape, v: Value, f: Value -> Value): Value
    decreases shape
  {
    match shape
    case Nowhere => v
    case Here => f(v)
    case Members(members) =>
      if !v.Obj? then v
      else Obj(map key | key in v.fields :: if key in members then Apply(members[key], v.fields[key], f)
                                            else v.fields[key])
    case Elements(inner) =>
      if !v.Arr? then v else Arr(seq(|v.items|, i requires 0 <= i < |v.items| => Apply(inner, v.items[i], f)))
    case ByMethod(_, inner, otherwise) =>
      if Chosen(shape, v) == inner then Apply(inner, v, f) else Apply(otherwise, v, f)
  }

  lemma {:induction false} MethodKept(shape: Shape, v: Value, f: Value -> Value)
    requires KeepsMethod(shape)
    ensures MethodOf(Apply(shape, v, f)) == MethodOf(v)
    decreases shape
  {
    if shape.ByMethod? {
      MethodKept(Chosen(shape, v), v, f);
    }
  }

  lemma ChosenKept(shape: Shape, v: Value, f: Value -> Value)
    requires shape.ByMethod? && Sound(shape)
    ensures Chosen(shape, Apply(shape, v, f)) == Chosen(shape, v)
  {
    MethodKept(Chosen(shape, v), v, f);
  }

  /** Two rewritings are one. */
  lemma {:induction false} ApplyTwice(shape: Shape, v: Value, f: Value -> Value, g: Value -> Value)
    requires Sound(shape)
    ensures Apply(shape, Apply(shape, v, f), g) == Apply(shape, v, x => g(f(x)))
    decreases shape
  {
    var h: Value -> Value := x => g(f(x));
    match shape
    case Nowhere =>
    case Here =>
    case Members(members) =>
      if v.Obj? {
        var once := Apply(shape, v, f);
        forall key | key in v.fields
          ensures Apply(shape, once, g).fields[key] == Apply(shape, v, h).fields[key]
        {
          if key in members {
            ApplyTwice(members[key], v.fields[key], f, g);
          }
        }
        assert Apply(shape, once, g).fields == Apply(shape, v, h).fields;
      }
    case Elements(inner) =>
      if v.Arr? {
        forall i | 0 <= i < |v.items|
          ensures Apply(shape, Apply(shape, v, f), g).items[i] == Apply(shape, v, h).items[i]
        {
          ApplyTwice(inner, v.items[i], f, g);
        }
        assert Apply(shape, Apply(shape, v, f), g).items == Apply(shape, v, h).items;
      }
    case ByMethod(_, inner, otherwise) =>
      ChosenKept(shape, v, f);
      ApplyTwice(Chosen(shape, v), v, f, g);
  }

  /** Rewriting that agrees with the identity at every place changes nothing. */
  lemma {:induction false} ApplyIdentity(shape: Shape, v: Value, f: Value -> Value)
    requires Every(shape, v, x => f(x) == x)
    ensures Apply(shape, v, f) == v
    decreases shape
  {
    match shape
    case Nowhere =>
    case Here =>
    case Members(members) =>
      if v.Obj? {
        forall key | key in v.fields
          ensures Apply(shape, v, f).fields[key] == v.fields[key]
        {
          if key in members {
            ApplyIdentity(members[key], v.fields[key], f);
          }
        }
        assert Apply(shape, v, f).fields == v.fields;
      }
    case Elements(inner) =>
      if v.Arr? {
        forall i | 0 <= i < |v.items|
          ensures Apply(shape, v, f).items[i] == v.items[i]
        {
          ApplyIdentity(inner, v.items[i], f);
        }
        assert Apply(shape, v, f).items == v.items;
      }
    case ByMethod(_, inner, otherwise) => ApplyIdentity(Chosen(shape, v), v, f);
  }

  /** The rewritten value has `p` at every place when the old one had it after
      `f`. */
  lemma {:induction false} EveryAfter(shape: Shape, v: Value, f: Value -> Value, p: Value -> bool)
    requires Sound(shape)
    ensures Every(shape, Apply(shape, v, f), p) <==> Every(shape, v, x => p(f(x)))
    decreases shape
  {
    var q: Value -> bool := x => p(f(x));
    match shape
    case Nowhere =>
    case Here =>
    case Members(members) =>
      if v.Obj? {
        var w := Apply(shape, v, f);
        forall key | key in members && key in v.fields
          ensures Every(members[key], w.fields[key], p) <==> Every(members[key], v.fields[key], q)
        {
          EveryAfter(members[key], v.fields[key], f, p);
        }
      }
    case Elements(inner) =>
      if v.Arr? {
        var w := Apply(shape, v, f);
        forall i | 0 <= i < |v.items|
          ensures Every(inner, w.items[i], p) <==> Every(inner, v.items[i], q)
        {
          EveryAfter(inner, v.items[i], f, p);
        }
      }
    case ByMethod(_, inner, otherwise) =>
      ChosenKept(shape, v, f);
      EveryAfter(Chosen(shape, v), v, f, p);
  }

  lemma {:induction false} EveryImplies(shape: Shape, v: Value, p: Value -> bool, q: Value -> bool)
    requires Every(shape, v, p) && forall x :: p(x) ==> q(x)
    ensures Every(shape, v, q)
    decreases shape
  {
    match shape
    case Nowhere =>
    case Here =>
    case Members(members) =>
      if v.Obj? {
        forall key | key in members && key in v.fields
          ensures Every(members[key], v.fields[key], q)
        {
          EveryImplies(members[key], v.fields[key], p, q);
        }
      }
    case Elements(inner) =>
      if v.Arr? {
        forall i | 0 <= i < |v.items|
          ensures Every(inner, v.items[i], q)
        {
          EveryImplies(inner, v.items[i], p, q);
        }
      }
    case ByMethod(_, inner, otherwise) => EveryImplies(Chosen(shape, v), v, p, q);
  }

  /** Rewritings that agree at every place are one. */
  lemma {:induction false} ApplyAgrees(shape: Shape, v: Value, f: Value -> Value, g: Value -> Value, p: Value -> bool)
    requires Every(shape, v, p) && forall x :: p(x) ==> f(x) == g(x)
    ensures Apply(shape, v, f) == Apply(shape, v, g)
    decreases shape
  {
    match shape
    case Nowhere =>
    case Here =>
    case Members(members) =>
      if v.Obj? {
        forall key | key in v.fields
          ensures Apply(shape, v, f).fields[key] == Apply(shape, v, g).fields[key]
        {
          if key in members {
            ApplyAgrees(members[key], v.fields[key], f, g, p);
          }
        }
        assert Apply(shape, v, f).fields == Apply(shape, v, g).fields;
      }
    case Elements(inner) =>
      if v.Arr? {
        forall i | 0 <= i < |v.items|
          ensures Apply(shape, v, f).items[i] == Apply(shape, v, g).items[i]
        {
          ApplyAgrees(inner, v.items[i], f, g, p);
        }
        assert Apply(shape, v, f).items == Apply(shape, v, g).items;
      }
    case ByMethod(_, inner, otherwise) => ApplyAgrees(Chosen(shape, v), v, f, g, p);
  }

  /** `v` with its provider places blanked: what the schema says is not a
      provider name. */
  function Blanked(shape: Shape, v: Value): Value { Apply(shape, v, x => Null) }

  /** Rewriting at the places changes nothing elsewhere. */
  lemma OnlyThePlaces(shape: Shape, v: Value, f: Value -> Value)
    requires Sound(shape)
    ensures Blanked(shape, Apply(shape, v, f)) == Blanked(shape, v)
  {
    ApplyTwice(shape, v, f, x => Null);
    var constant: Value -> Value := x => Null;
    var after: Value -> Value := x => constant(f(x));
    EveryTrivially(shape, v, x => true);
    ApplyAgrees(shape, v, after, constant, x => true);
  }

  lemma {:induction false} EveryTrivially(shape: Shape, v: Value, p: Value -> bool)
    requires forall x :: p(x)
    ensures Every(shape, v, p)
    decreases shape
  {
    match shape
    case Nowhere =>
    case Here =>
    case Members(members) =>
      if v.Obj? {
        forall key | key in members && key in v.fields
          ensures Every(members[key], v.fields[key], p)
        {
          EveryTrivially(members[key], v.fields[key], p);
        }
      }
    case Elements(inner) =>
      if v.Arr? {
        forall i | 0 <= i < |v.items|
          ensures Every(inner, v.items[i], p)
        {
          EveryTrivially(inner, v.items[i], p);
        }
      }
    case ByMethod(_, inner, otherwise) => EveryTrivially(Chosen(shape, v), v, p);
  }
}
