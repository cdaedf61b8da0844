/**
 * The part of the zod validation library the routes use, stated as explicit
 * predicates: an object shape is a list of field specifications, each with a
 * value rule and a required flag; `.partial()` clears every required flag;
 * `safeParse` either accepts the body or reports the offending field names.
 * Unknown keys are ignored, as zod's default object parsing strips them.
 */
module Schema {
  import opened Js

  /** The value checks the routes declare: `z.string().min(n)`,
      `z.number().min(lo).max(hi)`, `z.number().int().positive()`, and an
      object with four numbers `north`, `south`, `east`, `west`. */
  datatype Rule =
    | Str(minLength: nat)
    | Num(lo: real, hi: real)
    | PosInt
    | Box

  datatype FieldSpec = FieldSpec(key: string, rule: Rule, required: bool)

  /** A `z.object({...})` shape, in declaration order. */
  type Shape = seq<FieldSpec>

  predicate IsNumberAt(f: map<string, Json>, k: string)
  {
    k in f && f[k].JNum?
  }

  predicate IsWholeNumber(x: real)
  {
    x.Floor as real == x
  }

  predicate Satisfies(v: Json, rule: Rule)
  {
    match rule
    case Str(m) => v.JStr? && |v.s| >= m
    case Num(lo, hi) => v.JNum? && lo <= v.n <= hi
    case PosInt => v.JNum? && IsWholeNumber(v.n) && v.n > 0.0
    case Box =>
      v.JObj? && IsNumberAt(v.fields, "north") && IsNumberAt(v.fields, "south")
      && IsNumberAt(v.fields, "east") && IsNumberAt(v.fields, "west")
  }

  /** A present field must pass its rule; an absent one is fine unless required.
      An explicit `null` is a present value and fails every rule. */
  predicate FieldOk(f: map<string, Json>, spec: FieldSpec)
  {
    if spec.key in f then Satisfies(f[spec.key], spec.rule) else !spec.required
  }

  /** `shape.safeParse(body).success`. */
  predicate Conforms(body: Json, shape: Shape)
  {
    body.JObj? && forall i :: 0 <= i < |shape| ==> FieldOk(body.fields, shape[i])
  }

  /** `shape.partial()`: the same fields and rules, none of them required. */
  function Partial(shape: Shape): (p: Shape)
    ensures |p| == |shape|
    ensures forall i :: 0 <= i < |shape| ==>
              p[i].key == shape[i].key && p[i].rule == shape[i].rule && !p[i].required
  {
    if shape == [] then [] else [shape[0].(required := false)] + Partial(shape[1..])
  }

  /** The field names zod reports, in shape order: each present field that
      breaks its rule and each required field that is missing. */
  function IssuesIn(f: map<string, Json>, shape: Shape): (issues: seq<string>)
    ensures forall k :: k in issues <==>
              exists i :: 0 <= i < |shape| && shape[i].key == k && !FieldOk(f, shape[i])
  {
    if shape == [] then []
    else
      var rest := IssuesIn(f, shape[1..]);
      assert forall i :: 1 <= i < |shape| ==> shape[i] == shape[1..][i - 1];
      if FieldOk(f, shape[0]) then rest else [shape[0].key] + rest
  }

  /** The issue list of `shape.safeParse(body)`; a body that is not an object
      is reported at the root, written as the empty path "". */
  function Check(body: Json, shape: Shape): (issues: seq<string>)
    ensures issues == [] <==> Conforms(body, shape)
  {
    if !body.JObj? then [""]
    else
      var issues := IssuesIn(body.fields, shape);
      assert issues == [] <==> forall i :: 0 <= i < |shape| ==> FieldOk(body.fields, shape[i]) by {
        if issues != [] {
          assert issues[0] in issues;
        } else {
          forall i | 0 <= i < |shape| ensures FieldOk(body.fields, shape[i]) {
            assert shape[i].key !in issues;
          }
        }
      }
      issues
  }

  /** Every key the shape marks required is present in the body. */
  predicate HasRequired(body: Json, shape: Shape)
  {
    body.JObj? && forall i :: 0 <= i < |shape| && shape[i].required ==> shape[i].key in body.fields
  }

  /** Every object the full shape accepts, the partial shape accepts too, and
      the partial shape accepts the empty object. */
  lemma PartialIsWeaker(body: Json, shape: Shape)
    ensures Conforms(body, shape) ==> Conforms(body, Partial(shape))
    ensures Conforms(JObj(map[]), Partial(shape))
  {
    var p := Partial(shape);
    if Conforms(body, shape) {
      forall i | 0 <= i < |p| ensures FieldOk(body.fields, p[i]) {
        assert FieldOk(body.fields, shape[i]);
      }
    }
  }

  /** The partial shape gives up only the required flags: the full shape
      accepts exactly the bodies the partial shape accepts that carry every
      required key. */
  lemma FullIsPartialPlusRequired(body: Json, shape: Shape)
    ensures Conforms(body, shape) <==> Conforms(body, Partial(shape)) && HasRequired(body, shape)
  {
    var p := Partial(shape);
    if body.JObj? {
      var f := body.fields;
      if Conforms(body, shape) {
        PartialIsWeaker(body, shape);
        forall i | 0 <= i < |shape| && shape[i].required ensures shape[i].key in f {
          assert FieldOk(f, shape[i]);
        }
      }
      if Conforms(body, p) && HasRequired(body, shape) {
        forall i | 0 <= i < |shape| ensures FieldOk(f, shape[i]) {
          var spec, relaxed := shape[i], p[i];
          assert relaxed.key == spec.key && relaxed.rule == spec.rule;
          assert FieldOk(f, relaxed);
          assert spec.required ==> spec.key in f;
        }
      }
    }
  }
}
