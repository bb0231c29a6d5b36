/** Setter synthesis for one builder member: the state tuple of the builder
    that a setter returns, the type alias naming that builder, the
    into-conversion eligibility rule with its per-field override, and the
    setter methods themselves. Generated code is kept as data, not tokens. */
module SetterMethods {
  import opened Outcome
  import opened BuilderGen

  // ---------------------------------------------------------------------
  // State tuple and type alias
  // ---------------------------------------------------------------------

  /** One position of the builder's state tuple: either the concrete `Set`
      marker type or `__State::<Assoc>`, the current (generic) state of the
      field whose associated type is `name`. */
  datatype StateEntry = SetOf(ty: Ty) | Assoc(name: string)

  /** A reference to the per-field type alias `__<Builder>Set<Assoc><args.., __State?>`. */
  datatype TypeRef = AliasRef(name: string, genericArgs: seq<string>, stateArg: Option<string>)

  /** The state tuple of a builder whose every slot is still the generic
      `__State` of the incoming builder. */
  function CurrentStates(fields: seq<Field>): (r: seq<StateEntry>)
  {
    seq(|fields|, i requires 0 <= i < |fields| => Assoc(fields[i].stateAssoc))
  }

  /** The state tuple the setter for `field` returns (the `output_fields_states`
      iterator): every field whose ident is `field`'s gets its `Set` type, every
      other one keeps `__State::<its assoc>`. */
  function OutputFieldsStates(fields: seq<Field>, field: Field): (r: seq<StateEntry>)
    ensures |r| == |fields|
  {
    if fields == [] then []
    else
      var head := if fields[0].ident == field.ident then SetOf(field.setType) else Assoc(fields[0].stateAssoc);
      [head] + OutputFieldsStates(fields[1..], field)
  }

  /** Position `i` of the output state tuple is decided by field `i` alone. */
  lemma {:induction false} OutputFieldsStatesAt(fields: seq<Field>, field: Field, i: nat)
    requires i < |fields|
    ensures OutputFieldsStates(fields, field)[i]
            == if fields[i].ident == field.ident then SetOf(field.setType) else Assoc(fields[i].stateAssoc)
  {
    if i > 0 {
      OutputFieldsStatesAt(fields[1..], field, i - 1);
    }
  }

  /** Setting field `k` changes the incoming state tuple in exactly position
      `k`, which becomes that field's `Set` type; the length and every other
      position stay as they were. */
  lemma OutputDiffersOnlyAtTarget(fields: seq<Field>, k: nat)
    requires UniqueIdents(fields) && k < |fields|
    ensures |OutputFieldsStates(fields, fields[k])| == |CurrentStates(fields)|
    ensures OutputFieldsStates(fields, fields[k])[k] == SetOf(fields[k].setType)
    ensures forall i :: 0 <= i < |fields| && i != k ==>
              OutputFieldsStates(fields, fields[k])[i] == CurrentStates(fields)[i]
  {
    OutputFieldsStatesAt(fields, fields[k], k);
    forall i | 0 <= i < |fields| && i != k
      ensures OutputFieldsStates(fields, fields[k])[i] == CurrentStates(fields)[i]
    {
      OutputFieldsStatesAt(fields, fields[k], i);
    }
  }

  /** `Option::unzip`. */
  function Unzip<A, B>(o: Option<(A, B)>): (Option<A>, Option<B>) {
    match o
    case None => (None, None)
    case Some(p) => (Some(p.0), Some(p.1))
  }

  /** The alias's `__State: <StateTrait>` parameter declaration and its
      `__State` argument: `(fields.len() > 1).then(..).unzip()`. */
  function AliasStateParam(ctx: BuilderGenCtx): (r: (Option<string>, Option<string>))
    ensures r.0.Some? <==> |ctx.fields| > 1
    ensures r.0.Some? <==> r.1.Some?
    ensures r.0.Some? ==> r.0.value == ctx.builderStateTraitIdent && r.1.value == "__State"
  {
    var pair: Option<(string, string)> :=
      if |ctx.fields| > 1 then Some((ctx.builderStateTraitIdent, "__State")) else None;
    Unzip(pair)
  }

  /** `__{Builder}Set{Assoc}`. */
  function AliasIdent(ctx: BuilderGenCtx, field: Field): (r: string)
    ensures |r| == |ctx.builderIdent| + |field.stateAssoc| + 5
    ensures r[|r| - |field.stateAssoc|..] == field.stateAssoc
  {
    "__" + ctx.builderIdent + "Set" + field.stateAssoc
  }

  /** Fields with different state associated types get different aliases,
      so the aliases generated for one builder never clash. */
  lemma AliasIdentsDistinct(ctx: BuilderGenCtx, a: Field, b: Field)
    requires a.stateAssoc != b.stateAssoc
    ensures AliasIdent(ctx, a) != AliasIdent(ctx, b)
  {
    var ra, rb := AliasIdent(ctx, a), AliasIdent(ctx, b);
    if |ra| == |rb| {
      assert ra[|ra| - |a.stateAssoc|..] != rb[|rb| - |b.stateAssoc|..];
    }
  }

  // ---------------------------------------------------------------------
  // Into-conversion eligibility
  // ---------------------------------------------------------------------

  /** The 16 primitive type names whose setters never take `impl Into`. */
  const Primitives: seq<string> := [
    "bool", "char", "f32", "f64", "i8", "i16", "i32", "i64", "i128", "isize", "u8", "u16",
    "u32", "u64", "u128", "usize"
  ]

  /** `segments.iter().any(|s| !s.arguments.is_empty())`. */
  predicate AnyHasArgs(segments: seq<Segment>) {
    segments != [] && (!segments[0].arguments.IsEmpty() || AnyHasArgs(segments[1..]))
  }

  /** `Path::get_ident`: the ident of a path without a leading `::` made of one
      segment whose arguments are `PathArguments::None` (an empty `<>` is not). */
  function GetIdent(leadingColon: bool, segments: seq<Segment>): Option<string> {
    if !leadingColon && |segments| == 1 && segments[0].arguments.NoArgs? then Some(segments[0].name) else None
  }

  /** The idents of the type parameters among the builder's generics. */
  function TypeParamIdents(generics: seq<GenericParam>): (r: set<string>)
    ensures forall x :: x in r <==> TypeParam(x) in generics
  {
    set p | p in generics && p.TypeParam? :: p.ident
  }

  /** The path's last segment is named `name`. */
  predicate EndsWithSegment(segments: seq<Segment>, name: string) {
    |segments| > 0 && segments[|segments| - 1].name == name
  }

  /** `primitives.iter().all(|p| !path.ends_with_segment(p))`. */
  predicate NoneEndsWith(names: seq<string>, segments: seq<Segment>) {
    names == [] || (!EndsWithSegment(segments, names[0]) && NoneEndsWith(names[1..], segments))
  }

  /** The default rule `type_qualifies_for_into`, its early returns in order. */
  predicate TypeQualifiesForInto(generics: seq<GenericParam>, ty: Ty)
    ensures TypeQualifiesForInto(generics, ty) ==> ty.Path? && !ty.qself && !AnyHasArgs(ty.segments)
  {
    match ty
    case NonPath => false
    case Path(qself, leadingColon, segments) =>
      if qself then false
      else if AnyHasArgs(segments) then false
      else if GetIdent(leadingColon, segments).Some?
              && GetIdent(leadingColon, segments).value in TypeParamIdents(generics) then false
      else NoneEndsWith(Primitives, segments)
  }

  lemma {:induction false} AnyHasArgsIff(segments: seq<Segment>)
    ensures AnyHasArgs(segments) <==> exists i :: 0 <= i < |segments| && !segments[i].arguments.IsEmpty()
  {
    if segments != [] {
      AnyHasArgsIff(segments[1..]);
      assert forall i :: 0 < i < |segments| ==> segments[i] == segments[1..][i - 1];
      if AnyHasArgs(segments[1..]) {
        var j :| 0 <= j < |segments[1..]| && !segments[1..][j].arguments.IsEmpty();
        assert !segments[j + 1].arguments.IsEmpty();
      }
    }
  }

  lemma {:induction false} NoneEndsWithIff(names: seq<string>, segments: seq<Segment>)
    ensures NoneEndsWith(names, segments) <==> !(|segments| > 0 && segments[|segments| - 1].name in names)
  {
    if names != [] {
      NoneEndsWithIff(names[1..], segments);
      assert names == [names[0]] + names[1..];
    }
  }

  /** The default rule as a single condition: a type qualifies exactly when it
      is a path, not a qualified-self projection, no segment has generic
      arguments, it is not a bare ident naming one of the builder's type
      parameters, and its last segment is not a primitive name. */
  lemma TypeQualifiesForIntoIff(generics: seq<GenericParam>, ty: Ty)
    ensures TypeQualifiesForInto(generics, ty) <==>
      && ty.Path?
      && !ty.qself
      && (forall i :: 0 <= i < |ty.segments| ==> ty.segments[i].arguments.IsEmpty())
      && !(!ty.leadingColon && |ty.segments| == 1 && ty.segments[0].arguments.NoArgs?
           && exists p :: p in generics && p == TypeParam(ty.segments[0].name))
      && !(|ty.segments| > 0 && ty.segments[|ty.segments| - 1].name in Primitives)
  {
    if ty.Path? {
      AnyHasArgsIff(ty.segments);
      NoneEndsWithIff(Primitives, ty.segments);
      if !ty.leadingColon && |ty.segments| == 1 {
        var n := ty.segments[0].name;
        if exists p :: p in generics && p == TypeParam(n) {
          var p :| p in generics && p == TypeParam(n);
          assert p.ident in TypeParamIdents(generics);
        }
        if n in TypeParamIdents(generics) {
          var p :| p in generics && p.TypeParam? && p.ident == n;
          assert p == TypeParam(n);
        }
      }
    }
  }

  /** A single-segment path with no arguments, such as `String` or `u32`. */
  function Simple(name: string): Ty {
    Path(false, false, [Segment(name, NoArgs)])
  }

  /** `String` qualifies for `impl Into`. */
  lemma StringQualifies()
    ensures TypeQualifiesForInto([], Simple("String"))
  {
    var segments := [Segment("String", NoArgs)];
    assert forall k :: 0 <= k < |Primitives| ==> |Primitives[k]| < 6 || Primitives[k][0] != 'S';
    assert "String" !in Primitives;
    NoneEndsWithIff(Primitives, segments);
  }

  /** `u32` and `std::primitive::u32` do not: the last segment is matched. */
  lemma PrimitiveRejected()
    ensures !TypeQualifiesForInto([], Simple("u32"))
    ensures !TypeQualifiesForInto([], Path(false, false,
              [Segment("std", NoArgs), Segment("primitive", NoArgs), Segment("u32", NoArgs)]))
  {
    assert "u32" in Primitives;
    TypeQualifiesForIntoIff([], Simple("u32"));
    TypeQualifiesForIntoIff([], Path(false, false,
      [Segment("std", NoArgs), Segment("primitive", NoArgs), Segment("u32", NoArgs)]));
  }

  /** `Vec<u32>`, a bare type parameter `T`, a non-path type and a
      `<T as Trait>::Item` projection do not qualify; `::T` is not a bare
      ident, so it escapes the type-parameter check. */
  lemma OtherRejections()
    ensures !TypeQualifiesForInto([], Path(false, false, [Segment("Vec", AngleBracketed(1))]))
    ensures !TypeQualifiesForInto([TypeParam("T")], Simple("T"))
    ensures !TypeQualifiesForInto([], NonPath)
    ensures !TypeQualifiesForInto([], Path(true, false, [Segment("Item", NoArgs)]))
  {
  }

  lemma LeadingColonIsNotBareIdent()
    ensures TypeQualifiesForInto([TypeParam("T")], Path(false, true, [Segment("T", NoArgs)]))
  {
    assert forall k :: 0 <= k < |Primitives| ==> |Primitives[k]| >= 2;
    assert "T" !in Primitives;
    NoneEndsWithIff(Primitives, [Segment("T", NoArgs)]);
  }

  /** `T<>` counts as having no generic arguments, yet it is not a bare ident
      either, so a type parameter written `T<>` escapes both checks. */
  lemma EmptyAngleTypeParamQualifies()
    ensures TypeQualifiesForInto([TypeParam("T")], Path(false, false, [Segment("T", AngleBracketed(0))]))
  {
    assert forall k :: 0 <= k < |Primitives| ==> |Primitives[k]| >= 2;
    assert "T" !in Primitives;
    NoneEndsWithIff(Primitives, [Segment("T", AngleBracketed(0))]);
  }

  /** `field_qualifies_for_into`: the default rule, unless the field carries
      an `into` override; an override that agrees with the default is an
      error that says whether the type already qualifies. */
  function FieldQualifiesForInto(ctx: BuilderGenCtx, field: Field, ty: Ty): (r: Result<bool>)
    ensures field.into.None? ==> r == Ok(TypeQualifiesForInto(ctx.generics, ty))
    ensures field.into.Some? ==>
              (r.Ok? <==> field.into.value != TypeQualifiesForInto(ctx.generics, ty))
    ensures r.Ok? && field.into.Some? ==> r.value == field.into.value
    ensures r.Err? ==> r.error == RedundantInto(field.origin, TypeQualifiesForInto(ctx.generics, ty))
  {
    match field.into
    case None => Ok(TypeQualifiesForInto(ctx.generics, ty))
    case Some(overrideValue) =>
      var defaultValue := TypeQualifiesForInto(ctx.generics, ty);
      if defaultValue != overrideValue then Ok(overrideValue)
      else Err(RedundantInto(field.origin, defaultValue))
  }

  /** A successful resolution departs from the default rule exactly when an
      override is present: an override is never silently a no-op. */
  lemma OverrideAlwaysFlipsDefault(ctx: BuilderGenCtx, field: Field, ty: Ty)
    requires FieldQualifiesForInto(ctx, field, ty).Ok?
    ensures FieldQualifiesForInto(ctx, field, ty).value != TypeQualifiesForInto(ctx.generics, ty)
            <==> field.into.Some?
  {
  }

  // ---------------------------------------------------------------------
  // Setter methods
  // ---------------------------------------------------------------------

  /** The setter's parameter type: exactly `T`, `impl Into<T>`, or an `Option` of either. */
  datatype ParamKind = Exact(ty: Ty) | IntoT(ty: Ty) | OptionOf(inner: ParamKind)

  /** The expression stored inside `bon::private::Set::new(..)`:
      `value`, `e.into()`, `e.map(Into::into)`, `Some(e)`. */
  datatype ValueExpr = Value | IntoCall(e: ValueExpr) | MapInto(e: ValueExpr) | SomeOf(e: ValueExpr)

  /** One slot of the generated struct literal: the new `Set::new(init)` or the
      current value `self.__private_impl.<ident>`. */
  datatype SlotExpr = SetNew(init: ValueExpr) | KeepCurrent(ident: string)

  datatype Slot = Slot(ident: string, expr: SlotExpr)

  /** The description `FieldSetterMethod` of a setter before it is rendered. */
  datatype FieldSetterMethod = FieldSetterMethod(
    methodName: string,
    param: ParamKind,
    fieldInit: ValueExpr,
    overwriteDocs: Option<string>)

  /** A rendered setter `fn <name>(self, value: <param>) -> <returnType>`, whose
      body builds `<builder> { __private_impl: <privateImpl> { [receiver,] slots } }`. */
  datatype Setter = Setter(
    docs: seq<DocAttr>,
    vis: string,
    name: string,
    param: ParamKind,
    returnType: TypeRef,
    builderIdent: string,
    privateImplIdent: string,
    keepsReceiver: bool,
    slots: seq<Slot>)

  /** `FieldSettersCtx`. */
  datatype FieldSettersCtx = FieldSettersCtx(
    builderGen: BuilderGenCtx,
    field: Field,
    returnType: TypeRef,
    normFieldIdent: string)

  /** The setter name: the field ident with one leading `_` stripped. */
  function NormIdent(ident: string): (r: string)
    ensures if |ident| > 0 && ident[0] == '_' then ident == "_" + r else r == ident
  {
    if |ident| > 0 && ident[0] == '_' then ident[1..] else ident
  }

  /** Exactly one leading `_` is stripped. (Idents are never empty.) */
  lemma NormIdentExamples()
    ensures NormIdent("_name") == "name"
    ensures NormIdent("__name") == "_name"
    ensures NormIdent("name") == "name"
  {
  }

  /** `FieldSettersCtx::new`. */
  function NewFieldSettersCtx(ctx: BuilderGenCtx, field: Field, returnType: TypeRef): (s: FieldSettersCtx)
    ensures s.builderGen == ctx && s.field == field && s.returnType == returnType
    ensures field.ident == s.normFieldIdent || field.ident == "_" + s.normFieldIdent
    ensures |field.ident| > 0 && field.ident[0] == '_' ==> |s.normFieldIdent| == |field.ident| - 1
  {
    FieldSettersCtx(ctx, field, returnType, NormIdent(field.ident))
  }

  /** The struct-literal slots of a setter (`field_exprs` paired with
      `field_idents`): `init` for every field with the target's ident, the
      current value for every other field. */
  function FieldExprs(fields: seq<Field>, target: string, init: ValueExpr): (r: seq<Slot>)
    ensures |r| == |fields|
  {
    if fields == [] then []
    else
      var e := if fields[0].ident == target then SetNew(init) else KeepCurrent(fields[0].ident);
      [Slot(fields[0].ident, e)] + FieldExprs(fields[1..], target, init)
  }

  lemma {:induction false} FieldExprsAt(fields: seq<Field>, target: string, init: ValueExpr, i: nat)
    requires i < |fields|
    ensures FieldExprs(fields, target, init)[i]
            == Slot(fields[i].ident, if fields[i].ident == target then SetNew(init) else KeepCurrent(fields[i].ident))
  {
    if i > 0 {
      FieldExprsAt(fields[1..], target, init, i - 1);
    }
  }

  /** The docs of the `maybe_` setter, pointing at the plain setter. */
  function MaybeSetterDocs(normIdent: string): (r: string)
    ensures var link := "Same as [`Self::" + normIdent + "`]"; |link| <= |r| && r[..|link|] == link
  {
    var link := "Same as [`Self::" + normIdent + "`]";
    var r := link + ", but accepts an `Option` as input. See that method's documentation for more details.";
    assert r[..|link|] == link;
    r
  }

  /** `setter_method`: renders one setter. */
  function SetterMethod(s: FieldSettersCtx, m: FieldSetterMethod): (r: Setter)
    ensures r.name == m.methodName && r.param == m.param && r.returnType == s.returnType
    ensures r.docs == if m.overwriteDocs.Some? then [Doc(m.overwriteDocs.value)] else s.field.docs
    ensures |r.slots| == |s.builderGen.fields|
    ensures r.vis == s.builderGen.vis && r.keepsReceiver == s.builderGen.hasReceiver
    ensures r.builderIdent == s.builderGen.builderIdent && r.privateImplIdent == s.builderGen.builderPrivateImplIdent
  {
    var docs := match m.overwriteDocs
      case Some(d) => [Doc(d)]
      case None => s.field.docs;
    Setter(
      docs,
      s.builderGen.vis,
      m.methodName,
      m.param,
      s.returnType,
      s.builderGen.builderIdent,
      s.builderGen.builderPrivateImplIdent,
      s.builderGen.hasReceiver,
      FieldExprs(s.builderGen.fields, s.field.ident, m.fieldInit))
  }

  /** The setter for field `k` stores its initializer in slot `k` and copies
      every other slot, keeping each slot under its own field's ident. */
  lemma SetterTouchesOnlyTarget(s: FieldSettersCtx, m: FieldSetterMethod, k: nat)
    requires UniqueIdents(s.builderGen.fields)
    requires k < |s.builderGen.fields| && s.field.ident == s.builderGen.fields[k].ident
    ensures SetterMethod(s, m).slots[k] == Slot(s.field.ident, SetNew(m.fieldInit))
    ensures forall i :: 0 <= i < |s.builderGen.fields| && i != k ==>
              SetterMethod(s, m).slots[i]
              == Slot(s.builderGen.fields[i].ident, KeepCurrent(s.builderGen.fields[i].ident))
  {
    var fields := s.builderGen.fields;
    FieldExprsAt(fields, s.field.ident, m.fieldInit, k);
    forall i | 0 <= i < |fields| && i != k
      ensures SetterMethod(s, m).slots[i] == Slot(fields[i].ident, KeepCurrent(fields[i].ident))
    {
      FieldExprsAt(fields, s.field.ident, m.fieldInit, i);
    }
  }

  /** The type whose eligibility decides the setters: the inner `T` of an
      optional field, the declared type otherwise. */
  function IntoSubject(field: Field): Ty {
    if field.optionalInner.Some? then field.optionalInner.value else field.ty
  }

  /** `setters_for_optional_field`: `maybe_<name>(Option<T>)` then `<name>(T)`. */
  function SettersForOptionalField(s: FieldSettersCtx, innerType: Ty): (r: Result<seq<Setter>>)
    ensures r.Ok? <==> FieldQualifiesForInto(s.builderGen, s.field, innerType).Ok?
    ensures r.Err? ==> r.error == FieldQualifiesForInto(s.builderGen, s.field, innerType).error
    ensures r.Ok? ==> var q := FieldQualifiesForInto(s.builderGen, s.field, innerType).value;
                      var p := if q then IntoT(innerType) else Exact(innerType);
                      && |r.value| == 2
                      && r.value[0].name == "maybe_" + s.normFieldIdent
                      && r.value[0].param == OptionOf(p)
                      && r.value[1].name == s.normFieldIdent
                      && r.value[1].param == p
  {
    var qualified :- FieldQualifiesForInto(s.builderGen, s.field, innerType);
    var innerParam := if qualified then IntoT(innerType) else Exact(innerType);
    var convCall := if qualified then IntoCall(Value) else Value;
    var mapConvCall := if qualified then MapInto(Value) else Value;
    var norm := s.normFieldIdent;
    var methods := [
      FieldSetterMethod("maybe_" + norm, OptionOf(innerParam), mapConvCall, Some(MaybeSetterDocs(norm))),
      FieldSetterMethod(norm, innerParam, SomeOf(convCall), None)
    ];
    Ok([SetterMethod(s, methods[0]), SetterMethod(s, methods[1])])
  }

  /** `setter_methods`: one setter for a required field, two for an optional one. */
  function SetterMethods(s: FieldSettersCtx): (r: Result<seq<Setter>>)
    ensures r.Ok? <==> FieldQualifiesForInto(s.builderGen, s.field, IntoSubject(s.field)).Ok?
    ensures r.Err? ==> r.error == FieldQualifiesForInto(s.builderGen, s.field, IntoSubject(s.field)).error
    ensures r.Ok? ==> |r.value| == if s.field.optionalInner.Some? then 2 else 1
    ensures r.Ok? ==> r.value[|r.value| - 1].name == s.normFieldIdent
    ensures r.Ok? ==> forall k :: 0 <= k < |r.value| ==>
              r.value[k].returnType == s.returnType && |r.value[k].slots| == |s.builderGen.fields|
  {
    if s.field.optionalInner.Some? then
      SettersForOptionalField(s, s.field.optionalInner.value)
    else
      var qualified :- FieldQualifiesForInto(s.builderGen, s.field, s.field.ty);
      var fnParam := if qualified then IntoT(s.field.ty) else Exact(s.field.ty);
      var init := if qualified then IntoCall(Value) else Value;
      Ok([SetterMethod(s, FieldSetterMethod(s.normFieldIdent, fnParam, init, None))])
  }

  /** A required field: one setter named after the normalized ident, taking
      `impl Into<T>` and storing `value.into()` when the field qualifies,
      taking `T` and storing `value` otherwise, documented by the field's docs. */
  lemma RequiredFieldSetter(s: FieldSettersCtx)
    requires s.field.optionalInner.None?
    requires SetterMethods(s).Ok?
    ensures var q := FieldQualifiesForInto(s.builderGen, s.field, s.field.ty).value;
            var setter := SetterMethods(s).value[0];
            && |SetterMethods(s).value| == 1
            && setter.name == s.normFieldIdent
            && setter.param == (if q then IntoT(s.field.ty) else Exact(s.field.ty))
            && setter.docs == s.field.docs
            && setter.slots == FieldExprs(s.builderGen.fields, s.field.ident, if q then IntoCall(Value) else Value)
  {
  }

  /** An optional field: first `maybe_<name>` taking `Option<T>` (or
      `Option<impl Into<T>>`) and storing it as is (or mapped through
      `Into::into`), documented by a pointer to `Self::<name>`; then `<name>`
      taking `T` (or `impl Into<T>`), storing `Some(value)` (or
      `Some(value.into())`), documented by the field's docs. */
  lemma OptionalFieldSetters(s: FieldSettersCtx)
    requires s.field.optionalInner.Some?
    requires SetterMethods(s).Ok?
    ensures var inner := s.field.optionalInner.value;
            var q := FieldQualifiesForInto(s.builderGen, s.field, inner).value;
            var setters := SetterMethods(s).value;
            var p := if q then IntoT(inner) else Exact(inner);
            && |setters| == 2
            && setters[0].name == "maybe_" + s.normFieldIdent
            && setters[0].param == OptionOf(p)
            && setters[0].docs == [Doc(MaybeSetterDocs(s.normFieldIdent))]
            && setters[0].slots == FieldExprs(s.builderGen.fields, s.field.ident, if q then MapInto(Value) else Value)
            && setters[1].name == s.normFieldIdent
            && setters[1].param == p
            && setters[1].docs == s.field.docs
            && setters[1].slots == FieldExprs(s.builderGen.fields, s.field.ident,
                                               SomeOf(if q then IntoCall(Value) else Value))
  {
  }

  /** Turning a required field of type `T` into an optional `Option<T>` field
      keeps the plain setter's name and parameter type: callers of the
      required field's setter still compile. The plain setter of an optional
      field never takes an `Option`. */
  lemma OptionalWideningKeepsSetterSignature(s: FieldSettersCtx, inner: Ty)
    requires s.field.optionalInner == Some(inner)
    requires SetterMethods(s).Ok?
    ensures var req := s.(field := s.field.(ty := inner, optionalInner := None));
            && SetterMethods(req).Ok?
            && SetterMethods(req).value[0].name == SetterMethods(s).value[1].name
            && SetterMethods(req).value[0].param == SetterMethods(s).value[1].param
            && !SetterMethods(s).value[1].param.OptionOf?
  {
  }

  // ---------------------------------------------------------------------
  // The setters' impl block for one field
  // ---------------------------------------------------------------------

  /** Everything `setter_methods_impls_for_field` emits for one field: the
      alias `type <aliasIdent><generics.., __State: Trait?> = <Builder><args.., (states..)>`
      and `impl<generics.., __State: Trait<<unsetAssoc> = Unset>> <Builder><args.., __State> { setters }`. */
  datatype SetterImpl = SetterImpl(
    vis: string,
    aliasIdent: string,
    aliasGenerics: seq<GenericParam>,
    aliasStateDecl: Option<string>,
    aliasBuilderIdent: string,
    aliasGenericArgs: seq<string>,
    aliasStates: seq<StateEntry>,
    implStateTrait: string,
    unsetAssoc: string,
    setters: seq<Setter>)

  /** `setter_methods_impls_for_field`. */
  function SetterMethodsImplsForField(ctx: BuilderGenCtx, field: Field): (r: Result<SetterImpl>)
    ensures r.Ok? <==> FieldQualifiesForInto(ctx, field, IntoSubject(field)).Ok?
    ensures r.Err? ==> r.error == FieldQualifiesForInto(ctx, field, IntoSubject(field)).error
    ensures r.Ok? ==> r.value.aliasIdent == AliasIdent(ctx, field)
    ensures r.Ok? ==> r.value.aliasStates == OutputFieldsStates(ctx.fields, field)
    ensures r.Ok? ==> r.value.setters == SetterMethods(NewFieldSettersCtx(ctx, field,
              AliasRef(AliasIdent(ctx, field), ctx.genericArgs, AliasStateParam(ctx).1))).value
    ensures r.Ok? ==> |r.value.aliasStates| == |ctx.fields|
    ensures r.Ok? ==> (r.value.aliasStateDecl.Some? <==> |ctx.fields| > 1)
    ensures r.Ok? ==> r.value.unsetAssoc == field.stateAssoc
    ensures r.Ok? ==> && r.value.vis == ctx.vis
                      && r.value.aliasBuilderIdent == ctx.builderIdent
                      && r.value.aliasGenerics == ctx.generics
                      && r.value.aliasGenericArgs == ctx.genericArgs
                      && r.value.implStateTrait == ctx.builderStateTraitIdent
                      && r.value.aliasStateDecl == AliasStateParam(ctx).0
    ensures r.Ok? ==> forall k :: 0 <= k < |r.value.setters| ==>
              && r.value.setters[k].returnType.name == r.value.aliasIdent
              && (r.value.setters[k].returnType.stateArg.Some? <==> r.value.aliasStateDecl.Some?)
  {
    var (stateDecl, stateArg) := AliasStateParam(ctx);
    var aliasIdent := AliasIdent(ctx, field);
    var returnType := AliasRef(aliasIdent, ctx.genericArgs, stateArg);
    var setters :- SetterMethods(NewFieldSettersCtx(ctx, field, returnType));
    Ok(SetterImpl(
      ctx.vis,
      aliasIdent,
      ctx.generics,
      stateDecl,
      ctx.builderIdent,
      ctx.genericArgs,
      OutputFieldsStates(ctx.fields, field),
      ctx.builderStateTraitIdent,
      field.stateAssoc,
      setters))
  }

  /** For field `k` of a builder with unique idents, the alias names the
      builder whose state tuple is the incoming one with only position `k`
      set, and the setters' impl is constrained to builders whose field `k`
      is still unset. */
  lemma SetterImplForFieldK(ctx: BuilderGenCtx, k: nat)
    requires UniqueIdents(ctx.fields) && k < |ctx.fields|
    requires SetterMethodsImplsForField(ctx, ctx.fields[k]).Ok?
    ensures var impl := SetterMethodsImplsForField(ctx, ctx.fields[k]).value;
            && impl.aliasStates[k] == SetOf(ctx.fields[k].setType)
            && impl.unsetAssoc == ctx.fields[k].stateAssoc
            && forall i :: 0 <= i < |ctx.fields| && i != k ==> impl.aliasStates[i] == CurrentStates(ctx.fields)[i]
  {
    OutputDiffersOnlyAtTarget(ctx.fields, k);
  }
}
