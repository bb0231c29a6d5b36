/** The slice of `syn` syntax trees and of `BuilderGenCtx` that the setter
    synthesis reads, reduced to plain values. */
module BuilderGen {
  import opened Outcome

  /** `syn::PathArguments` of one path segment: none at all (`Vec`), angle
      brackets holding `count` arguments (`Vec<u32>`; `T<>` holds none), or a
      parenthesized list (`Fn(u8) -> u8`). */
  datatype PathArguments = NoArgs | AngleBracketed(count: nat) | Parenthesized
  {
    /** `PathArguments::is_empty`: no arguments at all or an empty `<>`. */
    predicate IsEmpty() {
      NoArgs? || (AngleBracketed? && count == 0)
    }
  }

  /** One `::`-separated component of a type path. */
  datatype Segment = Segment(name: string, arguments: PathArguments)

  /** A type expression. Everything that is not a path (references, tuples,
      slices, `impl Trait`, ...) is `NonPath`. A path records whether it is a
      `<T as Trait>::Assoc` projection (`qself`) and whether it starts with `::`.
      A path that `syn` parses always has at least one segment (`WellFormedTy`). */
  datatype Ty =
    | NonPath
    | Path(qself: bool, leadingColon: bool, segments: seq<Segment>)

  /** The shape of the types `syn` produces: a path has a segment. */
  predicate WellFormedTy(ty: Ty) {
    ty.Path? ==> |ty.segments| > 0
  }

  /** A generic parameter of the builder's generics. */
  datatype GenericParam =
    | TypeParam(ident: string)
    | LifetimeParam(name: string)
    | ConstParam(ident: string)

  /** A `#[doc = "..."]` attribute. */
  datatype DocAttr = Doc(text: string)

  /** One member of the builder: a fn argument or a struct field.
      `optionalInner` is what `Field::as_optional` yields (the `T` of an
      `Option<T>` field), `into` the `#[builder(into = ...)]` override,
      `stateAssoc` the associated type of the builder-state trait that
      stands for this field's slot, and `setType` the `Set` marker type that
      `Field::set_state_type` produces. */
  datatype Field = Field(
    ident: string,
    ty: Ty,
    optionalInner: Option<Ty>,
    into: Option<bool>,
    docs: seq<DocAttr>,
    stateAssoc: string,
    setType: Ty,
    origin: string)

  /** The parts of `BuilderGenCtx` the setter synthesis reads.
      `genericArgs` is what `BuilderGenCtx::generic_args` yields. */
  datatype BuilderGenCtx = BuilderGenCtx(
    fields: seq<Field>,
    generics: seq<GenericParam>,
    genericArgs: seq<string>,
    builderIdent: string,
    builderStateTraitIdent: string,
    builderPrivateImplIdent: string,
    vis: string,
    hasReceiver: bool)

  /** Field identifiers are unique within one builder. */
  ghost predicate UniqueIdents(fields: seq<Field>) {
    forall i, j :: 0 <= i < j < |fields| ==> fields[i].ident != fields[j].ident
  }
}
