# bon builder synthesis, modelled in Dafny

This project models two parts of the `bon` procedural macros, which generate typestate builders for Rust functions, methods and structs.

- **Setter synthesis** (`setter_methods.dfy`, module `SetterMethods`). For one member ("field") of a builder, the model computes the following:
  - the state tuple of the builder that the field's setter returns;
  - the per-field type alias, and whether it carries a `__State` parameter;
  - the into-conversion rule, which decides whether a setter takes `impl Into<T>` or `T`, together with its per-field `into` override;
  - the setter methods themselves: one for a required field, and `maybe_<name>` followed by `<name>` for an `Option` field.

  Rust syntax trees are reduced to small datatypes (`Ty`, `Segment`, `GenericParam`, `Field`, `BuilderGenCtx` in `builder_gen.dfy`). Generated code is kept as data rather than tokens: state entries, parameter kinds, stored-value expressions and struct-literal slots.
- **Impl-block adaptation** (`item_impl.dfy`, module `ItemImpl`). `#[bon]` on an `impl` block runs these steps:
  1. reject trait impls;
  2. partition the items into `#[builder]` fns and everything else;
  3. fail if there are no builder fns;
  4. normalize a copy of the builder fns;
  5. pair the original and normalized fns by position, failing on the first error;
  6. reassemble the block.

  `Generate` is a method that reassigns value-typed blocks step by step, as the source does with its `mut` bindings. Its helpers (partition, pairing, flattening) are pure functions.

`result.dfy` (module `Outcome`) holds the `Result`/`Option` types and the error kinds. There is one error kind per `bail!` site, plus the `unreachable!()` panic and the failures of collaborators.

Code outside this model is passed to `Generate` as total functions in a `Collaborators` value, so the proofs hold for any behaviour of that code. These are:
- the normalization visitors;
- attribute decoding;
- `adapted_func`;
- `into_builder_gen_ctx().output()`.

Three behaviours of the code are worth spelling out, because the model keeps them as written:
- The code tests `fields.len() > 1`, so the alias also drops `__State` for zero fields, not only for exactly one.
- `zip` stops at the shorter list, and nothing checks that the original and normalized fn lists have equal lengths. `CollectOutputs` keeps that behaviour, and `ReassemblyLayout` assumes equal lengths to state the `2·n` layout.
- Fields are matched by ident. The lemmas that speak of "exactly position k" assume unique idents (`UniqueIdents`).

## Model

| member | source | states |
|---|---|---|
| SetterMethods.OutputFieldsStates | bon-macros/src/builder/builder_gen/setter_methods.rs:10-17 | the output state tuple has one entry per field |
| SetterMethods.OutputFieldsStatesAt | bon-macros/src/builder/builder_gen/setter_methods.rs:10-17 | entry i is the target's `Set` type when field i has the target's ident, otherwise `__State::<field i's assoc>` |
| SetterMethods.OutputDiffersOnlyAtTarget | bon-macros/src/builder/builder_gen/setter_methods.rs:10-17 | with unique idents, setting field k changes the incoming state tuple only at position k, which becomes `Set`; length and order are kept |
| SetterMethods.AliasStateParam | bon-macros/src/builder/builder_gen/setter_methods.rs:29-35 | the alias's `__State: Trait` declaration and `__State` argument are present iff there are more than one field, and are always both present or both absent |
| SetterMethods.SetterMethodsImplsForField | bon-macros/src/builder/builder_gen/setter_methods.rs:9-103 | fails exactly when into-resolution fails, with that resolution's error; on success the alias is named `__<Builder>Set<Assoc>`, has the builder's visibility and generics, names the builder with its generic arguments, and declares `__State` bound by the builder-state trait exactly when there is more than one field; its state tuple is the output tuple for this field; the impl's `__State` is bound by the builder-state trait on the field being unset; and the setters are exactly the field's setter methods returning the alias, passing `__State` exactly when the alias declares it |
| SetterMethods.AliasIdent | bon-macros/src/builder/builder_gen/setter_methods.rs:26-27 | the alias ident is `__`, the builder ident, `Set` and the field's associated-type ident, so it ends with the latter |
| SetterMethods.AliasIdentsDistinct | bon-macros/src/builder/builder_gen/setter_methods.rs:26-27 | fields with different associated-type idents get different alias idents, so the per-field aliases never clash |
| SetterMethods.SetterImplForFieldK | bon-macros/src/builder/builder_gen/setter_methods.rs:9-101 | for field k (unique idents) the alias's tuple is the incoming one with only position k set, and the setters apply only when field k is unset |
| SetterMethods.AnyHasArgsIff | bon-macros/src/builder/builder_gen/setter_methods.rs:147-152 | the `any` over segments holds iff some segment has generic arguments |
| SetterMethods.NoneEndsWithIff | bon-macros/src/builder/builder_gen/setter_methods.rs:174-183 | the `all` over primitive names holds iff the last segment's name is not one of them |
| SetterMethods.TypeQualifiesForInto | bon-macros/src/builder/builder_gen/setter_methods.rs:136-156 | a qualifying type is a path without qself whose segments all have empty arguments |
| SetterMethods.TypeParamIdents | bon-macros/src/builder/builder_gen/setter_methods.rs:160-165 | the collected set holds exactly the idents of the type parameters, not lifetimes or const parameters |
| SetterMethods.TypeQualifiesForIntoIff | bon-macros/src/builder/builder_gen/setter_methods.rs:136-184 | a type qualifies iff it is a path, has no qself, no segment has generic arguments, it is not a bare ident naming a type parameter, and its last segment is not one of the 16 primitives |
| SetterMethods.StringQualifies | bon-macros/src/builder/builder_gen/setter_methods.rs:174-183 | `String` qualifies |
| SetterMethods.PrimitiveRejected | bon-macros/src/builder/builder_gen/setter_methods.rs:174-183 | `u32` and `std::primitive::u32` do not qualify |
| SetterMethods.OtherRejections | bon-macros/src/builder/builder_gen/setter_methods.rs:136-170 | `Vec<u32>`, a bare type parameter `T`, a non-path type and a qself projection do not qualify |
| SetterMethods.EmptyAngleTypeParamQualifies | bon-macros/src/builder/builder_gen/setter_methods.rs:147-170 | `T<>` with a type parameter `T` qualifies: its empty `<>` counts as no arguments, but it is not a bare ident, so the type-parameter check does not apply |
| SetterMethods.LeadingColonIsNotBareIdent | bon-macros/src/builder/builder_gen/setter_methods.rs:158-170 | `::T` escapes the type-parameter check because it is not a bare ident |
| SetterMethods.FieldQualifiesForInto | bon-macros/src/builder/builder_gen/setter_methods.rs:107-134 | no override gives the default rule; an override that differs from the default wins; an override equal to the default is a `RedundantInto` error carrying the field's origin and whether the type qualifies |
| SetterMethods.OverrideAlwaysFlipsDefault | bon-macros/src/builder/builder_gen/setter_methods.rs:107-119 | a successful resolution differs from the default rule exactly when an override is present |
| SetterMethods.NormIdent | bon-macros/src/builder/builder_gen/setter_methods.rs:196-202 | the ident is the setter name with exactly one `_` prepended when it starts with `_`, and equals the setter name otherwise |
| SetterMethods.NormIdentExamples | bon-macros/src/builder/builder_gen/setter_methods.rs:196-202 | `_name` becomes `name`, `__name` becomes `_name`, and `name` is unchanged |
| SetterMethods.NewFieldSettersCtx | bon-macros/src/builder/builder_gen/setter_methods.rs:195-214 | the context keeps the builder, field and return type; its name is the field ident with at most one leading `_` removed |
| SetterMethods.FieldExprs | bon-macros/src/builder/builder_gen/setter_methods.rs:317-324 | the struct literal has one slot per field |
| SetterMethods.FieldExprsAt | bon-macros/src/builder/builder_gen/setter_methods.rs:317-324 | slot i is named after field i and holds `Set::new(init)` for the target ident, `self.__private_impl.<ident>` otherwise |
| SetterMethods.SetterMethod | bon-macros/src/builder/builder_gen/setter_methods.rs:291-338 | a setter keeps its name, parameter and the shared return type, has the builder's visibility, and builds the builder's own type and private-impl type, keeping the receiver exactly when the builder has one; its docs are the override docs if present, else the field's docs verbatim; one slot per field |
| SetterMethods.SetterTouchesOnlyTarget | bon-macros/src/builder/builder_gen/setter_methods.rs:317-324 | with unique idents, the setter for field k writes its initializer to slot k and copies every other slot unchanged |
| SetterMethods.SettersForOptionalField | bon-macros/src/builder/builder_gen/setter_methods.rs:241-289 | fails exactly with the into-resolution error on the inner type; otherwise two setters, `maybe_<name>` taking `Option<P>` and then `<name>` taking `P`, where `P` is `impl Into<Inner>` when the inner type qualifies and `Inner` otherwise |
| SetterMethods.MaybeSetterDocs | bon-macros/src/builder/builder_gen/setter_methods.rs:263-267 | the `maybe_` setter's docs start with a link to `Self::<name>` |
| SetterMethods.SetterMethods | bon-macros/src/builder/builder_gen/setter_methods.rs:216-239 | fails exactly with the into-resolution error (on the inner type for `Option` fields); else 1 setter for a required field and 2 for an optional one, the last named with the normalized ident, all returning the alias and writing one slot per field |
| SetterMethods.RequiredFieldSetter | bon-macros/src/builder/builder_gen/setter_methods.rs:216-239 | a required field's one setter is named with the normalized ident, takes `impl Into<T>` and stores `Set::new(value.into())` when it qualifies, else takes `T` and stores `Set::new(value)`, and uses the field's docs |
| SetterMethods.OptionalFieldSetters | bon-macros/src/builder/builder_gen/setter_methods.rs:241-289 | an optional field's setters are `maybe_<name>` (takes `Option<..>`, stores `value` mapped by `Into::into` when it qualifies, docs pointing at `Self::<name>`), then `<name>` (takes the inner type, stores `Some(value[.into()])`, field docs) |
| SetterMethods.OptionalWideningKeepsSetterSignature | bon-macros/src/builder/builder_gen/setter_methods.rs:269-280 | an optional field's plain setter has the same name and parameter as the setter of the same field made required with the inner type, and never takes an `Option` |
| ItemImpl.BuilderFnHasBuilderAttrs | bon-macros/src/builder/item_impl.rs:17-24 | an item is a builder fn exactly when it is a fn whose `#[builder]` attributes are not empty |
| ItemImpl.PartitionItems | bon-macros/src/builder/item_impl.rs:15-31 | the two sides together are exactly as long as the input |
| ItemImpl.PartitionClassifies | bon-macros/src/builder/item_impl.rs:15-31 | `other_items` holds no builder fn and `builder_funcs` only fns with `#[builder]`; together they hold the input's items as a multiset |
| ItemImpl.PartitionAppend | bon-macros/src/builder/item_impl.rs:15-31 | partitioning distributes over concatenation, so each side keeps the items' relative order |
| ItemImpl.PartitionKeepsEveryItem | bon-macros/src/builder/item_impl.rs:15-31 | an item occurs in the input exactly when it occurs on one of the two sides |
| ItemImpl.ImplItemFnIntoFnItem | bon-macros/src/builder/item_impl.rs:127-146 | fails with `DefaultFn` exactly for a `default fn`; otherwise the free fn converts back to the same impl fn (same attrs, vis, sig, block) |
| ItemImpl.FnItemRoundTrip | bon-macros/src/builder/item_impl.rs:127-146 | a free fn turned into an impl fn converts back to itself |
| ItemImpl.BuilderAttrs | bon-macros/src/builder/item_impl.rs:84-88 | the attributes handed to the decoder are exactly the fn's `#[builder]` attributes, and there are no more of them than attributes |
| ItemImpl.BuilderAttrsAppend | bon-macros/src/builder/item_impl.rs:84-88 | the selection distributes over concatenation, so the `#[builder]` attributes keep their order and multiplicity |
| ItemImpl.GenerateForPair | bon-macros/src/builder/item_impl.rs:73-105 | a non-fn at either position is the `unreachable!()` panic; a `default fn` fails with `DefaultFn`; otherwise the result is the decoding error, else the `adapted_func` error, else the output error, else the pair of the two collaborators' results for that pair |
| ItemImpl.CollectOutputs | bon-macros/src/builder/item_impl.rs:72-106 | pairs by position up to the shorter list; succeeds iff every pair does, with output k the result of pair k; otherwise fails with the error of the first failing pair |
| ItemImpl.NewImplItems | bon-macros/src/builder/item_impl.rs:108-114 | two generated items per builder fn |
| ItemImpl.NewImplItemsAt | bon-macros/src/builder/item_impl.rs:108-114 | positions 2k and 2k+1 hold builder fn k's start fn and adapted fn |
| ItemImpl.AuxItems | bon-macros/src/builder/item_impl.rs:119-124 | every auxiliary item of every output is emitted, and a single output's items are emitted exactly as they are; with `AuxItemsAppend` this fixes the result as each output's items unchanged, one output after another |
| ItemImpl.AuxItemsAppend | bon-macros/src/builder/item_impl.rs:119-124 | auxiliary items are concatenated in builder-fn order |
| ItemImpl.BuilderBlock | bon-macros/src/builder/item_impl.rs:41 | the block normalized for codegen holds exactly the builder fns and is otherwise the original block |
| ItemImpl.Outputs | bon-macros/src/builder/item_impl.rs:55-106 | there is at most one output per builder fn |
| ItemImpl.Generate | bon-macros/src/builder/item_impl.rs:10-125 | trait impls fail with `TraitImpl` before anything else; no builder fn fails with `NoBuilderFns`; otherwise the result is the first pair's failure or the normalized-with-`Self` block whose items are the original non-builder items followed by the generated items, with the auxiliary items emitted before it |
| ItemImpl.ReassemblyLayout | bon-macros/src/builder/item_impl.rs:108-117 | when normalization keeps the item count, the output block is the other items unchanged and in order, then `[start_k, adapted_k]` for each builder fn, with length `|other_items| + 2·|builder_funcs|` |
| ItemImpl.OutputsPairByPosition | bon-macros/src/builder/item_impl.rs:72-106 | output k comes from builder fn k as written together with item k of the normalized copy |

## Left out

- Token rendering (`quote!`, `format_ident!`, `parse_quote!`), spans, and the exact wording of error messages. Generated code is abstract data, and only which branch fails is modelled.
- The lint and doc attributes on the alias (`#[allow(type_alias_bounds)]`, `#[doc(hidden)]`) and the where clause. Generics declarations and arguments are carried as opaque data.
- `Field::as_optional`, `Field::set_state_type` and `Field::unset_state_type` are defined in `field.rs`, which is not part of this model. Their results are precomputed data on `Field` (`optionalInner`, `setType`), and the impl's bound records only which associated type must be unset.
- `BuilderGenCtx::phantom_field_init` is not part of this model, so the phantom slot of the setter's struct literal is left out. The receiver slot is reduced to a flag.
- `BuilderGenCtx::field_idents` is not part of this model. The slots are keyed by the fields' own idents, in field order.
- `BuilderGenCtx::generic_args` is not part of this model. Its result is data on `BuilderGenCtx`.
- `ends_with_segment` and `as_path` come from a helper crate that is not part of this model. They are taken to mean "the last segment's ident equals the name" and "the type is a path type".
- `Attribute::path().is_ident("builder")` is modelled as an attribute path equal to the single segment `builder`.
- `Path::get_ident` comes from `syn`. It is taken to mean: no leading `::`, exactly one segment, and that segment's arguments are `PathArguments::None`; an empty `<>` is not `None`.
- `syn` never produces a path without segments (`WellFormedTy`). The model does not exclude one from its inputs: such a path counts as qualifying for `Into`, and no lemma relies on that case.
- `NormSelffulBlock` and `NormBlock` only apply the normalization visitors, so they have no contract of their own. What `generate` does with them is stated by `Generate`.
- The normalization visitors `NormalizeLifetimes`, `NormalizeImplTraits` and `NormalizeSelfTy` are arbitrary functions here. Nothing is assumed about them, except that `ReassemblyLayout` assumes they keep the item count.
- darling attribute decoding, `FuncInputParams::from_list`, `FuncInputCtx::adapted_func`, `into_builder_gen_ctx` and `output` are arbitrary, possibly failing functions.
- The `unreachable!()` panic is modelled as the error value `Unreachable`, not as an abort.
- The `Rc` sharing of `ImplCtx` is modelled as a plain copied value.
- The builder's finishing method, and the rule that it compiles only once every field is set, are generated outside these two files and are not part of this model.
