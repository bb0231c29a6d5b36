/** `#[bon]` on an impl block: split the items into `#[builder]` fns and the
    rest, normalize a copy of the builder fns, generate a start fn, an adapted
    fn and auxiliary items for each, and reassemble the impl block.
    The generator for one fn and the normalization visitors live outside this
    model and are passed in as `Collaborators`. */
module ItemImpl {
  import opened Outcome

  /** An attribute; `path` holds the segments of its path (`builder`, `doc`, `cfg_attr`, ...). */
  datatype Attr = Attr(path: seq<string>, tokens: string)

  /** `attr.path().is_ident("builder")`. */
  predicate IsBuilderAttr(a: Attr) {
    a.path == ["builder"]
  }

  /** `syn::ImplItemFn`; `defaultness` is a `default fn`. Signature and body are opaque tokens. */
  datatype ImplItemFn = ImplItemFn(attrs: seq<Attr>, vis: string, defaultness: bool, sig: string, block: string)

  /** `syn::ItemFn`: a free fn, which has no `default` marker. */
  datatype ItemFn = ItemFn(attrs: seq<Attr>, vis: string, sig: string, block: string)

  /** An item of an impl block: a fn, or anything else (const, type, macro call, ...). */
  datatype ImplItem = Fn(f: ImplItemFn) | NonFn(tokens: string)

  /** `syn::ItemImpl`; `traitPath` is the `Trait` of `impl Trait for Type`. */
  datatype ItemImpl = ItemImpl(
    attrs: seq<Attr>,
    generics: string,
    traitPath: Option<string>,
    selfTy: string,
    items: seq<ImplItem>)

  /** `ImplCtx`: the normalized self type and generics shared by all builder fns. */
  datatype ImplCtx = ImplCtx(selfTy: string, generics: string)

  /** The decoded `#[builder(...)]` configuration of one fn. */
  datatype FuncInputParams = FuncInputParams(config: string)

  /** `FuncInputCtx`: the original and the normalized fn with their context. */
  datatype FuncInputCtx = FuncInputCtx(
    origFunc: ItemFn,
    normFunc: ItemFn,
    implCtx: Option<ImplCtx>,
    params: FuncInputParams)

  /** What `into_builder_gen_ctx()?.output()` yields for one fn: the start fn
      that goes into the impl block and the items emitted beside it. */
  datatype GenOutput = GenOutput(startFunc: ItemFn, otherItems: seq<string>)

  /** The code this model does not contain: the three normalization visitors,
      the attribute decoding (`parse_attribute_to_meta_list`,
      `NestedMeta::parse_meta_list`, `FuncInputParams::from_list`),
      `FuncInputCtx::adapted_func` and `into_builder_gen_ctx()?.output()`.
      Each may do anything; the decoders and generators may fail. */
  datatype Collaborators = Collaborators(
    normalizeLifetimes: ItemImpl -> ItemImpl,
    normalizeImplTraits: ItemImpl -> ItemImpl,
    normalizeSelfTy: (string, ItemImpl) -> ItemImpl,
    decodeParams: seq<Attr> -> Result<FuncInputParams>,
    adaptedFunc: FuncInputCtx -> Result<ItemFn>,
    builderOutput: FuncInputCtx -> Result<GenOutput>)

  /** The macro's output: auxiliary items, then the rewritten impl block. */
  datatype Generated = Generated(auxItems: seq<string>, implBlock: ItemImpl)

  // ---------------------------------------------------------------------
  // Partition
  // ---------------------------------------------------------------------

  /** A fn item carrying a `#[builder]` attribute. */
  predicate IsBuilderFn(item: ImplItem) {
    item.Fn? && exists i :: 0 <= i < |item.f.attrs| && IsBuilderAttr(item.f.attrs[i])
  }

  /** A fn is a builder fn exactly when it has `#[builder]` attributes to decode. */
  lemma BuilderFnHasBuilderAttrs(item: ImplItem)
    ensures IsBuilderFn(item) <==> item.Fn? && BuilderAttrs(item.f.attrs) != []
  {
    if item.Fn? && BuilderAttrs(item.f.attrs) != [] {
      var a := BuilderAttrs(item.f.attrs)[0];
      assert a in item.f.attrs;
    }
  }

  /** The `partition_map` of the impl items into `(other_items, builder_funcs)`. */
  function PartitionItems(items: seq<ImplItem>): (r: (seq<ImplItem>, seq<ImplItem>))
    ensures |r.0| + |r.1| == |items|
  {
    if items == [] then ([], [])
    else
      var rest := PartitionItems(items[1..]);
      if IsBuilderFn(items[0]) then (rest.0, [items[0]] + rest.1)
      else ([items[0]] + rest.0, rest.1)
  }

  /** `other_items` holds no builder fn, `builder_funcs` only builder fns, and
      together they hold every item exactly as often as the input does. */
  lemma {:induction false} PartitionClassifies(items: seq<ImplItem>)
    ensures forall x :: x in PartitionItems(items).0 ==> !IsBuilderFn(x)
    ensures forall x :: x in PartitionItems(items).1 ==> IsBuilderFn(x)
    ensures multiset(PartitionItems(items).0) + multiset(PartitionItems(items).1) == multiset(items)
  {
    if items != [] {
      PartitionClassifies(items[1..]);
      assert items == [items[0]] + items[1..];
    }
  }

  /** Partitioning distributes over concatenation: each side lists the items
      of the first part before those of the second, so both sides keep the
      items' relative order. */
  lemma {:induction false} PartitionAppend(a: seq<ImplItem>, b: seq<ImplItem>)
    ensures PartitionItems(a + b).0 == PartitionItems(a).0 + PartitionItems(b).0
    ensures PartitionItems(a + b).1 == PartitionItems(a).1 + PartitionItems(b).1
  {
    if a == [] {
      assert a + b == b;
    } else {
      var ab := a + b;
      assert ab[0] == a[0];
      assert ab[1..] == a[1..] + b;
      PartitionAppend(a[1..], b);
      var rest, restA, restB := PartitionItems(ab[1..]), PartitionItems(a[1..]), PartitionItems(b);
      if IsBuilderFn(a[0]) {
        assert PartitionItems(ab) == (rest.0, [a[0]] + rest.1);
        assert PartitionItems(a) == (restA.0, [a[0]] + restA.1);
        assert [a[0]] + (restA.1 + restB.1) == ([a[0]] + restA.1) + restB.1;
      } else {
        assert PartitionItems(ab) == ([a[0]] + rest.0, rest.1);
        assert PartitionItems(a) == ([a[0]] + restA.0, restA.1);
        assert [a[0]] + (restA.0 + restB.0) == ([a[0]] + restA.0) + restB.0;
      }
    }
  }

  /** No item is lost or made up: an item occurs in the input exactly when it occurs on one of the two sides. */
  lemma PartitionKeepsEveryItem(items: seq<ImplItem>)
    ensures forall x :: x in items <==> x in PartitionItems(items).0 || x in PartitionItems(items).1
  {
    var r := PartitionItems(items);
    PartitionClassifies(items);
    forall x
      ensures x in items <==> x in r.0 || x in r.1
    {
      assert x in items <==> x in multiset(items);
      assert x in r.0 <==> x in multiset(r.0);
      assert x in r.1 <==> x in multiset(r.1);
    }
  }

  // ---------------------------------------------------------------------
  // One builder fn
  // ---------------------------------------------------------------------

  /** The fn that `parse_quote!(#item_fn)` yields when a free fn is spliced back into an impl block. */
  function FnItemIntoImplItemFn(f: ItemFn): ImplItemFn {
    ImplItemFn(f.attrs, f.vis, false, f.sig, f.block)
  }

  /** `impl_item_fn_into_fn_item`: rejects `default fn`, otherwise keeps the
      attributes, visibility, signature and body. */
  function ImplItemFnIntoFnItem(func: ImplItemFn): (r: Result<ItemFn>)
    ensures r.Err? <==> func.defaultness
    ensures r.Err? ==> r.error == DefaultFn
    ensures r.Ok? ==> FnItemIntoImplItemFn(r.value) == func
  {
    if func.defaultness then Err(DefaultFn)
    else Ok(ToItemFn(func))
  }

  /** The free fn with the same attributes, visibility, signature and body. */
  function ToItemFn(func: ImplItemFn): ItemFn {
    ItemFn(func.attrs, func.vis, func.sig, func.block)
  }

  /** The round trip the other way: a free fn spliced into an impl block converts back to itself. */
  lemma FnItemRoundTrip(f: ItemFn)
    ensures ImplItemFnIntoFnItem(FnItemIntoImplItemFn(f)) == Ok(f)
  {
  }

  /** The `#[builder]` attributes of a fn, in order. */
  function BuilderAttrs(attrs: seq<Attr>): (r: seq<Attr>)
    ensures forall a :: a in r <==> a in attrs && IsBuilderAttr(a)
    ensures |r| <= |attrs|
  {
    if attrs == [] then []
    else if IsBuilderAttr(attrs[0]) then [attrs[0]] + BuilderAttrs(attrs[1..])
    else BuilderAttrs(attrs[1..])
  }

  /** Selecting the `#[builder]` attributes distributes over concatenation, so
      they keep their order and every occurrence survives. */
  lemma {:induction false} BuilderAttrsAppend(a: seq<Attr>, b: seq<Attr>)
    ensures BuilderAttrs(a + b) == BuilderAttrs(a) + BuilderAttrs(b)
  {
    if a == [] {
      assert a + b == b;
    } else {
      assert (a + b)[0] == a[0];
      assert (a + b)[1..] == a[1..] + b;
      BuilderAttrsAppend(a[1..], b);
    }
  }

  /** The body of the closure passed to `map` over the zipped fns. */
  function GenerateForPair(origItem: ImplItem, normItem: ImplItem, implCtx: ImplCtx, c: Collaborators)
    : (r: Result<(ItemFn, GenOutput)>)
    ensures !normItem.Fn? || !origItem.Fn? ==> r == Err(Unreachable)
    ensures normItem.Fn? && origItem.Fn? && (normItem.f.defaultness || origItem.f.defaultness)
            ==> r == Err(DefaultFn)
    ensures r.Ok? ==> var params := c.decodeParams(BuilderAttrs(origItem.f.attrs));
                      && !origItem.f.defaultness && !normItem.f.defaultness
                      && params.Ok?
                      && c.adaptedFunc(PairCtx(origItem.f, normItem.f, implCtx, params.value)) == Ok(r.value.0)
                      && c.builderOutput(PairCtx(origItem.f, normItem.f, implCtx, params.value)) == Ok(r.value.1)
    ensures normItem.Fn? && origItem.Fn? && !normItem.f.defaultness && !origItem.f.defaultness ==>
              var params := c.decodeParams(BuilderAttrs(origItem.f.attrs));
              && (params.Err? ==> r == Err(params.error))
              && (params.Ok? ==>
                    var ctx := PairCtx(origItem.f, normItem.f, implCtx, params.value);
                    var adapted, output := c.adaptedFunc(ctx), c.builderOutput(ctx);
                    && (adapted.Err? ==> r == Err(adapted.error))
                    && (adapted.Ok? && output.Err? ==> r == Err(output.error))
                    && (adapted.Ok? && output.Ok? ==> r == Ok((adapted.value, output.value))))
  {
    if !normItem.Fn? then Err(Unreachable)
    else if !origItem.Fn? then Err(Unreachable)
    else
      var normFunc :- ImplItemFnIntoFnItem(normItem.f);
      var origFunc :- ImplItemFnIntoFnItem(origItem.f);
      var params :- c.decodeParams(BuilderAttrs(origFunc.attrs));
      var ctx := FuncInputCtx(origFunc, normFunc, Some(implCtx), params);
      var adapted :- c.adaptedFunc(ctx);
      var output :- c.builderOutput(ctx);
      Ok((adapted, output))
  }

  /** The `FuncInputCtx` built for a pair of non-default fns. */
  function PairCtx(orig: ImplItemFn, norm: ImplItemFn, implCtx: ImplCtx, params: FuncInputParams): FuncInputCtx {
    FuncInputCtx(ToItemFn(orig), ToItemFn(norm), Some(implCtx), params)
  }

  // ---------------------------------------------------------------------
  // Pairing and reassembly
  // ---------------------------------------------------------------------

  function Min(a: nat, b: nat): nat {
    if a <= b then a else b
  }

  /** `zip(orig, norm).map(..).try_collect()`: pairs the two lists by position,
      stops at the shorter one, and fails with the first failing pair's error. */
  function CollectOutputs(origs: seq<ImplItem>, norms: seq<ImplItem>, implCtx: ImplCtx, c: Collaborators)
    : (r: Result<seq<(ItemFn, GenOutput)>>)
    ensures r.Ok? <==> forall k :: 0 <= k < Min(|origs|, |norms|) ==>
                          GenerateForPair(origs[k], norms[k], implCtx, c).Ok?
    ensures r.Ok? ==> |r.value| == Min(|origs|, |norms|)
    ensures r.Ok? ==> forall k :: 0 <= k < |r.value| ==>
                        GenerateForPair(origs[k], norms[k], implCtx, c) == Ok(r.value[k])
    ensures r.Err? ==> exists k :: && 0 <= k < Min(|origs|, |norms|)
                                   && GenerateForPair(origs[k], norms[k], implCtx, c) == Err(r.error)
                                   && forall j :: 0 <= j < k ==> GenerateForPair(origs[j], norms[j], implCtx, c).Ok?
  {
    if origs == [] || norms == [] then Ok([])
    else
      var head :- GenerateForPair(origs[0], norms[0], implCtx, c);
      var rest :- CollectOutputs(origs[1..], norms[1..], implCtx, c);
      Ok([head] + rest)
  }

  /** The `flat_map` of the outputs into `[start_func, adapted_func]` pairs. */
  function NewImplItems(outputs: seq<(ItemFn, GenOutput)>): (r: seq<ImplItem>)
    ensures |r| == 2 * |outputs|
  {
    if outputs == [] then []
    else
      [Fn(FnItemIntoImplItemFn(outputs[0].1.startFunc)), Fn(FnItemIntoImplItemFn(outputs[0].0))]
      + NewImplItems(outputs[1..])
  }

  /** Positions `2k` and `2k + 1` hold the start fn and the adapted fn of builder fn `k`. */
  lemma {:induction false} NewImplItemsAt(outputs: seq<(ItemFn, GenOutput)>, k: nat)
    requires k < |outputs|
    ensures NewImplItems(outputs)[2 * k] == Fn(FnItemIntoImplItemFn(outputs[k].1.startFunc))
    ensures NewImplItems(outputs)[2 * k + 1] == Fn(FnItemIntoImplItemFn(outputs[k].0))
  {
    if k > 0 {
      NewImplItemsAt(outputs[1..], k - 1);
    }
  }

  /** The auxiliary items of every output, concatenated in builder-fn order. */
  function AuxItems(outputs: seq<(ItemFn, GenOutput)>): (r: seq<string>)
    ensures forall k, x :: 0 <= k < |outputs| && x in outputs[k].1.otherItems ==> x in r
    ensures |outputs| == 1 ==> r == outputs[0].1.otherItems
  {
    if outputs == [] then [] else outputs[0].1.otherItems + AuxItems(outputs[1..])
  }

  /** Auxiliary items keep builder-fn order: those of earlier fns come first. */
  lemma {:induction false} AuxItemsAppend(a: seq<(ItemFn, GenOutput)>, b: seq<(ItemFn, GenOutput)>)
    ensures AuxItems(a + b) == AuxItems(a) + AuxItems(b)
  {
    if a != [] {
      assert (a + b)[0] == a[0];
      assert (a + b)[1..] == a[1..] + b;
      AuxItemsAppend(a[1..], b);
    } else {
      assert a + b == b;
    }
  }

  // ---------------------------------------------------------------------
  // The pipeline
  // ---------------------------------------------------------------------

  /** The original block with only its builder fns. */
  function BuilderBlock(orig: ItemImpl): (r: ItemImpl)
    ensures forall x :: x in r.items <==> x in orig.items && IsBuilderFn(x)
    ensures r.(items := orig.items) == orig
  {
    PartitionKeepsEveryItem(orig.items);
    PartitionClassifies(orig.items);
    orig.(items := PartitionItems(orig.items).1)
  }

  /** The copy normalized for lifetimes and `impl Trait` but still using `Self`. */
  function NormSelffulBlock(orig: ItemImpl, c: Collaborators): ItemImpl {
    c.normalizeImplTraits(c.normalizeLifetimes(BuilderBlock(orig)))
  }

  /** The fully normalized copy, `Self` replaced by the self type. */
  function NormBlock(orig: ItemImpl, c: Collaborators): ItemImpl {
    var b := NormSelffulBlock(orig, c);
    c.normalizeSelfTy(b.selfTy, b)
  }

  /** The per-fn outputs of the pipeline: at most one per builder fn, since the
      original and the normalized builder fns are zipped. */
  function Outputs(orig: ItemImpl, c: Collaborators): (r: Result<seq<(ItemFn, GenOutput)>>)
    ensures r.Ok? ==> |r.value| <= |PartitionItems(orig.items).1|
  {
    var norm := NormBlock(orig, c);
    CollectOutputs(BuilderBlock(orig).items, norm.items, ImplCtx(norm.selfTy, norm.generics), c)
  }

  /** `generate`: trait impls and blocks without builder fns fail before
      anything is generated; any failing builder fn fails the whole block;
      otherwise the block keeps its non-builder items as written, followed by
      the generated items, and the auxiliary items go before it. */
  method Generate(origImplBlock: ItemImpl, c: Collaborators) returns (r: Result<Generated>)
    ensures origImplBlock.traitPath.Some? ==> r == Err(TraitImpl)
    ensures origImplBlock.traitPath.None? && PartitionItems(origImplBlock.items).1 == []
            ==> r == Err(NoBuilderFns)
    ensures r.Ok? <==> && origImplBlock.traitPath.None?
                       && PartitionItems(origImplBlock.items).1 != []
                       && Outputs(origImplBlock, c).Ok?
    ensures r.Err? && origImplBlock.traitPath.None? && PartitionItems(origImplBlock.items).1 != []
            ==> r.error == Outputs(origImplBlock, c).error
    ensures r.Ok? ==> r.value.auxItems == AuxItems(Outputs(origImplBlock, c).value)
    ensures r.Ok? ==> r.value.implBlock == NormSelffulBlock(origImplBlock, c).(items :=
              PartitionItems(origImplBlock.items).0 + NewImplItems(Outputs(origImplBlock, c).value))
  {
    if origImplBlock.traitPath.Some? {
      return Err(TraitImpl);
    }

    var (otherItems, builderFuncs) := PartitionItems(origImplBlock.items);

    if builderFuncs == [] {
      return Err(NoBuilderFns);
    }

    var origBlock := origImplBlock.(items := builderFuncs);

    var normBlock := origBlock;
    normBlock := c.normalizeLifetimes(normBlock);
    normBlock := c.normalizeImplTraits(normBlock);

    var normSelffulBlock := normBlock;

    normBlock := c.normalizeSelfTy(normBlock.selfTy, normBlock);

    var implCtx := ImplCtx(normBlock.selfTy, normBlock.generics);

    var outputs :- CollectOutputs(origBlock.items, normBlock.items, implCtx, c);

    normSelffulBlock := normSelffulBlock.(items := otherItems);
    normSelffulBlock := normSelffulBlock.(items := normSelffulBlock.items + NewImplItems(outputs));

    return Ok(Generated(AuxItems(outputs), normSelffulBlock));
  }

  /** When normalization keeps the number of items, the rewritten block holds
      the non-builder items first, unchanged and in order, then for each
      builder fn `k` its start fn and its adapted fn; its length is
      `|other_items| + 2 * |builder_funcs|`. */
  lemma ReassemblyLayout(orig: ItemImpl, c: Collaborators)
    requires Outputs(orig, c).Ok?
    requires |NormBlock(orig, c).items| == |PartitionItems(orig.items).1|
    ensures var others := PartitionItems(orig.items).0;
            var builders := PartitionItems(orig.items).1;
            var outs := Outputs(orig, c).value;
            var items := others + NewImplItems(outs);
            && |outs| == |builders|
            && |items| == |others| + 2 * |builders|
            && items[..|others|] == others
            && forall k :: 0 <= k < |builders| ==>
                 && items[|others| + 2 * k] == Fn(FnItemIntoImplItemFn(outs[k].1.startFunc))
                 && items[|others| + 2 * k + 1] == Fn(FnItemIntoImplItemFn(outs[k].0))
  {
    var others := PartitionItems(orig.items).0;
    var outs := Outputs(orig, c).value;
    forall k | 0 <= k < |outs|
      ensures (others + NewImplItems(outs))[|others| + 2 * k] == Fn(FnItemIntoImplItemFn(outs[k].1.startFunc))
      ensures (others + NewImplItems(outs))[|others| + 2 * k + 1] == Fn(FnItemIntoImplItemFn(outs[k].0))
    {
      NewImplItemsAt(outs, k);
    }
  }

  /** The `k`-th start fn and adapted fn are generated from the `k`-th builder
      fn as written and the `k`-th item of the normalized copy. */
  lemma OutputsPairByPosition(orig: ItemImpl, c: Collaborators, k: nat)
    requires Outputs(orig, c).Ok?
    requires k < |Outputs(orig, c).value|
    ensures var norm := NormBlock(orig, c);
            && k < |PartitionItems(orig.items).1| && k < |norm.items|
            && GenerateForPair(PartitionItems(orig.items).1[k], norm.items[k],
                               ImplCtx(norm.selfTy, norm.generics), c) == Ok(Outputs(orig, c).value[k])
  {
  }
}
