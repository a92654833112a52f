/** Export declarations: what they promise about every cut. */
module ExportPlan {
  import opened Machine
  import opened Consts
  import opened Symbols
  import opened StateKeys
  import opened Shapes
  import opened Families
  import opened CutManifests

  datatype Declaration = Declaration(key: StateKey, strides: seq<nat>, atomicGroup: u32)

  datatype Export = Export(
    family: Family, declarations: seq<Declaration>, finalTokens: u64, maximumRestoredBytes: u64)

  // ---------------------------------------------------------------------
  // One declared state
  // ---------------------------------------------------------------------

  predicate DeclaredOk(fs: FamilyState, d: Declaration, final: nat)
    requires FixedVolume(fs.dims) > 0 && final > 0
  {
    ShapePositive(fs.dims, final);
    var shape := ShapeFor(fs.dims, final);
    && d.key == fs.key && d.atomicGroup != 0
    && |d.strides| == |fs.dims| && Positive(d.strides)
    && (fs.contiguous ==> Volume(shape) < U64_LIMIT && d.strides == Strides(shape))
    && 0 < BytesPerToken(fs) <= MAX_CHUNK_PLAINTEXT
    && Product(final, BytesPerToken(fs)) < U64_LIMIT
    && Footprint(shape, d.strides, fs.width) < U64_LIMIT
  }

  function StridesForCut(fs: FamilyState, d: Declaration, cut: nat): seq<nat> {
    if fs.contiguous then Strides(ShapeFor(fs.dims, cut)) else d.strides
  }

  /** Bytes of `tokens` tokens, counted through the shape. */
  lemma {:induction false} ShapeBytes(fs: FamilyState, tokens: nat)
    requires OneToken(fs.dims, fs.tokenAxis) && fs.elementsPerToken == FixedVolume(fs.dims)
    ensures Product(Volume(ShapeFor(fs.dims, tokens)), fs.width) == Product(tokens, BytesPerToken(fs))
  {
    hide Product, Volume, ShapeFor, FixedVolume;
    ShapeVolume(fs.dims, fs.tokenAxis, tokens);
    ProductAssoc(tokens, fs.elementsPerToken, fs.width);
  }

  /** Whatever fits at the final token count fits at every cut: byte counts,
      strides, footprints and offsets stay inside 64 bits. */
  lemma {:induction false} CutFits(fs: FamilyState, d: Declaration, final: nat, start: nat, cut: nat)
    requires OneToken(fs.dims, fs.tokenAxis) && fs.elementsPerToken == FixedVolume(fs.dims) > 0
    requires fs.width > 0 && start < cut <= final && DeclaredOk(fs, d, final)
    ensures Product(cut - start, BytesPerToken(fs)) <= Product(cut, BytesPerToken(fs)) < U64_LIMIT
    ensures Positive(ShapeFor(fs.dims, cut)) && Positive(ShapeFor(fs.dims, cut - start))
    ensures var strides, full := StridesForCut(fs, d, cut), ShapeFor(fs.dims, cut);
            && |strides| == |fs.dims| && Positive(strides)
            && (fs.contiguous ==> Volume(full) < U64_LIMIT)
            && Footprint(ShapeFor(fs.dims, cut - start), strides, fs.width) <= Footprint(full, strides, fs.width)
            && Footprint(full, strides, fs.width) < U64_LIMIT
            && Product(Product(start, strides[fs.tokenAxis]), fs.width) < U64_LIMIT
  {
    hide Product, Volume, FixedVolume, Strides, LastElement, BytesPerToken;
    var strides, full, segment := StridesForCut(fs, d, cut), ShapeFor(fs.dims, cut), ShapeFor(fs.dims, cut - start);
    var bytes := BytesPerToken(fs);
    ProductMonotone(bytes, cut - start, cut);
    ProductMonotone(bytes, cut, final);
    ShapesWithin(fs.dims, cut - start, cut);
    ShapesWithin(fs.dims, cut, final);
    if fs.contiguous {
      ContiguousCut(fs, cut);
    } else {
      FootprintMonotone(full, ShapeFor(fs.dims, final), strides, fs.width);
    }
    FootprintMonotone(segment, full, strides, fs.width);
    AxisWithin(full, strides, fs.tokenAxis, start);
    ProductMonotone(fs.width, Product(start, strides[fs.tokenAxis]), LastElement(full, strides) + 1);
  }

  lemma {:induction false} ContiguousCut(fs: FamilyState, cut: nat)
    requires OneToken(fs.dims, fs.tokenAxis) && fs.elementsPerToken == FixedVolume(fs.dims) > 0
    requires fs.width > 0 && cut > 0 && Product(cut, BytesPerToken(fs)) < U64_LIMIT
    ensures var full := ShapeFor(fs.dims, cut);
            && Positive(full) && Positive(Strides(full)) && Volume(full) < U64_LIMIT
            && Footprint(full, Strides(full), fs.width) < U64_LIMIT
  {
    hide Product, Volume, FixedVolume, Strides, LastElement, BytesPerToken, ShapeFor;
    var full := ShapeFor(fs.dims, cut);
    ShapePositive(fs.dims, cut);
    StridesPositive(full);
    ContiguousLast(full);
    ShapeBytes(fs, cut);
    ProductMonotone(fs.width, Volume(full), Volume(full));
  }

  // ---------------------------------------------------------------------
  // The whole declaration
  // ---------------------------------------------------------------------

  function RestoredAt(family: Family, tokens: nat, n: nat): nat
    requires n <= |family.states|
  {
    if n == 0 then 0
    else RestoredAt(family, tokens, n - 1) + Product(tokens, BytesPerToken(family.states[n - 1]))
  }

  function PhysicalAt(e: Export, n: nat): nat
    requires n <= |e.family.states| == |e.declarations| && DeclaredUpTo(e, n)
  {
    if n == 0 then 0
    else
      var fs, d := e.family.states[n - 1], e.declarations[n - 1];
      ShapePositive(fs.dims, e.finalTokens);
      assert DeclaredOk(fs, d, e.finalTokens);
      PhysicalAt(e, n - 1) + Footprint(ShapeFor(fs.dims, e.finalTokens), d.strides, fs.width)
  }

  predicate DeclaredUpTo(e: Export, n: nat)
    requires n <= |e.family.states| == |e.declarations|
  {
    && e.finalTokens > 0
    && forall i :: 0 <= i < n ==>
         && FixedVolume(e.family.states[i].dims) > 0
         && DeclaredOk(e.family.states[i], e.declarations[i], e.finalTokens)
  }

  ghost predicate ExportOk(e: Export) {
    && FamilyOk(e.family) && e.finalTokens > 0 && |e.declarations| == |e.family.states|
    && DeclaredUpTo(e, |e.family.states|)
    && RestoredAt(e.family, e.finalTokens, |e.family.states|) <= e.maximumRestoredBytes
    && PhysicalAt(e, |e.family.states|) <= e.maximumRestoredBytes
  }

  method ValidateDeclared(fs: FamilyState, d: Declaration, final: u64)
    returns (ok: bool, restored: u64, physical: u64)
    requires OneToken(fs.dims, fs.tokenAxis) && |fs.dims| <= MAX_RANK
    requires fs.elementsPerToken == FixedVolume(fs.dims) > 0 && WidthOk(fs.width) && final > 0
    ensures ok <==> DeclaredOk(fs, d, final)
    ensures ok ==>
              && restored == Product(final, BytesPerToken(fs))
              && Positive(ShapeFor(fs.dims, final)) && |d.strides| == |fs.dims|
              && physical == Footprint(ShapeFor(fs.dims, final), d.strides, fs.width)
  {
    hide Volume, Strides, FixedVolume, Footprint, Product;
    restored, physical := 0, 0;
    ShapePositive(fs.dims, final);
    if || d.key != fs.key || d.atomicGroup == 0 || |d.strides| != |fs.dims|
       || exists i :: 0 <= i < |d.strides| && d.strides[i] == 0
    {
      return false, 0, 0;
    }
    var shape := ShapeFor(fs.dims, final);
    if fs.contiguous {
      var strides := ContiguousStrides(shape);
      if strides.None? || d.strides != strides.value {
        return false, 0, 0;
      }
    }
    var bytes := BytesPerToken(fs);
    if bytes == 0 || bytes > MAX_CHUNK_PLAINTEXT {
      return false, 0, 0;
    }
    if Product(final, bytes) >= U64_LIMIT {
      return false, 0, 0;
    }
    var footprint := PhysicalFootprint(shape, d.strides, fs.width);
    if footprint.None? {
      return false, 0, 0;
    }
    return true, Product(final, bytes), footprint.value;
  }

  /** The models and families a writer is qualified for. */
  datatype Qualification = Qualification(semanticModels: set<SemanticModel>, families: set<Family>)

  method ValidateExportDeclaration(e: Export, semantic: SemanticModel, qualified: Qualification) returns (ok: bool)
    requires forall i :: 0 <= i < |e.family.states| ==> WidthOk(e.family.states[i].width)
    ensures ok <==> semantic in qualified.semanticModels && e.family in qualified.families && ExportOk(e)
  {
    hide FamilyOk, WidthOk, Product, Footprint, DeclaredOk, FixedVolume, OneToken;
    if semantic !in qualified.semanticModels {
      return false;
    }
    var family := ValidateFamily(e.family);
    if !family || e.family !in qualified.families {
      return false;
    }
    if e.finalTokens == 0 || |e.declarations| != |e.family.states| {
      return false;
    }
    var restored: nat, physical: nat := 0, 0;
    for n := 0 to |e.family.states|
      invariant DeclaredUpTo(e, n)
      invariant restored == RestoredAt(e.family, e.finalTokens, n) < U64_LIMIT
      invariant physical == PhysicalAt(e, n) < U64_LIMIT
    {
      var fs, d := e.family.states[n], e.declarations[n];
      StateFacts(e.family, n);
      var declared, r, p := ValidateDeclared(fs, d, e.finalTokens);
      if !declared {
        return false;
      }
      restored := restored + r;
      physical := physical + p;
      if restored >= U64_LIMIT || physical >= U64_LIMIT {
        TotalsExceed(e, n + 1);
        return false;
      }
    }
    return restored <= e.maximumRestoredBytes && physical <= e.maximumRestoredBytes;
  }

  lemma {:induction false} StateFacts(f: Family, n: nat)
    requires FamilyOk(f) && n < |f.states|
    ensures var fs := f.states[n];
            && OneToken(fs.dims, fs.tokenAxis) && |fs.dims| <= MAX_RANK
            && fs.elementsPerToken == FixedVolume(fs.dims) > 0 && WidthOk(fs.width)
  {
    hide FixedVolume, DependenciesOk, Ascending, OneToken, WidthOk;
    assert FamilyStateOk(f.portable, f.states[n]);
  }

  lemma {:induction false} TotalsExceed(e: Export, n: nat)
    requires n <= |e.family.states| == |e.declarations| && DeclaredUpTo(e, n)
    requires RestoredAt(e.family, e.finalTokens, n) >= U64_LIMIT || PhysicalAt(e, n) >= U64_LIMIT
    ensures !ExportOk(e)
  {
    hide FamilyOk, DeclaredOk, RestoredAt, PhysicalAt, FixedVolume;
    if ExportOk(e) {
      TotalsRise(e, n);
    }
  }

  lemma {:induction false} TotalsRise(e: Export, n: nat)
    requires n <= |e.family.states| == |e.declarations| && DeclaredUpTo(e, |e.family.states|)
    ensures DeclaredUpTo(e, n)
    ensures RestoredAt(e.family, e.finalTokens, n) <= RestoredAt(e.family, e.finalTokens, |e.family.states|)
    ensures PhysicalAt(e, n) <= PhysicalAt(e, |e.family.states|)
    decreases |e.family.states| - n
  {
    hide DeclaredOk, FixedVolume, Product, Footprint;
    if n >= |e.family.states| {
    } else {
      TotalsRise(e, n + 1);
    }
  }
}
