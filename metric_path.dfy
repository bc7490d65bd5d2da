/**
 * The real-time metric-path pipeline shared by the two Unisphere metric
 * providers: matching catalog paths against configured patterns, classifying
 * type codes, synthesising instrument names and descriptors, deriving label
 * names from wildcard segments, and decoding a nested query result into
 * labelled observations.
 */
module MetricPath {
  import opened Wrappers
  import opened GoStrings

  /** One counter of the array's catalog (the fields the providers request). */
  datatype CatalogEntry = CatalogEntry(path: string, typeCode: int, description: string, unitDisplayString: string)

  /** What a provider asks the metrics SDK to declare for one matched path. */
  datatype MetricDescriptor = MetricDescriptor(key: string, name: string, desc: string, unit: string, typeName: string)

  // ---------------------------------------------------------------- matching

  /** The catalog match of one configured pattern against one catalog path. */
  function Matches(pattern: string, path: string): bool
    requires pattern != ""
  {
    if pattern[|pattern| - 1] == '%' then Contains(path, ReplaceAll(pattern, "%", ""))
    else pattern == path
  }

  /**
   * A pattern ending in `%` matches exactly the paths in which the pattern,
   * with every `%` removed, occurs at some position; any other pattern
   * matches only the identical path.
   */
  lemma MatchesMeaning(pattern: string, path: string)
    requires pattern != ""
    ensures pattern[|pattern| - 1] == '%' ==>
      '%' !in ReplaceAll(pattern, "%", "") &&
      (Matches(pattern, path) <==> exists i :: OccursAt(path, ReplaceAll(pattern, "%", ""), i))
    ensures pattern[|pattern| - 1] != '%' ==> (Matches(pattern, path) <==> path == pattern)
  {
    ReplaceAllRemovesChar(pattern, '%', "");
    ContainsAt(path, ReplaceAll(pattern, "%", ""));
  }

  /** The pattern `%` alone selects every path. */
  lemma PercentMatchesAll(path: string)
    ensures Matches("%", path)
  {
    assert ReplaceAll("%", "%", "") == "";
    ContainsEmpty(path);
  }

  // ---------------------------------------------------------- classification

  /** Result of classifying a catalog type code. */
  datatype Classification = SkipNonNumeric | Typed(typeName: string)

  /** The type-code switch: 2, 3, 7, 8 count, 4, 5 gauge, 6 is skipped, the rest untyped. */
  function Classify(typeCode: int): (c: Classification)
    ensures c == SkipNonNumeric <==> typeCode == 6
    ensures c == Typed("counter") <==> typeCode in {2, 3, 7, 8}
    ensures c == Typed("gauge") <==> typeCode in {4, 5}
    ensures c == Typed("") <==> typeCode !in {2, 3, 4, 5, 6, 7, 8}
  {
    match typeCode
    case 2 => Typed("counter")
    case 3 => Typed("counter")
    case 4 => Typed("gauge")
    case 5 => Typed("gauge")
    case 6 => SkipNonNumeric
    case 7 => Typed("counter")
    case 8 => Typed("counter")
    case _ => Typed("")
  }

  // ------------------------------------------------------------------ naming

  const NamePrefix: string := "unisphere_"

  /**
   * Instrument name: lower-case the path, turn every `.*.` into `_`, put the
   * namespace in front, then turn every remaining `.` into `_`.
   */
  function InstrumentName(path: string): string {
    ReplaceAll(NamePrefix + ReplaceAll(ToLower(path), ".*.", "_"), ".", "_")
  }

  lemma {:induction false} ReplaceCharAbsent(s: string, c: char, rep: string)
    requires c !in s
    ensures ReplaceAll(s, [c], rep) == s
    decreases |s|
  {
    if |s| >= 1 {
      assert s[..1] != [c] by { assert s[0] != c; }
      ReplaceCharAbsent(s[1..], c, rep);
      assert [s[0]] + s[1..] == s;
    }
  }

  lemma {:induction false} ReplaceCharConcat(a: string, b: string, c: char, rep: string)
    ensures ReplaceAll(a + b, [c], rep) == ReplaceAll(a, [c], rep) + ReplaceAll(b, [c], rep)
    decreases |a|
  {
    if a != [] {
      assert (a + b)[1..] == a[1..] + b;
      assert (a + b)[..1] == a[..1];
      ReplaceCharConcat(a[1..], b, c, rep);
    } else {
      assert a + b == b;
    }
  }

  /** Every name starts with the namespace and holds no `.`. */
  lemma InstrumentNameShape(path: string)
    ensures HasPrefix(InstrumentName(path), NamePrefix)
    ensures '.' !in InstrumentName(path)
  {
    var inner := ReplaceAll(ToLower(path), ".*.", "_");
    ReplaceCharConcat(NamePrefix, inner, '.', "_");
    ReplaceCharAbsent(NamePrefix, '.', "_");
    ReplaceAllRemovesChar(NamePrefix + inner, '.', "_");
  }

  /** Replacing dots across a known dot, with no dot before it. */
  lemma DotJoin(a: string, b: string)
    requires '.' !in a
    ensures ReplaceAll(a + "." + b, ".", "_") == a + "_" + ReplaceAll(b, ".", "_")
  {
    StringAssoc(a, ".", b);
    ReplaceCharConcat(a, "." + b, '.', "_");
    ReplaceCharAbsent(a, '.', "_");
    ReplaceCharConcat(".", b, '.', "_");
    ReplaceSingleDot();
    StringAssoc(a, "_", ReplaceAll(b, ".", "_"));
  }

  lemma ReplaceSingleDot()
    ensures ReplaceAll(".", ".", "_") == "_"
  {
    assert "."[..1] == "." && "."[1..] == "";
  }

  lemma StringAssoc(a: string, b: string, c: string)
    ensures a + b + c == a + (b + c)
  {
  }

  /**
   * Replacement is left to right and never overlaps: in `a.*.*.b` only the
   * first `.*.` becomes `_`, so the second star survives.
   */
  lemma NameOfWildcardPath()
    ensures InstrumentName("a.*.*.b") == "unisphere_a_*_b"
  {
    WildcardPathInner();
    WildcardPathPrefixed();
    DotJoin("unisphere_a_*", "b");
    ReplaceCharAbsent("b", '.', "_");
  }

  lemma WildcardPathPrefixed()
    ensures NamePrefix + "a_*.b" == "unisphere_a_*" + "." + "b"
  {
  }

  /** Only the first `.*.` of `a.*.*.b` is replaced. */
  lemma WildcardPathInner()
    ensures ToLower("a.*.*.b") == "a.*.*.b"
    ensures ReplaceAll("a.*.*.b", ".*.", "_") == "a_*.b"
  {
    var s := "a.*.*.b";
    assert s[..3][2] == '*';
    assert s[1..][..3] == ".*.";
    assert s[4..] == "*.b" && "*.b"[..3][0] == '*';
    assert ReplaceAll(".b", ".*.", "_") == ".b";
  }

  /** The descriptor for a matched entry: key and description verbatim, unit lower-cased. */
  function Synthesize(e: CatalogEntry, typeName: string): (d: MetricDescriptor)
    ensures d.key == e.path && d.desc == e.description && d.typeName == typeName
    ensures d.name == InstrumentName(e.path) && d.unit == ToLower(e.unitDisplayString)
  {
    MetricDescriptor(e.path, InstrumentName(e.path), e.description, ToLower(e.unitDisplayString), typeName)
  }

  // --------------------------------------------------------------- selection

  predicate NoEmptyPattern(patterns: seq<string>) {
    forall j :: 0 <= j < |patterns| ==> patterns[j] != ""
  }

  /** What one (entry, pattern) pair of the nested loop appends. */
  function PairDescriptors(e: CatalogEntry, pattern: string): seq<MetricDescriptor>
    requires pattern != ""
  {
    if Matches(pattern, e.path) && Classify(e.typeCode).Typed? then [Synthesize(e, Classify(e.typeCode).typeName)]
    else []
  }

  /** What one catalog entry appends over the pattern loop, patterns in order. */
  function EntryDescriptors(e: CatalogEntry, patterns: seq<string>): seq<MetricDescriptor>
    requires NoEmptyPattern(patterns)
    decreases |patterns|
  {
    if patterns == [] then []
    else EntryDescriptors(e, patterns[..|patterns| - 1]) + PairDescriptors(e, patterns[|patterns| - 1])
  }

  /** The descriptor list built by the selection loops: catalog outer, patterns inner. */
  function Selected(catalog: seq<CatalogEntry>, patterns: seq<string>): seq<MetricDescriptor>
    requires NoEmptyPattern(patterns)
    decreases |catalog|
  {
    if catalog == [] then []
    else Selected(catalog[..|catalog| - 1], patterns) + EntryDescriptors(catalog[|catalog| - 1], patterns)
  }

  function KeysOf(ds: seq<MetricDescriptor>): (r: seq<string>)
    ensures |r| == |ds| && forall k :: 0 <= k < |ds| ==> r[k] == ds[k].key
  {
    seq(|ds|, k requires 0 <= k < |ds| => ds[k].key)
  }

  /** The patterns of the list that match `path`, in list order. */
  function MatchingPatterns(patterns: seq<string>, path: string): (r: seq<string>)
    requires NoEmptyPattern(patterns)
    decreases |patterns|
  {
    if patterns == [] then []
    else MatchingPatterns(patterns[..|patterns| - 1], path)
         + (if Matches(patterns[|patterns| - 1], path) then [patterns[|patterns| - 1]] else [])
  }

  /**
   * No de-duplication: an entry whose type code is not 6 contributes one
   * identical descriptor per pattern that matches it; an entry of type 6
   * contributes nothing.
   */
  lemma {:induction false} EntryMultiplicity(e: CatalogEntry, patterns: seq<string>)
    requires NoEmptyPattern(patterns)
    ensures Classify(e.typeCode) == SkipNonNumeric ==> EntryDescriptors(e, patterns) == []
    ensures Classify(e.typeCode).Typed? ==>
      |EntryDescriptors(e, patterns)| == |MatchingPatterns(patterns, e.path)| &&
      forall k :: 0 <= k < |EntryDescriptors(e, patterns)| ==>
        EntryDescriptors(e, patterns)[k] == Synthesize(e, Classify(e.typeCode).typeName)
    decreases |patterns|
  {
    if patterns != [] {
      EntryMultiplicity(e, patterns[..|patterns| - 1]);
    }
  }

  /** Path order follows catalog order: selection distributes over catalog concatenation. */
  lemma {:induction false} SelectedAppend(c1: seq<CatalogEntry>, c2: seq<CatalogEntry>, patterns: seq<string>)
    requires NoEmptyPattern(patterns)
    ensures Selected(c1 + c2, patterns) == Selected(c1, patterns) + Selected(c2, patterns)
    decreases |c2|
  {
    if c2 == [] {
      assert c1 + c2 == c1;
    } else {
      var c2', last := c2[..|c2| - 1], c2[|c2| - 1];
      assert c2 == c2' + [last];
      assert c1 + c2 == (c1 + c2') + [last];
      SelectedSnoc(c1 + c2', last, patterns);
      SelectedSnoc(c2', last, patterns);
      SelectedAppend(c1, c2', patterns);
      AppendAssoc(Selected(c1, patterns), Selected(c2', patterns), EntryDescriptors(last, patterns));
    }
  }

  lemma AppendAssoc(a: seq<MetricDescriptor>, b: seq<MetricDescriptor>, c: seq<MetricDescriptor>)
    ensures (a + b) + c == a + (b + c)
  {
  }

  lemma SelectedSnoc(c: seq<CatalogEntry>, e: CatalogEntry, patterns: seq<string>)
    requires NoEmptyPattern(patterns)
    ensures Selected(c + [e], patterns) == Selected(c, patterns) + EntryDescriptors(e, patterns)
  {
    var ce := c + [e];
    assert ce[..|ce| - 1] == c && ce[|ce| - 1] == e;
  }

  lemma {:induction false} EntryDescriptorsSound(e: CatalogEntry, patterns: seq<string>, d: MetricDescriptor)
    requires NoEmptyPattern(patterns) && d in EntryDescriptors(e, patterns)
    ensures Classify(e.typeCode).Typed? && d == Synthesize(e, Classify(e.typeCode).typeName)
    ensures exists p :: p in patterns && Matches(p, e.path)
    decreases |patterns|
  {
    var last := patterns[|patterns| - 1];
    if d in EntryDescriptors(e, patterns[..|patterns| - 1]) {
      EntryDescriptorsSound(e, patterns[..|patterns| - 1], d);
      var p :| p in patterns[..|patterns| - 1] && Matches(p, e.path);
      assert p in patterns;
    } else {
      assert d in PairDescriptors(e, last);
      assert last in patterns;
    }
  }

  /**
   * Every selected descriptor is the synthesis of a catalog entry that some
   * pattern matches and whose type code is not 6.
   */
  lemma {:induction false} SelectedSound(catalog: seq<CatalogEntry>, patterns: seq<string>, d: MetricDescriptor)
    requires NoEmptyPattern(patterns) && d in Selected(catalog, patterns)
    ensures exists e :: (e in catalog && Classify(e.typeCode).Typed? &&
      d == Synthesize(e, Classify(e.typeCode).typeName) && exists p :: p in patterns && Matches(p, e.path))
    decreases |catalog|
  {
    var last := catalog[|catalog| - 1];
    if d in Selected(catalog[..|catalog| - 1], patterns) {
      SelectedSound(catalog[..|catalog| - 1], patterns, d);
      var e :| e in catalog[..|catalog| - 1] && Classify(e.typeCode).Typed? &&
        d == Synthesize(e, Classify(e.typeCode).typeName) && exists p :: p in patterns && Matches(p, e.path);
      assert e in catalog;
    } else {
      EntryDescriptorsSound(last, patterns, d);
      assert last in catalog;
    }
  }

  lemma {:induction false} EntryDescriptorsComplete(e: CatalogEntry, patterns: seq<string>, j: nat)
    requires NoEmptyPattern(patterns) && j < |patterns|
    requires Matches(patterns[j], e.path) && Classify(e.typeCode).Typed?
    ensures Synthesize(e, Classify(e.typeCode).typeName) in EntryDescriptors(e, patterns)
    decreases |patterns|
  {
    if j < |patterns| - 1 {
      assert patterns[..|patterns| - 1][j] == patterns[j];
      EntryDescriptorsComplete(e, patterns[..|patterns| - 1], j);
    }
  }

  /** Every entry that a pattern matches and whose type code is not 6 is selected. */
  lemma {:induction false} SelectedComplete(catalog: seq<CatalogEntry>, patterns: seq<string>, i: nat, j: nat)
    requires NoEmptyPattern(patterns) && i < |catalog| && j < |patterns|
    requires Matches(patterns[j], catalog[i].path) && Classify(catalog[i].typeCode).Typed?
    ensures Synthesize(catalog[i], Classify(catalog[i].typeCode).typeName) in Selected(catalog, patterns)
    decreases |catalog|
  {
    if i < |catalog| - 1 {
      assert catalog[..|catalog| - 1][i] == catalog[i];
      SelectedComplete(catalog[..|catalog| - 1], patterns, i, j);
    } else {
      EntryDescriptorsComplete(catalog[i], patterns, j);
    }
  }

  /** Outcome of the selection loops. */
  datatype Selection = IndexPanic | Chosen(paths: seq<string>, descs: seq<MetricDescriptor>)

  lemma KeysOfSnoc(ds: seq<MetricDescriptor>, d: MetricDescriptor)
    ensures KeysOf(ds + [d]) == KeysOf(ds) + [d.key]
  {
    assert KeysOf(ds + [d])[|ds|] == d.key;
  }

  lemma EntryDescriptorsSnoc(e: CatalogEntry, patterns: seq<string>, j: nat)
    requires j < |patterns| && NoEmptyPattern(patterns[..j]) && patterns[j] != ""
    ensures NoEmptyPattern(patterns[..j + 1])
    ensures EntryDescriptors(e, patterns[..j + 1]) == EntryDescriptors(e, patterns[..j]) + PairDescriptors(e, patterns[j])
  {
    assert patterns[..j + 1][..j] == patterns[..j];
  }

  /**
   * The inner loop for one catalog entry: every pattern in order, matched
   * against the entry's path; `panicked` reports an empty pattern.
   */
  method SelectForEntry(e: CatalogEntry, patterns: seq<string>, paths0: seq<string>, descs0: seq<MetricDescriptor>)
    returns (panicked: bool, paths: seq<string>, descs: seq<MetricDescriptor>)
    requires paths0 == KeysOf(descs0)
    ensures panicked <==> !NoEmptyPattern(patterns)
    ensures !panicked ==> descs == descs0 + EntryDescriptors(e, patterns) && paths == KeysOf(descs)
  {
    paths, descs := paths0, descs0;
    var j := 0;
    while j < |patterns|
      invariant 0 <= j <= |patterns|
      invariant NoEmptyPattern(patterns[..j])
      invariant descs == descs0 + EntryDescriptors(e, patterns[..j])
      invariant paths == KeysOf(descs)
    {
      var pattern := patterns[j];
      if pattern == "" {
        return true, paths, descs;
      }
      var matched := false;
      if pattern[|pattern| - 1] == '%' {
        matched := Contains(e.path, ReplaceAll(pattern, "%", ""));
      } else {
        matched := pattern == e.path;
      }
      EntryDescriptorsSnoc(e, patterns, j);
      AppendAssoc(descs0, EntryDescriptors(e, patterns[..j]), PairDescriptors(e, pattern));
      if matched {
        var c := Classify(e.typeCode);
        if c.Typed? {
          var d := Synthesize(e, c.typeName);
          KeysOfSnoc(descs, d);
          paths := paths + [e.path];
          descs := descs + [d];
        }
      }
      j := j + 1;
    }
    assert patterns[..j] == patterns;
    panicked := false;
  }

  /**
   * The nested selection loop of both providers. Indexing the last character
   * of an empty pattern panics, which happens as soon as the catalog has an
   * entry; otherwise paths and descriptors grow in lockstep.
   */
  method SelectMetrics(catalog: seq<CatalogEntry>, patterns: seq<string>) returns (r: Selection)
    ensures r == IndexPanic <==> catalog != [] && !NoEmptyPattern(patterns)
    ensures r.Chosen? ==> NoEmptyPattern(patterns) || catalog == []
    ensures r.Chosen? && NoEmptyPattern(patterns) ==> r.descs == Selected(catalog, patterns) && r.paths == KeysOf(r.descs)
    ensures r.Chosen? && catalog == [] ==> r.descs == [] && r.paths == []
  {
    var paths: seq<string> := [];
    var descs: seq<MetricDescriptor> := [];
    var i := 0;
    while i < |catalog|
      invariant 0 <= i <= |catalog|
      invariant i > 0 ==> NoEmptyPattern(patterns)
      invariant i > 0 ==> descs == Selected(catalog[..i], patterns)
      invariant i == 0 ==> descs == []
      invariant paths == KeysOf(descs)
    {
      var panicked;
      ghost var before := descs;
      panicked, paths, descs := SelectForEntry(catalog[i], patterns, paths, descs);
      if panicked {
        return IndexPanic;
      }
      assert catalog[..i + 1][..i] == catalog[..i];
      assert catalog[..i + 1][i] == catalog[i];
      i := i + 1;
    }
    assert catalog[..i] == catalog;
    r := Chosen(paths, descs);
  }

  /** The selection loops do not panic on this catalog. */
  predicate Selectable(catalog: seq<CatalogEntry>, patterns: seq<string>) {
    catalog == [] || NoEmptyPattern(patterns)
  }

  /** The descriptor list of a catalog the selection does not panic on. */
  function Descriptors(catalog: seq<CatalogEntry>, patterns: seq<string>): seq<MetricDescriptor>
    requires Selectable(catalog, patterns)
  {
    if catalog == [] then [] else Selected(catalog, patterns)
  }

  // ------------------------------------------------------------- label names

  /** The segment before index `i`, or `""` at the front. */
  function Prev(segs: seq<string>, i: nat): string
    requires i <= |segs|
  {
    if i == 0 then "" else segs[i - 1]
  }

  /** The label names of a split path, one per `*` segment, left to right. */
  function LabelNamesOf(segs: seq<string>): seq<string>
    decreases |segs|
  {
    if segs == [] then []
    else LabelNamesOf(segs[..|segs| - 1]) + (if segs[|segs| - 1] == "*" then [Prev(segs, |segs| - 1)] else [])
  }

  function LabelNames(path: string): seq<string> {
    LabelNamesOf(Split(path, '.'))
  }

  /** The indices of the `*` segments, in increasing order. */
  function StarPositions(segs: seq<string>): seq<nat>
    decreases |segs|
  {
    if segs == [] then []
    else StarPositions(segs[..|segs| - 1]) + (if segs[|segs| - 1] == "*" then [|segs| - 1] else [])
  }

  /**
   * Exactly one label name per `*` segment, in left-to-right order: the k-th
   * name is the segment just before the k-th `*`, or `""` when that `*` is
   * the first segment.
   */
  lemma LabelNamesAtStars(segs: seq<string>)
    ensures |LabelNamesOf(segs)| == |StarPositions(segs)|
    ensures forall k :: 0 <= k < |StarPositions(segs)| ==>
      StarPositions(segs)[k] < |segs| && segs[StarPositions(segs)[k]] == "*" &&
      LabelNamesOf(segs)[k] == Prev(segs, StarPositions(segs)[k])
    ensures forall k, l :: 0 <= k < l < |StarPositions(segs)| ==> StarPositions(segs)[k] < StarPositions(segs)[l]
    ensures forall i :: 0 <= i < |segs| && segs[i] == "*" ==> i in StarPositions(segs)
  {
    StarsNamed(segs);
    StarsIncreasing(segs);
    StarsComplete(segs);
  }

  lemma {:induction false} StarCount(segs: seq<string>)
    ensures |LabelNamesOf(segs)| == |StarPositions(segs)|
    decreases |segs|
  {
    if segs != [] {
      StarCount(segs[..|segs| - 1]);
    }
  }

  lemma {:induction false} StarsNamed(segs: seq<string>)
    ensures |LabelNamesOf(segs)| == |StarPositions(segs)|
    ensures forall k :: 0 <= k < |StarPositions(segs)| ==>
      StarPositions(segs)[k] < |segs| && segs[StarPositions(segs)[k]] == "*" &&
      LabelNamesOf(segs)[k] == Prev(segs, StarPositions(segs)[k])
    decreases |segs|
  {
    StarCount(segs);
    if segs != [] {
      var init := segs[..|segs| - 1];
      StarsNamed(init);
      var sp, sp0 := StarPositions(segs), StarPositions(init);
      var ln, ln0 := LabelNamesOf(segs), LabelNamesOf(init);
      forall k | 0 <= k < |sp| ensures sp[k] < |segs| && segs[sp[k]] == "*" && ln[k] == Prev(segs, sp[k]) {
        if k < |sp0| {
          assert sp[k] == sp0[k] && ln[k] == ln0[k];
          assert segs[sp[k]] == init[sp[k]];
          assert Prev(segs, sp[k]) == Prev(init, sp[k]);
        }
      }
    }
  }

  lemma {:induction false} StarsIncreasing(segs: seq<string>)
    ensures forall k :: 0 <= k < |StarPositions(segs)| ==> StarPositions(segs)[k] < |segs|
    ensures forall k, l :: 0 <= k < l < |StarPositions(segs)| ==> StarPositions(segs)[k] < StarPositions(segs)[l]
    decreases |segs|
  {
    if segs != [] {
      var init := segs[..|segs| - 1];
      StarsIncreasing(init);
      var sp, sp0 := StarPositions(segs), StarPositions(init);
      assert forall k :: 0 <= k < |sp0| ==> sp[k] == sp0[k];
    }
  }

  lemma {:induction false} StarsComplete(segs: seq<string>)
    ensures forall i :: 0 <= i < |segs| && segs[i] == "*" ==> i in StarPositions(segs)
    decreases |segs|
  {
    if segs != [] {
      var init := segs[..|segs| - 1];
      StarsComplete(init);
      forall i | 0 <= i < |segs| && segs[i] == "*"
        ensures i in StarPositions(segs)
      {
        if i < |segs| - 1 {
          assert init[i] == "*";
        }
      }
    }
  }

  /** The label-name loop: each `*` takes the segment seen just before it. */
  method DeriveLabelNames(path: string) returns (labels: seq<string>)
    ensures labels == LabelNames(path)
  {
    var segs := Split(path, '.');
    labels := [];
    var preString := "";
    var i := 0;
    while i < |segs|
      invariant 0 <= i <= |segs|
      invariant labels == LabelNamesOf(segs[..i])
      invariant preString == Prev(segs, i)
    {
      var v := segs[i];
      assert segs[..i + 1][..i] == segs[..i];
      if v == "*" {
        labels := labels + [preString];
      }
      preString := v;
      i := i + 1;
    }
    assert segs[..i] == segs;
  }

  // ---------------------------------------------------------------- decoding

  /** The untyped `values` tree of a query result. */
  datatype Value = Leaf(text: string) | Node(children: map<string, Value>)

  /** One attribute key/value pair. */
  datatype Attr = Attr(key: string, value: string)

  /** An instrument declared with the metrics SDK from a descriptor's name, description and unit. */
  datatype Instrument =
    | ObservableCounter(name: string, desc: string, unit: string)
    | ObservableGauge(name: string, desc: string, unit: string)

  /** The instrument a map lookup yields: `None` is Go's nil. */
  type InstrumentRef = Option<Instrument>

  /** One call of `ObserveFloat64`: instrument, value and attributes in order. */
  datatype Observation = Observation(instrument: InstrumentRef, value: real, attrs: seq<Attr>)

  /** What a realization does with a leaf whose text does not parse. */
  datatype ParseFailurePolicy = SkipLeaf | ObserveAnyway

  /** `strconv.ParseFloat` returns 0 alongside a syntax error. */
  const ParseFailureValue: real := 0.0

  /** The value a leaf contributes, if it contributes one. */
  function LeafValue(text: string, policy: ParseFailurePolicy, parse: string -> Option<real>): (r: Option<real>)
    ensures parse(text).Some? ==> r == parse(text)
    ensures parse(text).None? ==> (r.Some? <==> policy == ObserveAnyway)
  {
    match parse(text)
    case Some(f) => Some(f)
    case None => if policy.SkipLeaf? then None else Some(ParseFailureValue)
  }

  /** The (key, value) pairs of the leaves directly under `m`. */
  function LeafPairs(m: map<string, Value>, policy: ParseFailurePolicy, parse: string -> Option<real>): set<(seq<string>, real)> {
    set k | k in m && m[k].Leaf? && LeafValue(m[k].text, policy, parse).Some? ::
      ([k], LeafValue(m[k].text, policy, parse).value)
  }

  /**
   * The (keys, value) pairs contributed by the leaves reachable from the map
   * `m` at nesting level `depth`; the nested loops stop at level 3, so map
   * nodes found at level 3 contribute nothing.
   */
  function EmittedLeaves(m: map<string, Value>, depth: nat, policy: ParseFailurePolicy, parse: string -> Option<real>): set<(seq<string>, real)>
    requires 1 <= depth <= 3
    decreases 3 - depth, 1
  {
    LeafPairs(m, policy, parse) + (if depth < 3 then NestedPairs(m, depth, policy, parse) else {})
  }

  /** The pairs contributed through the map nodes directly under `m`. */
  function NestedPairs(m: map<string, Value>, depth: nat, policy: ParseFailurePolicy, parse: string -> Option<real>): set<(seq<string>, real)>
    requires 1 <= depth < 3
    decreases 3 - depth, 0
  {
    set k, p | k in m && m[k].Node? && p in EmittedLeaves(m[k].children, depth + 1, policy, parse) :: ([k] + p.0, p.1)
  }

  /** Follow `keys` from `v`; the text of the leaf reached exactly at their end. */
  function LeafAt(v: Value, keys: seq<string>): Option<string>
    decreases |keys|
  {
    if keys == [] then (if v.Leaf? then Some(v.text) else None)
    else if v.Node? && keys[0] in v.children then LeafAt(v.children[keys[0]], keys[1..])
    else None
  }

  /** The leaf at `keys` exists and contributes `x`. */
  predicate Emits(v: Value, keys: seq<string>, x: real, policy: ParseFailurePolicy, parse: string -> Option<real>) {
    LeafAt(v, keys).Some? && LeafValue(LeafAt(v, keys).value, policy, parse) == Some(x)
  }

  lemma LeafPairsAt(m: map<string, Value>, keys: seq<string>, x: real, policy: ParseFailurePolicy, parse: string -> Option<real>)
    ensures (keys, x) in LeafPairs(m, policy, parse) <==> |keys| == 1 && Emits(Node(m), keys, x, policy, parse)
  {
    if |keys| == 1 {
      var k := keys[0];
      assert keys == [k];
      if k in m {
        assert LeafAt(Node(m), keys) == LeafAt(m[k], []);
      }
      if Emits(Node(m), keys, x, policy, parse) {
        assert (keys, x) == ([k], LeafValue(m[k].text, policy, parse).value);
      }
    }
  }

  lemma NestedPairsSound(m: map<string, Value>, depth: nat, keys: seq<string>, x: real, policy: ParseFailurePolicy, parse: string -> Option<real>)
    requires 1 <= depth < 3 && (keys, x) in NestedPairs(m, depth, policy, parse)
    ensures |keys| >= 2 && keys[0] in m && m[keys[0]].Node?
    ensures (keys[1..], x) in EmittedLeaves(m[keys[0]].children, depth + 1, policy, parse)
  {
    var k, p :| k in m && m[k].Node? && p in EmittedLeaves(m[k].children, depth + 1, policy, parse) && (keys, x) == ([k] + p.0, p.1);
    EmittedNonEmpty(m[k].children, depth + 1, p, policy, parse);
    assert keys[1..] == p.0;
  }

  lemma NestedPairsComplete(m: map<string, Value>, depth: nat, keys: seq<string>, x: real, policy: ParseFailurePolicy, parse: string -> Option<real>)
    requires 1 <= depth < 3 && |keys| >= 2 && keys[0] in m && m[keys[0]].Node?
    requires (keys[1..], x) in EmittedLeaves(m[keys[0]].children, depth + 1, policy, parse)
    ensures (keys, x) in NestedPairs(m, depth, policy, parse)
  {
    var k, p := keys[0], (keys[1..], x);
    assert k in m && m[k].Node? && p in EmittedLeaves(m[k].children, depth + 1, policy, parse);
    assert keys == [k] + p.0;
  }

  lemma {:induction false} EmittedNonEmpty(m: map<string, Value>, depth: nat, p: (seq<string>, real), policy: ParseFailurePolicy, parse: string -> Option<real>)
    requires 1 <= depth <= 3 && p in EmittedLeaves(m, depth, policy, parse)
    ensures 1 <= |p.0| <= 4 - depth
    decreases 3 - depth
  {
    if p !in LeafPairs(m, policy, parse) {
      var k, q :| k in m && m[k].Node? && q in EmittedLeaves(m[k].children, depth + 1, policy, parse) && p == ([k] + q.0, q.1);
      EmittedNonEmpty(m[k].children, depth + 1, q, policy, parse);
    }
  }

  /**
   * The enumeration agrees with direct lookup: a pair is emitted iff the keys
   * lead, within the remaining levels, to a leaf that contributes that value.
   */
  /** Lookup through a map node consumes the first key. */
  lemma EmitsCons(m: map<string, Value>, keys: seq<string>, x: real, policy: ParseFailurePolicy, parse: string -> Option<real>)
    requires |keys| >= 1
    ensures Emits(Node(m), keys, x, policy, parse) <==> keys[0] in m && Emits(m[keys[0]], keys[1..], x, policy, parse)
  {
    if keys[0] in m {
      assert LeafAt(Node(m), keys) == LeafAt(m[keys[0]], keys[1..]);
    }
  }

  /**
   * The enumeration agrees with direct lookup: a pair is emitted iff the keys
   * lead, within the remaining levels, to a leaf that contributes that value.
   */
  lemma {:induction false} EmittedLeavesAt(m: map<string, Value>, depth: nat, keys: seq<string>, x: real,
                                           policy: ParseFailurePolicy, parse: string -> Option<real>)
    requires 1 <= depth <= 3
    ensures (keys, x) in EmittedLeaves(m, depth, policy, parse) <==>
      1 <= |keys| <= 4 - depth && Emits(Node(m), keys, x, policy, parse)
    decreases 3 - depth
  {
    LeafPairsAt(m, keys, x, policy, parse);
    var nested := depth < 3 && (keys, x) in NestedPairs(m, depth, policy, parse);
    assert (keys, x) in EmittedLeaves(m, depth, policy, parse) <==> (keys, x) in LeafPairs(m, policy, parse) || nested;
    if nested {
      NestedPairsSound(m, depth, keys, x, policy, parse);
    }
    if |keys| >= 2 {
      EmitsCons(m, keys, x, policy, parse);
      var k, rest := keys[0], keys[1..];
      if depth < 3 && k in m && m[k].Node? {
        EmittedLeavesAt(m[k].children, depth + 1, rest, x, policy, parse);
        assert m[k] == Node(m[k].children);
        if (rest, x) in EmittedLeaves(m[k].children, depth + 1, policy, parse) {
          NestedPairsComplete(m, depth, keys, x, policy, parse);
        }
      } else if k in m && m[k].Leaf? {
        assert LeafAt(m[k], rest) == None;
      }
    }
  }

  /** The dimension attributes of one leaf: `labels[i]` paired with the key at level i+1. */
  function DimensionAttrs(labels: seq<string>, keys: seq<string>): (r: seq<Attr>)
    requires |keys| <= |labels|
    ensures |r| == |keys| && forall i :: 0 <= i < |keys| ==> r[i] == Attr(labels[i], keys[i])
  {
    seq(|keys|, i requires 0 <= i < |keys| => Attr(labels[i], keys[i]))
  }

  /**
   * The callback panics on this tree: the top level is not a map (the type
   * assertion fails), or an observed leaf sits deeper than there are label
   * names (`labels[i]` is out of range).
   */
  predicate DecodePanics(values: Value, labels: seq<string>, policy: ParseFailurePolicy, parse: string -> Option<real>) {
    values.Leaf? || exists p :: p in EmittedLeaves(values.children, 1, policy, parse) && |p.0| > |labels|
  }

  /** The observations of one result entry. */
  function DecodeTree(instrument: InstrumentRef, client: seq<Attr>, labels: seq<string>, values: Value,
                         policy: ParseFailurePolicy, parse: string -> Option<real>): (r: set<Observation>)
    requires !DecodePanics(values, labels, policy, parse)
    ensures forall o | o in r :: (o.instrument == instrument &&
      |client| + 1 <= |o.attrs| <= |client| + 3 && |o.attrs| <= |client| + |labels| &&
      o.attrs[..|client|] == client &&
      forall i :: |client| <= i < |o.attrs| ==> o.attrs[i].key == labels[i - |client|])
  {
    var leaves := EmittedLeaves(values.children, 1, policy, parse);
    assert forall p | p in leaves :: 1 <= |p.0| <= 3 by {
      forall p | p in leaves ensures 1 <= |p.0| <= 3 {
        EmittedNonEmpty(values.children, 1, p, policy, parse);
      }
    }
    set p | p in leaves :: Observation(instrument, p.1, client + DimensionAttrs(labels, p.0))
  }

  /**
   * Decoding in terms of lookup: an observation is produced iff some key
   * path of length 1 to 3 leads to a leaf that contributes its value, and it
   * carries the client attributes followed by one label per level.
   */
  lemma DecodeTreeMeaning(instrument: InstrumentRef, client: seq<Attr>, labels: seq<string>, values: Value,
                             policy: ParseFailurePolicy, parse: string -> Option<real>,
                             keys: seq<string>, x: real)
    requires !DecodePanics(values, labels, policy, parse)
    ensures 1 <= |keys| <= 3 && Emits(values, keys, x, policy, parse) ==>
      |keys| <= |labels| &&
      Observation(instrument, x, client + DimensionAttrs(labels, keys)) in DecodeTree(instrument, client, labels, values, policy, parse)
    ensures (|keys| <= |labels| &&
      Observation(instrument, x, client + DimensionAttrs(labels, keys)) in DecodeTree(instrument, client, labels, values, policy, parse)) ==>
      1 <= |keys| <= 3 && Emits(values, keys, x, policy, parse)
  {
    var leaves := EmittedLeaves(values.children, 1, policy, parse);
    EmittedLeavesAt(values.children, 1, keys, x, policy, parse);
    assert values == Node(values.children);
    var r := DecodeTree(instrument, client, labels, values, policy, parse);
    if |keys| <= |labels| && Observation(instrument, x, client + DimensionAttrs(labels, keys)) in r {
      var o := Observation(instrument, x, client + DimensionAttrs(labels, keys));
      var p :| p in leaves && o == Observation(instrument, p.1, client + DimensionAttrs(labels, p.0));
      EmittedLeavesAt(values.children, 1, p.0, p.1, policy, parse);
      DimensionAttrsInjective(client, labels, p.0, keys);
    }
  }

  /** Behind the same client attributes, equal dimension attributes name equal key paths. */
  lemma DimensionAttrsInjective(client: seq<Attr>, labels: seq<string>, k1: seq<string>, k2: seq<string>)
    requires |k1| <= |labels| && |k2| <= |labels|
    requires client + DimensionAttrs(labels, k1) == client + DimensionAttrs(labels, k2)
    ensures k1 == k2
  {
    var d1, d2 := DimensionAttrs(labels, k1), DimensionAttrs(labels, k2);
    assert (client + d1)[|client|..] == d1 && (client + d2)[|client|..] == d2;
    forall i | 0 <= i < |k1| ensures k1[i] == k2[i] {
      assert d1[i] == d2[i];
    }
  }

  /** The panic condition in terms of lookup. */
  lemma DecodePanicsMeaning(values: Value, labels: seq<string>, policy: ParseFailurePolicy, parse: string -> Option<real>)
    ensures values.Node? ==>
      (DecodePanics(values, labels, policy, parse) <==>
       exists keys, x :: 1 <= |keys| <= 3 && |keys| > |labels| && Emits(values, keys, x, policy, parse))
  {
    if values.Node? {
      if DecodePanics(values, labels, policy, parse) {
        var p :| p in EmittedLeaves(values.children, 1, policy, parse) && |p.0| > |labels|;
        EmittedLeavesAt(values.children, 1, p.0, p.1, policy, parse);
        assert values == Node(values.children);
      }
      if exists keys, x :: 1 <= |keys| <= 3 && |keys| > |labels| && Emits(values, keys, x, policy, parse) {
        var keys, x :| 1 <= |keys| <= 3 && |keys| > |labels| && Emits(values, keys, x, policy, parse);
        EmittedLeavesAt(values.children, 1, keys, x, policy, parse);
        assert values == Node(values.children);
        assert (keys, x) in EmittedLeaves(values.children, 1, policy, parse);
      }
    }
  }

  /** The observations of one tree, as a multiset. */
  function TreeObservations(instrument: InstrumentRef, client: seq<Attr>, labels: seq<string>, values: Value,
                            policy: ParseFailurePolicy, parse: string -> Option<real>): multiset<Observation>
    requires !DecodePanics(values, labels, policy, parse)
  {
    multiset(DecodeTree(instrument, client, labels, values, policy, parse))
  }

  /** One entry of a metric query result. */
  datatype ResultEntry = ResultEntry(queryId: int, path: string, values: Value)

  /** Outcome of decoding a whole result. */
  datatype Decoded = DecodePanic | Observed(observations: multiset<Observation>)

  /** What decoding one more entry does to the outcome so far. */
  function Extend(d: Decoded, e: ResultEntry, instruments: map<string, InstrumentRef>, keyCase: KeyCase, client: seq<Attr>,
                  policy: ParseFailurePolicy, parse: string -> Option<real>): Decoded
  {
    match d
    case DecodePanic => DecodePanic
    case Observed(obs) =>
      var labels := LabelNames(e.path);
      if DecodePanics(e.values, labels, policy, parse) then DecodePanic
      else Observed(obs + TreeObservations(Lookup(instruments, KeyFor(e.path, keyCase)), client, labels, e.values, policy, parse))
  }

  /** How a provider keys its instrument map: by the raw path or by the lower-cased path. */
  datatype KeyCase = AsIs | Lowered

  function KeyFor(path: string, keyCase: KeyCase): (k: string)
    ensures keyCase == AsIs ==> k == path
    ensures keyCase == Lowered ==> k == ToLower(path)
  {
    if keyCase.AsIs? then path else ToLower(path)
  }

  /** Go map indexing: a missing key reads as the nil instrument. */
  function Lookup(instruments: map<string, InstrumentRef>, key: string): (r: InstrumentRef)
    ensures key in instruments ==> r == instruments[key]
    ensures key !in instruments ==> r == None
  {
    if key in instruments then instruments[key] else None
  }

  /** The observations of all entries, in entry order, with the instrument each path is looked up to. */
  function DecodeEntries(entries: seq<ResultEntry>, instruments: map<string, InstrumentRef>, keyCase: KeyCase, client: seq<Attr>,
                            policy: ParseFailurePolicy, parse: string -> Option<real>): Decoded
    decreases |entries|
  {
    if entries == [] then Observed(multiset{})
    else Extend(DecodeEntries(entries[..|entries| - 1], instruments, keyCase, client, policy, parse),
                entries[|entries| - 1], instruments, keyCase, client, policy, parse)
  }

  /**
   * The loop over result entries that both callbacks run: labels derived per
   * entry, every tree decoded, a panic anywhere ends the callback.
   */
  method DecodeResult(entries: seq<ResultEntry>, instruments: map<string, InstrumentRef>, keyCase: KeyCase, client: seq<Attr>,
                         policy: ParseFailurePolicy, parse: string -> Option<real>) returns (r: Decoded)
    ensures r == DecodeEntries(entries, instruments, keyCase, client, policy, parse)
  {
    var obs: multiset<Observation> := multiset{};
    var i := 0;
    while i < |entries|
      invariant 0 <= i <= |entries|
      invariant DecodeEntries(entries[..i], instruments, keyCase, client, policy, parse) == Observed(obs)
    {
      var e := entries[i];
      DecodeEntriesSnoc(entries, i, instruments, keyCase, client, policy, parse);
      var labels := DeriveLabelNames(e.path);
      if DecodePanics(e.values, labels, policy, parse) {
        PanicPersists(entries, i + 1, instruments, keyCase, client, policy, parse);
        return DecodePanic;
      }
      obs := obs + TreeObservations(Lookup(instruments, KeyFor(e.path, keyCase)), client, labels, e.values, policy, parse);
      i := i + 1;
    }
    assert entries[..i] == entries;
    r := Observed(obs);
  }

  lemma DecodeEntriesSnoc(entries: seq<ResultEntry>, i: nat, instruments: map<string, InstrumentRef>, keyCase: KeyCase, client: seq<Attr>,
                          policy: ParseFailurePolicy, parse: string -> Option<real>)
    requires i < |entries|
    ensures DecodeEntries(entries[..i + 1], instruments, keyCase, client, policy, parse) ==
      Extend(DecodeEntries(entries[..i], instruments, keyCase, client, policy, parse), entries[i], instruments, keyCase, client, policy, parse)
  {
    assert entries[..i + 1][..i] == entries[..i];
  }

  lemma {:induction false} PanicPersists(entries: seq<ResultEntry>, n: nat, instruments: map<string, InstrumentRef>, keyCase: KeyCase, client: seq<Attr>,
                                            policy: ParseFailurePolicy, parse: string -> Option<real>)
    requires 1 <= n <= |entries|
    requires DecodeEntries(entries[..n], instruments, keyCase, client, policy, parse) == DecodePanic
    ensures DecodeEntries(entries, instruments, keyCase, client, policy, parse) == DecodePanic
    decreases |entries| - n
  {
    if n < |entries| {
      assert entries[..n + 1][..n] == entries[..n];
      PanicPersists(entries, n + 1, instruments, keyCase, client, policy, parse);
    } else {
      assert entries[..n] == entries;
    }
  }
}
