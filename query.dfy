/**
 * The Overpass QL text built for a country code and a location-type
 * descriptor (`build_tag_query`, `build_query`), as pure functions, with the
 * structure of that text stated as lemmas.
 */
module Query {
  import opened Wrappers
  import opened Text
  import opened Config

  /** The outcome of `build_query`: a query, `None`, or the `KeyError` on a missing "tags" key. */
  datatype BuildOutcome = Built(text: string) | NotFound | MissingTags

  /** One condition in Overpass filter syntax, `["key"="value"]`; nothing is escaped. */
  function Filter(c: Condition): (r: string)
    ensures |r| == |c.key| + |c.value| + 7
  {
    "[\"" + c.key + "\"=\"" + c.value + "\"]"
  }

  /** The key and the value appear verbatim, each between double quotes, around `=`. */
  lemma FilterLayout(c: Condition)
    ensures var r, k := Filter(c), |c.key|;
      r[..2] == "[\"" && r[2..2 + k] == c.key && r[2 + k..5 + k] == "\"=\"" &&
      r[5 + k..|r| - 2] == c.value && r[|r| - 2..] == "\"]"
  {
    var open, eq, close := "[\"", "\"=\"", "\"]";
    MiddleOf(open, c.key, eq + c.value + close);
    MiddleOf(open + c.key, eq, c.value + close);
    MiddleOf(open + c.key + eq, c.value, close);
    AppendAssoc(open, c.key, eq + c.value + close);
    AppendAssoc(open + c.key, eq, c.value + close);
    AppendAssoc(open + c.key + eq, c.value, close);
  }

  /** The list `query_parts` that `build_tag_query` collects. */
  function Filters(conds: seq<Condition>): (r: seq<string>)
    ensures |r| == |conds|
    ensures forall i :: 0 <= i < |conds| ==> r[i] == Filter(conds[i])
  {
    seq(|conds|, i requires 0 <= i < |conds| => Filter(conds[i]))
  }

  /** The tag fragment of a group: its filters joined, in declared order. */
  function TagFragment(conds: seq<Condition>): (r: string)
    ensures |r| == FiltersLength(conds)
    ensures conds == [] ==> r == ""
  {
    ConcatLength(Filters(conds));
    FiltersLengthSum(conds);
    Concat(Filters(conds))
  }

  /** The total length of the filters of `conds`: `|key| + |value| + 7` per condition. */
  function FiltersLength(conds: seq<Condition>): nat
  {
    if conds == [] then 0
    else FiltersLength(conds[..|conds| - 1]) + |conds[|conds| - 1].key| + |conds[|conds| - 1].value| + 7
  }

  lemma {:induction false} FiltersLengthSum(conds: seq<Condition>)
    ensures SumLengths(Filters(conds)) == FiltersLength(conds)
  {
    if conds != [] {
      var init := conds[..|conds| - 1];
      assert Filters(conds)[..|conds| - 1] == Filters(init);
      FiltersLengthSum(init);
    }
  }

  /** The fragment of a concatenation of condition lists is the concatenation of the fragments. */
  lemma TagFragmentAppend(a: seq<Condition>, b: seq<Condition>)
    ensures TagFragment(a + b) == TagFragment(a) + TagFragment(b)
  {
    assert Filters(a + b) == Filters(a) + Filters(b);
    ConcatAppend(Filters(a), Filters(b));
  }

  lemma TagFragmentSingle(c: Condition)
    ensures TagFragment([c]) == Filter(c)
  {
    assert Filters([c]) == [Filter(c)];
    assert Concat([Filter(c)]) == Concat([]) + Filter(c);
  }

  /** The fragment the fetcher's tests expect for one condition. */
  lemma SampleOneCondition()
    ensures TagFragment([Condition("building", "church")]) == "[\"building\"=\"church\"]"
  {
  }

  /** Condition `i`'s filter sits between the fragments of the conditions before and after it. */
  lemma TagFragmentAt(conds: seq<Condition>, i: int)
    requires 0 <= i < |conds|
    ensures TagFragment(conds) == TagFragment(conds[..i]) + Filter(conds[i]) + TagFragment(conds[i + 1..])
  {
    assert conds == conds[..i] + [conds[i]] + conds[i + 1..];
    TagFragmentAppend(conds[..i] + [conds[i]], conds[i + 1..]);
    TagFragmentAppend(conds[..i], [conds[i]]);
    assert Filters([conds[i]]) == [Filter(conds[i])];
    assert Concat([Filter(conds[i])]) == Concat([]) + Filter(conds[i]);
  }

  /** The ISO 3166-1 area scope of the query. */
  function AreaScope(code: string): string
  {
    "area[\"ISO3166-1\"=\"" + code + "\"]->.searchArea;"
  }

  // The lines of the template, without their newlines.
  const SettingsLine := "        [out:json][timeout:300];"
  const CodeCommentLine := "        // Query using ISO country code"
  const TypeCommentLine := "        // Find locations by type"
  const OpenUnionLine := "        ("
  const CloseUnionLine := "        );"
  const OutputCommentLine := "        // Output format"
  const TrailingLine := "        "

  function AreaLine(code: string): string { "        " + AreaScope(code) }
  function NodeLine(frag: string): string { "          node" + frag + "(area.searchArea);" }
  function WayLine(frag: string): string { "          way" + frag + "(area.searchArea);" }
  function RelationLine(frag: string): string { "          relation" + frag + "(area.searchArea);" }
  function OutLine(outputType: string): string { "        out " + outputType + " body;" }

  /** The opening of the template, up to the parenthesis that opens the union. */
  function Header(code: string): (r: string)
    ensures r == NewlinePrefixed(HeaderLines(code))
  {
    NewlinePrefixed5(SettingsLine, CodeCommentLine, AreaLine(code), TypeCommentLine, OpenUnionLine);
    "\n" + SettingsLine + "\n" + CodeCommentLine + "\n" + AreaLine(code)
    + "\n" + TypeCommentLine + "\n" + OpenUnionLine
  }

  /** The three statements of one tag group: node, way and relation, each filtered by `frag`. */
  function Section(frag: string): (r: string)
    ensures r == NewlinePrefixed(SectionLines(frag))
  {
    NewlinePrefixed3(NodeLine(frag), WayLine(frag), RelationLine(frag));
    "\n" + NodeLine(frag) + "\n" + WayLine(frag) + "\n" + RelationLine(frag)
  }

  /** The closing of the template with the output directive. */
  function Footer(outputType: string): (r: string)
    ensures r == NewlinePrefixed(FooterLines(outputType))
  {
    NewlinePrefixed4(CloseUnionLine, OutputCommentLine, OutLine(outputType), TrailingLine);
    "\n" + CloseUnionLine + "\n" + OutputCommentLine + "\n" + OutLine(outputType) + "\n" + TrailingLine
  }

  /** The section of each group, in declared order. */
  function SectionTexts(groups: seq<TagGroup>): (r: seq<string>)
    ensures |r| == |groups|
    ensures forall i :: 0 <= i < |groups| ==> r[i] == Section(TagFragment(groups[i].conditions))
  {
    seq(|groups|, i requires 0 <= i < |groups| => Section(TagFragment(groups[i].conditions)))
  }

  /** The whole query for a code, the descriptor's tag groups and an output type. */
  function QueryText(code: string, groups: seq<TagGroup>, outputType: string): (r: string)
    ensures r == JoinLines(QueryLines(code, groups, outputType))
  {
    SectionsAsLines(groups);
    JoinBlocks(HeaderLines(code), GroupLines(groups), FooterLines(outputType));
    Header(code) + Concat(SectionTexts(groups)) + Footer(outputType)
  }

  /** `config.get("query_type", "center")`. */
  function OutputType(d: Descriptor): (r: string)
    ensures d.queryType.Some? ==> r == d.queryType.value
    ensures d.queryType.None? ==> r == "center"
  {
    d.queryType.GetOr("center")
  }

  /**
   * `build_query` for a location-type table: `None` exactly when the type
   * lookup fails, the `KeyError` for a descriptor without "tags", and
   * otherwise that descriptor's query, which is never empty.
   */
  function QueryFor(types: map<string, Descriptor>, code: string, locationType: string): (r: BuildOutcome)
    ensures r.NotFound? <==> locationType !in types || IsEmpty(types[locationType])
    ensures r.MissingTags? <==>
              locationType in types && !IsEmpty(types[locationType]) && types[locationType].tags.None?
    ensures r.Built? ==>
              var d := types[locationType];
              d.tags.Some? && r.text == QueryText(code, d.tags.value, OutputType(d)) && |r.text| > 0
  {
    match LocationTypeConfig(types, locationType)
    case None => NotFound
    case Some(d) =>
      if d.tags.None? then MissingTags
      else
        assert |Header(code)| > 0;
        Built(QueryText(code, d.tags.value, OutputType(d)))
  }

  /** The text before the area scope, which is the same for every query. */
  const Preamble := "\n" + SettingsLine + "\n" + CodeCommentLine + "\n" + "        "

  lemma Regroup(p: string, w: string, a: string, t: string, o: string, x: string, y: string)
    ensures p + (w + a) + "\n" + t + "\n" + o + x + y == (p + w) + a + ("\n" + t + "\n" + o + (x + y))
  {
    var h := "\n" + t + "\n" + o;
    assert p + (w + a) + "\n" + t + "\n" + o == p + (w + a) + h;
    AppendAssoc(p, w, a);
    AppendAssoc(p + w + a, h, x);
    AppendAssoc(p + w + a, h + x, y);
    AppendAssoc(h, x, y);
  }

  /** The area scope follows the fixed preamble, whatever the tag groups. */
  lemma ScopeAfterPreamble(code: string, groups: seq<TagGroup>, outputType: string)
    ensures var q := QueryText(code, groups, outputType);
      |Preamble| + |AreaScope(code)| <= |q| &&
      q[..|Preamble|] == Preamble &&
      q[|Preamble|..|Preamble| + |AreaScope(code)|] == AreaScope(code)
  {
    var x, y := Concat(SectionTexts(groups)), Footer(outputType);
    Regroup("\n" + SettingsLine + "\n" + CodeCommentLine + "\n", "        ", AreaScope(code),
            TypeCommentLine, OpenUnionLine, x, y);
    MiddleOf(Preamble, AreaScope(code), "\n" + TypeCommentLine + "\n" + OpenUnionLine + (x + y));
  }

  /** The query ends with the `out <t> body;` line, then the template's closing newline and indentation. */
  lemma EndsWithOutput(code: string, groups: seq<TagGroup>, outputType: string)
    ensures var q := QueryText(code, groups, outputType);
      var tail := OutLine(outputType) + "\n" + TrailingLine;
      |tail| <= |q| && q[|q| - |tail|..] == tail
  {
    var front := Header(code) + Concat(SectionTexts(groups));
    var close := "\n" + CloseUnionLine + "\n" + OutputCommentLine + "\n";
    var tail := OutLine(outputType) + "\n" + TrailingLine;
    assert Footer(outputType) == close + OutLine(outputType) + "\n" + TrailingLine;
    AppendAssoc(close, OutLine(outputType), "\n");
    AppendAssoc(close, OutLine(outputType) + "\n", TrailingLine);
    AppendAssoc(front, close, tail);
    assert QueryText(code, groups, outputType) == (front + close) + tail;
  }

  /** Group `i`'s section sits between the sections of the groups before and after it. */
  lemma SectionsAt(groups: seq<TagGroup>, i: int)
    requires 0 <= i < |groups|
    ensures Concat(SectionTexts(groups))
         == Concat(SectionTexts(groups[..i])) + Section(TagFragment(groups[i].conditions))
            + Concat(SectionTexts(groups[i + 1..]))
  {
    var s := Section(TagFragment(groups[i].conditions));
    assert SectionTexts(groups) == SectionTexts(groups[..i]) + [s] + SectionTexts(groups[i + 1..]);
    ConcatAppend(SectionTexts(groups[..i]) + [s], SectionTexts(groups[i + 1..]));
    ConcatAppend(SectionTexts(groups[..i]), [s]);
    assert Concat([s]) == Concat([]) + s;
  }

  /** Appending a group to the list appends its section to the text. */
  lemma SectionsSnoc(groups: seq<TagGroup>, i: int)
    requires 0 <= i < |groups|
    ensures Concat(SectionTexts(groups[..i + 1]))
         == Concat(SectionTexts(groups[..i])) + Section(TagFragment(groups[i].conditions))
  {
    assert SectionTexts(groups[..i + 1])[..i] == SectionTexts(groups[..i]);
  }

  // ---------------------------------------------------------------------------
  // The line structure of the query

  function HeaderLines(code: string): seq<string>
  {
    [SettingsLine, CodeCommentLine, AreaLine(code), TypeCommentLine, OpenUnionLine]
  }

  function SectionLines(frag: string): seq<string>
  {
    [NodeLine(frag), WayLine(frag), RelationLine(frag)]
  }

  function FooterLines(outputType: string): seq<string>
  {
    [CloseUnionLine, OutputCommentLine, OutLine(outputType), TrailingLine]
  }

  /** The three lines of every group, in declared order. */
  function GroupLines(groups: seq<TagGroup>): seq<string>
  {
    if groups == [] then []
    else GroupLines(groups[..|groups| - 1]) + SectionLines(TagFragment(groups[|groups| - 1].conditions))
  }

  /** The lines of the query: an empty first line, the header, the groups, the footer. */
  function QueryLines(code: string, groups: seq<TagGroup>, outputType: string): seq<string>
  {
    [""] + HeaderLines(code) + GroupLines(groups) + FooterLines(outputType)
  }

  lemma {:induction false} SectionsAsLines(groups: seq<TagGroup>)
    ensures Concat(SectionTexts(groups)) == NewlinePrefixed(GroupLines(groups))
    decreases |groups|
  {
    if groups != [] {
      var init := groups[..|groups| - 1];
      var frag := TagFragment(groups[|groups| - 1].conditions);
      assert SectionTexts(groups)[..|groups| - 1] == SectionTexts(init);
      SectionsAsLines(init);
      NewlinePrefixedAppend(GroupLines(init), SectionLines(frag));
    }
  }

  lemma NoNewlineAppend(a: string, b: string)
    requires NoNewline(a) && NoNewline(b)
    ensures NoNewline(a + b)
  {
  }

  /** Keys and values hold no newline, so neither does the tag fragment. */
  predicate SingleLineConditions(conds: seq<Condition>)
  {
    forall i :: 0 <= i < |conds| ==> NoNewline(conds[i].key) && NoNewline(conds[i].value)
  }

  predicate SingleLineGroups(groups: seq<TagGroup>)
  {
    forall i :: 0 <= i < |groups| ==> SingleLineConditions(groups[i].conditions)
  }

  lemma FilterSingleLine(c: Condition)
    requires NoNewline(c.key) && NoNewline(c.value)
    ensures NoNewline(Filter(c))
  {
    NoNewlineAppend("[\"", c.key);
    NoNewlineAppend("[\"" + c.key, "\"=\"");
    NoNewlineAppend("[\"" + c.key + "\"=\"", c.value);
    NoNewlineAppend("[\"" + c.key + "\"=\"" + c.value, "\"]");
  }

  lemma {:induction false} FragmentSingleLine(conds: seq<Condition>)
    requires SingleLineConditions(conds)
    ensures NoNewline(TagFragment(conds))
    decreases |conds|
  {
    if conds != [] {
      var n := |conds| - 1;
      var c := conds[n];
      assert forall i :: 0 <= i < n ==> conds[..n][i] == conds[i];
      FragmentSingleLine(conds[..n]);
      TagFragmentAppend(conds[..n], [c]);
      assert conds[..n] + [c] == conds;
      TagFragmentSingle(c);
      FilterSingleLine(c);
      NoNewlineAppend(TagFragment(conds[..n]), Filter(c));
    }
  }

  lemma {:induction false} GroupLinesSingle(groups: seq<TagGroup>)
    requires SingleLineGroups(groups)
    ensures forall i :: 0 <= i < |GroupLines(groups)| ==> NoNewline(GroupLines(groups)[i])
    decreases |groups|
  {
    if groups != [] {
      var n := |groups| - 1;
      var frag := TagFragment(groups[n].conditions);
      GroupLinesSingle(groups[..n]);
      FragmentSingleLine(groups[n].conditions);
      NoNewlineAppend("          node", frag);
      NoNewlineAppend("          node" + frag, "(area.searchArea);");
      NoNewlineAppend("          way", frag);
      NoNewlineAppend("          way" + frag, "(area.searchArea);");
      NoNewlineAppend("          relation", frag);
      NoNewlineAppend("          relation" + frag, "(area.searchArea);");
    }
  }

  predicate AllSingleLine(lines: seq<string>)
  {
    forall i :: 0 <= i < |lines| ==> NoNewline(lines[i])
  }

  lemma AllSingleLineAppend(a: seq<string>, b: seq<string>)
    requires AllSingleLine(a) && AllSingleLine(b)
    ensures AllSingleLine(a + b)
  {
  }

  lemma HeaderSingleLine(code: string)
    requires NoNewline(code)
    ensures AllSingleLine(HeaderLines(code))
  {
    NoNewlineAppend("area[\"ISO3166-1\"=\"", code);
    NoNewlineAppend("area[\"ISO3166-1\"=\"" + code, "\"]->.searchArea;");
    NoNewlineAppend("        ", AreaScope(code));
    assert NoNewline(SettingsLine);
    assert NoNewline(CodeCommentLine);
    assert NoNewline(TypeCommentLine);
    assert NoNewline(OpenUnionLine);
  }

  lemma FooterSingleLine(outputType: string)
    requires NoNewline(outputType)
    ensures AllSingleLine(FooterLines(outputType))
  {
  }

  /**
   * When the code, the output type and every key and value are single-line,
   * splitting the query at its newlines gives back exactly `QueryLines`.
   */
  lemma QueryLineStructure(code: string, groups: seq<TagGroup>, outputType: string)
    requires NoNewline(code) && NoNewline(outputType) && SingleLineGroups(groups)
    ensures SplitLines(QueryText(code, groups, outputType)) == QueryLines(code, groups, outputType)
  {
    var h, g, f := HeaderLines(code), GroupLines(groups), FooterLines(outputType);
    GroupLinesSingle(groups);
    HeaderSingleLine(code);
    FooterSingleLine(outputType);
    assert AllSingleLine([""]);
    AllSingleLineAppend([""], h);
    AllSingleLineAppend([""] + h, g);
    AllSingleLineAppend([""] + h + g, f);
    SplitJoin(QueryLines(code, groups, outputType));
  }

  /** Group lines come in triples: node, way, relation for each group, in declared order. */
  lemma {:induction false} GroupLinesLength(groups: seq<TagGroup>)
    ensures |GroupLines(groups)| == 3 * |groups|
    decreases |groups|
  {
    if groups != [] {
      GroupLinesLength(groups[..|groups| - 1]);
    }
  }

  lemma {:induction false} GroupLinesAt(groups: seq<TagGroup>, i: int)
    requires 0 <= i < |groups|
    ensures |GroupLines(groups)| == 3 * |groups|
    ensures var frag := TagFragment(groups[i].conditions);
      GroupLines(groups)[3 * i] == NodeLine(frag) &&
      GroupLines(groups)[3 * i + 1] == WayLine(frag) &&
      GroupLines(groups)[3 * i + 2] == RelationLine(frag)
    decreases |groups|
  {
    var n := |groups| - 1;
    var front := GroupLines(groups[..n]);
    var last := SectionLines(TagFragment(groups[n].conditions));
    assert GroupLines(groups) == front + last;
    GroupLinesLength(groups);
    GroupLinesLength(groups[..n]);
    if i < n {
      GroupLinesAt(groups[..n], i);
      assert groups[..n][i] == groups[i];
      assert (front + last)[3 * i] == front[3 * i];
      assert (front + last)[3 * i + 1] == front[3 * i + 1];
      assert (front + last)[3 * i + 2] == front[3 * i + 2];
    } else {
      assert (front + last)[3 * i] == last[0];
      assert (front + last)[3 * i + 1] == last[1];
      assert (front + last)[3 * i + 2] == last[2];
    }
  }

  /**
   * The layout of the query lines: the area scope on line 3, a node/way/relation
   * triple per group from line 6 on, and `out <t> body;` on the second-to-last line.
   */
  lemma QueryLinesLayout(code: string, groups: seq<TagGroup>, outputType: string)
    ensures var lines := QueryLines(code, groups, outputType);
      |lines| == 10 + 3 * |groups| &&
      lines[3] == "        " + AreaScope(code) &&
      lines[|lines| - 2] == "        out " + outputType + " body;" &&
      forall i :: 0 <= i < |groups| ==>
        var frag := TagFragment(groups[i].conditions);
        lines[6 + 3 * i] == NodeLine(frag) &&
        lines[7 + 3 * i] == WayLine(frag) &&
        lines[8 + 3 * i] == RelationLine(frag)
  {
    var h, g, f := HeaderLines(code), GroupLines(groups), FooterLines(outputType);
    var lines := [""] + h + g + f;
    GroupLinesLength(groups);
    assert lines[3] == h[2];
    assert lines[|lines| - 2] == f[2];
    if groups == [] {
      assert |g| == 0;
    } else {
      GroupLinesAt(groups, 0);
    }
    forall i | 0 <= i < |groups|
      ensures var frag := TagFragment(groups[i].conditions);
        lines[6 + 3 * i] == NodeLine(frag) &&
        lines[7 + 3 * i] == WayLine(frag) &&
        lines[8 + 3 * i] == RelationLine(frag)
    {
      GroupLinesAt(groups, i);
      assert lines[6 + 3 * i] == g[3 * i];
      assert lines[7 + 3 * i] == g[3 * i + 1];
      assert lines[8 + 3 * i] == g[3 * i + 2];
    }
  }
}
