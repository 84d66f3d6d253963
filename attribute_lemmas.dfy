/** What the extractors promise, stated over `Eval` and the combinator
    accumulators. */
module AttributeLemmas {
  import opened Base
  import opened PyStrings
  import opened Xml
  import opened Attributes

  // ------------------------------------------------ locale retargeting

  /** A German locale leaves the configured path as it is. */
  lemma LocalisePathGerman(path: string, lang: string)
    requires Upper(lang) == "DE"
    ensures LocalisePath(path, lang) == path
  {
    assert "#" + Upper(lang) == "#DE";
    ReplaceSelf(path, "#DE");
  }

  /** A path without the `#DE` tag is used as configured, in every language. */
  lemma LocalisePathWithoutTag(path: string, lang: string)
    requires !Occurs(path, "#DE")
    ensures LocalisePath(path, lang) == path
  {
    ReplaceAbsent(path, "#DE", "#" + Upper(lang));
  }

  /** The path is cut at every `#DE` tag, and the pieces, none of which holds
      the tag, are rejoined with `#` + the upper-cased language. */
  lemma LocalisePathReplacesEveryTag(path: string, lang: string)
    ensures LocalisePath(path, lang) == Join(Split(path, "#DE"), "#" + Upper(lang))
    ensures Join(Split(path, "#DE"), "#DE") == path
    ensures forall k :: 0 <= k < |Split(path, "#DE")| ==> !Occurs(Split(path, "#DE")[k], "#DE")
  {
    ReplaceIsJoinOfSplit(path, "#DE", "#" + Upper(lang));
    JoinOfSplit(path, "#DE");
    SplitPiecesFree(path, "#DE");
  }

  /** A path with a single `#DE` tag is retargeted at that tag only. */
  lemma LocaliseTaggedPath(x: string, y: string, lang: string)
    requires '#' !in x && '#' !in y
    ensures LocalisePath(x + "#DE" + y, lang) == x + "#" + Upper(lang) + y
  {
    ReplaceSingle(x, "#DE", y, "#" + Upper(lang));
    assert x + ("#" + Upper(lang)) + y == x + "#" + Upper(lang) + y;
  }

  // ------------------------------------------------- location paths

  /** `XPathAttribute` never fails: it yields the first match, and `''`
      exactly when the path has no match or cannot be evaluated. */
  lemma XPathAttributeFirstMatch(p: string, lib: XmlLib, doc: XmlNode, lang: string)
    ensures var res := lib.xpath(doc, LocalisePath(p, lang));
            var r := Eval(XPathAttribute(p), lib, doc, lang);
            && r.Ok?
            && (r.value == Str("") <==> res.XPathError? || res.nodes == [])
            && (res.NodeSet? && res.nodes != [] ==> r.value == Node(res.nodes[0]))
  {
  }

  /** `XPathMultiAttribute` yields every match in document order (an empty
      list when nothing matches), and `''` when the path cannot be evaluated. */
  lemma XPathMultiAttributeAllMatches(p: string, lib: XmlLib, doc: XmlNode, lang: string)
    ensures var res := lib.xpath(doc, LocalisePath(p, lang));
            var r := Eval(XPathMultiAttribute(p), lib, doc, lang);
            && r.Ok?
            && (res.XPathError? ==> r.value == Str(""))
            && (res.NodeSet? ==>
                  && r.value.List? && |r.value.items| == |res.nodes|
                  && forall i :: 0 <= i < |res.nodes| ==> r.value.items[i] == Node(res.nodes[i]))
  {
  }

  /** `XPathTextAttribute` is the text of what `XPathAttribute` yields: the
      match's text (None when it has none), or `''` passed through. */
  lemma XPathTextAttributeProjects(p: string, lib: XmlLib, doc: XmlNode, lang: string)
    ensures var single := Eval(XPathAttribute(p), lib, doc, lang).value;
            var r := Eval(XPathTextAttribute(p), lib, doc, lang);
            && r == Ok(TextOf(single))
            && (single.Node? && single.node.text.Some? ==> r.value == Str(single.node.text.value))
            && (single.Node? && single.node.text.None? ==> r.value == Null)
            && (single == Str("") ==> r.value == Str(""))
  {
  }

  /** A list has no `text`, so `XPathMultiTextAttribute` yields exactly what
      `XPathMultiAttribute` yields. */
  lemma XPathMultiTextAttributePassesThrough(p: string, lib: XmlLib, doc: XmlNode, lang: string)
    ensures Eval(XPathMultiTextAttribute(p), lib, doc, lang) == Eval(XPathMultiAttribute(p), lib, doc, lang)
  {
  }

  // ------------------------------------------------ CombinedAttribute

  /** The strings among the results, in order; None results are skipped. */
  function StringsOf(rs: seq<Result<Value>>): seq<string>
  {
    if rs == [] then []
    else
      var last := rs[|rs| - 1];
      StringsOf(rs[..|rs| - 1]) + (if last.Ok? && last.value.Str? then [last.value.str] else [])
  }

  ghost predicate StringsOrNull(rs: seq<Result<Value>>)
  {
    forall i :: 0 <= i < |rs| ==> rs[i].Ok? && (rs[i].value.Str? || rs[i].value.Null?)
  }

  /** The accumulator succeeds exactly when every child yields a string or
      None, and is then every string followed by the separator, in order. */
  lemma {:induction false} CombinedTextJoins(rs: seq<Result<Value>>, sep: string)
    ensures CombinedText(rs, sep).Ok? <==> StringsOrNull(rs)
    ensures StringsOrNull(rs) ==> CombinedText(rs, sep) == Ok(Terminated(StringsOf(rs), sep))
    decreases |rs|
  {
    if rs != [] {
      var n := |rs|;
      var front := rs[..n - 1];
      CombinedTextJoins(front, sep);
      assert StringsOrNull(rs) <==> StringsOrNull(front) && rs[n - 1].Ok? && (rs[n - 1].value.Str? || rs[n - 1].value.Null?) by {
        assert forall i :: 0 <= i < n - 1 ==> front[i] == rs[i];
      }
      if StringsOrNull(rs) && rs[n - 1].value.Str? {
        var ss := StringsOf(front);
        var x := rs[n - 1].value.str;
        assert StringsOf(rs) == ss + [x];
        assert (ss + [x])[..|ss|] == ss;
        assert Terminated(ss + [x], sep) == Terminated(ss, sep) + x + sep;
        assert CombinedText(front, sep) == Ok(Terminated(ss, sep));
        assert CombinedText(rs, sep) == Ok(Terminated(ss, sep) + x + sep);
      } else if StringsOrNull(rs) {
        assert StringsOf(rs) == StringsOf(front) + [];
        assert StringsOf(front) + [] == StringsOf(front);
      }
    }
  }

  /** `CombinedAttribute` yields every non-None child string followed by the
      separator (default `' '`), in child order, stripped of the separator's
      characters at both ends; a child yielding an element or a list makes it
      fail. Empty-string children are kept. */
  lemma CombinedAttributeValue(cs: seq<Attribute>, sep: Option<string>, lib: XmlLib, doc: XmlNode, lang: string)
    ensures var rs := Results(cs, lib, doc, lang);
            var sp := SeparatorOf(sep);
            var r := Eval(CombinedAttribute(cs, sep), lib, doc, lang);
            && (r.Ok? <==> StringsOrNull(rs))
            && (StringsOrNull(rs) ==> r == Ok(Str(Strip(Terminated(StringsOf(rs), sp), CharsOf(sp)))))
  {
    CombinedTextJoins(Results(cs, lib, doc, lang), SeparatorOf(sep));
  }

  /** Constant extractors for the given strings. */
  function Constants(ss: seq<string>): (cs: seq<Attribute>)
    ensures |cs| == |ss|
  {
    seq(|ss|, i requires 0 <= i < |ss| => StringAttribute(ss[i]))
  }

  lemma {:induction false} StringsOfAllStrings(ss: seq<string>, rs: seq<Result<Value>>)
    requires |rs| == |ss| && forall i :: 0 <= i < |ss| ==> rs[i] == Ok(Str(ss[i]))
    ensures StringsOrNull(rs) && StringsOf(rs) == ss
    decreases |ss|
  {
    if ss != [] {
      var n := |ss|;
      StringsOfAllStrings(ss[..n - 1], rs[..n - 1]);
      assert ss[..n - 1] + [ss[n - 1]] == ss;
    }
  }

  /** Constant parts combine to their separator-terminated concatenation,
      stripped of the separator's characters. */
  lemma CombinedOfConstants(ss: seq<string>, sep: Option<string>, lib: XmlLib, doc: XmlNode, lang: string)
    ensures Eval(CombinedAttribute(Constants(ss), sep), lib, doc, lang)
         == Ok(Str(Strip(Terminated(ss, SeparatorOf(sep)), CharsOf(SeparatorOf(sep)))))
  {
    var rs := Results(Constants(ss), lib, doc, lang);
    assert forall i :: 0 <= i < |ss| ==> rs[i] == Eval(StringAttribute(ss[i]), lib, doc, lang);
    StringsOfAllStrings(ss, rs);
    CombinedAttributeValue(Constants(ss), sep, lib, doc, lang);
  }

  /** Stripping a one-character separator off the terminated concatenation
      of parts that neither start nor end with it leaves their join. */
  lemma StripTerminatedJoin(ss: seq<string>, c: char)
    requires |ss| >= 1 && ss[0] != [] && ss[|ss| - 1] != []
    requires ss[0][0] != c && ss[|ss| - 1][|ss[|ss| - 1]| - 1] != c
    ensures Strip(Terminated(ss, [c]), CharsOf([c])) == Join(ss, [c])
  {
    TerminatedIsJoin(ss, [c]);
    JoinFirst(ss, [c]);
    JoinLast(ss, [c]);
    assert CharsOf([c]) == {c};
    StripTrailing(Join(ss, [c]), c, {c});
  }

  /** With a one-character separator and non-empty parts that do not contain
      it, `CombinedAttribute` yields the separator-join of the parts, and
      splitting that on the separator gives the parts back. */
  lemma CombinedSplitRoundTrip(ss: seq<string>, c: char, lib: XmlLib, doc: XmlNode, lang: string)
    requires |ss| >= 1
    requires forall k :: 0 <= k < |ss| ==> ss[k] != [] && c !in ss[k]
    ensures Eval(CombinedAttribute(Constants(ss), Some([c])), lib, doc, lang) == Ok(Str(Join(ss, [c])))
    ensures Split(Join(ss, [c]), [c]) == ss
  {
    CombinedOfConstants(ss, Some([c]), lib, doc, lang);
    var last := ss[|ss| - 1];
    assert ss[0][0] in ss[0] && last[|last| - 1] in last;
    StripTerminatedJoin(ss, c);
    SplitOfJoin(ss, c);
  }

  lemma {:induction false} CombinedTextSkipsNull(rs1: seq<Result<Value>>, rs2: seq<Result<Value>>, sep: string)
    ensures CombinedText(rs1 + [Ok(Null)] + rs2, sep) == CombinedText(rs1 + rs2, sep)
    decreases |rs2|
  {
    if rs2 == [] {
      var whole := rs1 + [Ok(Null)] + rs2;
      assert whole == rs1 + [Ok(Null)];
      assert whole[..|rs1|] == rs1;
      assert rs1 + rs2 == rs1;
    } else {
      var n := |rs2|;
      CombinedTextSkipsNull(rs1, rs2[..n - 1], sep);
      assert (rs1 + [Ok(Null)] + rs2)[..|rs1| + 1 + n - 1] == rs1 + [Ok(Null)] + rs2[..n - 1];
      assert (rs1 + rs2)[..|rs1| + n - 1] == rs1 + rs2[..n - 1];
    }
  }

  /** A child yielding None leaves `CombinedAttribute`'s value unchanged. */
  lemma CombinedAttributeSkipsNone(cs1: seq<Attribute>, c: Attribute, cs2: seq<Attribute>, sep: Option<string>,
                                   lib: XmlLib, doc: XmlNode, lang: string)
    requires Eval(c, lib, doc, lang) == Ok(Null)
    ensures Eval(CombinedAttribute(cs1 + [c] + cs2, sep), lib, doc, lang)
         == Eval(CombinedAttribute(cs1 + cs2, sep), lib, doc, lang)
  {
    var r1 := Results(cs1, lib, doc, lang);
    var r2 := Results(cs2, lib, doc, lang);
    assert Results(cs1 + [c] + cs2, lib, doc, lang) == r1 + [Ok(Null)] + r2;
    assert Results(cs1 + cs2, lib, doc, lang) == r1 + r2;
    CombinedTextSkipsNull(r1, r2, SeparatorOf(sep));
  }

  /** One level of `Eval` on a `CombinedAttribute`. */
  lemma CombinedUnfolds(cs: seq<Attribute>, sep: Option<string>, lib: XmlLib, doc: XmlNode, lang: string)
    ensures Eval(CombinedAttribute(cs, sep), lib, doc, lang)
         == Stripped(CombinedText(Results(cs, lib, doc, lang), SeparatorOf(sep)), SeparatorOf(sep))
  {
  }

  /** An empty-string child is not skipped: it contributes another
      separator, so `x`, `''`, `y` combine to `x + "  " + y` (`'a'`, `''`,
      `'b'` give `'a  b'`). */
  lemma CombinedKeepsEmptyChildren(x: string, y: string, lib: XmlLib, doc: XmlNode, lang: string)
    requires x != [] && y != [] && x[0] != ' ' && y[|y| - 1] != ' '
    ensures Eval(CombinedAttribute([StringAttribute(x), StringAttribute(""), StringAttribute(y)], None), lib, doc, lang)
         == Ok(Str(x + "  " + y))
  {
    var cs := [StringAttribute(x), StringAttribute(""), StringAttribute(y)];
    CombinedUnfolds(cs, None, lib, doc, lang);
    assert Results(cs, lib, doc, lang) == [Ok(Str(x)), Ok(Str("")), Ok(Str(y))];
    CombinedTextJoinsThree(x, "", y, " ");
    var t := x + "  " + y;
    assert x + " " + "" + " " + y + " " == t + [' '];
    assert CharsOf(" ") == {' '};
    assert t[0] == x[0] && t[|t| - 1] == y[|y| - 1];
    StripTrailing(t, ' ', {' '});
  }

  /** So `[x, '', y]` and `[x, y]` combine differently: the latter gives
      `x + " " + y`. */
  lemma CombinedEmptyChildMatters(x: string, y: string, lib: XmlLib, doc: XmlNode, lang: string)
    requires x != [] && y != [] && x[0] != ' ' && y[|y| - 1] != ' '
    ensures Eval(CombinedAttribute([StringAttribute(x), StringAttribute(y)], None), lib, doc, lang)
         == Ok(Str(x + " " + y))
    ensures Eval(CombinedAttribute([StringAttribute(x), StringAttribute(""), StringAttribute(y)], None), lib, doc, lang)
         != Eval(CombinedAttribute([StringAttribute(x), StringAttribute(y)], None), lib, doc, lang)
  {
    CombinedKeepsEmptyChildren(x, y, lib, doc, lang);
    var cs := [StringAttribute(x), StringAttribute(y)];
    CombinedUnfolds(cs, None, lib, doc, lang);
    assert Results(cs, lib, doc, lang) == [Ok(Str(x)), Ok(Str(y))];
    CombinedTextJoinsTwo(x, y, " ");
    var t := x + " " + y;
    assert x + " " + y + " " == t + [' '];
    assert CharsOf(" ") == {' '};
    assert t[0] == x[0] && t[|t| - 1] == y[|y| - 1];
    StripTrailing(t, ' ', {' '});
    assert |x + "  " + y| != |t|;
  }

  lemma CombinedTextJoinsTwo(x: string, y: string, sep: string)
    ensures CombinedText([Ok(Str(x)), Ok(Str(y))], sep) == Ok(x + sep + y + sep)
  {
    var rs: seq<Result<Value>> := [Ok(Str(x)), Ok(Str(y))];
    var r1 := rs[..1];
    assert r1[..0] == [];
    assert "" + x + sep == x + sep;
    assert CombinedText(r1, sep) == Ok(x + sep);
  }

  lemma CombinedTextJoinsThree(x: string, y: string, z: string, sep: string)
    ensures CombinedText([Ok(Str(x)), Ok(Str(y)), Ok(Str(z))], sep) == Ok(x + sep + y + sep + z + sep)
  {
    var rs: seq<Result<Value>> := [Ok(Str(x)), Ok(Str(y)), Ok(Str(z))];
    var r1, r2 := rs[..1], rs[..2];
    assert r1[..0] == [];
    assert "" + x + sep == x + sep;
    assert CombinedText(r1, sep) == Ok(x + sep);
    assert r2[..1] == r1;
    assert CombinedText(r2, sep) == Ok(x + sep + y + sep);
    assert rs[..2] == r2;
  }

  // ------------------------------------------------- MultiAttribute

  /** Every piece of every child value, in order. */
  function AllPieces(rs: seq<Result<Value>>): seq<string>
  {
    if rs == [] then []
    else
      var last := rs[|rs| - 1];
      AllPieces(rs[..|rs| - 1])
        + (if last.Ok? && Pieces(last.value).Ok? then Pieces(last.value).value else [])
  }

  /** Every child succeeds and iterates over items that all have text. */
  ghost predicate MultiClean(rs: seq<Result<Value>>)
  {
    forall i :: 0 <= i < |rs| ==> rs[i].Ok? && Pieces(rs[i].value).Ok?
  }

  /** The accumulator succeeds exactly when every child value iterates over
      textual items, and is then every piece of every child followed by the
      separator: the children's iterations are flattened into one sequence. */
  lemma {:induction false} MultiTextFlattens(rs: seq<Result<Value>>, sep: string)
    ensures MultiText(rs, sep).Ok? <==> MultiClean(rs)
    ensures MultiClean(rs) ==> MultiText(rs, sep) == Ok(Terminated(AllPieces(rs), sep))
    decreases |rs|
  {
    if rs != [] {
      var n := |rs|;
      var front := rs[..n - 1];
      MultiTextFlattens(front, sep);
      assert MultiClean(rs) <==> MultiClean(front) && rs[n - 1].Ok? && Pieces(rs[n - 1].value).Ok? by {
        assert forall i :: 0 <= i < n - 1 ==> front[i] == rs[i];
      }
      if MultiClean(rs) {
        var ps := Pieces(rs[n - 1].value).value;
        assert AllPieces(rs) == AllPieces(front) + ps;
        TerminatedAppend(AllPieces(front), ps, sep);
      }
    }
  }

  /** A string child contributes its characters one by one. */
  lemma PiecesOfString(s: string)
    ensures Pieces(Str(s)) == Ok(seq(|s|, k requires 0 <= k < |s| => [s[k]]))
  {
    var items := Iterate(Str(s)).value;
    assert forall k | 0 <= k < |items| :: ItemText(items[k]) == Some([s[k]]);
    assert seq(|items|, k requires 0 <= k < |items| => ItemText(items[k]).value)
        == seq(|s|, k requires 0 <= k < |s| => [s[k]]);
  }

  /** The text of every element, `''` for one without text. */
  function Texts(ns: seq<XmlNode>): (ts: seq<string>)
    ensures |ts| == |ns|
    ensures forall i :: 0 <= i < |ns| && ns[i].text.Some? ==> ts[i] == ns[i].text.value
  {
    seq(|ns|, i requires 0 <= i < |ns| => if ns[i].text.Some? then ns[i].text.value else "")
  }

  /** The pieces of a list of matches are their texts, and there are none
      when a match has no text. */
  lemma PiecesOfMatches(ns: seq<XmlNode>)
    ensures (forall i :: 0 <= i < |ns| ==> ns[i].text.Some?) ==> Pieces(SelectAll(NodeSet(ns))) == Ok(Texts(ns))
    ensures (exists i :: 0 <= i < |ns| && ns[i].text.None?) ==> Pieces(SelectAll(NodeSet(ns))) == Err(TypeError)
  {
    var items := Iterate(SelectAll(NodeSet(ns))).value;
    assert |items| == |ns|;
    assert forall i :: 0 <= i < |items| ==> ItemText(items[i]) == ns[i].text;
    if forall i :: 0 <= i < |ns| ==> ns[i].text.Some? {
      assert seq(|items|, k requires 0 <= k < |items| => ItemText(items[k]).value) == Texts(ns);
    }
  }

  /** With one child, the accumulator is that child's pieces, each followed
      by the separator. */
  lemma MultiTextOne(v: Value, sep: string)
    ensures Pieces(v).Ok? ==> MultiText([Ok(v)], sep) == Ok(Terminated(Pieces(v).value, sep))
    ensures Pieces(v).Err? ==> MultiText([Ok(v)], sep) == Err(Pieces(v).error)
  {
    var rs: seq<Result<Value>> := [Ok(v)];
    assert rs[..0] == [];
    if Pieces(v).Ok? {
      assert "" + Terminated(Pieces(v).value, sep) == Terminated(Pieces(v).value, sep);
    }
  }

  /** One level of `Eval` on a `MultiAttribute` with a single child. */
  lemma MultiOfOneUnfolds(a: Attribute, sep: Option<string>, lib: XmlLib, doc: XmlNode, lang: string)
    ensures Eval(MultiAttribute([a], sep), lib, doc, lang)
         == Stripped(MultiText([Eval(a, lib, doc, lang)], SeparatorOf(sep)), SeparatorOf(sep))
  {
    assert Results([a], lib, doc, lang) == [Eval(a, lib, doc, lang)];
  }

  /** `MultiAttribute` over one `XPathMultiAttribute` child joins the texts of
      all matches with the separator; a match without text makes it fail, and
      a path that cannot be evaluated gives `''`. */
  lemma MultiOverMatches(p: string, sep: Option<string>, lib: XmlLib, doc: XmlNode, lang: string)
    ensures var res := lib.xpath(doc, LocalisePath(p, lang));
            var sp := SeparatorOf(sep);
            var r := Eval(MultiAttribute([XPathMultiAttribute(p)], sep), lib, doc, lang);
            && (res.XPathError? ==> r == Ok(Str("")))
            && (res.NodeSet? && (forall i :: 0 <= i < |res.nodes| ==> res.nodes[i].text.Some?) ==>
                  r == Ok(Str(Strip(Terminated(Texts(res.nodes), sp), CharsOf(sp)))))
            && (res.NodeSet? && (exists i :: 0 <= i < |res.nodes| && res.nodes[i].text.None?) ==>
                  r == Err(TypeError))
  {
    var res := lib.xpath(doc, LocalisePath(p, lang));
    var sp := SeparatorOf(sep);
    MultiOfOneUnfolds(XPathMultiAttribute(p), sep, lib, doc, lang);
    MultiOverValue(SelectAll(res), sp);
    if res.XPathError? {
      assert Pieces(Str("")) == Ok([]);
    } else {
      PiecesOfMatches(res.nodes);
    }
  }

  lemma MultiOverValue(v: Value, sp: string)
    ensures Pieces(v) == Ok([]) ==> Stripped(MultiText([Ok(v)], sp), sp) == Ok(Str(""))
    ensures Pieces(v).Ok? ==> Stripped(MultiText([Ok(v)], sp), sp) == Ok(Str(Strip(Terminated(Pieces(v).value, sp), CharsOf(sp))))
    ensures Pieces(v).Err? ==> Stripped(MultiText([Ok(v)], sp), sp) == Err(Pieces(v).error)
  {
    MultiTextOne(v, sp);
    if Pieces(v) == Ok([]) {
      assert Strip("", CharsOf(sp)) == "";
    }
  }

  /** A string child is iterated character by character: with a
      one-character separator not in the string, the result interleaves the
      characters with the separator (`'abc'` with `','` gives `'a,b,c'`). */
  lemma MultiSplitsStrings(s: string, c: char, lib: XmlLib, doc: XmlNode, lang: string)
    requires s != [] && c !in s
    ensures Eval(MultiAttribute([StringAttribute(s)], Some([c])), lib, doc, lang)
         == Ok(Str(Join(seq(|s|, k requires 0 <= k < |s| => [s[k]]), [c])))
  {
    MultiOfOneUnfolds(StringAttribute(s), Some([c]), lib, doc, lang);
    PiecesOfString(s);
    MultiOverValue(Str(s), [c]);
    var ps := seq(|s|, k requires 0 <= k < |s| => [s[k]]);
    assert ps[0][0] == s[0] && ps[|ps| - 1][|ps[|ps| - 1]| - 1] == s[|s| - 1];
    assert s[0] in s && s[|s| - 1] in s;
    StripTerminatedJoin(ps, c);
  }

  // ------------------------------------------------- ArrayAttribute

  /** The list holds exactly one item per child, the child's value itself,
      and it is built exactly when every child succeeds. */
  lemma {:induction false} ArrayItemsOnePerChild(rs: seq<Result<Value>>)
    ensures ArrayItems(rs).Ok? <==> forall i :: 0 <= i < |rs| ==> rs[i].Ok?
    ensures ArrayItems(rs).Ok? ==>
              && |ArrayItems(rs).value| == |rs|
              && forall i :: 0 <= i < |rs| ==> ArrayItems(rs).value[i] == rs[i].value
    decreases |rs|
  {
    if rs != [] {
      var n := |rs|;
      var front := rs[..n - 1];
      ArrayItemsOnePerChild(front);
      assert forall i :: 0 <= i < n - 1 ==> front[i] == rs[i];
    }
  }

  /** The first failing child decides the error. */
  lemma {:induction false} ArrayItemsFirstError(rs: seq<Result<Value>>, k: nat)
    requires k < |rs| && rs[k].Err? && forall j :: 0 <= j < k ==> rs[j].Ok?
    ensures ArrayItems(rs) == Err(rs[k].error)
  {
    ArrayItemsOnePerChild(rs[..k]);
    assert forall j :: 0 <= j < k ==> rs[..k][j] == rs[j];
    assert rs[..k + 1][..k] == rs[..k];
    ArrayItemsSticks(rs, k + 1);
  }

  /** `ArrayAttribute` yields the list of its children's values, one item
      per child and each value whole: a string is not split into
      characters and a list of matches is not flattened. */
  lemma ArrayAttributeValue(cs: seq<Attribute>, lib: XmlLib, doc: XmlNode, lang: string)
    ensures var r := Eval(ArrayAttribute(cs), lib, doc, lang);
            && (r.Ok? <==> forall i :: 0 <= i < |cs| ==> Eval(cs[i], lib, doc, lang).Ok?)
            && (r.Ok? ==>
                  && r.value.List? && |r.value.items| == |cs|
                  && forall i :: 0 <= i < |cs| ==> r.value.items[i] == Eval(cs[i], lib, doc, lang).value)
  {
    var rs := Results(cs, lib, doc, lang);
    ArrayItemsOnePerChild(rs);
    assert forall i :: 0 <= i < |cs| ==> rs[i] == Eval(cs[i], lib, doc, lang);
  }

  /** A string child is one item, not split into characters. */
  lemma ArrayKeepsStringsWhole(lib: XmlLib, doc: XmlNode, lang: string)
    ensures Eval(ArrayAttribute([StringAttribute("abc")]), lib, doc, lang) == Ok(List([Str("abc")]))
  {
    ArrayAttributeValue([StringAttribute("abc")], lib, doc, lang);
    var r := Eval(ArrayAttribute([StringAttribute("abc")]), lib, doc, lang);
    assert r.value.items == [Str("abc")];
  }

  /** A list-valued child ends up as one nested item. */
  lemma ArrayKeepsListsWhole(p: string, lib: XmlLib, doc: XmlNode, lang: string)
    ensures Eval(ArrayAttribute([XPathMultiAttribute(p)]), lib, doc, lang)
         == Ok(List([SelectAll(lib.xpath(doc, LocalisePath(p, lang)))]))
  {
    ArrayAttributeValue([XPathMultiAttribute(p)], lib, doc, lang);
    var r := Eval(ArrayAttribute([XPathMultiAttribute(p)]), lib, doc, lang);
    assert r.value.items == [SelectAll(lib.xpath(doc, LocalisePath(p, lang)))];
  }

  // ------------------------------------------ FirstInOrderAttribute

  /** The result is the first child value that is not `''` (None and lists
      count as non-empty), and every earlier child yielded `''`. */
  lemma {:induction false} FirstNonEmptyPicksFirst(rs: seq<Result<Value>>, k: nat)
    requires k < |rs| && rs[k] != Ok(Str(""))
    requires forall j :: 0 <= j < k ==> rs[j] == Ok(Str(""))
    ensures FirstNonEmpty(rs) == rs[k]
    decreases k
  {
    if k > 0 {
      assert forall j :: 0 <= j < k - 1 ==> rs[1..][j] == rs[j + 1];
      FirstNonEmptyPicksFirst(rs[1..], k - 1);
    }
  }

  /** When every child yields `''`, so does the extractor. */
  lemma {:induction false} FirstNonEmptyAllEmpty(rs: seq<Result<Value>>)
    requires forall j :: 0 <= j < |rs| ==> rs[j] == Ok(Str(""))
    ensures FirstNonEmpty(rs) == Ok(Str(""))
    decreases |rs|
  {
    if rs != [] {
      assert forall j :: 0 <= j < |rs| - 1 ==> rs[1..][j] == rs[j + 1];
      FirstNonEmptyAllEmpty(rs[1..]);
    }
  }

  /** With two children: the first one's value unless it is `''`, then the
      second one's. */
  lemma FirstInOrderFallback(a: Attribute, b: Attribute, lib: XmlLib, doc: XmlNode, lang: string)
    ensures Eval(FirstInOrderAttribute([a, b]), lib, doc, lang)
         == if Eval(a, lib, doc, lang) != Ok(Str("")) then Eval(a, lib, doc, lang) else Eval(b, lib, doc, lang)
  {
    var rs := Results([a, b], lib, doc, lang);
    assert Eval(FirstInOrderAttribute([a, b]), lib, doc, lang) == FirstNonEmpty(rs);
    assert rs == [Eval(a, lib, doc, lang), Eval(b, lib, doc, lang)];
    if Eval(a, lib, doc, lang) == Ok(Str("")) {
      var tail := rs[1..];
      assert tail == [Eval(b, lib, doc, lang)];
      assert tail[1..] == [];
      assert FirstNonEmpty(tail[1..]) == Ok(Str(""));
      assert FirstNonEmpty(tail) == Eval(b, lib, doc, lang);
      assert FirstNonEmpty(rs) == FirstNonEmpty(tail);
    }
  }

  // ------------------------------------------------------- totality

  /** Extractors that always yield a string or None. */
  predicate Textual(a: Attribute)
    decreases a
  {
    match a
    case StringAttribute(_) => true
    case XmlAttribute => true
    case XPathTextAttribute(_) => true
    case CombinedAttribute(cs, _) => forall i :: 0 <= i < |cs| ==> Textual(cs[i])
    case FirstInOrderAttribute(cs) => forall i :: 0 <= i < |cs| ==> Textual(cs[i])
    case _ => false
  }

  /** Extractors that never fail, whatever the document. */
  predicate Total(a: Attribute)
    decreases a
  {
    match a
    case XPathAttribute(_) => true
    case XPathMultiAttribute(_) => true
    case XPathMultiTextAttribute(_) => true
    case ArrayAttribute(cs) => forall i :: 0 <= i < |cs| ==> Total(cs[i])
    case FirstInOrderAttribute(cs) => forall i :: 0 <= i < |cs| ==> Total(cs[i])
    case _ => Textual(a)
  }

  /** `CombinedAttribute` fails only on an element or a list, so an extractor
      built from text-valued parts always yields text. */
  lemma {:induction false} TextualYieldsText(a: Attribute, lib: XmlLib, doc: XmlNode, lang: string)
    requires Textual(a)
    ensures Eval(a, lib, doc, lang).Ok?
    ensures Eval(a, lib, doc, lang).value.Str? || Eval(a, lib, doc, lang).value.Null?
    decreases a
  {
    match a
    case StringAttribute(_) =>
    case XmlAttribute =>
    case XPathTextAttribute(_) =>
    case CombinedAttribute(cs, sep) =>
      ChildrenYieldText(cs, lib, doc, lang);
      CombinedAttributeValue(cs, sep, lib, doc, lang);
    case FirstInOrderAttribute(cs) =>
      ChildrenYieldText(cs, lib, doc, lang);
      FirstNonEmptyIsOneOf(Results(cs, lib, doc, lang));
  }

  lemma {:induction false} ChildrenYieldText(cs: seq<Attribute>, lib: XmlLib, doc: XmlNode, lang: string)
    requires forall i :: 0 <= i < |cs| ==> Textual(cs[i])
    ensures StringsOrNull(Results(cs, lib, doc, lang))
    decreases cs, 0
  {
    var rs := Results(cs, lib, doc, lang);
    forall i | 0 <= i < |cs|
      ensures rs[i].Ok? && (rs[i].value.Str? || rs[i].value.Null?)
    {
      TextualYieldsText(cs[i], lib, doc, lang);
    }
  }

  /** The result is `''` or one of the children's values. */
  lemma {:induction false} FirstNonEmptyIsOneOf(rs: seq<Result<Value>>)
    ensures FirstNonEmpty(rs) == Ok(Str("")) || exists i :: 0 <= i < |rs| && rs[i] == FirstNonEmpty(rs)
    decreases |rs|
  {
    if rs != [] && rs[0] == Ok(Str("")) {
      FirstNonEmptyIsOneOf(rs[1..]);
      if FirstNonEmpty(rs[1..]) != Ok(Str("")) {
        var i :| 0 <= i < |rs[1..]| && rs[1..][i] == FirstNonEmpty(rs[1..]);
        assert rs[i + 1] == FirstNonEmpty(rs);
      }
    }
  }

  /** An extractor built from never-failing parts never fails. */
  lemma {:induction false} TotalNeverFails(a: Attribute, lib: XmlLib, doc: XmlNode, lang: string)
    requires Total(a)
    ensures Eval(a, lib, doc, lang).Ok?
    decreases a
  {
    match a
    case XPathAttribute(_) =>
    case XPathMultiAttribute(_) =>
    case XPathMultiTextAttribute(_) =>
    case ArrayAttribute(cs) =>
      ChildrenNeverFail(cs, lib, doc, lang);
      assert forall i :: 0 <= i < |cs| ==> Results(cs, lib, doc, lang)[i] == Eval(cs[i], lib, doc, lang);
      ArrayAttributeValue(cs, lib, doc, lang);
    case FirstInOrderAttribute(cs) =>
      ChildrenNeverFail(cs, lib, doc, lang);
      FirstNonEmptyIsOneOf(Results(cs, lib, doc, lang));
    case _ =>
      TextualYieldsText(a, lib, doc, lang);
  }

  lemma {:induction false} ChildrenNeverFail(cs: seq<Attribute>, lib: XmlLib, doc: XmlNode, lang: string)
    requires forall i :: 0 <= i < |cs| ==> Total(cs[i])
    ensures forall i :: 0 <= i < |cs| ==> Results(cs, lib, doc, lang)[i].Ok?
    decreases cs, 0
  {
    var rs := Results(cs, lib, doc, lang);
    forall i | 0 <= i < |cs|
      ensures rs[i].Ok?
    {
      TotalNeverFails(cs[i], lib, doc, lang);
    }
  }
}
