/** The attribute-extraction engine: a closed set of extractor kinds that
    turn a metadata document and a language into one value. `Eval` is the
    meaning of an extractor; `GetValue` is the extractor's loop-based
    evaluation, proved to compute `Eval`. */
module Attributes {
  import opened Base
  import opened PyStrings
  import opened Xml

  /** The extractor kinds. A `separator` of None means the default `' '`;
      a separator given at construction is the only configuration that
      survives into evaluation (every call supplies `xml` and `lang`). */
  datatype Attribute =
    | StringAttribute(config: string)                   // a constant
    | XmlAttribute                                       // the whole document, serialised
    | XPathAttribute(path: string)                       // the first match, or ''
    | XPathMultiAttribute(path: string)                  // all matches, or '' on a path error
    | XPathTextAttribute(path: string)                   // text of the first match
    | XPathMultiTextAttribute(path: string)              // all matches (lists have no text)
    | CombinedAttribute(children: seq<Attribute>, separator: Option<string>)
    | MultiAttribute(children: seq<Attribute>, separator: Option<string>)
    | ArrayAttribute(children: seq<Attribute>)
    | FirstInOrderAttribute(children: seq<Attribute>)

  /** The path actually evaluated: every `#DE` becomes `#` + the upper-cased language. */
  function LocalisePath(path: string, lang: string): string
  {
    Replace(path, "#DE", "#" + Upper(lang))
  }

  /** `xml.xpath(path)[0]`, with any exception (a path error, or an index
      error on an empty result) turned into `''`. */
  function SelectFirst(res: XPathResult): Value
  {
    if res.NodeSet? && |res.nodes| > 0 then Node(res.nodes[0]) else Str("")
  }

  /** `xml.xpath(path)`, with a path error turned into `''`. */
  function SelectAll(res: XPathResult): Value
  {
    match res
    case XPathError => Str("")
    case NodeSet(ns) => List(seq(|ns|, i requires 0 <= i < |ns| => Node(ns[i])))
  }

  function SeparatorOf(sep: Option<string>): string
  {
    if sep.Some? then sep.value else " "
  }

  /** The string accumulator of a combinator, stripped of the separator's
      characters at both ends. */
  function Stripped(acc: Result<string>, sep: string): Result<Value>
  {
    match acc
    case Ok(t) => Ok(Str(Strip(t, CharsOf(sep))))
    case Err(e) => Err(e)
  }

  /** The value of extractor `a` on document `doc` in language `lang`. */
  function Eval(a: Attribute, lib: XmlLib, doc: XmlNode, lang: string): Result<Value>
    decreases a
  {
    match a
    case StringAttribute(c) => Ok(Str(c))
    case XmlAttribute => Ok(Str(lib.tostring(doc)))
    case XPathAttribute(p) => Ok(SelectFirst(lib.xpath(doc, LocalisePath(p, lang))))
    case XPathMultiAttribute(p) => Ok(SelectAll(lib.xpath(doc, LocalisePath(p, lang))))
    case XPathTextAttribute(p) => Ok(TextOf(SelectFirst(lib.xpath(doc, LocalisePath(p, lang)))))
    case XPathMultiTextAttribute(p) => Ok(TextOf(SelectAll(lib.xpath(doc, LocalisePath(p, lang)))))
    case CombinedAttribute(cs, sep) =>
      Stripped(CombinedText(Results(cs, lib, doc, lang), SeparatorOf(sep)), SeparatorOf(sep))
    case MultiAttribute(cs, sep) =>
      Stripped(MultiText(Results(cs, lib, doc, lang), SeparatorOf(sep)), SeparatorOf(sep))
    case ArrayAttribute(cs) =>
      (match ArrayItems(Results(cs, lib, doc, lang))
       case Ok(vs) => Ok(List(vs))
       case Err(e) => Err(e))
    case FirstInOrderAttribute(cs) => FirstNonEmpty(Results(cs, lib, doc, lang))
  }

  /** The children's values, in child order. */
  function Results(cs: seq<Attribute>, lib: XmlLib, doc: XmlNode, lang: string): (rs: seq<Result<Value>>)
    ensures |rs| == |cs|
    decreases cs
  {
    seq(|cs|, i requires 0 <= i < |cs| => Eval(cs[i], lib, doc, lang))
  }

  /** `CombinedAttribute`'s accumulator: each non-None child value followed by
      the separator; concatenating an element or a list raises `TypeError`. */
  function CombinedText(rs: seq<Result<Value>>, sep: string): Result<string>
  {
    if rs == [] then Ok("")
    else
      match CombinedText(rs[..|rs| - 1], sep)
      case Err(e) => Err(e)
      case Ok(acc) =>
        match rs[|rs| - 1]
        case Err(e) => Err(e)
        case Ok(v) =>
          match v
          case Null => Ok(acc)
          case Str(s) => Ok(acc + s + sep)
          case _ => Err(TypeError)
  }

  /** The strings a `MultiAttribute` child contributes: the text of every item
      its value iterates over. */
  function Pieces(v: Value): Result<seq<string>>
  {
    match Iterate(v)
    case None => Err(TypeError)
    case Some(items) => ItemTexts(items)
  }

  function ItemTexts(items: seq<Value>): Result<seq<string>>
  {
    if forall k | 0 <= k < |items| :: ItemText(items[k]).Some?
    then Ok(seq(|items|, k requires 0 <= k < |items| => ItemText(items[k]).value))
    else Err(TypeError)
  }

  /** `MultiAttribute`'s accumulator: every piece of every child, each
      followed by the separator. */
  function MultiText(rs: seq<Result<Value>>, sep: string): Result<string>
  {
    if rs == [] then Ok("")
    else
      match MultiText(rs[..|rs| - 1], sep)
      case Err(e) => Err(e)
      case Ok(acc) =>
        match rs[|rs| - 1]
        case Err(e) => Err(e)
        case Ok(v) =>
          match Pieces(v)
          case Err(e) => Err(e)
          case Ok(ps) => Ok(acc + Terminated(ps, sep))
  }

  /** `ArrayAttribute`'s list: every child value appended whole. */
  function ArrayItems(rs: seq<Result<Value>>): Result<seq<Value>>
  {
    if rs == [] then Ok([])
    else
      match ArrayItems(rs[..|rs| - 1])
      case Err(e) => Err(e)
      case Ok(acc) =>
        match rs[|rs| - 1]
        case Err(e) => Err(e)
        case Ok(v) => Ok(acc + [v])
  }

  /** `FirstInOrderAttribute`: the first child value that is not `''`. */
  function FirstNonEmpty(rs: seq<Result<Value>>): Result<Value>
  {
    if rs == [] then Ok(Str(""))
    else if rs[0] != Ok(Str("")) then rs[0]
    else FirstNonEmpty(rs[1..])
  }

  // ------------------------------------------------------------ evaluation

  /** `attribute.get_value(xml=doc, lang=lang)`. */
  method GetValue(a: Attribute, lib: XmlLib, doc: XmlNode, lang: string) returns (r: Result<Value>)
    ensures r == Eval(a, lib, doc, lang)
    decreases a, 1
  {
    match a
    case StringAttribute(c) =>
      r := Ok(Str(c));
    case XmlAttribute =>
      r := Ok(Str(lib.tostring(doc)));
    case XPathAttribute(p) =>
      r := Ok(SelectFirst(lib.xpath(doc, LocalisePath(p, lang))));
    case XPathMultiAttribute(p) =>
      r := Ok(SelectAll(lib.xpath(doc, LocalisePath(p, lang))));
    case XPathTextAttribute(p) =>
      r := Ok(TextOf(SelectFirst(lib.xpath(doc, LocalisePath(p, lang)))));
    case XPathMultiTextAttribute(p) =>
      r := Ok(TextOf(SelectAll(lib.xpath(doc, LocalisePath(p, lang)))));
    case CombinedAttribute(_, _) =>
      r := GetCombinedValue(a, lib, doc, lang);
    case MultiAttribute(_, _) =>
      r := GetMultiValue(a, lib, doc, lang);
    case ArrayAttribute(_) =>
      r := GetArrayValue(a, lib, doc, lang);
    case FirstInOrderAttribute(_) =>
      r := GetFirstInOrderValue(a, lib, doc, lang);
  }

  /** `CombinedAttribute.get_value`. */
  method GetCombinedValue(a: Attribute, lib: XmlLib, doc: XmlNode, lang: string) returns (r: Result<Value>)
    requires a.CombinedAttribute?
    ensures r == Eval(a, lib, doc, lang)
    decreases a, 0
  {
    var cs := a.children;
    var separator := SeparatorOf(a.separator);
    ghost var rs := Results(cs, lib, doc, lang);
    var value := "";
    for i := 0 to |cs|
      invariant CombinedText(rs[..i], separator) == Ok(value)
    {
      var newValue := GetValue(cs[i], lib, doc, lang);
      assert rs[..i + 1][..i] == rs[..i];
      if newValue.Err? {
        CombinedTextSticks(rs, i + 1, separator);
        return newValue;
      }
      if newValue.value != Null {
        // the source evaluates the child a second time for the concatenation
        var again := GetValue(cs[i], lib, doc, lang);
        if !again.value.Str? {
          CombinedTextSticks(rs, i + 1, separator);
          return Err(TypeError);
        }
        value := value + again.value.str + separator;
      }
    }
    assert rs[..|cs|] == rs;
    r := Ok(Str(Strip(value, CharsOf(separator))));
  }

  /** `MultiAttribute.get_value`. */
  method GetMultiValue(a: Attribute, lib: XmlLib, doc: XmlNode, lang: string) returns (r: Result<Value>)
    requires a.MultiAttribute?
    ensures r == Eval(a, lib, doc, lang)
    decreases a, 0
  {
    var cs := a.children;
    var separator := SeparatorOf(a.separator);
    ghost var rs := Results(cs, lib, doc, lang);
    var value := "";
    for i := 0 to |cs|
      invariant MultiText(rs[..i], separator) == Ok(value)
    {
      var newValue := GetValue(cs[i], lib, doc, lang);
      assert rs[..i + 1][..i] == rs[..i];
      if newValue.Err? {
        MultiTextSticks(rs, i + 1, separator);
        return newValue;
      }
      var iterated := Iterate(newValue.value);
      if iterated.None? {
        // `iter(None)` fails, and so does `value + None + separator`
        MultiTextSticks(rs, i + 1, separator);
        return Err(TypeError);
      }
      var appended := AppendItemTexts(value, iterated.value, separator);
      if appended.Err? {
        MultiTextSticks(rs, i + 1, separator);
        return Err(TypeError);
      }
      value := appended.value;
    }
    assert rs[..|cs|] == rs;
    r := Ok(Str(Strip(value, CharsOf(separator))));
  }

  /** The inner loop of `MultiAttribute.get_value`: appends the text of every
      item, each followed by the separator. An item without text fails with
      `TypeError`: its own concatenation raises it, and the handler's
      `value + new_value + separator` raises it again. */
  method AppendItemTexts(value: string, items: seq<Value>, separator: string) returns (r: Result<string>)
    ensures ItemTexts(items).Ok? ==> r == Ok(value + Terminated(ItemTexts(items).value, separator))
    ensures ItemTexts(items).Err? ==> r == Err(TypeError)
  {
    var acc := value;
    ghost var texts: seq<string> := [];
    for j := 0 to |items|
      invariant |texts| == j
      invariant forall k | 0 <= k < j :: ItemText(items[k]) == Some(texts[k])
      invariant acc == value + Terminated(texts, separator)
    {
      var text := ItemText(items[j]);
      if text.None? {
        return Err(TypeError);
      }
      acc := acc + text.value + separator;
      texts := texts + [text.value];
      assert texts[..j] == texts[..|texts| - 1];
    }
    assert texts == seq(|items|, k requires 0 <= k < |items| => ItemText(items[k]).value);
    r := Ok(acc);
  }

  /** `ArrayAttribute.get_value`. */
  method GetArrayValue(a: Attribute, lib: XmlLib, doc: XmlNode, lang: string) returns (r: Result<Value>)
    requires a.ArrayAttribute?
    ensures r == Eval(a, lib, doc, lang)
    decreases a, 0
  {
    var cs := a.children;
    ghost var rs := Results(cs, lib, doc, lang);
    var value: seq<Value> := [];
    for i := 0 to |cs|
      invariant ArrayItems(rs[..i]) == Ok(value)
    {
      var newValue := GetValue(cs[i], lib, doc, lang);
      assert rs[..i + 1][..i] == rs[..i];
      if newValue.Err? {
        ArrayItemsSticks(rs, i + 1);
        return newValue;
      }
      // `self._isstr(new_value)` raises `TypeError` (the helper takes no
      // `self`), so the handler appends the value whole
      value := value + [newValue.value];
    }
    assert rs[..|cs|] == rs;
    r := Ok(List(value));
  }

  /** `FirstInOrderAttribute.get_value`. */
  method GetFirstInOrderValue(a: Attribute, lib: XmlLib, doc: XmlNode, lang: string) returns (r: Result<Value>)
    requires a.FirstInOrderAttribute?
    ensures r == Eval(a, lib, doc, lang)
    decreases a, 0
  {
    var cs := a.children;
    ghost var rs := Results(cs, lib, doc, lang);
    for i := 0 to |cs|
      invariant FirstNonEmpty(rs[i..]) == FirstNonEmpty(rs)
    {
      var value := GetValue(cs[i], lib, doc, lang);
      assert rs[i..][1..] == rs[i + 1..];
      if value != Ok(Str("")) {
        return value;
      }
    }
    r := Ok(Str(""));
  }

  // ------------------------------------------- an exception ends the loop

  lemma {:induction false} CombinedTextSticks(rs: seq<Result<Value>>, k: nat, sep: string)
    requires k <= |rs| && CombinedText(rs[..k], sep).Err?
    ensures CombinedText(rs, sep) == CombinedText(rs[..k], sep)
    decreases |rs|
  {
    if k == |rs| {
      assert rs[..k] == rs;
    } else {
      assert rs[..|rs| - 1][..k] == rs[..k];
      CombinedTextSticks(rs[..|rs| - 1], k, sep);
    }
  }

  lemma {:induction false} MultiTextSticks(rs: seq<Result<Value>>, k: nat, sep: string)
    requires k <= |rs| && MultiText(rs[..k], sep).Err?
    ensures MultiText(rs, sep) == MultiText(rs[..k], sep)
    decreases |rs|
  {
    if k == |rs| {
      assert rs[..k] == rs;
    } else {
      assert rs[..|rs| - 1][..k] == rs[..k];
      MultiTextSticks(rs[..|rs| - 1], k, sep);
    }
  }

  lemma {:induction false} ArrayItemsSticks(rs: seq<Result<Value>>, k: nat)
    requires k <= |rs| && ArrayItems(rs[..k]).Err?
    ensures ArrayItems(rs) == ArrayItems(rs[..k])
    decreases |rs|
  {
    if k == |rs| {
      assert rs[..k] == rs;
    } else {
      assert rs[..|rs| - 1][..k] == rs[..k];
      ArrayItemsSticks(rs[..|rs| - 1], k);
    }
  }
}
