/**
 * The line renderer of lib/renderer.js: turns the token list into output
 * lines. Options are normalised into literal indent strings first; then each
 * token becomes one or more raw lines, which are placed onto a growing list
 * of output lines, either glued to its last line or on a new indented line.
 * The module-level `opt` and `linesOut` of the source become the fields of a
 * `LineWriter` object created afresh by every call of `Render`.
 */
module Renderer {
  import opened Wrappers
  import opened Text
  import opened Values
  import Scanner
  import opened Parser

  /** The renderer's options; `None` is an option left `undefined`. */
  datatype Options = Options(shiftwidth: Option<Value>, attrExtraIndent: Option<Value>)

  /** The error `getIndentUnit` throws, carrying the offending value. */
  datatype ConfigError = InvalidIndent(value: Value)

  /** The deployment defaults of the configuration module: two spaces of shiftwidth, one extra space for attributes. */
  const DefaultShiftwidth: Value := Number(2.0)
  const DefaultAttrExtraIndent: Value := Number(1.0)

  const InlineStartNodes: seq<string> := ["cdata", "textnode", "br"]
  const NewlineEndNodes: seq<string> := ["g", "defs", "svg"]
  const SimpleNodes: seq<string> := ["xml", "doctype", "cdata", "comment", "closetag", "textnode"]

  /**
   * The `delimiters` table: opening and closing text per node name. Every node
   * name that is rendered has an entry, and every pair other than the one for
   * text opens with `<` and closes with `>`.
   */
  function Delimiters(name: string): (r: Option<(string, string)>)
    ensures r.Some? <==> name in SimpleNodes || name == "opentag" || name == "selfclosingtag"
    ensures r.Some? && name != "textnode" ==>
      |r.value.0| > 0 && r.value.0[0] == '<' && |r.value.1| > 0 && r.value.1[|r.value.1| - 1] == '>'
    ensures name == "textnode" ==> r == Some(("", ""))
  {
    if name == "xml" then Some(("<?xml ", "?>"))
    else if name == "doctype" then Some(("<!DOCTYPE", ">"))
    else if name == "cdata" then Some(("<![CDATA[", "]]>"))
    else if name == "comment" then Some(("<!--", "-->"))
    else if name == "textnode" then Some(("", ""))
    else if name == "opentag" then Some(("<", ">"))
    else if name == "closetag" then Some(("</", ">"))
    else if name == "selfclosingtag" then Some(("<", " />"))
    else None
  }

  /** Every simple node name has an entry in the delimiter table. */
  lemma SimpleNodesDelimited(name: string)
    requires name in SimpleNodes
    ensures Delimiters(name).Some?
  {
  }

  // ---------------------------------------------------------------------------
  // Options

  /**
   * `getIndentUnit`: a non-negative whole number gives that many spaces; a
   * string of only spaces or only tabs is used as it is; anything else is an error.
   */
  function IndentUnit(indent: Value): (r: Result<string, ConfigError>)
    ensures r.Success? <==> IsNonNegativeInteger(indent) || (indent.Str? && (OnlySpaces(indent.str) || OnlyTabs(indent.str)))
    ensures r.Success? && indent.Number? ==> |r.value| == indent.number.Floor && OnlySpaces(r.value)
    ensures r.Success? && indent.Str? ==> r.value == indent.str
    ensures r.Success? ==> OnlySpaces(r.value) || OnlyTabs(r.value)
    ensures r.Failure? ==> r.error == InvalidIndent(indent)
  {
    if IsNonNegativeInteger(indent) then
      var spaces := Repeat(" ", indent.number.Floor);
      RepeatChar(' ', indent.number.Floor);
      Success(spaces)
    else if indent.Str? && (OnlySpaces(indent.str) || OnlyTabs(indent.str)) then Success(indent.str)
    else Failure(InvalidIndent(indent))
  }

  /** The literal indent strings a render works with. */
  datatype Indents = Indents(shiftwidth: string, attrIndent: string)

  /**
   * Option normalisation: defaults replace undefined options, the shiftwidth is
   * checked first, and the attribute indent is the shiftwidth unit followed by
   * the extra-indent unit.
   */
  function NormalizeOptions(options: Options): (r: Result<Indents, ConfigError>)
    ensures var sw := options.shiftwidth.GetOr(DefaultShiftwidth);
            var extra := options.attrExtraIndent.GetOr(DefaultAttrExtraIndent);
            && (r.Success? <==> IndentUnit(sw).Success? && IndentUnit(extra).Success?)
            && (IndentUnit(sw).Failure? ==> r == Failure(InvalidIndent(sw)))
            && (IndentUnit(sw).Success? && IndentUnit(extra).Failure? ==> r == Failure(InvalidIndent(extra)))
            && (r.Success? ==> r.value.shiftwidth == IndentUnit(sw).value
                               && r.value.attrIndent == r.value.shiftwidth + IndentUnit(extra).value)
  {
    var shiftwidth := if options.shiftwidth.None? then DefaultShiftwidth else options.shiftwidth.value;
    var attrExtraIndent := if options.attrExtraIndent.None? then DefaultAttrExtraIndent else options.attrExtraIndent.value;
    match IndentUnit(shiftwidth)
    case Failure(e) => Failure(e)
    case Success(unit) =>
      match IndentUnit(attrExtraIndent)
      case Failure(e) => Failure(e)
      case Success(extra) => Success(Indents(unit, unit + extra))
  }

  /** With no options given, the shiftwidth is two spaces and attributes sit one space further in. */
  lemma DefaultIndents()
    ensures NormalizeOptions(Options(None, None)) == Success(Indents("  ", "   "))
  {
    assert (2.0).Floor == 2 && (1.0).Floor == 1;
    assert Repeat(" ", 2) == "  ";
    assert Repeat(" ", 1) == " ";
    assert "  " + " " == "   ";
  }

  // ---------------------------------------------------------------------------
  // Token classification

  /** The `name` field the tokenizer writes into each node. */
  function NodeName(t: Token): string
  {
    match t
    case ProcessingInstruction(target, _, _) => target
    case Doctype(_, _) => "doctype"
    case CData(_, _) => "cdata"
    case OpenTag(name, _, _, _) => name
    case CloseTag(_, _) => "closetag"
    case Comment(_, _) => "comment"
    case TextNode(_, _) => "textnode"
  }

  /** The `body` field the tokenizer writes into each node; open tags have none. */
  function NodeBody(t: Token): Option<string>
  {
    match t
    case ProcessingInstruction(_, body, _) => Some(body)
    case Doctype(body, _) => Some(body)
    case CData(body, _) => Some(body)
    case OpenTag(_, _, _, _) => None
    case CloseTag(name, _) => Some(name)
    case Comment(body, _) => Some(body)
    case TextNode(body, _) => Some(body)
  }

  /** How a token is rendered: wrapped in delimiters and split, as an open tag, or not at all. */
  datatype Path = Simple(open: string, close: string, body: string) | Open | TypeError

  /**
   * The dispatch as written in the render loop and `pushSimpleNodes`: by the
   * `name` field. An element whose name is a simple node name is wrapped as if it
   * were that node, with JavaScript's text for its missing body; a processing
   * instruction other than `xml` reaches `pushOpenTags`, where `Object.keys` of
   * its missing attributes throws.
   */
  function DispatchAsWritten(t: Token): (p: Path)
    // a token takes the simple path exactly when its name is a simple node name, in that name's delimiters
    ensures p.Simple? <==> NodeName(t) in SimpleNodes
    ensures p.Simple? ==> Delimiters(NodeName(t)) == Some((p.open, p.close))
    // a token that is neither simple by name nor an open tag has no path
    ensures p.TypeError? <==> NodeName(t) !in SimpleNodes && !t.OpenTag?
  {
    var name := NodeName(t);
    if name in SimpleNodes then
      var delims := Delimiters(name).value;
      Simple(delims.0, delims.1, NodeBody(t).GetOr("undefined"))
    else if t.OpenTag? then Open
    else TypeError
  }

  /** The inline-start test as written in `pushLines`: by the `name` and `body` fields. */
  function InlineStartAsWritten(t: Token): (b: bool)
    // close tags, CDATA, text, comments and doctypes are tested as their kind is
    ensures !t.OpenTag? && !t.ProcessingInstruction? ==> (b <==> InlineStart(t))
    // elements and processing instructions are tested by their own name
    ensures (t.OpenTag? || t.ProcessingInstruction?) && NodeName(t) != "closetag" ==> (b <==> NodeName(t) in InlineStartNodes)
  {
    var name := NodeName(t);
    name in InlineStartNodes
    || (name == "closetag" && !(NodeBody(t).Some? && NodeBody(t).value in NewlineEndNodes))
  }

  /**
   * The dispatch by token kind: open tags as open tags, everything else wrapped in
   * its kind's delimiters. A processing instruction is wrapped as `<?target body?>`,
   * which for `xml` is the table's entry.
   */
  function Dispatch(t: Token): (p: Path)
    ensures p.Open? <==> t.OpenTag?
    ensures !t.OpenTag? ==> p.Simple? && p.body == NodeBody(t).value
  {
    match t
    case ProcessingInstruction(target, body, _) => Simple("<?" + target + " ", "?>", body)
    case Doctype(body, _) => Simple("<!DOCTYPE", ">", body)
    case CData(body, _) => Simple("<![CDATA[", "]]>", body)
    case OpenTag(_, _, _, _) => Open
    case CloseTag(name, _) => Simple("</", ">", name)
    case Comment(body, _) => Simple("<!--", "-->", body)
    case TextNode(body, _) => Simple("", "", body)
  }

  /**
   * Every token that is not an open tag is wrapped in the table's delimiters for
   * its `name`; a processing instruction's are `<?target ` and `?>`, the table's
   * `xml` entry for target `xml`.
   */
  lemma DispatchFollowsTable(t: Token)
    requires !t.OpenTag?
    ensures t.ProcessingInstruction? ==> Dispatch(t) == Simple("<?" + t.target + " ", "?>", t.body)
    ensures t.ProcessingInstruction? && t.target == "xml" ==> Delimiters(NodeName(t)) == Some((Dispatch(t).open, Dispatch(t).close))
    ensures !t.ProcessingInstruction? ==> Delimiters(NodeName(t)) == Some((Dispatch(t).open, Dispatch(t).close))
  {
    if t.ProcessingInstruction? && t.target == "xml" {
      assert "<?" + "xml" + " " == "<?xml ";
    }
  }

  /** The open-tag rows of the table: `<` and `>`, or `<` and ` />` for a self-closing tag. */
  function OpenTagDelimiters(isSelfClosing: bool): (string, string)
  {
    if isSelfClosing then ("<", " />") else ("<", ">")
  }

  /** They are the table's `selfclosingtag` and `opentag` entries. */
  lemma OpenTagDelimitersFollowTable(isSelfClosing: bool)
    ensures Delimiters(if isSelfClosing then "selfclosingtag" else "opentag") == Some(OpenTagDelimiters(isSelfClosing))
  {
  }

  /**
   * A token's first line is glued to the last output line when it is CDATA, text
   * or a `br` element, or when it closes an element other than `g`, `defs` and `svg`.
   */
  predicate InlineStart(t: Token)
  {
    t.CData? || t.TextNode? || (t.OpenTag? && t.name == "br")
    || (t.CloseTag? && t.name !in NewlineEndNodes)
  }

  /**
   * Kind by kind: text content is glued; an element only when it is `br`; a close
   * tag unless it closes `g`, `defs` or `svg`; comments, doctypes and processing
   * instructions never.
   */
  lemma InlineStartByKind(t: Token)
    ensures t.CData? || t.TextNode? ==> InlineStart(t)
    ensures t.OpenTag? ==> (InlineStart(t) <==> t.name == "br")
    ensures t.CloseTag? ==> (InlineStart(t) <==> t.name !in ["g", "defs", "svg"])
    ensures t.Comment? || t.Doctype? || t.ProcessingInstruction? ==> !InlineStart(t)
  {
  }

  /** A token whose name field collides with a name the dispatch reserves for another kind. */
  predicate NameCollides(t: Token)
  {
    (t.OpenTag? && t.name in SimpleNodes) || (t.ProcessingInstruction? && t.target != "xml")
  }

  /** Where names do not collide, the dispatch and the inline test as written agree with the kind-based ones. */
  lemma AsWrittenAgrees(t: Token)
    requires !NameCollides(t)
    ensures DispatchAsWritten(t) == Dispatch(t)
    ensures InlineStartAsWritten(t) == InlineStart(t)
  {
  }

  /** As written, the element `<comment/>` is rendered as the comment `<!--undefined-->`. */
  lemma CommentElementAsWritten()
    ensures var t := OpenTag("comment", [], true, 0);
      DispatchAsWritten(t) == Simple("<!--", "-->", "undefined") && Dispatch(t) == Open
  {
  }

  /** As written, a stylesheet processing instruction makes the renderer throw. */
  lemma StylesheetAsWritten()
    ensures var t := ProcessingInstruction("xml-stylesheet", "href=\"a.css\"", 0);
      DispatchAsWritten(t) == TypeError && Dispatch(t) == Simple("<?xml-stylesheet ", "?>", "href=\"a.css\"")
  {
    assert "xml-stylesheet" !in SimpleNodes by {
      assert "xml-stylesheet"[3] != "xml"[0];
    }
  }

  // ---------------------------------------------------------------------------
  // Raw lines of one token

  /** A non-open token as raw lines: its delimited text, split at newlines. */
  function SimpleLines(t: Token): (r: seq<string>)
    requires !t.OpenTag?
    ensures |r| >= 1
  {
    var p := Dispatch(t);
    Split(p.open + p.body + p.close)
  }

  /**
   * A non-open token's lines hold no newline, and joined with newlines they give
   * back its opening delimiter, body and closing delimiter.
   */
  lemma SimpleLinesRejoin(t: Token)
    requires !t.OpenTag?
    ensures forall k | 0 <= k < |SimpleLines(t)| :: NoNewline(SimpleLines(t)[k])
    ensures Join(SimpleLines(t)) == Dispatch(t).open + Dispatch(t).body + Dispatch(t).close
  {
    var p := Dispatch(t);
    SplitNoNewline(p.open + p.body + p.close);
    JoinSplit(p.open + p.body + p.close);
  }

  /** `Object.keys(attributes)`, in the scanner's order. */
  function AttributeNames(attributes: seq<Scanner.Attribute>): (r: seq<string>)
    ensures |r| == |attributes| && forall i | 0 <= i < |r| :: r[i] == attributes[i].name
  {
    seq(|attributes|, i requires 0 <= i < |attributes| => attributes[i].name)
  }

  /** `attributes[name]`: the value recorded for `name`. */
  function Lookup(attributes: seq<Scanner.Attribute>, name: string): (v: string)
    requires name in AttributeNames(attributes)
  {
    if attributes[0].name == name then attributes[0].value
    else
      assert AttributeNames(attributes) == [attributes[0].name] + AttributeNames(attributes[1..]);
      Lookup(attributes[1..], name)
  }

  /** The value looked up is the value of the first attribute with that name. */
  lemma {:induction false} LookupFinds(attributes: seq<Scanner.Attribute>, name: string) returns (i: nat)
    requires name in AttributeNames(attributes)
    ensures i < |attributes| && attributes[i] == Scanner.Attribute(name, Lookup(attributes, name))
    ensures forall j | 0 <= j < i :: attributes[j].name != name
  {
    if attributes[0].name == name {
      i := 0;
    } else {
      var rest := attributes[1..];
      var m :| 0 <= m < |attributes| && AttributeNames(attributes)[m] == name;
      assert AttributeNames(rest)[m - 1] == name;
      var k := LookupFinds(rest, name);
      i := k + 1;
      assert attributes[i] == rest[k];
      forall j | 0 <= j < i ensures attributes[j].name != name {
        if j > 0 {
          assert attributes[j] == rest[j - 1];
        }
      }
    }
  }

  /** One attribute line: `indent` then `name="value"`. */
  function AttributeLine(attributes: seq<Scanner.Attribute>, name: string, indent: string): string
    requires name in AttributeNames(attributes)
  {
    indent + name + "=\"" + Lookup(attributes, name) + "\""
  }

  function AttributeLines(attributes: seq<Scanner.Attribute>, names: seq<string>, indent: string): (r: seq<string>)
    requires forall k | 0 <= k < |names| :: names[k] in AttributeNames(attributes)
    ensures |r| == |names|
    ensures forall k | 0 <= k < |names| :: r[k] == AttributeLine(attributes, names[k], indent)
  {
    if names == [] then []
    else AttributeLines(attributes, names[..|names| - 1], indent) + [AttributeLine(attributes, names[|names| - 1], indent)]
  }

  /** One more name adds one more line. */
  lemma AttributeLinesSnoc(attributes: seq<Scanner.Attribute>, names: seq<string>, j: nat, indent: string)
    requires j < |names| && forall k | 0 <= k < |names| :: names[k] in AttributeNames(attributes)
    ensures AttributeLines(attributes, names[..j + 1], indent)
         == AttributeLines(attributes, names[..j], indent) + [AttributeLine(attributes, names[j], indent)]
  {
    assert names[..j + 1][..j] == names[..j];
  }

  /** The attribute names of a tag in the order they are rendered. */
  function SortedNames(attributes: seq<Scanner.Attribute>): (r: seq<string>)
    ensures |r| == |attributes|
    ensures forall k | 0 <= k < |r| :: r[k] in AttributeNames(attributes)
  {
    var r := Sort(AttributeNames(attributes));
    assert |r| == |multiset(r)| == |multiset(AttributeNames(attributes))| == |attributes|;
    assert forall k | 0 <= k < |r| :: r[k] in multiset(r);
    r
  }

  /** The rendered order is ascending and holds exactly the tag's attribute names. */
  lemma SortedNamesAscending(attributes: seq<Scanner.Attribute>)
    ensures Sorted(SortedNames(attributes))
    ensures multiset(SortedNames(attributes)) == multiset(AttributeNames(attributes))
  {
  }

  /**
   * An open tag as raw lines: `<` and the name; then one line per attribute in
   * ascending name order, indented by `indent(depth)` and the attribute indent;
   * `>` (or ` />` when self-closing) ends the last line.
   */
  function OpenTagLines(t: Token, indents: Indents): (r: seq<string>)
    requires t.OpenTag?
    ensures |r| == |t.attributes| + 1
  {
    var delims := OpenTagDelimiters(t.isSelfClosing);
    var names := SortedNames(t.attributes);
    var indent := Repeat(indents.shiftwidth, t.depth) + indents.attrIndent;
    var lines := [delims.0 + t.name] + AttributeLines(t.attributes, names, indent);
    lines[|lines| - 1 := lines[|lines| - 1] + delims.1]
  }

  /**
   * The layout of an open tag: `<` and the name on the first line; then one line
   * per attribute in ascending name order, indented by `indent(depth)` and the
   * attribute indent, as `name="value"`; `>` (or ` />` when self-closing) ends
   * the last line.
   */
  lemma OpenTagLayout(t: Token, indents: Indents)
    requires t.OpenTag?
    ensures var r := OpenTagLines(t, indents);
      var close := if t.isSelfClosing then " />" else ">";
      var names := SortedNames(t.attributes);
      var indent := Repeat(indents.shiftwidth, t.depth) + indents.attrIndent;
      && r[0] == "<" + t.name + (if |names| == 0 then close else "")
      && forall k | 0 <= k < |names| ::
           r[k + 1] == indent + names[k] + "=\"" + Lookup(t.attributes, names[k]) + "\"" + (if k == |names| - 1 then close else "")
  {
  }

  function TokenLines(t: Token, indents: Indents): (r: seq<string>)
    ensures |r| >= 1
  {
    if t.OpenTag? then OpenTagLines(t, indents) else SimpleLines(t)
  }

  // ---------------------------------------------------------------------------
  // Placement

  /**
   * `pushLines` on values: glued, the first raw line is appended to the last
   * output line (and lost when there is none, since the source then writes to
   * index -1, which is not an array element); otherwise it starts a new line
   * after `indent`. Later raw lines follow as new lines.
   */
  function Place(out: seq<string>, lines: seq<string>, inline: bool, indent: string): (r: seq<string>)
    requires |lines| >= 1
    // earlier lines are never touched, and the count grows by |lines|, one less when glued
    ensures |r| == |out| + |lines| - (if inline then 1 else 0)
    ensures forall i {:trigger r[i]} | 0 <= i < |out| - 1 :: r[i] == out[i]
    // the first raw line: glued onto the last output line, or a new indented line after it
    ensures inline && |out| > 0 ==> r[|out| - 1] == out[|out| - 1] + lines[0]
    ensures !inline && |out| > 0 ==> r[|out| - 1] == out[|out| - 1]
    ensures !inline ==> r[|out|] == indent + lines[0]
    // the later raw lines close the output, verbatim
    ensures forall j | 1 <= j < |lines| :: r[|r| - |lines| + j] == lines[j]
  {
    if inline then
      if |out| > 0 then out[..|out| - 1] + [out[|out| - 1] + lines[0]] + lines[1..]
      else lines[1..]
    else out + [indent + lines[0]] + lines[1..]
  }

  /** What placing one token needs: its raw lines, whether they are glued, and the indent for a new line. */
  datatype Group = Group(lines: seq<string>, inline: bool, indent: string)

  function TokenGroup(t: Token, indents: Indents): (g: Group)
    ensures |g.lines| >= 1
  {
    Group(TokenLines(t, indents), InlineStart(t), Repeat(indents.shiftwidth, t.depth))
  }

  predicate NonEmptyGroups(groups: seq<Group>)
  {
    forall i | 0 <= i < |groups| :: |groups[i].lines| >= 1
  }

  /** The output lines after placing the first `n` groups in order onto an empty output. */
  function PlaceAll(groups: seq<Group>, n: nat): seq<string>
    requires NonEmptyGroups(groups) && n <= |groups|
  {
    if n == 0 then []
    else Place(PlaceAll(groups, n - 1), groups[n - 1].lines, groups[n - 1].inline, groups[n - 1].indent)
  }

  /** Placing depends only on the groups placed. */
  lemma {:induction false} PlaceAllPrefix(groups: seq<Group>, others: seq<Group>, n: nat)
    requires NonEmptyGroups(groups) && NonEmptyGroups(others) && n <= |groups| && n <= |others|
    requires forall k | 0 <= k < n :: groups[k] == others[k]
    ensures PlaceAll(groups, n) == PlaceAll(others, n)
  {
    if n > 0 {
      PlaceAllPrefix(groups, others, n - 1);
    }
  }

  function Groups(tokens: seq<Token>, indents: Indents): (r: seq<Group>)
    ensures |r| == |tokens| && NonEmptyGroups(r)
    ensures forall i | 0 <= i < |tokens| :: r[i] == TokenGroup(tokens[i], indents)
  {
    seq(|tokens|, i requires 0 <= i < |tokens| => TokenGroup(tokens[i], indents))
  }

  /** The output lines after the given tokens, placed in order. */
  function Rendered(tokens: seq<Token>, indents: Indents): seq<string>
  {
    PlaceAll(Groups(tokens, indents), |tokens|)
  }

  /** The exported renderer as a function: normalise the options, then place every token. */
  function Rendering(tokens: seq<Token>, options: Options): (r: Result<seq<string>, ConfigError>)
    // invalid options fail before any line is produced, with the options' error
    ensures r.Success? <==> NormalizeOptions(options).Success?
    ensures r.Failure? ==> r.error == NormalizeOptions(options).error
  {
    match NormalizeOptions(options)
    case Failure(e) => Failure(e)
    case Success(indents) => Success(Rendered(tokens, indents))
  }

  /**
   * Placing later groups never changes a line before the last line so far, and
   * never shrinks the output.
   */
  lemma {:induction false} EarlierLinesKept(groups: seq<Group>, i: nat, n: nat)
    requires NonEmptyGroups(groups) && i <= n <= |groups|
    ensures var before := PlaceAll(groups, i);
      var after := PlaceAll(groups, n);
      && |before| <= |after|
      && forall k | 0 <= k < |before| - 1 :: after[k] == before[k]
  {
    if i < n {
      EarlierLinesKept(groups, i, n - 1);
    }
  }

  /** For tokens: later tokens leave every line before the last line so far as it was. */
  lemma RenderedKeepsEarlierLines(tokens: seq<Token>, i: nat, indents: Indents)
    requires i <= |tokens|
    ensures var before := Rendered(tokens[..i], indents);
      var after := Rendered(tokens, indents);
      && |before| <= |after|
      && forall k | 0 <= k < |before| - 1 :: after[k] == before[k]
  {
    var groups := Groups(tokens, indents);
    PlaceAllPrefix(Groups(tokens[..i], indents), groups, i);
    EarlierLinesKept(groups, i, |tokens|);
  }

  /** An open tag without attributes is one line: `<name>`, or `<name />` when self-closing. */
  lemma BareOpenTagLines(t: Token, indents: Indents)
    requires t.OpenTag? && t.attributes == []
    ensures OpenTagLines(t, indents) == ["<" + t.name + (if t.isSelfClosing then " />" else ">")]
  {
    assert SortedNames([]) == [];
    var indent := Repeat(indents.shiftwidth, t.depth) + indents.attrIndent;
    assert AttributeLines([], [], indent) == [];
  }

  /** A close tag whose name holds no newline is the one line `</name>`. */
  lemma CloseTagLines(t: Token)
    requires t.CloseTag? && NoNewline(t.name)
    ensures SimpleLines(t) == ["</" + t.name + ">"]
  {
    var line := "</" + t.name + ">";
    assert NoNewline(line) by {
      forall i | 0 <= i < |line| ensures line[i] != '\n' {
        if 2 <= i < |line| - 1 {
          assert line[i] == t.name[i - 2];
        }
      }
    }
    SplitLine(line);
  }

  /** An open tag without attributes other than `br` is placed as one line on a new indented line. */
  lemma BareOpenTagGroup(t: Token, indents: Indents)
    requires t.OpenTag? && t.attributes == [] && t.name != "br"
    ensures TokenGroup(t, indents)
         == Group(["<" + t.name + (if t.isSelfClosing then " />" else ">")], false, Repeat(indents.shiftwidth, t.depth))
  {
    BareOpenTagLines(t, indents);
  }

  /** A close tag is placed as the one line `</name>`, glued unless it closes `g`, `defs` or `svg`. */
  lemma CloseTagGroup(t: Token, indents: Indents)
    requires t.CloseTag? && NoNewline(t.name)
    ensures TokenGroup(t, indents)
         == Group(["</" + t.name + ">"], t.name !in NewlineEndNodes, Repeat(indents.shiftwidth, t.depth))
  {
    CloseTagLines(t);
  }

  /** The groups of a token list are its tokens' groups, one by one. */
  lemma GroupsOf(tokens: seq<Token>, indents: Indents, groups: seq<Group>)
    requires |tokens| == |groups|
    requires forall i | 0 <= i < |tokens| :: TokenGroup(tokens[i], indents) == groups[i]
    ensures Groups(tokens, indents) == groups
  {
  }

  /**
   * An element of `g`, `defs` or `svg` holding another one: four one-line groups,
   * none glued, the inner ones indented one level.
   */
  lemma NestedContainerGroups(name: string, indents: Indents)
    requires name in NewlineEndNodes && NoNewline(name)
    ensures Groups([OpenTag(name, [], false, 0), OpenTag(name, [], false, 1), CloseTag(name, 1), CloseTag(name, 0)], indents)
         == [Group(["<" + name + ">"], false, ""), Group(["<" + name + ">"], false, indents.shiftwidth),
             Group(["</" + name + ">"], false, indents.shiftwidth), Group(["</" + name + ">"], false, "")]
  {
    var sw := indents.shiftwidth;
    assert Repeat(sw, 0) == "";
    assert Repeat(sw, 1) == sw + "" == sw;
    assert name != "br";
    var t0, t1, t2, t3 := OpenTag(name, [], false, 0), OpenTag(name, [], false, 1), CloseTag(name, 1), CloseTag(name, 0);
    BareOpenTagGroup(t0, indents);
    BareOpenTagGroup(t1, indents);
    CloseTagGroup(t2, indents);
    CloseTagGroup(t3, indents);
    GroupsOf([t0, t1, t2, t3], indents,
      [Group(["<" + name + ">"], false, ""), Group(["<" + name + ">"], false, sw),
       Group(["</" + name + ">"], false, sw), Group(["</" + name + ">"], false, "")]);
  }

  /** Placing four unglued one-line groups gives four lines, each after its indent. */
  lemma NestedGroupsPlaced()
    ensures PlaceAll([Group(["<g>"], false, ""), Group(["<g>"], false, "  "), Group(["</g>"], false, "  "), Group(["</g>"], false, "")], 4)
         == ["<g>", "  <g>", "  </g>", "</g>"]
  {
    var groups := [Group(["<g>"], false, ""), Group(["<g>"], false, "  "), Group(["</g>"], false, "  "), Group(["</g>"], false, "")];
    assert "" + "<g>" == "<g>" && "  " + "<g>" == "  <g>" && "  " + "</g>" == "  </g>" && "" + "</g>" == "</g>";
    assert ["<g>"][1..] == [] && ["</g>"][1..] == [];
    assert PlaceAll(groups, 1) == ["<g>"];
    assert PlaceAll(groups, 2) == ["<g>", "  <g>"];
    assert PlaceAll(groups, 3) == ["<g>", "  <g>", "  </g>"];
  }

  /** The concrete case `<g><g></g></g>` with the default options. */
  lemma NestedGroups()
    ensures Rendering([OpenTag("g", [], false, 0), OpenTag("g", [], false, 1), CloseTag("g", 1), CloseTag("g", 0)],
                      Options(None, None))
         == Success(["<g>", "  <g>", "  </g>", "</g>"])
  {
    var indents := Indents("  ", "   ");
    DefaultIndents();
    NestedContainerGroups("g", indents);
    assert "<" + "g" + ">" == "<g>" && "</" + "g" + ">" == "</g>";
    NestedGroupsPlaced();
  }

  // ---------------------------------------------------------------------------
  // The imperative renderer

  /** The renderer's state during one call: the normalised options and the output lines so far. */
  class LineWriter {
    const shiftwidth: string
    const attrIndent: string
    var linesOut: seq<string>

    function Indentation(): Indents
    {
      Indents(shiftwidth, attrIndent)
    }

    constructor (indents: Indents)
      ensures Indentation() == indents && linesOut == []
    {
      shiftwidth := indents.shiftwidth;
      attrIndent := indents.attrIndent;
      linesOut := [];
    }

    /** `getIndentString`: `level` copies of the shiftwidth unit. */
    method IndentString(level: nat) returns (result: string)
      ensures result == Repeat(shiftwidth, level)
    {
      result := "";
      var remaining: nat := level;
      while remaining != 0
        invariant remaining <= level
        invariant result == Repeat(shiftwidth, level - remaining)
      {
        RepeatAppend(shiftwidth, level - remaining);
        result := result + shiftwidth;
        remaining := remaining - 1;
      }
    }

    /** `appendLines`: pushes `lines[start..]` one by one. */
    method AppendLines(lines: seq<string>, start: nat)
      requires start <= |lines|
      modifies this
      ensures linesOut == old(linesOut) + lines[start..]
    {
      var i := start;
      while i < |lines|
        invariant start <= i <= |lines|
        invariant linesOut == old(linesOut) + lines[start..i]
      {
        linesOut := linesOut + [lines[i]];
        i := i + 1;
      }
    }

    /** `pushLines`. */
    method PushLines(node: Token, lines: seq<string>)
      requires |lines| >= 1
      modifies this
      ensures linesOut == Place(old(linesOut), lines, InlineStart(node), Repeat(shiftwidth, node.depth))
    {
      var inlineStart := node.CData? || node.TextNode? || (node.OpenTag? && node.name == "br")
        || (node.CloseTag? && node.name !in NewlineEndNodes);
      if inlineStart {
        if |linesOut| > 0 {
          linesOut := linesOut[|linesOut| - 1 := linesOut[|linesOut| - 1] + lines[0]];
        }
        // with no output yet the source writes to index -1, which is no element: the line is lost
        AppendLines(lines, 1);
      } else {
        var indent := IndentString(node.depth);
        var indented := lines[0 := indent + lines[0]];
        AppendLines(indented, 0);
        assert indented[1..] == lines[1..];
      }
    }

    /** `pushSimpleNodes`. */
    method PushSimpleNode(node: Token)
      requires !node.OpenTag?
      modifies this
      ensures linesOut == Place(old(linesOut), SimpleLines(node), InlineStart(node), Repeat(shiftwidth, node.depth))
    {
      var path := Dispatch(node);
      var result := path.open + path.body + path.close;
      PushLines(node, Split(result));
    }

    /** `pushOpenTags`. */
    method PushOpenTag(node: Token)
      requires node.OpenTag?
      modifies this
      ensures linesOut == Place(old(linesOut), OpenTagLines(node, Indentation()), InlineStart(node), Repeat(shiftwidth, node.depth))
    {
      ghost var before := linesOut;
      var result: seq<string> := [];
      var attrOrder := AttributeNames(node.attributes);
      var indent := IndentString(node.depth);
      var attrFullIndent := indent + attrIndent;
      var delims := OpenTagDelimiters(node.isSelfClosing);
      result := result + [delims.0 + node.name];
      attrOrder := Sort(attrOrder);
      ghost var names := SortedNames(node.attributes);
      assert attrOrder == names;
      var j := 0;
      while j < |attrOrder|
        invariant 0 <= j <= |attrOrder|
        invariant result == [delims.0 + node.name] + AttributeLines(node.attributes, names[..j], attrFullIndent)
        invariant linesOut == before
      {
        AttributeLinesSnoc(node.attributes, names, j, attrFullIndent);
        result := result + [attrFullIndent + attrOrder[j] + "=\"" + Lookup(node.attributes, attrOrder[j]) + "\""];
        j := j + 1;
      }
      result := result[|result| - 1 := result[|result| - 1] + delims.1];
      assert result == OpenTagLines(node, Indentation()) by {
        assert names[..j] == names;
        assert attrFullIndent == Repeat(shiftwidth, node.depth) + attrIndent;
      }
      PushLines(node, result);
    }

    /** The body of the render loop: open tags go to `pushOpenTags`, every other token to `pushSimpleNodes`. */
    method PushToken(node: Token)
      modifies this
      ensures var g := TokenGroup(node, Indentation()); linesOut == Place(old(linesOut), g.lines, g.inline, g.indent)
    {
      if node.OpenTag? {
        PushOpenTag(node);
      } else {
        PushSimpleNode(node);
      }
    }

    /** One turn of the render loop: the output grows from the first `i` tokens' placement to the first `i + 1`. */
    method PushNext(tokens: seq<Token>, i: nat)
      requires i < |tokens| && linesOut == PlaceAll(Groups(tokens, Indentation()), i)
      modifies this
      ensures linesOut == PlaceAll(Groups(tokens, Indentation()), i + 1)
    {
      assert Groups(tokens, Indentation())[i] == TokenGroup(tokens[i], Indentation());
      PushToken(tokens[i]);
    }

    /** The render loop, `tokens.forEach`, on an empty output: the output becomes the rendering of the tokens. */
    method PushAll(tokens: seq<Token>)
      requires linesOut == []
      modifies this
      ensures linesOut == Rendered(tokens, Indentation())
    {
      var i := 0;
      while i < |tokens|
        invariant 0 <= i <= |tokens|
        invariant linesOut == PlaceAll(Groups(tokens, Indentation()), i)
      {
        PushNext(tokens, i);
        i := i + 1;
      }
    }
  }

  /**
   * The exported renderer: normalise the options (failing before any line is
   * produced), then place every token's lines in order on a fresh writer.
   */
  method Render(tokens: seq<Token>, options: Options) returns (r: Result<seq<string>, ConfigError>)
    ensures r == Rendering(tokens, options)
  {
    var normalized := NormalizeOptions(options);
    if normalized.Failure? {
      return Failure(normalized.error);
    }
    var writer := new LineWriter(normalized.value);
    writer.PushAll(tokens);
    return Success(writer.linesOut);
  }
}
