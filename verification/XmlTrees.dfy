/** Element trees, their rendering as XML 1.0 (sections 2.4 to 2.7 and 3.1), and the theorem that
    the scan accepts a rendered tree exactly when the tree is within the limits. */
module XmlTrees {
  import opened XmlPreflight

  /** White space, name, white space around the equals sign, and the quoted value. */
  datatype Attribute =
    Attribute(lead: string, name: string, before: string, after: string, quote: char, text: string)

  datatype Node =
    | Text(text: string)
    | Comment(text: string)
    | CData(text: string)
    | Instruction(text: string)
    | Empty(name: string, attributes: seq<Attribute>, trail: string)
    | Element(name: string, attributes: seq<Attribute>, trail: string, children: Forest, tail: string)

  datatype Forest = Nil | Cons(first: Node, more: Forest)

  // ---------------------------------------------------------------- well-formedness

  /** Neither a delimiter of tags nor of attributes. Names and white space consist of these. */
  predicate Plain(c: char) { c != '<' && c != '>' && c != '=' && c != '/' && c != '\'' && c != '\"' }

  predicate AllPlain(s: string) { forall i :: 0 <= i < |s| ==> Plain(s[i]) }

  predicate ValidName(s: string) { s != "" && AllPlain(s) && s[0] != '!' && s[0] != '?' }

  predicate ValidAttribute(a: Attribute) {
    && a.lead != "" && AllPlain(a.lead) && AllPlain(a.name) && AllPlain(a.before) && AllPlain(a.after)
    && (a.quote == '\'' || a.quote == '\"') && a.quote !in a.text
  }

  predicate ValidAttributes(attributes: seq<Attribute>) {
    forall a :: a in attributes ==> ValidAttribute(a)
  }

  /** The text does not contain the terminator of its own kind of markup. */
  predicate Lacks(s: string, p: string) { !StartsWith(s, p) && (s == "" || Lacks(s[1..], p)) }

  predicate ValidNode(n: Node) {
    match n
    case Text(t) => '<' !in t
    case Comment(t) => Lacks(t, "-->")
    case CData(t) => Lacks(t, "]]>")
    case Instruction(t) => Lacks(t, "?>")
    case Empty(name, attributes, trail) => ValidName(name) && ValidAttributes(attributes) && AllPlain(trail)
    case Element(name, attributes, trail, children, tail) =>
      ValidName(name) && ValidAttributes(attributes) && AllPlain(trail) && ValidForest(children) && AllPlain(tail)
  }

  predicate ValidForest(f: Forest) { f.Nil? || (ValidNode(f.first) && ValidForest(f.more)) }

  /** Comments as section 2.5 of XML 1.0 writes them, without a double hyphen, are valid here. */
  lemma {:induction false} GrammarCommentsAreValid(t: string)
    requires Lacks(t, "--")
    ensures ValidNode(Comment(t))
  {
    assert 3 <= |t| ==> t[..2] == t[..3][..2];
    if t != "" { GrammarCommentsAreValid(t[1..]); }
  }

  // ---------------------------------------------------------------- rendering

  function RenderAttribute(a: Attribute): string {
    a.lead + a.name + a.before + "=" + a.after + [a.quote] + a.text + [a.quote]
  }

  function RenderAttributes(attributes: seq<Attribute>): string {
    if attributes == [] then "" else RenderAttribute(attributes[0]) + RenderAttributes(attributes[1..])
  }

  function RenderNode(n: Node): string {
    match n
    case Text(t) => t
    case Comment(t) => "<!--" + t + "-->"
    case CData(t) => "<![CDATA[" + t + "]]>"
    case Instruction(t) => "<?" + t + "?>"
    case Empty(name, attributes, trail) => "<" + name + RenderAttributes(attributes) + trail + "/>"
    case Element(name, attributes, trail, children, tail) =>
      "<" + name + RenderAttributes(attributes) + trail + ">" + RenderForest(children) + "</" + name + tail + ">"
  }

  function RenderForest(f: Forest): string {
    if f.Nil? then "" else RenderNode(f.first) + RenderForest(f.more)
  }

  // ---------------------------------------------------------------- limits

  function Max(a: nat, b: nat): nat { if a < b then b else a }

  /** Levels of element nesting. */
  function Depth(f: Forest): nat {
    if f.Nil? then 0 else Max(NodeDepth(f.first), Depth(f.more))
  }

  function NodeDepth(n: Node): nat {
    match n
    case Empty(_, _, _) => 1
    case Element(_, _, _, children, _) => 1 + Depth(children)
    case _ => 0
  }

  /** The largest number of attributes on one element. */
  function Attributes(f: Forest): nat {
    if f.Nil? then 0 else Max(NodeAttributes(f.first), Attributes(f.more))
  }

  function NodeAttributes(n: Node): nat {
    match n
    case Empty(_, attributes, _) => |attributes|
    case Element(_, attributes, _, children, _) => Max(|attributes|, Attributes(children))
    case _ => 0
  }

  predicate Fits(f: Forest, above: nat) {
    above + Depth(f) <= MAX_DEPTH && Attributes(f) <= MAX_ATTRIBUTES_PER_ELEMENT
  }

  // ---------------------------------------------------------------- scanning the pieces of a tag

  function Last(s: string, previous: char): char { if s == "" then previous else s[|s| - 1] }

  lemma {:induction false} ScanPlain(s: string, rest: string, previous: char, n: nat)
    requires AllPlain(s)
    ensures ScanTag(s + rest, Open, previous, n) == ScanTag(rest, Open, Last(s, previous), n)
    ensures s != "" ==> Plain(Last(s, previous))
  {
    if s == "" {
      assert s + rest == rest;
    } else {
      assert (s + rest)[1..] == s[1..] + rest;
      ScanPlain(s[1..], rest, s[0], n);
    }
  }

  lemma {:induction false} ScanQuoted(s: string, q: char, rest: string, previous: char, n: nat)
    requires q !in s
    ensures ScanTag(s + [q] + rest, In(q), previous, n) == ScanTag(rest, Open, q, n)
  {
    if s == "" {
      assert s + [q] + rest == [q] + rest;
    } else {
      assert (s + [q] + rest)[1..] == s[1..] + [q] + rest;
      ScanQuoted(s[1..], q, rest, s[0], n);
    }
  }

  lemma ScanValue(a: Attribute, rest: string, previous: char, n: nat)
    requires ValidAttribute(a)
    ensures ScanTag("=" + (a.after + ([a.quote] + a.text + [a.quote] + rest)), Open, previous, n) ==
            if n + 1 > MAX_ATTRIBUTES_PER_ELEMENT then Err(TooManyAttributes) else ScanTag(rest, Open, a.quote, n + 1)
  {
    var value := [a.quote] + a.text + [a.quote] + rest;
    var whole := "=" + (a.after + value);
    assert whole[0] == '=' && whole[1..] == a.after + value;
    if n + 1 <= MAX_ATTRIBUTES_PER_ELEMENT {
      ScanPlain(a.after, value, '=', n + 1);
      assert value[0] == a.quote && value[1..] == a.text + [a.quote] + rest;
      ScanQuoted(a.text, a.quote, rest, a.quote, n + 1);
    }
  }

  lemma ScanAttribute(a: Attribute, rest: string, previous: char, n: nat)
    requires ValidAttribute(a)
    ensures ScanTag(RenderAttribute(a) + rest, Open, previous, n) ==
            if n + 1 > MAX_ATTRIBUTES_PER_ELEMENT then Err(TooManyAttributes) else ScanTag(rest, Open, a.quote, n + 1)
  {
    var value := [a.quote] + a.text + [a.quote] + rest;
    var head := a.lead + a.name + a.before;
    assert RenderAttribute(a) + rest == head + ("=" + (a.after + value));
    ScanPlain(head, "=" + (a.after + value), previous, n);
    ScanValue(a, rest, Last(head, previous), n);
  }

  /** The last byte before what follows the attributes. */
  function AfterAttributes(attributes: seq<Attribute>, previous: char): char {
    if attributes == [] then previous else attributes[|attributes| - 1].quote
  }

  lemma {:induction false} ScanAttributes(attributes: seq<Attribute>, rest: string, previous: char, n: nat)
    requires ValidAttributes(attributes) && n <= MAX_ATTRIBUTES_PER_ELEMENT
    ensures ScanTag(RenderAttributes(attributes) + rest, Open, previous, n) ==
            if n + |attributes| > MAX_ATTRIBUTES_PER_ELEMENT then Err(TooManyAttributes)
            else ScanTag(rest, Open, AfterAttributes(attributes, previous), n + |attributes|)
  {
    if attributes == [] {
      assert RenderAttributes(attributes) + rest == rest;
    } else {
      var more := RenderAttributes(attributes[1..]) + rest;
      assert RenderAttributes(attributes) + rest == RenderAttribute(attributes[0]) + more;
      ScanAttribute(attributes[0], more, previous, n);
      if n + 1 <= MAX_ATTRIBUTES_PER_ELEMENT {
        ScanAttributes(attributes[1..], rest, attributes[0].quote, n + 1);
      }
    }
  }

  /** Up to the end of a tag: the scan counts the attributes and nothing in them closes the tag. */
  lemma ScanTagHead(name: string, attributes: seq<Attribute>, trail: string, rest: string)
    requires ValidName(name) && ValidAttributes(attributes) && AllPlain(trail)
    ensures var r := ScanTag(name + RenderAttributes(attributes) + trail + rest, Open, 0 as char, 0);
            if |attributes| > MAX_ATTRIBUTES_PER_ELEMENT then r.Err?
            else exists c :: c != '/' && r == ScanTag(rest, Open, c, |attributes|)
  {
    var tail := trail + rest;
    assert name + RenderAttributes(attributes) + trail + rest == name + (RenderAttributes(attributes) + tail);
    ScanPlain(name, RenderAttributes(attributes) + tail, 0 as char, 0);
    var c := Last(name, 0 as char);
    ScanAttributes(attributes, tail, c, 0);
    if |attributes| <= MAX_ATTRIBUTES_PER_ELEMENT {
      var d := AfterAttributes(attributes, c);
      assert d != '/' by {
        if attributes != [] { assert ValidAttribute(attributes[|attributes| - 1]); }
      }
      ScanPlain(trail, rest, d, |attributes|);
      assert Last(trail, d) != '/';
    }
  }

  // ---------------------------------------------------------------- scanning whole nodes

  lemma {:induction false} FindSkips(t: string, rest: string)
    requires '<' !in t
    ensures Find(t + rest, '<') == |t| + Find(rest, '<')
  {
    if t == "" {
      assert t + rest == rest;
    } else {
      assert (t + rest)[1..] == t[1..] + rest;
      FindSkips(t[1..], rest);
    }
  }

  lemma ScanText(t: string, rest: string, depth: nat)
    requires '<' !in t
    ensures Scan(t + rest, depth) == Scan(rest, depth)
  {
    FindSkips(t, rest);
    var open := Find(rest, '<');
    assert (t + rest)[|t| + open..] == rest[open..];
  }

  lemma Differs(s: string, p: string, i: nat)
    requires i < |s| && i < |p| && s[i] != p[i]
    ensures !StartsWith(s, p)
  {
    assert |p| <= |s| ==> s[..|p|][i] == s[i];
  }

  /** No proper suffix of the text and no overlap with it looks like the terminator. */
  lemma {:induction false} AfterFindsTerminator(t: string, p: string, rest: string)
    requires Lacks(t, p) && p != "" && forall i :: 0 <= i < |p| - 1 ==> p[i] != p[|p| - 1]
    ensures After(t + p + rest, p) == Ok(rest)
  {
    var s := t + p + rest;
    if t == "" {
      assert s == p + rest && s[..|p|] == p && s[|p|..] == rest;
    } else {
      if |p| <= |t| {
        assert s[..|p|] == t[..|p|];
      } else {
        Differs(s, p, |p| - 1);
      }
      assert s[1..] == t[1..] + p + rest;
      AfterFindsTerminator(t[1..], p, rest);
    }
  }

  lemma ScanComment(t: string, rest: string, depth: nat)
    requires Lacks(t, "-->")
    ensures Scan("<!--" + t + "-->" + rest, depth) == Scan(rest, depth)
  {
    var s := "<!--" + t + "-->" + rest;
    assert s[..4] == "<!--" && s[4..] == t + "-->" + rest;
    AfterFindsTerminator(t, "-->", rest);
  }

  lemma ScanCData(t: string, rest: string, depth: nat)
    requires Lacks(t, "]]>")
    ensures Scan("<![CDATA[" + t + "]]>" + rest, depth) == Scan(rest, depth)
  {
    var s := "<![CDATA[" + t + "]]>" + rest;
    assert s[..9] == "<![CDATA[" && s[9..] == t + "]]>" + rest;
    Differs(s, "<!--", 2);
    AfterFindsTerminator(t, "]]>", rest);
  }

  lemma ScanInstruction(t: string, rest: string, depth: nat)
    requires Lacks(t, "?>")
    ensures Scan("<?" + t + "?>" + rest, depth) == Scan(rest, depth)
  {
    var s := "<?" + t + "?>" + rest;
    assert s[..2] == "<?" && s[2..] == t + "?>" + rest;
    Differs(s, "<!--", 1);
    Differs(s, "<![CDATA[", 1);
    AfterFindsTerminator(t, "?>", rest);
  }

  function Continue(step: Result<Step>): Result<()> {
    if step.Err? then Err(step.error) else Scan(step.value.rest, step.value.depth)
  }

  lemma ScanAtMarkup(s: string, depth: nat)
    requires s != "" && s[0] == '<'
    ensures Scan(s, depth) == Continue(MarkupStep(s, depth))
  {
    assert s[0..] == s;
  }

  /** At a tag that is no comment, CDATA section, instruction or declaration. */
  lemma ScanAtTag(s: string, depth: nat)
    requires 2 <= |s| && s[0] == '<' && s[1] != '!' && s[1] != '?'
    ensures Scan(s, depth) == Continue(TagStep(s, depth))
    ensures StartsWith(s, "</") <==> s[1] == '/'
  {
    ScanAtMarkup(s, depth);
    Differs(s, "<!--", 1);
    Differs(s, "<![CDATA[", 1);
    Differs(s, "<?", 1);
    Differs(s, "<!", 1);
    if s[1] == '/' { assert s[..2] == "</"; } else { Differs(s, "</", 1); }
  }

  /** An opening or empty tag, given what scanning its inside yields. */
  lemma ScanOpening(name: string, inside: string, tag: Result<Tag>, depth: nat)
    requires ValidName(name) && tag == ScanTag(name + inside, Open, 0 as char, 0)
    ensures var r := Scan("<" + (name + inside), depth);
            if tag.Err? || depth + 1 > MAX_DEPTH then r.Err?
            else r == Scan(tag.value.rest, if tag.value.empty then depth else depth + 1)
  {
    var s := "<" + (name + inside);
    assert s[1..] == name + inside && s[1] == name[0];
    assert Plain(name[0]);
    ScanAtTag(s, depth);
  }

  lemma ScanOpenTag(name: string, attributes: seq<Attribute>, trail: string, rest: string, depth: nat)
    requires ValidName(name) && ValidAttributes(attributes) && AllPlain(trail)
    ensures var r := Scan("<" + name + RenderAttributes(attributes) + trail + ">" + rest, depth);
            if depth + 1 > MAX_DEPTH || |attributes| > MAX_ATTRIBUTES_PER_ELEMENT then r.Err?
            else r == Scan(rest, depth + 1)
  {
    var inside := RenderAttributes(attributes) + trail + (">" + rest);
    assert "<" + name + RenderAttributes(attributes) + trail + ">" + rest == "<" + (name + inside);
    assert name + RenderAttributes(attributes) + trail + (">" + rest) == name + inside;
    ScanTagHead(name, attributes, trail, ">" + rest);
    assert (">" + rest)[1..] == rest;
    ScanOpening(name, inside, ScanTag(name + inside, Open, 0 as char, 0), depth);
  }

  lemma ScanSlash(rest: string, previous: char, n: nat)
    ensures ScanTag("/>" + rest, Open, previous, n) == Ok(Tag(rest, true))
  {
    assert ("/>" + rest)[1..] == ">" + rest && (">" + rest)[1..] == rest;
  }

  lemma ScanEmptyTag(name: string, attributes: seq<Attribute>, trail: string, rest: string, depth: nat)
    requires ValidName(name) && ValidAttributes(attributes) && AllPlain(trail)
    ensures var r := Scan("<" + name + RenderAttributes(attributes) + trail + "/>" + rest, depth);
            if depth + 1 > MAX_DEPTH || |attributes| > MAX_ATTRIBUTES_PER_ELEMENT then r.Err?
            else r == Scan(rest, depth)
  {
    var inside := RenderAttributes(attributes) + trail + ("/>" + rest);
    assert "<" + name + RenderAttributes(attributes) + trail + "/>" + rest == "<" + (name + inside);
    assert name + RenderAttributes(attributes) + trail + ("/>" + rest) == name + inside;
    ScanTagHead(name, attributes, trail, "/>" + rest);
    forall c: char ensures ScanTag("/>" + rest, Open, c, |attributes|) == Ok(Tag(rest, true)) {
      ScanSlash(rest, c, |attributes|);
    }
    ScanOpening(name, inside, ScanTag(name + inside, Open, 0 as char, 0), depth);
  }

  lemma ScanCloseTag(name: string, tail: string, rest: string, depth: nat)
    requires ValidName(name) && AllPlain(tail) && 0 < depth
    ensures Scan("</" + name + tail + ">" + rest, depth) == Scan(rest, depth - 1)
  {
    var s := "</" + name + tail + ">" + rest;
    assert s[2..] == (name + tail) + (">" + rest);
    ScanAtTag(s, depth);
    ScanPlain(name + tail, ">" + rest, 0 as char, 0);
    assert (">" + rest)[1..] == rest;
  }

  predicate NodeFits(n: Node, above: nat) {
    above + NodeDepth(n) <= MAX_DEPTH && NodeAttributes(n) <= MAX_ATTRIBUTES_PER_ELEMENT
  }

  lemma {:induction false} ScanNode(n: Node, rest: string, depth: nat)
    requires ValidNode(n) && depth <= MAX_DEPTH
    ensures if NodeFits(n, depth) then Scan(RenderNode(n) + rest, depth) == Scan(rest, depth)
            else Scan(RenderNode(n) + rest, depth).Err?
    decreases n
  {
    match n
    case Text(t) => ScanText(t, rest, depth);
    case Comment(t) => ScanComment(t, rest, depth);
    case CData(t) => ScanCData(t, rest, depth);
    case Instruction(t) => ScanInstruction(t, rest, depth);
    case Empty(name, attributes, trail) => ScanEmptyTag(name, attributes, trail, rest, depth);
    case Element(name, attributes, trail, children, tail) =>
      var close := "</" + name + tail + ">" + rest;
      RegroupElement(n, rest, close);
      ScanOpenTag(name, attributes, trail, RenderForest(children) + close, depth);
      if depth + 1 <= MAX_DEPTH {
        ScanForest(children, close, depth + 1);
        ScanCloseTag(name, tail, rest, depth + 1);
      }
  }

  lemma RegroupElement(n: Node, rest: string, close: string)
    requires n.Element? && close == "</" + n.name + n.tail + ">" + rest
    ensures RenderNode(n) + rest ==
            "<" + n.name + RenderAttributes(n.attributes) + n.trail + ">" + (RenderForest(n.children) + close)
  {
    var head := "<" + n.name + RenderAttributes(n.attributes) + n.trail + ">";
    assert RenderNode(n) == head + RenderForest(n.children) + ("</" + n.name + n.tail + ">");
  }

  lemma {:induction false} ScanForest(f: Forest, rest: string, depth: nat)
    requires ValidForest(f) && depth <= MAX_DEPTH
    ensures if Fits(f, depth) then Scan(RenderForest(f) + rest, depth) == Scan(rest, depth)
            else Scan(RenderForest(f) + rest, depth).Err?
    decreases f
  {
    if f.Nil? {
      assert RenderForest(f) + rest == rest;
    } else {
      assert RenderForest(f) + rest == RenderNode(f.first) + (RenderForest(f.more) + rest);
      ScanNode(f.first, RenderForest(f.more) + rest, depth);
      ScanForest(f.more, rest, depth);
    }
  }

  /** The scan accepts a rendered document exactly when it nests at most 64 elements, no element has
      more than 64 attributes, and the raw counts of `<` and `=` are within their budgets. */
  lemma PreflightAcceptsExactly(f: Forest)
    requires ValidForest(f)
    ensures Preflight(RenderForest(f)).Ok? <==>
              && Depth(f) <= MAX_DEPTH && Attributes(f) <= MAX_ATTRIBUTES_PER_ELEMENT
              && Count(RenderForest(f), '<') <= MAX_RAW_MARKUP_TOKENS
              && Count(RenderForest(f), '=') <= MAX_RAW_ATTRIBUTE_TOKENS
  {
    ScanForest(f, "", 0);
    assert RenderForest(f) + "" == RenderForest(f);
  }
}
