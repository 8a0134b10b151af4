/** The resource scan that runs before provider XML is parsed. It is not an XML parser: it skips
    comments, CDATA sections and processing instructions, and counts element depth and the
    attributes of each tag. A `char` stands for one byte. */
module XmlPreflight {

  const MAX_DEPTH := 64
  const MAX_ATTRIBUTES_PER_ELEMENT := 64
  const MAX_RAW_MARKUP_TOKENS := 1_000_000
  const MAX_RAW_ATTRIBUTE_TOKENS := 250_000

  datatype XmlError =
    | BudgetExceeded | UnsupportedDeclaration | UnterminatedMarkup | UnterminatedTag | MarkupInsideTag
    | TooManyAttributes | UnmatchedClosingTag | TooDeep | UnclosedElements

  datatype Result<+T> = Ok(value: T) | Err(error: XmlError)

  datatype Quote = Open | In(delimiter: char)

  /** What follows a tag, and whether the tag was self-closing. */
  datatype Tag = Tag(rest: string, empty: bool)

  // ---------------------------------------------------------------- the scan as functions

  predicate StartsWith(s: string, p: string) { |p| <= |s| && s[..|p|] == p }

  function Count(s: string, c: char): nat {
    if s == "" then 0 else (if s[0] == c then 1 else 0) + Count(s[1..], c)
  }

  /** Position of the first `c`, or the length if there is none. */
  function Find(s: string, c: char): (i: nat)
    ensures i <= |s| && c !in s[..i]
    ensures i < |s| ==> s[i] == c
  {
    if s == "" || s[0] == c then 0 else
      assert s[..1 + Find(s[1..], c)] == [s[0]] + s[1..][..Find(s[1..], c)];
      1 + Find(s[1..], c)
  }

  /** What follows the first occurrence of `terminator`. */
  function After(s: string, terminator: string): (r: Result<string>)
    ensures r.Ok? ==> |r.value| + |terminator| <= |s|
  {
    if StartsWith(s, terminator) then Ok(s[|terminator|..])
    else if s == "" then Err(UnterminatedMarkup)
    else After(s[1..], terminator)
  }

  function SkipMarkup(s: string, prefix: nat, terminator: string): (r: Result<string>)
    ensures r.Ok? ==> |r.value| + prefix + |terminator| <= |s|
  {
    if |s| < prefix then Err(UnterminatedMarkup) else After(s[prefix..], terminator)
  }

  function ScanTag(s: string, quote: Quote, previous: char, attributes: nat): (r: Result<Tag>)
    ensures r.Ok? ==> |r.value.rest| < |s|
  {
    if s == "" then Err(UnterminatedTag)
    else
      var c, rest := s[0], s[1..];
      if quote.In? then ScanTag(rest, if c == quote.delimiter then Open else quote, c, attributes)
      else if c == '\'' || c == '\"' then ScanTag(rest, In(c), c, attributes)
      else if c == '>' then Ok(Tag(rest, previous == '/'))
      else if c == '<' then Err(MarkupInsideTag)
      else if c == '=' then
        if attributes + 1 > MAX_ATTRIBUTES_PER_ELEMENT then Err(TooManyAttributes)
        else ScanTag(rest, Open, c, attributes + 1)
      else ScanTag(rest, Open, c, attributes)
  }

  /** One step of the scan at a `<`: what is left, and the new depth. */
  datatype Step = Step(rest: string, depth: nat)

  function Skipped(r: Result<string>, depth: nat): Result<Step> {
    if r.Ok? then Ok(Step(r.value, depth)) else Err(r.error)
  }

  function TagStep(s: string, depth: nat): (r: Result<Step>)
    requires s != ""
    ensures r.Ok? ==> |r.value.rest| < |s|
  {
    var closing := StartsWith(s, "</");
    var tag := ScanTag(s[if closing then 2 else 1..], Open, 0 as char, 0);
    if tag.Err? then Err(tag.error)
    else if closing then
      if depth == 0 then Err(UnmatchedClosingTag) else Ok(Step(tag.value.rest, depth - 1))
    else if depth + 1 > MAX_DEPTH then Err(TooDeep)
    else Ok(Step(tag.value.rest, if tag.value.empty then depth else depth + 1))
  }

  function MarkupStep(s: string, depth: nat): (r: Result<Step>)
    requires s != ""
    ensures r.Ok? ==> |r.value.rest| < |s|
  {
    if StartsWith(s, "<!--") then Skipped(SkipMarkup(s, 4, "-->"), depth)
    else if StartsWith(s, "<![CDATA[") then Skipped(SkipMarkup(s, 9, "]]>"), depth)
    else if StartsWith(s, "<?") then Skipped(SkipMarkup(s, 2, "?>"), depth)
    else if StartsWith(s, "<!") then Err(UnsupportedDeclaration)
    else TagStep(s, depth)
  }

  /** The outcome of scanning `s` from the given depth. */
  function Scan(s: string, depth: nat): Result<()>
    decreases |s|
  {
    var open := Find(s, '<');
    if open == |s| then if depth == 0 then Ok(()) else Err(UnclosedElements)
    else
      var step := MarkupStep(s[open..], depth);
      if step.Err? then Err(step.error) else Scan(step.value.rest, step.value.depth)
  }

  predicate WithinBudget(s: string) {
    Count(s, '<') <= MAX_RAW_MARKUP_TOKENS && Count(s, '=') <= MAX_RAW_ATTRIBUTE_TOKENS
  }

  function Preflight(s: string): Result<()> {
    if !WithinBudget(s) then Err(BudgetExceeded) else Scan(s, 0)
  }

  // ---------------------------------------------------------------- the scan as it runs

  method CountByte(s: string, c: char) returns (n: nat)
    ensures n == Count(s, c)
  {
    n := 0;
    var rest := s;
    while rest != ""
      invariant n + Count(rest, c) == Count(s, c)
      decreases |rest|
    {
      if rest[0] == c { n := n + 1; }
      rest := rest[1..];
    }
  }

  method FindByte(s: string, c: char) returns (i: nat)
    ensures i == Find(s, c)
  {
    i := 0;
    while i < |s| && s[i] != c
      invariant i <= |s| && Find(s, c) == i + Find(s[i..], c)
    {
      i := i + 1;
    }
  }

  method SkipXmlMarkup(s: string, prefix: nat, terminator: string) returns (r: Result<string>)
    ensures r == SkipMarkup(s, prefix, terminator)
  {
    if |s| < prefix { return Err(UnterminatedMarkup); }
    var contents := s[prefix..];
    var i := 0;
    while i < |contents| && !StartsWith(contents[i..], terminator)
      invariant i <= |contents| && After(contents, terminator) == After(contents[i..], terminator)
    {
      i := i + 1;
    }
    if StartsWith(contents[i..], terminator) {
      return Ok(contents[i..][|terminator|..]);
    }
    return Err(UnterminatedMarkup);
  }

  method ScanXmlTag(s: string) returns (r: Result<Tag>)
    ensures r == ScanTag(s, Open, 0 as char, 0)
  {
    var remaining := s;
    var quote, previous, attributes := Open, 0 as char, 0;
    while remaining != ""
      invariant ScanTag(remaining, quote, previous, attributes) == ScanTag(s, Open, 0 as char, 0)
      decreases |remaining|
    {
      var c := remaining[0];
      remaining := remaining[1..];
      if quote.In? {
        if c == quote.delimiter { quote := Open; }
      } else if c == '\'' || c == '\"' {
        quote := In(c);
      } else if c == '>' {
        return Ok(Tag(remaining, previous == '/'));
      } else if c == '<' {
        return Err(MarkupInsideTag);
      } else if c == '=' {
        attributes := attributes + 1;
        if attributes > MAX_ATTRIBUTES_PER_ELEMENT { return Err(TooManyAttributes); }
      }
      previous := c;
    }
    return Err(UnterminatedTag);
  }

  method ScanElementTag(s: string, depth: nat) returns (r: Result<Step>)
    requires s != ""
    ensures r == TagStep(s, depth)
  {
    var closing := StartsWith(s, "</");
    var tag := ScanXmlTag(s[if closing then 2 else 1..]);
    if tag.Err? { return Err(tag.error); }
    if closing {
      if depth == 0 { return Err(UnmatchedClosingTag); }
      return Ok(Step(tag.value.rest, depth - 1));
    }
    if depth + 1 > MAX_DEPTH { return Err(TooDeep); }
    return Ok(Step(tag.value.rest, if tag.value.empty then depth else depth + 1));
  }

  method ScanMarkup(s: string, depth: nat) returns (r: Result<Step>)
    requires s != ""
    ensures r == MarkupStep(s, depth)
  {
    var skipped: Result<string>;
    if StartsWith(s, "<!--") {
      skipped := SkipXmlMarkup(s, 4, "-->");
    } else if StartsWith(s, "<![CDATA[") {
      skipped := SkipXmlMarkup(s, 9, "]]>");
    } else if StartsWith(s, "<?") {
      skipped := SkipXmlMarkup(s, 2, "?>");
    } else if StartsWith(s, "<!") {
      return Err(UnsupportedDeclaration);
    } else {
      r := ScanElementTag(s, depth);
      return;
    }
    return Skipped(skipped, depth);
  }

  method PreflightXml(input: string) returns (r: Result<()>)
    ensures r == Preflight(input)
  {
    var markup := CountByte(input, '<');
    var equals := CountByte(input, '=');
    if markup > MAX_RAW_MARKUP_TOKENS || equals > MAX_RAW_ATTRIBUTE_TOKENS { return Err(BudgetExceeded); }
    var remaining, depth := input, 0;
    while true
      invariant Scan(remaining, depth) == Scan(input, 0)
      decreases |remaining|
    {
      var open := FindByte(remaining, '<');
      if open == |remaining| { break; }
      var step := ScanMarkup(remaining[open..], depth);
      if step.Err? { return Err(step.error); }
      remaining, depth := step.value.rest, step.value.depth;
    }
    if depth != 0 { return Err(UnclosedElements); }
    return Ok(());
  }
}
