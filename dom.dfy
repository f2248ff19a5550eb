/** The slice of JavaScript value semantics and of the DOM that the web button
    relies on: attribute reads, string conversion of `null`, truthiness,
    DOMTokenList `add`/`remove` (including the exceptions they throw) and the
    `textContent` getter and setter of an element. */
module Dom {

  datatype Option<T> = None | Some(value: T)

  /** The DOMException names a DOMTokenList operation can throw. */
  datatype DomException = SyntaxError | InvalidCharacterError

  datatype Result<T> = Ok(value: T) | Err(error: DomException)

  /** An element's attributes: a name is present with a string value or absent. */
  type AttrMap = map<string, string>

  /** `element.getAttribute(name)`: the value, or `null` (None) when absent. */
  function GetAttribute(attrs: AttrMap, name: string): (r: Option<string>)
    ensures r.Some? <==> name in attrs
    ensures r.Some? ==> r.value == attrs[name]
  {
    if name in attrs then Some(attrs[name]) else None
  }

  /** `element.hasAttribute(name)`. */
  predicate HasAttribute(attrs: AttrMap, name: string)
  {
    name in attrs
  }

  /** JavaScript string conversion of a `string | null` value, as done by a
      template literal `${v}` and by assigning to a DOMString property: `null`
      becomes the four characters "null". */
  function JsString(v: Option<string>): string
  {
    match v
    case Some(s) => s
    case None => "null"
  }

  /** JavaScript truthiness of a `string | null` value: `null` and "" are falsy. */
  predicate Truthy(v: Option<string>)
  {
    v.Some? && v.value != ""
  }

  /** `v || ''` for a `string | null` value. */
  function OrEmpty(v: Option<string>): (r: string)
    ensures Truthy(v) ==> r == v.value
    ensures !Truthy(v) ==> r == ""
    ensures v.Some? ==> r == v.value
  {
    if Truthy(v) then v.value else ""
  }

  /** ASCII whitespace as the DOM defines it: TAB, LF, FF, CR and SPACE. */
  predicate IsAsciiWhitespace(c: char)
  {
    c == '\t' || c == '\n' || c == '\U{000C}' || c == '\r' || c == ' '
  }

  predicate HasAsciiWhitespace(s: string)
  {
    exists i | 0 <= i < |s| :: IsAsciiWhitespace(s[i])
  }

  /** A token DOMTokenList accepts: non-empty and free of ASCII whitespace. */
  predicate ValidToken(t: string)
  {
    t != "" && !HasAsciiWhitespace(t)
  }

  /** The validation pass of DOMTokenList `add` and `remove`: the tokens are
      examined in order and the first bad one decides the exception, an empty
      token raising SyntaxError and one with whitespace InvalidCharacterError. */
  function TokenError(tokens: seq<string>): (e: Option<DomException>)
    ensures e.None? <==> forall i | 0 <= i < |tokens| :: ValidToken(tokens[i])
    ensures e == Some(SyntaxError) ==> exists i | 0 <= i < |tokens| :: tokens[i] == ""
    ensures e == Some(InvalidCharacterError) ==>
      exists i | 0 <= i < |tokens| :: tokens[i] != "" && HasAsciiWhitespace(tokens[i])
  {
    if tokens == [] then None
    else if tokens[0] == "" then Some(SyntaxError)
    else if HasAsciiWhitespace(tokens[0]) then Some(InvalidCharacterError)
    else
      var rest := TokenError(tokens[1..]);
      assert forall i | 1 <= i < |tokens| :: tokens[i] == tokens[1..][i - 1];
      rest
  }

  /** `classList.add(...tokens)` on a class set: validation first, then every
      token joins the set (adding a present token changes nothing). */
  function TokenListAdd(classes: set<string>, tokens: seq<string>): (r: Result<set<string>>)
    ensures r.Err? <==> exists i | 0 <= i < |tokens| :: !ValidToken(tokens[i])
    ensures r.Err? ==> Some(r.error) == TokenError(tokens)
    ensures r.Ok? ==> forall c :: c in r.value <==> c in classes || c in tokens
  {
    match TokenError(tokens)
    case Some(e) => Err(e)
    case None => Ok(classes + set t | t in tokens)
  }

  /** `classList.remove(...tokens)` on a class set: validation first, then
      every token leaves the set (removing an absent token changes nothing). */
  function TokenListRemove(classes: set<string>, tokens: seq<string>): (r: Result<set<string>>)
    ensures r.Err? <==> exists i | 0 <= i < |tokens| :: !ValidToken(tokens[i])
    ensures r.Err? ==> Some(r.error) == TokenError(tokens)
    ensures r.Ok? ==> forall c :: c in r.value <==> c in classes && c !in tokens
  {
    match TokenError(tokens)
    case Some(e) => Err(e)
    case None => Ok(classes - set t | t in tokens)
  }

  /** A child of the inner button: a text node, or the accessibility span that
      the web button keeps in its `a11yText` field (the only element the
      button is ever given). */
  datatype ChildNode = TextNode(data: string) | A11ySpanNode

  /** The `textContent` getter: the text of the children in order, where the
      accessibility span contributes its own text `spanText`. */
  function TextOf(children: seq<ChildNode>, spanText: string): string
  {
    if children == [] then ""
    else
      (match children[0]
       case TextNode(d) => d
       case A11ySpanNode => spanText)
      + TextOf(children[1..], spanText)
  }

  /** The `textContent` setter ("string replace all"): every child is removed,
      and a single text node is inserted unless the new text is empty. */
  function ReplaceAll(s: string): (r: seq<ChildNode>)
    ensures forall spanText :: TextOf(r, spanText) == s
    ensures A11ySpanNode !in r
    ensures |r| <= 1
  {
    if s == "" then [] else [TextNode(s)]
  }

  /** Appending the span after existing children adds its text at the end. */
  lemma {:induction false} TextOfAppendSpan(children: seq<ChildNode>, spanText: string)
    ensures TextOf(children + [A11ySpanNode], spanText) == TextOf(children, spanText) + spanText
  {
    if children == [] {
      assert [] + [A11ySpanNode] == [A11ySpanNode];
    } else {
      assert (children + [A11ySpanNode])[1..] == children[1..] + [A11ySpanNode];
      TextOfAppendSpan(children[1..], spanText);
    }
  }
}
