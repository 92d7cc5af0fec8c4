/** libs/ng-mocks/src/lib/mock-helper/mock-helper.attributes.ts: reading an
    input or output of a directive on an element by its public name, for
    `ngMocks.input` and `ngMocks.output`.

    Finding the element (`mockHelperFind` on the last fixture), reading the
    inputs and outputs a provider token declares
    (`funcParseProviderTokensDirectives`) and getting the instance of a token
    (`mockHelperGet`) are not part of this model; they are parameters. */
module MockHelperAttributes {

  import opened JsValues
  import opened JsStrings

  /** The third argument, or the private `defaultNotFoundValue` sentinel
      standing for "no fallback". */
  datatype NotFound = NoFallback | Fallback(value: Value)

  datatype Attr = Inputs | Outputs

  /** What a token declares: its `inputs` and `outputs`, if any. */
  datatype TokenMeta = TokenMeta(inputs: Option<seq<string>>, outputs: Option<seq<string>>)

  /** `parseArgs(args)`: the element, the selector and the fallback, which
      is given only when exactly three arguments are passed. */
  function ParseArgs(args: seq<Value>): (r: (Value, Value, NotFound))
    ensures r.0 == (if |args| > 0 then args[0] else Undefined)
    ensures r.1 == (if |args| > 1 then args[1] else Undefined)
    ensures r.2.Fallback? <==> |args| == 3
    ensures |args| == 3 ==> r.2.value == args[2]
  {
    (if |args| > 0 then args[0] else Undefined,
     if |args| > 1 then args[1] else Undefined,
     if |args| == 3 then Fallback(args[2]) else NoFallback)
  }

  /** The trimmed parts of `attribute.split(':', 2)`: the property name and
      the alias, `''` when there is none. */
  function PropAlias(attribute: string): (string, string) {
    var parts := SplitLimit(attribute, ":", 2);
    (Trim(parts[0]), if |parts| > 1 then Trim(parts[1]) else "")
  }

  /** `attrMatches(attribute, selector)`: the property name when the
      selector names the attribute. */
  function AttrMatches(attribute: string, selector: Value): (r: Option<string>)
    ensures r.Some? ==> r.value == PropAlias(attribute).0
    ensures r.Some? <==>
      var (prop, alias) := PropAlias(attribute);
      (alias == "" && selector == Str(prop)) || (alias != "" && selector == Str(alias))
  {
    var (prop, alias) := PropAlias(attribute);
    if (alias == "" && selector == Str(prop)) || (alias != "" && selector == Str(alias)) then Some(prop) else None
  }

  /** Without a colon the attribute is its own trimmed property name and has
      no alias. */
  lemma NoColonMeansNoAlias(attribute: string)
    requires !Contains(attribute, ":")
    ensures PropAlias(attribute) == (Trim(attribute), "")
  {
    SplitHead(attribute, ":");
    assert Split(attribute, ":") == [attribute];
    assert SplitLimit(attribute, ":", 2) == [attribute];
  }

  /** An attribute with an alias is found by the alias only, never by its
      property name (unless they are the same). */
  lemma AliasHidesPropertyName(attribute: string)
    requires PropAlias(attribute).1 != "" && PropAlias(attribute).0 != PropAlias(attribute).1
    ensures AttrMatches(attribute, Str(PropAlias(attribute).0)).None?
    ensures AttrMatches(attribute, Str(PropAlias(attribute).1)) == Some(PropAlias(attribute).0)
  {
  }

  function AttrDefs(meta: TokenMeta, attr: Attr): seq<string> {
    var defs := if attr.Inputs? then meta.inputs else meta.outputs;
    if defs.Some? then defs.value else []
  }

  /** How one attribute definition is tested against the selector. */
  function SelectorMatcher(sel: Value): string -> Option<string> {
    attribute => AttrMatches(attribute, sel)
  }

  /** The first attribute definition that `matches` with a non-empty
      property name (`if (prop)`), as that property name. */
  function MatchIn(defs: seq<string>, matches: string -> Option<string>): Option<string> {
    if defs == [] then None
    else
      var m := matches(defs[0]);
      if m.Some? && m.value != "" then m else MatchIn(defs[1..], matches)
  }

  predicate Rejects(matches: string -> Option<string>, attribute: string) {
    matches(attribute).None? || matches(attribute).value == ""
  }

  /** `MatchIn` finds the first definition that matches with a non-empty
      property name, and nothing when there is none. */
  lemma {:induction false} MatchInIsFirst(defs: seq<string>, matches: string -> Option<string>)
    ensures MatchIn(defs, matches).None? <==> forall i :: 0 <= i < |defs| ==> Rejects(matches, defs[i])
    ensures MatchIn(defs, matches).Some? ==>
      exists i :: 0 <= i < |defs| && matches(defs[i]) == MatchIn(defs, matches) && !Rejects(matches, defs[i])
        && forall j :: 0 <= j < i ==> Rejects(matches, defs[j])
  {
    if defs != [] {
      MatchInIsFirst(defs[1..], matches);
      if Rejects(matches, defs[0]) {
        assert forall i :: 1 <= i < |defs| ==> defs[i] == defs[1..][i - 1];
        if MatchIn(defs, matches).Some? {
          var i :| 0 <= i < |defs[1..]| && matches(defs[1..][i]) == MatchIn(defs[1..], matches)
            && !Rejects(matches, defs[1..][i])
            && forall j :: 0 <= j < i ==> Rejects(matches, defs[1..][j]);
          assert defs[1..][i] == defs[i + 1];
          forall j | 0 <= j < i + 1 ensures Rejects(matches, defs[j]) {
            if j > 0 { assert defs[j] == defs[1..][j - 1]; }
          }
        }
      }
    }
  }

  /** The value `detectAttribute` returns: the property of the instance of
      the first token, in order, that declares a matching attribute. */
  function FirstMatch(tokens: seq<Value>, metaOf: Value -> Option<TokenMeta>, instanceOf: Value -> Value,
                      attr: Attr, matches: string -> Option<string>): Option<Value>
  {
    if tokens == [] then None
    else
      var meta := metaOf(tokens[0]);
      var m := if meta.Some? then MatchIn(AttrDefs(meta.value, attr), matches) else None;
      if m.Some? then Some(Get(instanceOf(tokens[0]), m.value))
      else FirstMatch(tokens[1..], metaOf, instanceOf, attr, matches)
  }

  predicate TokenMatches(token: Value, metaOf: Value -> Option<TokenMeta>, attr: Attr, matches: string -> Option<string>) {
    metaOf(token).Some? && MatchIn(AttrDefs(metaOf(token).value, attr), matches).Some?
  }

  /** A result is found exactly when some token matches, and it is read from
      the first such token. */
  lemma {:induction false} FirstMatchIsFirst(tokens: seq<Value>, metaOf: Value -> Option<TokenMeta>, instanceOf: Value -> Value,
                                             attr: Attr, matches: string -> Option<string>)
    ensures FirstMatch(tokens, metaOf, instanceOf, attr, matches).None? <==>
      forall i :: 0 <= i < |tokens| ==> !TokenMatches(tokens[i], metaOf, attr, matches)
    ensures FirstMatch(tokens, metaOf, instanceOf, attr, matches).Some? ==>
      exists i :: 0 <= i < |tokens| && TokenMatches(tokens[i], metaOf, attr, matches)
        && (forall j :: 0 <= j < i ==> !TokenMatches(tokens[j], metaOf, attr, matches))
        && FirstMatch(tokens, metaOf, instanceOf, attr, matches)
           == Some(Get(instanceOf(tokens[i]), MatchIn(AttrDefs(metaOf(tokens[i]).value, attr), matches).value))
  {
    if tokens != [] {
      FirstMatchIsFirst(tokens[1..], metaOf, instanceOf, attr, matches);
      if !TokenMatches(tokens[0], metaOf, attr, matches) {
        forall i | 0 < i < |tokens| ensures tokens[i] == tokens[1..][i - 1] { }
        if FirstMatch(tokens, metaOf, instanceOf, attr, matches).Some? {
          var i :| 0 <= i < |tokens[1..]| && TokenMatches(tokens[1..][i], metaOf, attr, matches)
            && (forall j :: 0 <= j < i ==> !TokenMatches(tokens[1..][j], metaOf, attr, matches))
            && FirstMatch(tokens[1..], metaOf, instanceOf, attr, matches)
               == Some(Get(instanceOf(tokens[1..][i]), MatchIn(AttrDefs(metaOf(tokens[1..][i]).value, attr), matches).value));
          assert tokens[1..][i] == tokens[i + 1];
          forall j | 0 <= j < i + 1 ensures !TokenMatches(tokens[j], metaOf, attr, matches) {
            if j > 0 { assert tokens[j] == tokens[1..][j - 1]; }
          }
        }
      }
    }
  }

  /** The inner loop of `detectAttribute`: the definitions of one token. */
  method MatchDefs(defs: seq<string>, matches: string -> Option<string>) returns (prop: Option<string>)
    ensures prop == MatchIn(defs, matches)
  {
    for j := 0 to |defs|
      invariant MatchIn(defs, matches) == MatchIn(defs[j..], matches)
    {
      assert defs[j..][1..] == defs[j + 1..];
      var m := matches(defs[j]);
      if m.Some? && m.value != "" {
        return m;
      }
    }
    return None;
  }

  /** `detectAttribute`: the nested scan over the tokens and their
      attribute definitions, testing each definition with `matches` (the
      selector's `attrMatches`); `Err` is the thrown `'Not found'`. */
  method DetectAttribute(tokens: seq<Value>, metaOf: Value -> Option<TokenMeta>, instanceOf: Value -> Value,
                         attr: Attr, matches: string -> Option<string>) returns (r: Result<Value, string>)
    ensures r.Ok? <==> FirstMatch(tokens, metaOf, instanceOf, attr, matches).Some?
    ensures r.Ok? ==> r.value == FirstMatch(tokens, metaOf, instanceOf, attr, matches).value
    ensures r.Err? ==> r.error == "Not found"
  {
    for i := 0 to |tokens|
      invariant FirstMatch(tokens, metaOf, instanceOf, attr, matches) == FirstMatch(tokens[i..], metaOf, instanceOf, attr, matches)
    {
      var token := tokens[i];
      assert tokens[i..][1..] == tokens[i + 1..];
      var meta := metaOf(token);
      if meta.None? {
        continue;
      }
      var prop := MatchDefs(AttrDefs(meta.value, attr), matches);
      if prop.Some? {
        return Ok(Get(instanceOf(token), prop.value));
      }
    }
    return Err("Not found");
  }

  /** The default export of mock-helper.attributes.ts, for `label`
      (`'input'` or `'output'`). `find` stands for looking the element up from
      the arguments' element: its provider tokens, or an error when the
      lookup throws. Any failure falls back to the third argument when it is
      given, and otherwise throws. */
  method Attribute(helperName: string, attr: Attr, args: seq<Value>, find: Value -> Result<seq<Value>, string>,
                   metaOf: Value -> Option<TokenMeta>, instanceOf: Value -> Value) returns (r: Result<Value, string>)
    ensures var (el, sel, notFound) := ParseArgs(args);
      var matches := SelectorMatcher(sel);
      && (find(el).Ok? && FirstMatch(find(el).value, metaOf, instanceOf, attr, matches).Some? ==>
            r == Ok(FirstMatch(find(el).value, metaOf, instanceOf, attr, matches).value))
      && (!(find(el).Ok? && FirstMatch(find(el).value, metaOf, instanceOf, attr, matches).Some?) ==>
            r == if notFound.Fallback? then Ok(notFound.value) else Err(NotFoundMessage(helperName, sel)))
  {
    var (el, sel, notFoundValue) := ParseArgs(args);
    var found := find(el);
    if found.Ok? {
      var detected := DetectAttribute(found.value, metaOf, instanceOf, attr, SelectorMatcher(sel));
      if detected.Ok? {
        return detected;
      }
    }
    if notFoundValue.Fallback? {
      return Ok(notFoundValue.value);
    }
    return Err(NotFoundMessage(helperName, sel));
  }

  function NotFoundMessage(helperName: string, sel: Value): string {
    "Cannot find " + ToJsString(sel) + " " + helperName + " via ngMocks." + helperName
  }
}
