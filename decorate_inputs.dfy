/** The default export of lib/common/decorate.inputs.ts: applying the
    `@Input` decorator to a class once per declared input, skipping the
    excluded ones.

    Angular's `Input(alias)(prototype, key)` is not modelled; each call is
    recorded as an entry of a decoration log instead. */
module DecorateInputs {

  import opened JsValues
  import opened JsStrings
  import JsCollections

  /** `Input(alias)(cls.prototype, key)`. */
  datatype InputDecoration = InputDecoration(cls: Value, key: string, alias: Option<string>)

  const Separator := ": "

  /** `const [key, alias] = input.split(': ')`: the text before the first
      separator and the text between the first and the second one, if any. */
  function ParseInput(input: string): (string, Option<string>) {
    var parts := Split(input, Separator);
    (parts[0], if |parts| >= 2 then Some(parts[1]) else None)
  }

  /** Without the separator the whole entry is the key and there is no
      alias; with it, the key is the text up to its first occurrence, which
      holds no separator itself. */
  lemma ParseInputShape(input: string)
    ensures !Contains(input, Separator) ==> ParseInput(input) == (input, None)
    ensures Contains(input, Separator) ==>
      var (key, alias) := ParseInput(input);
      alias.Some? && |key| + |Separator| <= |input| && input[..|key| + |Separator|] == key + Separator
      && !Contains(key, Separator) && !Contains(alias.value, Separator)
  {
    SplitHead(input, Separator);
    SplitPartsLackSeparator(input, Separator);
    var parts := Split(input, Separator);
    if |parts| >= 2 {
      assert parts[0] in parts && parts[1] in parts;
    }
  }

  /** `exclude && exclude.indexOf(key) !== -1`. */
  predicate Excluded(exclude: Option<seq<string>>, key: string) {
    exclude.Some? && key in exclude.value
  }

  /** The decorations applied for `inputs`, in order. */
  function Decorations(cls: Value, inputs: seq<string>, exclude: Option<seq<string>>): seq<InputDecoration> {
    if inputs == [] then []
    else
      var (key, alias) := ParseInput(inputs[|inputs| - 1]);
      Decorations(cls, inputs[..|inputs| - 1], exclude)
      + (if Excluded(exclude, key) then [] else [InputDecoration(cls, key, alias)])
  }

  /** `decorateInputs(cls, inputs, exclude)`: the log after the call. Nothing
      is decorated when `inputs` is undefined. */
  method DecorateInputs(cls: Value, inputs: Option<seq<string>>, exclude: Option<seq<string>>, log: seq<InputDecoration>)
    returns (log': seq<InputDecoration>)
    ensures inputs.None? ==> log' == log
    ensures inputs.Some? ==> log' == log + Decorations(cls, inputs.value, exclude)
  {
    log' := log;
    if inputs.Some? {
      var entries := inputs.value;
      for i := 0 to |entries|
        invariant log' == log + Decorations(cls, entries[..i], exclude)
      {
        assert entries[..i + 1][..i] == entries[..i];
        var (key, alias) := ParseInput(entries[i]);
        var step := if Excluded(exclude, key) then [] else [InputDecoration(cls, key, alias)];
        assert Decorations(cls, entries[..i + 1], exclude) == Decorations(cls, entries[..i], exclude) + step;
        JsCollections.AppendAssoc(log, Decorations(cls, entries[..i], exclude), step);
        if Excluded(exclude, key) {
          continue;
        }
        log' := log' + [InputDecoration(cls, key, alias)];
      }
      assert entries[..|entries|] == entries;
    }
  }

  /** A decoration is applied exactly for the entries whose key is not
      excluded, with the entry's key and alias. */
  lemma {:induction false} DecorationsMembers(cls: Value, inputs: seq<string>, exclude: Option<seq<string>>, d: InputDecoration)
    ensures d in Decorations(cls, inputs, exclude) <==>
      d.cls == cls && !Excluded(exclude, d.key) && exists input :: input in inputs && ParseInput(input) == (d.key, d.alias)
  {
    if inputs != [] {
      var n := |inputs| - 1;
      DecorationsMembers(cls, inputs[..n], exclude, d);
      assert inputs == inputs[..n] + [inputs[n]];
      if d in Decorations(cls, inputs, exclude) && d !in Decorations(cls, inputs[..n], exclude) {
        assert ParseInput(inputs[n]) == (d.key, d.alias);
      }
      if d.cls == cls && !Excluded(exclude, d.key) && d !in Decorations(cls, inputs[..n], exclude) {
        forall input | input in inputs && ParseInput(input) == (d.key, d.alias)
          ensures d in Decorations(cls, inputs, exclude)
        {
          assert input !in inputs[..n];
          assert input == inputs[n];
        }
      }
    }
  }

  /** Without exclusions every entry is decorated once, in input order. */
  lemma {:induction false} DecorationsWithoutExclude(cls: Value, inputs: seq<string>)
    ensures |Decorations(cls, inputs, None)| == |inputs|
    ensures forall i :: 0 <= i < |inputs| ==>
      Decorations(cls, inputs, None)[i] == InputDecoration(cls, ParseInput(inputs[i]).0, ParseInput(inputs[i]).1)
  {
    if inputs != [] {
      var n := |inputs| - 1;
      DecorationsWithoutExclude(cls, inputs[..n]);
      forall i | 0 <= i < n
        ensures Decorations(cls, inputs, None)[i] == InputDecoration(cls, ParseInput(inputs[i]).0, ParseInput(inputs[i]).1)
      {
        assert inputs[..n][i] == inputs[i];
      }
    }
  }
}
