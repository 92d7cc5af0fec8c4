/** The default export of
    libs/ng-mocks/src/lib/mock-instance/mock-instance-forgot-reset.ts: after a
    test, the MockInstance customisations that were never restored are
    reported.

    `checkReset` lists `[declaration, config]` pairs recorded when a
    customisation was installed; a pair whose config is still the current
    `configInstance` entry of its declaration is a leak. The console warning
    is an output value of the model. */
module MockInstanceForgotReset {

  import opened JsValues
  import opened Universe
  import JsCollections

  datatype Report = Silent | Warned(message: string) | Thrown(message: string)

  const RestoreFlag := "onMockInstanceRestoreNeed"

  /** The recorded config is still the installed one (`=== get(declaration)`,
      so a missing entry compares as `undefined`). */
  predicate Leaks(entry: (Value, Value), configInstance: map<Value, Value>) {
    entry.1 == Lookup(configInstance, entry.0)
  }

  /** How a leaking declaration is listed: a function by its name, any other
      value as it is. */
  function Shown(declaration: Value): Value {
    if TypeOf(declaration) == "function" then Str(FunctionName(declaration)) else declaration
  }

  /** What is listed for `checkReset`, in the order `pop` visits it: from the
      last pair to the first. */
  function Reported(checkReset: seq<(Value, Value)>, configInstance: map<Value, Value>): seq<Value> {
    if checkReset == [] then []
    else
      var n := |checkReset| - 1;
      (if Leaks(checkReset[n], configInstance) then [Shown(checkReset[n].0)] else [])
      + Reported(checkReset[..n], configInstance)
  }

  function Message(shown: seq<Value>): string {
    "MockInstance: side effects have been detected (" + JoinValues(shown, ", ") + ")."
    + " Forgot to add MockInstance.scope() or to call MockInstance.restore()?"
  }

  /** The outcome for a list of leaks under the global `onMockInstanceRestoreNeed`
      flag: nothing when there are none; otherwise a warning for `'warn'`, an
      error for `'throw'`, and nothing for any other value. */
  function ReportFor(shown: seq<Value>, flag: Value): (r: Report)
    ensures r.Thrown? <==> shown != [] && flag == Str("throw")
    ensures r.Warned? <==> shown != [] && flag == Str("warn")
    ensures !r.Silent? ==> r.message == Message(shown)
  {
    if shown == [] then Silent
    else if flag == Str("warn") then Warned(Message(shown))
    else if flag == Str("throw") then Thrown(Message(shown))
    else Silent
  }

  /** The `while` loop of `mockInstanceForgotReset`: pops every pair of
      `checkReset` and lists the leaking ones. */
  method CollectLeaks(checkReset: seq<(Value, Value)>, configInstance: map<Value, Value>)
    returns (checkReset': seq<(Value, Value)>, showError: seq<Value>)
    ensures checkReset' == []
    ensures showError == Reported(checkReset, configInstance)
  {
    showError := [];
    var k := |checkReset|;
    assert checkReset[..k] == checkReset;
    while k > 0
      invariant 0 <= k <= |checkReset|
      invariant Reported(checkReset, configInstance) == showError + Reported(checkReset[..k], configInstance)
    {
      var entry := checkReset[k - 1];
      assert Reported(checkReset[..k], configInstance)
          == (if Leaks(entry, configInstance) then [Shown(entry.0)] else []) + Reported(checkReset[..k - 1], configInstance) by {
        assert checkReset[..k][..k - 1] == checkReset[..k - 1];
      }
      k := k - 1;
      if Leaks(entry, configInstance) {
        showError := showError + [Shown(entry.0)];
      }
    }
    checkReset' := checkReset[..k];
  }

  /** `mockInstanceForgotReset(checkReset)`: empties `checkReset` and reports. */
  method ForgotReset(checkReset: seq<(Value, Value)>, u: State) returns (checkReset': seq<(Value, Value)>, report: Report)
    ensures checkReset' == []
    ensures report == ReportFor(Reported(checkReset, u.configInstance), Lookup(u.globalFlags, RestoreFlag))
  {
    var showError;
    checkReset', showError := CollectLeaks(checkReset, u.configInstance);
    report := Silent;
    if |showError| > 0 {
      var message := Message(showError);
      var flag := Lookup(u.globalFlags, RestoreFlag);
      if flag == Str("warn") {
        report := Warned(message);
      } else if flag == Str("throw") {
        report := Thrown(message);
      }
    }
  }

  /** The report lists later pairs first: the pairs of `b`, recorded after
      those of `a`, come before them. */
  lemma {:induction false} ReportedAppend(a: seq<(Value, Value)>, b: seq<(Value, Value)>, configInstance: map<Value, Value>)
    ensures Reported(a + b, configInstance) == Reported(b, configInstance) + Reported(a, configInstance)
    decreases |b|
  {
    if b == [] {
      assert a + b == a;
    } else {
      var n := |b| - 1;
      var head := if Leaks(b[n], configInstance) then [Shown(b[n].0)] else [];
      DropLastOfAppend(a, b);
      ReportedAppend(a, b[..n], configInstance);
      calc {
        Reported(a + b, configInstance);
        head + Reported(a + b[..n], configInstance);
        head + (Reported(b[..n], configInstance) + Reported(a, configInstance));
        { JsCollections.AppendAssoc(head, Reported(b[..n], configInstance), Reported(a, configInstance)); }
        (head + Reported(b[..n], configInstance)) + Reported(a, configInstance);
        Reported(b, configInstance) + Reported(a, configInstance);
      }
    }
  }

  /** Dropping the last element of `a + b`, for a non-empty `b`, drops the
      last element of `b`. */
  lemma DropLastOfAppend<T>(a: seq<T>, b: seq<T>)
    requires b != []
    ensures (a + b)[..|a + b| - 1] == a + b[..|b| - 1]
    ensures (a + b)[|a + b| - 1] == b[|b| - 1]
  {
  }

  /** A value is listed exactly when some pair leaks and shows as it. */
  lemma {:induction false} ReportedMembers(checkReset: seq<(Value, Value)>, configInstance: map<Value, Value>, x: Value)
    ensures x in Reported(checkReset, configInstance) <==>
      exists i :: 0 <= i < |checkReset| && Leaks(checkReset[i], configInstance) && Shown(checkReset[i].0) == x
  {
    if checkReset != [] {
      var n := |checkReset| - 1;
      ReportedMembers(checkReset[..n], configInstance, x);
      if x in Reported(checkReset, configInstance) && x !in Reported(checkReset[..n], configInstance) {
        assert Leaks(checkReset[n], configInstance) && Shown(checkReset[n].0) == x;
      }
      if x in Reported(checkReset[..n], configInstance) {
        var i :| 0 <= i < n && Leaks(checkReset[..n][i], configInstance) && Shown(checkReset[..n][i].0) == x;
        assert checkReset[..n][i] == checkReset[i];
      }
      if x !in Reported(checkReset, configInstance) {
        forall i | 0 <= i < |checkReset| ensures !(Leaks(checkReset[i], configInstance) && Shown(checkReset[i].0) == x) {
          if i < n { assert checkReset[..n][i] == checkReset[i]; }
        }
      }
    }
  }

  /** A pair whose declaration lost its config, and whose recorded config is
      `undefined`, still counts as a leak. */
  lemma UndefinedConfigOfMissingDeclaration(declaration: Value, configInstance: map<Value, Value>)
    requires declaration !in configInstance
    ensures Reported([(declaration, Undefined)], configInstance) == [Shown(declaration)]
  {
    assert [(declaration, Undefined)][..0] == [];
  }
}
