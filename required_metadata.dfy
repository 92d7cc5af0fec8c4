/** The default export of
    libs/ng-mocks/src/lib/mock-builder/performance/required-metadata.ts: the
    part of a `TestModuleMetadata` that decides whether a cached TestBed can
    be reused, as fresh copies of three arrays. */
module RequiredMetadata {

  import opened JsValues

  datatype Required = Required(declarations: seq<Value>, imports: seq<Value>, providers: seq<Value>)

  /** `[...(value || [])]`: a falsy value copies as `[]`; otherwise the value
      is spread, which fails for a value that is not iterable. */
  function CopyOrEmpty(v: Value): (r: Option<seq<Value>>)
    ensures !Truthy(v) ==> r == Some([])
    ensures v.Arr? ==> r == Some(v.items)
    ensures Truthy(v) && !v.Arr? && !v.Str? ==> r.None?
  {
    if Truthy(v) then Spread(v) else Some([])
  }

  /** The required metadata of `ngModule`, a metadata object seen as its
      fields; the spread of a non-iterable field is a TypeError. */
  function RequiredMetadata(ngModule: map<string, Value>): (r: Result<Required, string>)
    ensures r.Ok? <==> (CopyOrEmpty(Lookup(ngModule, "declarations")).Some?
                        && CopyOrEmpty(Lookup(ngModule, "imports")).Some?
                        && CopyOrEmpty(Lookup(ngModule, "providers")).Some?)
    ensures r.Ok? ==> r.value.declarations == CopyOrEmpty(Lookup(ngModule, "declarations")).value
                      && r.value.imports == CopyOrEmpty(Lookup(ngModule, "imports")).value
                      && r.value.providers == CopyOrEmpty(Lookup(ngModule, "providers")).value
  {
    match (CopyOrEmpty(Lookup(ngModule, "declarations")), CopyOrEmpty(Lookup(ngModule, "imports")), CopyOrEmpty(Lookup(ngModule, "providers")))
    case (Some(d), Some(i), Some(p)) => Ok(Required(d, i, p))
    case _ => Err("TypeError: object is not iterable")
  }

  /** Array fields are copied element by element, in order, and a missing
      field becomes `[]`. */
  lemma ArraysCopiedInOrder(ngModule: map<string, Value>)
    requires forall k :: k in ngModule && k in {"declarations", "imports", "providers"} ==> ngModule[k].Arr?
    ensures RequiredMetadata(ngModule).Ok?
    ensures "declarations" in ngModule ==> RequiredMetadata(ngModule).value.declarations == ngModule["declarations"].items
    ensures "declarations" !in ngModule ==> RequiredMetadata(ngModule).value.declarations == []
    ensures "imports" in ngModule ==> RequiredMetadata(ngModule).value.imports == ngModule["imports"].items
    ensures "imports" !in ngModule ==> RequiredMetadata(ngModule).value.imports == []
    ensures "providers" in ngModule ==> RequiredMetadata(ngModule).value.providers == ngModule["providers"].items
    ensures "providers" !in ngModule ==> RequiredMetadata(ngModule).value.providers == []
  {
  }

  /** Only the three fields are read: metadata that agrees on them gives the
      same result, whatever else (schemas, teardown, ...) it holds. */
  lemma OtherMetadataIgnored(a: map<string, Value>, b: map<string, Value>)
    requires forall k :: k in {"declarations", "imports", "providers"} ==> Lookup(a, k) == Lookup(b, k)
    ensures RequiredMetadata(a) == RequiredMetadata(b)
  {
    assert Lookup(a, "declarations") == Lookup(b, "declarations");
    assert Lookup(a, "imports") == Lookup(b, "imports");
    assert Lookup(a, "providers") == Lookup(b, "providers");
  }
}
