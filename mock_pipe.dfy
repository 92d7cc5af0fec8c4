/** libs/ng-mocks/src/lib/mock-pipe/mock-pipe.ts: `MockPipe`, `MockPipes`
    and the `init` hook that the mock class of a pipe runs on its instances.

    Creating the class (`extendClass(Mock)`) and applying `Pipe(...)` belong
    to the runtime and to Angular: the new class is the next fresh identity
    of the universe and the decorators are an entry of its decoration log. */
module MockPipe {

  import opened JsValues
  import opened Universe

  /** The `transform` member of a pipe instance: not set yet, the function
      a test supplied, or the stub `helperMockService.mock` installs under
      its name. */
  datatype Impl = Unset | Supplied(fn: Value) | Stub(name: string)

  /** `instance.transform(...args)`: the supplied function is called through
      `call`, the stub returns `undefined`, and calling an unset member is a
      `TypeError` (`None`). */
  function Invoke(impl: Impl, call: (Value, seq<Value>) -> Value, args: seq<Value>): (r: Option<Value>)
    ensures r.None? <==> impl.Unset?
  {
    match impl
    case Unset => None
    case Supplied(fn) => Some(call(fn, args))
    case Stub(_) => Some(Undefined)
  }

  /** What the `init` hook leaves in `transform`: a truthy `transform`
      replaces it, and a member that is still unset gets the stub named
      `<constructor name>.transform`. */
  function Installed(current: Impl, transform: Value, constructorName: string): Impl {
    var afterSupply := if Truthy(transform) then Supplied(transform) else current;
    if afterSupply.Unset? then Stub(constructorName + ".transform") else afterSupply
  }

  /** An instance of a mock pipe class. */
  class PipeInstance {
    /** `instance.constructor.name` */
    const constructorName: string
    var transform: Impl

    constructor (constructorName: string)
      ensures this.constructorName == constructorName && transform.Unset?
    {
      this.constructorName := constructorName;
      transform := Unset;
    }

    /** The `init` hook of `getMockClass(pipe, transform)`. */
    method Init(transform: Value)
      modifies this
      ensures this.transform == Installed(old(this.transform), transform, constructorName)
    {
      if Truthy(transform) {
        this.transform := Supplied(transform);
      }
      if this.transform.Unset? {
        this.transform := Stub(constructorName + ".transform");
      }
    }
  }

  /** On a new instance the hook installs the supplied transform, or a stub
      whose call returns `undefined` when none is supplied; either way the
      member can be called afterwards. */
  lemma InitOnNewInstance(transform: Value, constructorName: string, call: (Value, seq<Value>) -> Value, args: seq<Value>)
    ensures var impl := Installed(Unset, transform, constructorName);
      && (Truthy(transform) ==> Invoke(impl, call, args) == Some(call(transform, args)))
      && (!Truthy(transform) ==> Invoke(impl, call, args) == Some(Undefined) && impl == Stub(constructorName + ".transform"))
  {
  }

  /** Running the hook twice with the same transform changes nothing more. */
  lemma InitIdempotent(current: Impl, transform: Value, constructorName: string)
    ensures Installed(Installed(current, transform, constructorName), transform, constructorName)
         == Installed(current, transform, constructorName)
    ensures !Installed(current, transform, constructorName).Unset?
  {
  }

  /** Does `MockPipe(pipe, ...)` get as far as reading the pipe's metadata
      in `u`? */
  predicate ReachesResolve(pipe: Value, u: State) {
    !IsMockNgDefOf(pipe, Pipe) && !(CachePipe in u.flags && pipe in u.cacheDeclarations)
  }

  /** What `coreReflectPipeResolve` throws for a class without `@Pipe`. */
  const ResolveError := "Cannot resolve declarations"

  /** `MockPipe(pipe, transform)`: the mock class of `pipe`, or the error it
      throws, and the universe afterwards. A mock pipe is its own mock; under
      `cachePipe` a cached mock is reused; otherwise the pipe's metadata is
      read, which throws for a class that is not a pipe before anything is
      cached, and a new class `MockOf<name>` is created, and cached when
      `cachePipe` is set. */
  function MockPipe(pipe: Value, transform: Value, u: State): (r: (Result<Value, string>, State))
    requires pipe.Class?
    ensures r.0.Err? <==> ReachesResolve(pipe, u) && pipe.kind != Pipe
    ensures r.0.Err? ==> r.0.error == ResolveError && r.1 == u
    ensures r.1.flags == u.flags && r.1.nextId >= u.nextId
  {
    if IsMockNgDefOf(pipe, Pipe) then (Ok(pipe), u)
    else if CachePipe in u.flags && pipe in u.cacheDeclarations then (Ok(u.cacheDeclarations[pipe]), u)
    else if pipe.kind != Pipe then (Err(ResolveError), u)
    else
      var mock := Class(u.nextId, "MockOf" + pipe.name, Pipe, Some(pipe));
      var u' := u.(decorations := u.decorations + [PipeDecorator(mock, pipe, transform)], nextId := u.nextId + 1);
      (Ok(mock), if CachePipe in u.flags then u'.(cacheDeclarations := u.cacheDeclarations[pipe := mock]) else u')
  }

  /** What `MockPipe` returns and what it does to the universe. */
  lemma MockPipeEffect(pipe: Value, transform: Value, u: State)
    requires pipe.Class?
    ensures var out := MockPipe(pipe, transform, u);
      var r := out.0;
      var u' := out.1;
      && (IsMockNgDefOf(pipe, Pipe) ==> r == Ok(pipe) && u' == u)
      && (!IsMockNgDefOf(pipe, Pipe) && CachePipe in u.flags && pipe in u.cacheDeclarations ==>
            r == Ok(u.cacheDeclarations[pipe]) && u' == u)
      && (r.Err? <==> ReachesResolve(pipe, u) && pipe.kind != Pipe)
      && (r.Err? ==> r.error == ResolveError && u' == u)
      && (ReachesResolve(pipe, u) && pipe.kind == Pipe ==>
            var mock := r.value;
            IsMockOf(mock, pipe) && IsMockNgDefOf(mock, Pipe) && mock.id == u.nextId
            && mock.name == "MockOf" + pipe.name
            && u'.nextId == u.nextId + 1
            && u'.decorations == u.decorations + [PipeDecorator(mock, pipe, transform)]
            && (CachePipe in u.flags <==> pipe in u'.cacheDeclarations && u'.cacheDeclarations[pipe] == mock
                                          && u'.cacheDeclarations != u.cacheDeclarations)
            && (CachePipe !in u.flags ==> u'.cacheDeclarations == u.cacheDeclarations))
  {
    if ReachesResolve(pipe, u) && pipe.kind == Pipe {
      MockPipeCreates(pipe, transform, u);
    }
  }

  /** What `MockPipe` leaves alone: the flags, the configs and every cache
      entry but the pipe's own. */
  lemma MockPipeLeavesRest(pipe: Value, transform: Value, u: State)
    requires pipe.Class?
    ensures var u' := MockPipe(pipe, transform, u).1;
      && u'.flags == u.flags && u'.config == u.config && u'.configInstance == u.configInstance
      && u'.nextId >= u.nextId
      && (forall d :: d in u.cacheDeclarations && d != pipe ==>
            d in u'.cacheDeclarations && u'.cacheDeclarations[d] == u.cacheDeclarations[d])
  {
  }

  /** The class `MockPipe` creates for a pipe it has neither as a mock nor
      in the cache. */
  lemma MockPipeCreates(pipe: Value, transform: Value, u: State)
    requires pipe.Class? && ReachesResolve(pipe, u) && pipe.kind == Pipe
    ensures var out := MockPipe(pipe, transform, u);
      && out.0.Ok?
      && var mock := out.0.value;
      && IsMockOf(mock, pipe) && IsMockNgDefOf(mock, Pipe) && mock.id == u.nextId
      && mock.name == "MockOf" + pipe.name
      && out.1.nextId == u.nextId + 1
      && out.1.decorations == u.decorations + [PipeDecorator(mock, pipe, transform)]
      && (CachePipe in u.flags <==> pipe in out.1.cacheDeclarations && out.1.cacheDeclarations[pipe] == mock
                                    && out.1.cacheDeclarations != u.cacheDeclarations)
      && (CachePipe !in u.flags ==> out.1.cacheDeclarations == u.cacheDeclarations)
  {
    if CachePipe in u.flags {
      assert pipe !in u.cacheDeclarations;
    }
  }

  /** Under a sound cache `MockPipe` answers with a mock of the pipe, or
      with the pipe itself when it is already a mock, unless it throws; and
      it keeps the cache sound. */
  lemma MockPipeMocks(pipe: Value, transform: Value, u: State)
    requires pipe.Class? && CacheSound(u)
    ensures var (r, u') := MockPipe(pipe, transform, u);
      && CacheSound(u')
      && (r.Ok? ==> if IsMockNgDefOf(pipe, Pipe) then r.value == pipe else IsMockOf(r.value, pipe))
  {
  }

  /** With `cachePipe` set, asking twice gives the same mock, and the second
      call changes nothing; a pipe that threw throws again. */
  lemma MockPipeCachedTwice(pipe: Value, transform: Value, transform2: Value, u: State)
    requires pipe.Class? && CachePipe in u.flags
    ensures var (r, u') := MockPipe(pipe, transform, u);
      MockPipe(pipe, transform2, u') == (r, u')
  {
  }

  /** `MockPipes(...pipes)`: `MockPipe(pipe, undefined)` for every pipe, in
      order, each call seeing the universe the previous one left; the first
      error ends the map, after what the earlier calls cached. Only pipes
      never throw. */
  function MockPipes(pipes: seq<Value>, u: State): (r: (Result<seq<Value>, string>, State))
    requires forall p :: p in pipes ==> p.Class?
    ensures r.0.Ok? ==> |r.0.value| == |pipes|
    ensures r.0.Err? ==> r.0.error == ResolveError
    ensures (forall p :: p in pipes ==> p.kind == Pipe) ==> r.0.Ok?
    ensures r.1.flags == u.flags && r.1.nextId >= u.nextId
    decreases |pipes|
  {
    if pipes == [] then (Ok([]), u)
    else
      var first := MockPipe(pipes[0], Undefined, u);
      if first.0.Err? then (Err(first.0.error), first.1)
      else
        var rest := MockPipes(pipes[1..], first.1);
        if rest.0.Err? then rest else (Ok([first.0.value] + rest.0.value), rest.1)
  }

  /** A first input that throws ends the map at once, with its error and
      nothing changed. */
  lemma MockPipesFirstThrows(pipes: seq<Value>, u: State)
    requires forall p :: p in pipes ==> p.Class?
    requires pipes != [] && MockPipe(pipes[0], Undefined, u).0.Err?
    ensures MockPipes(pipes, u) == (Err(ResolveError), u)
  {
  }

  /** Without `cachePipe`, a list holding a class that is neither a pipe nor
      a mock pipe makes `MockPipes` throw: that class reaches resolution
      unless an earlier one already threw. */
  lemma {:induction false} MockPipesThrows(pipes: seq<Value>, u: State)
    requires forall p :: p in pipes ==> p.Class?
    requires CachePipe !in u.flags
    requires exists p :: p in pipes && p.kind != Pipe && !IsMockNgDefOf(p, Pipe)
    ensures MockPipes(pipes, u).0.Err?
    decreases |pipes|
  {
    var first := MockPipe(pipes[0], Undefined, u);
    if first.0.Ok? {
      var p :| p in pipes && p.kind != Pipe && !IsMockNgDefOf(p, Pipe);
      assert p != pipes[0];
      assert p in pipes[1..];
      assert forall q :: q in pipes[1..] ==> q in pipes;
      MockPipesThrows(pipes[1..], first.1);
    }
  }

  /** Under a sound cache the i-th entry of `MockPipes` mocks the i-th pipe
      (or is that pipe when it is a mock already), and the cache stays sound,
      even when a later pipe throws. */
  lemma {:induction false} MockPipesMock(pipes: seq<Value>, u: State)
    requires forall p :: p in pipes ==> p.Class?
    requires CacheSound(u)
    ensures CacheSound(MockPipes(pipes, u).1)
    ensures MockPipes(pipes, u).0.Ok? ==> forall i :: 0 <= i < |pipes| ==>
      if IsMockNgDefOf(pipes[i], Pipe) then MockPipes(pipes, u).0.value[i] == pipes[i]
      else IsMockOf(MockPipes(pipes, u).0.value[i], pipes[i])
    decreases |pipes|
  {
    if pipes != [] {
      MockPipeMocks(pipes[0], Undefined, u);
      var (first, u') := MockPipe(pipes[0], Undefined, u);
      if first.Ok? {
        assert forall p :: p in pipes[1..] ==> p in pipes;
        MockPipesMock(pipes[1..], u');
        var (rest, u'') := MockPipes(pipes[1..], u');
        if rest.Ok? {
          forall i | 1 <= i < |pipes|
            ensures if IsMockNgDefOf(pipes[i], Pipe) then MockPipes(pipes, u).0.value[i] == pipes[i]
                    else IsMockOf(MockPipes(pipes, u).0.value[i], pipes[i])
          {
            assert pipes[i] == pipes[1..][i - 1];
            assert MockPipes(pipes, u).0.value[i] == rest.value[i - 1];
          }
        }
      }
    }
  }
}
