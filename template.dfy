/**
 * The Esper template: a named registry of EPL statements kept in insertion order
 * (a `LinkedHashSet` of statement objects), a one-shot `initialize` that obtains
 * the engine's service provider and runtime and compiles every registered
 * statement, and `sendEvent`, which forwards events to that runtime.
 *
 * Engine-side effects the template causes are kept as fields: `compiled` lists the
 * EPL texts the provider's administrator has compiled (a handle is a position in
 * it, so every compilation yields a fresh handle), `received` the events the
 * runtime was sent, and `providerDestroyed` whether the provider was destroyed.
 */
module Template {
  import opened Wrappers
  import opened Registry
  import opened Esper
  import opened Statements

  /** The EPL texts of a sequence of statements, in order. */
  function Epls(ss: seq<Statement>): seq<Epl> {
    seq(|ss|, k requires 0 <= k < |ss| => ss[k].epl)
  }

  /** The lookup criterion of `findStatementById`: the statement's id equals `id`. */
  function HasId(id: string): Statement -> bool {
    (st: Statement) => st.id == id
  }

  /** The engine compiles the first `n` texts of `epls` one after another, starting from the compiled texts `history`. */
  predicate CompilesInTurn(engine: Engine, history: seq<Epl>, epls: seq<Epl>, n: nat) {
    n <= |epls| && forall k :: 0 <= k < n ==> engine.accepts(history + epls[..k], epls[k])
  }

  /**
   * How many of the texts `epls` the engine compiles one after another, starting
   * from the compiled texts `history`, before the first one it rejects: each text
   * is judged against `history` and the texts compiled before it.
   */
  function SetupLength(engine: Engine, history: seq<Epl>, epls: seq<Epl>): (n: nat)
    ensures CompilesInTurn(engine, history, epls, n)
    ensures n < |epls| ==> !engine.accepts(history + epls[..n], epls[n])
    decreases |epls|
  {
    assert history + epls[..0] == history;
    if epls == [] || !engine.accepts(history, epls[0]) then 0
    else
      var m := SetupLength(engine, history + [epls[0]], epls[1..]);
      assert forall k :: 0 <= k <= m ==>
        (history + [epls[0]]) + epls[1..][..k] == history + epls[..k + 1];
      assert forall j :: 0 <= j < m ==> engine.accepts(history + epls[..j + 1], epls[1..][j]);
      1 + m
  }

  /** One more accepted text extends the run of texts compiled in turn. */
  lemma CompilesInTurnStep(engine: Engine, history: seq<Epl>, epls: seq<Epl>, i: nat)
    requires CompilesInTurn(engine, history, epls, i) && i < |epls|
    requires engine.accepts(history + epls[..i], epls[i])
    ensures CompilesInTurn(engine, history, epls, i + 1)
  {
  }

  /** A prefix length with the properties `SetupLength` promises is `SetupLength`. */
  lemma SetupLengthUnique(engine: Engine, history: seq<Epl>, epls: seq<Epl>, i: nat)
    requires CompilesInTurn(engine, history, epls, i)
    requires i < |epls| ==> !engine.accepts(history + epls[..i], epls[i])
    ensures SetupLength(engine, history, epls) == i
  {
  }

  class EsperTemplate {
    var name: Option<string>
    var statements: seq<Statement>
    var configuration: Option<Resource>
    var unmatchedListener: Option<Listener>
    var initialised: bool
    var provider: Option<Provider>
    var runtime: Option<Runtime>
    var compiled: seq<Epl>
    var received: seq<Event>
    var providerDestroyed: bool

    /**
     * The statements form a set of distinct objects; a provider is only ever
     * obtained by `initialize`, and the runtime is always the provider's.
     */
    ghost predicate Valid()
      reads this`statements, this`initialised, this`provider, this`runtime
    {
      Distinct(statements) &&
      (provider.Some? ==> initialised) &&
      (runtime.Some? ==> provider.Some? && runtime.value.provider == provider.value)
    }

    /** The position `findStatementById(id)` stops at, or `None` when it throws. */
    ghost function Lookup(id: string): Option<nat>
      reads this
    {
      Find(statements, HasId(id))
    }

    /** The statement objects a lifecycle command on `id` may touch: the one found, if any. */
    ghost function LookupFrame(id: string): set<object>
      reads this
    {
      match Lookup(id)
      case None => {}
      case Some(k) => {statements[k]}
    }

    /** Every statement before position `n` holds the handle `base` plus its position and is started. */
    ghost predicate BoundFrom(base: nat, n: nat)
      reads this, statements
    {
      n <= |statements| &&
      forall k :: 0 <= k < n ==> statements[k].handle == Some(base + k) && statements[k].state == Started
    }

    /** The same statements as in the old state, and each from position `n` on has the handle and state it had there. */
    twostate predicate UntouchedFrom(n: nat)
      reads this, statements
    {
      statements == old(statements) &&
      forall k :: n <= k < |statements| ==>
        statements[k].handle == old(statements[k].handle) && statements[k].state == old(statements[k].state)
    }

    /** A template as created by its default constructor: no name, no statements, not initialised. */
    constructor ()
      ensures Valid()
      ensures name == None && statements == [] && configuration == None && unmatchedListener == None
      ensures !initialised && provider == None && runtime == None
      ensures compiled == [] && received == [] && !providerDestroyed
    {
      name := None;
      statements := [];
      configuration := None;
      unmatchedListener := None;
      initialised := false;
      provider := None;
      runtime := None;
      compiled := [];
      received := [];
      providerDestroyed := false;
    }

    method SetName(n: string)
      modifies this`name
      ensures name == Some(n)
    {
      name := Some(n);
    }

    /** The name last set, or `None` (Java null) when none was. */
    method GetName() returns (r: Option<string>)
      ensures r == name
    {
      r := name;
    }

    /** Replaces the statement set; a `Set` argument holds no object twice. */
    method SetStatements(ss: seq<Statement>)
      requires Valid() && Distinct(ss)
      modifies this`statements
      ensures Valid() && statements == ss
    {
      statements := ss;
    }

    /** The statement set, in iteration order. */
    method GetStatements() returns (r: seq<Statement>)
      ensures r == statements
    {
      r := statements;
    }

    method SetConfiguration(c: Option<Resource>)
      modifies this`configuration
      ensures configuration == c
    {
      configuration := c;
    }

    method SetUnmatchedListener(l: Option<Listener>)
      modifies this`unmatchedListener
      ensures unmatchedListener == l
    {
      unmatchedListener := l;
    }

    /** The runtime, or `None` (Java null) before a successful provider lookup. */
    method GetEsperNativeRuntime() returns (r: Option<Runtime>)
      requires Valid()
      ensures r == runtime
      ensures r.Some? ==> provider.Some? && initialised && r.value.provider == provider.value
    {
      r := runtime;
    }

    /**
     * `epServiceProvider.getEPAdministrator().createEPL(epl)`: null provider
     * reference, a text rejected in view of what was compiled before, or a fresh
     * handle to the newly compiled statement.
     */
    method CreateEPL(epl: Epl, engine: Engine) returns (r: Result<Handle, Error>)
      modifies this`compiled
      ensures provider.None? ==> r == Failure(NullProvider) && compiled == old(compiled)
      ensures provider.Some? && !engine.accepts(old(compiled), epl) ==>
        r == Failure(EngineFailure(Rejected(epl))) && compiled == old(compiled)
      ensures provider.Some? && engine.accepts(old(compiled), epl) ==>
        r == Success(|old(compiled)|) && compiled == old(compiled) + [epl]
    {
      if provider == None {
        return Failure(NullProvider);
      }
      if !engine.accepts(compiled, epl) {
        return Failure(EngineFailure(Rejected(epl)));
      }
      r := Success(|compiled|);
      compiled := compiled + [epl];
    }

    /**
     * Inserts `s` (a set: an object already present stays where it is). When the
     * template is initialised, the statement is compiled at once and bound to the
     * new engine statement; otherwise it waits for `initialize`.
     */
    method AddStatement(s: Statement, engine: Engine) returns (r: Outcome<Error>)
      requires Valid()
      modifies this`statements, this`compiled, s
      ensures Valid()
      ensures statements == if s in old(statements) then old(statements) else old(statements) + [s]
      ensures !initialised ==> r == Pass && compiled == old(compiled) && unchanged(s)
      ensures initialised && provider.None? ==>
        r == Fail(NullProvider) && compiled == old(compiled) && unchanged(s)
      ensures initialised && provider.Some? && !engine.accepts(old(compiled), s.epl) ==>
        r == Fail(EngineFailure(Rejected(s.epl))) && compiled == old(compiled) && unchanged(s)
      ensures initialised && provider.Some? && engine.accepts(old(compiled), s.epl) ==>
        r == Pass && compiled == old(compiled) + [s.epl] &&
        s.handle == Some(|old(compiled)|) && s.state == Started
    {
      if s !in statements {
        statements := statements + [s];
        forall i, j | 0 <= i < j < |statements| ensures statements[i] != statements[j] {
          if j == |statements| - 1 {
            assert statements[i] in old(statements);
          } else {
            assert statements[i] == old(statements)[i] && statements[j] == old(statements)[j];
          }
        }
      }
      r := Pass;
      if initialised {
        var h := CreateEPL(s.epl, engine);
        if h.Failure? {
          return Fail(h.error);
        }
        s.SetEPStatement(h.value);
      }
    }

    /** `findStatementById`: the first statement, in iteration order, with this id. */
    method FindStatementById(id: string) returns (r: Result<Statement, Error>)
      ensures Lookup(id).None? ==> r == Failure(UnknownStatement(id))
      ensures Lookup(id).Some? ==> r == Success(statements[Lookup(id).value])
    {
      var i := 0;
      while i < |statements|
        invariant 0 <= i <= |statements|
        invariant forall j :: 0 <= j < i ==> statements[j].id != id
      {
        if statements[i].id == id {
          return Success(statements[i]);
        }
        i := i + 1;
      }
      return Failure(UnknownStatement(id));
    }

    /**
     * Starts the statement with this id. An unknown id throws before any statement
     * is touched; otherwise only the found statement changes, as its engine says.
     */
    method StartStatement(id: string, engine: Engine) returns (r: Outcome<Error>)
      requires Valid()
      modifies LookupFrame(id)
      ensures Valid()
      ensures Lookup(id).None? ==> r == Fail(UnknownStatement(id))
      ensures Lookup(id).Some? ==>
        var st := statements[Lookup(id).value];
        st.handle == old(st.handle) &&
        (r, st.state) == Transition(old(st.handle), old(st.state), Start, engine)
    {
      var found := FindStatementById(id);
      if found.Failure? {
        return Fail(found.error);
      }
      r := found.value.Run(Start, engine);
    }

    /** Stops the statement with this id, with the same failure behaviour as `StartStatement`. */
    method StopStatement(id: string, engine: Engine) returns (r: Outcome<Error>)
      requires Valid()
      modifies LookupFrame(id)
      ensures Valid()
      ensures Lookup(id).None? ==> r == Fail(UnknownStatement(id))
      ensures Lookup(id).Some? ==>
        var st := statements[Lookup(id).value];
        st.handle == old(st.handle) &&
        (r, st.state) == Transition(old(st.handle), old(st.state), Stop, engine)
    {
      var found := FindStatementById(id);
      if found.Failure? {
        return Fail(found.error);
      }
      r := found.value.Run(Stop, engine);
    }

    /**
     * Destroys the statement with this id and removes it from the set. An unknown
     * id throws before anything changes; an engine exception propagates with the
     * statement still in the set; a destroy that does not leave the statement
     * DESTROYED fails the assertion, again with the statement still in the set.
     * Otherwise exactly the found position is removed.
     */
    method DestroyStatement(id: string, engine: Engine) returns (r: Outcome<Error>)
      requires Valid()
      modifies this`statements, LookupFrame(id)
      ensures Valid()
      ensures old(Lookup(id)).None? ==> r == Fail(UnknownStatement(id)) && statements == old(statements)
      ensures old(Lookup(id)).Some? ==>
        var k := old(Lookup(id)).value;
        var st := old(statements)[k];
        var (outcome, next) := Transition(old(st.handle), old(st.state), Destroy, engine);
        st.handle == old(st.handle) && st.state == next &&
        (outcome.Fail? ==> r == outcome && statements == old(statements)) &&
        (outcome.Pass? && next != Destroyed ==>
          r == Fail(DestroyNotConfirmed(id)) && statements == old(statements)) &&
        (outcome.Pass? && next == Destroyed ==>
          r == Pass && statements == RemoveAt(old(statements), k))
    {
      var found := FindStatementById(id);
      if found.Failure? {
        return Fail(found.error);
      }
      var st := found.value;
      r := st.Run(Destroy, engine);
      if r.Fail? {
        return;
      }
      if st.state != Destroyed {
        return Fail(DestroyNotConfirmed(id));
      }
      Remove(st);
    }

    /** `statements.remove(st)`: deletes the one position holding the object `st`. */
    method Remove(st: Statement)
      requires Valid() && st in statements
      modifies this`statements
      ensures Valid()
      ensures exists k :: (0 <= k < |old(statements)| && old(statements)[k] == st &&
                           statements == RemoveAt(old(statements), k))
    {
      var i := 0;
      while statements[i] != st
        invariant 0 <= i < |statements|
        invariant forall j :: 0 <= j < i ==> statements[j] != st
        decreases |statements| - i
      {
        i := i + 1;
      }
      RemoveAtDistinct(statements, i);
      statements := RemoveAt(statements, i);
    }

    /**
     * Forwards `e` to the runtime exactly once. With no runtime it throws a
     * configuration error; an exception of the runtime itself propagates.
     */
    method SendEvent(e: Event, engine: Engine) returns (r: Outcome<Error>)
      modifies this`received
      ensures r.Pass? <==> runtime.Some? && engine.delivers(e)
      ensures runtime.None? ==> r == Fail(NullRuntime) && received == old(received)
      ensures runtime.Some? && !engine.delivers(e) ==>
        r == Fail(EngineFailure(SendFailed(e))) && received == old(received)
      ensures r.Pass? ==> received == old(received) + [e]
    {
      if runtime == None {
        return Fail(NullRuntime);
      }
      if !engine.delivers(e) {
        return Fail(EngineFailure(SendFailed(e)));
      }
      received := received + [e];
      r := Pass;
    }

    /**
     * `configureEPServiceProvider`: the provider for the template's name, with the
     * user configuration when a resource is configured and present.
     */
    method ConfigureEPServiceProvider(engine: Engine) returns (r: Outcome<Error>)
      modifies this`provider
      ensures !engine.providerAvailable ==>
        r == Fail(EngineFailure(ProviderUnavailable)) && provider == old(provider)
      ensures engine.providerAvailable ==>
        r == Pass &&
        provider == Some(Provider(name, configuration.Some? && configuration.value.present))
    {
      if !engine.providerAvailable {
        return Fail(EngineFailure(ProviderUnavailable));
      }
      var userConfigured := configuration.Some? && configuration.value.present;
      provider := Some(Provider(name, userConfigured));
      r := Pass;
    }

    /**
     * `setupEPStatements`: compiles the statements in iteration order and binds each
     * to its engine statement, stopping at the first text the engine rejects.
     */
    method SetupEPStatements(engine: Engine) returns (r: Outcome<Error>)
      requires Valid() && provider.Some?
      modifies this`compiled, statements
      ensures Valid()
      ensures var n := SetupLength(engine, old(compiled), Epls(statements));
        compiled == old(compiled) + Epls(statements)[..n] &&
        BoundFrom(|old(compiled)|, n) && UntouchedFrom(n) &&
        r == if n == |statements| then Pass
             else Fail(EngineFailure(Rejected(statements[n].epl)))
    {
      ghost var base, epls := compiled, Epls(statements);
      var i := 0;
      while i < |statements|
        invariant 0 <= i <= |statements|
        invariant compiled == base + epls[..i]
        invariant CompilesInTurn(engine, base, epls, i)
        invariant BoundFrom(|base|, i) && UntouchedFrom(i)
      {
        assert statements[i].epl == epls[i];
        var h := SetupStatement(i, engine);
        if h.Failure? {
          assert Epls(statements) == epls;
          SetupLengthUnique(engine, base, epls, i);
          return Fail(h.error);
        }
        CompilesInTurnStep(engine, base, epls, i);
        assert epls[..i + 1] == epls[..i] + [epls[i]];
        assert BoundFrom(|base|, i + 1);
        i := i + 1;
      }
      assert Epls(statements) == epls;
      SetupLengthUnique(engine, base, epls, i);
      r := Pass;
    }

    /** One pass of the `setupEPStatements` loop: compiles statement `i` and binds it to the new engine statement. */
    method SetupStatement(i: nat, engine: Engine) returns (r: Result<Handle, Error>)
      requires provider.Some? && i < |statements|
      modifies this`compiled, statements[i]
      ensures !engine.accepts(old(compiled), statements[i].epl) ==>
        r == Failure(EngineFailure(Rejected(statements[i].epl))) && compiled == old(compiled) &&
        unchanged(statements[i])
      ensures engine.accepts(old(compiled), statements[i].epl) ==>
        r == Success(|old(compiled)|) && compiled == old(compiled) + [statements[i].epl] &&
        statements[i].handle == Some(|old(compiled)|) && statements[i].state == Started
    {
      var st := statements[i];
      r := CreateEPL(st.epl, engine);
      if r.Success? {
        st.SetEPStatement(r.value);
      }
    }

    /**
     * One-shot initialisation. The flag is set before any setup work, so a second
     * call throws even when the first one failed. Setup obtains the provider and
     * its runtime (with the unmatched listener, if one is set) and then compiles
     * every statement; any failure is wrapped as a configuration error and leaves
     * what was done so far in place.
     */
    method Initialize(engine: Engine) returns (r: Outcome<Error>)
      requires Valid()
      modifies this`initialised, this`provider, this`runtime, this`compiled, statements
      ensures Valid() && initialised
      ensures old(initialised) ==>
        r == Fail(AlreadyInitialised) && provider == old(provider) && runtime == old(runtime) &&
        compiled == old(compiled) && unchanged(statements)
      ensures !old(initialised) && !engine.providerAvailable ==>
        r == Fail(SetupFailed(ProviderUnavailable)) && provider == None && runtime == None &&
        compiled == old(compiled) && unchanged(statements)
      ensures !old(initialised) && engine.providerAvailable ==>
        var p := Provider(name, configuration.Some? && configuration.value.present);
        var n := SetupLength(engine, old(compiled), Epls(statements));
        provider == Some(p) && runtime == Some(Runtime(p, unmatchedListener)) &&
        compiled == old(compiled) + Epls(statements)[..n] &&
        BoundFrom(|old(compiled)|, n) && UntouchedFrom(n) &&
        r == if n == |statements| then Pass
             else Fail(SetupFailed(Rejected(statements[n].epl)))
    {
      if initialised {
        return Fail(AlreadyInitialised);
      }
      initialised := true;
      var configured := ConfigureEPServiceProvider(engine);
      if configured.Fail? {
        return Fail(SetupFailed(configured.error.cause));
      }
      runtime := Some(Runtime(provider.value, unmatchedListener));
      var setup := SetupEPStatements(engine);
      if setup.Fail? {
        return Fail(SetupFailed(setup.error.cause));
      }
      r := Pass;
    }

    /** `cleanup`: destroys the provider; with a null provider reference it throws. */
    method Cleanup() returns (r: Outcome<Error>)
      modifies this`providerDestroyed
      ensures provider.None? ==> r == Fail(NullProvider) && providerDestroyed == old(providerDestroyed)
      ensures provider.Some? ==> r == Pass && providerDestroyed
    {
      if provider == None {
        return Fail(NullProvider);
      }
      providerDestroyed := true;
      r := Pass;
    }
  }
}
