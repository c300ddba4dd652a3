/**
 * Clients of the template that combine several operations; each contract follows
 * from the operations' contracts alone.
 */
module TemplateScenarios {
  import opened Wrappers
  import opened Esper
  import opened Statements
  import opened Template

  /** An engine that obtains its provider but compiles no EPL text. */
  function RejectingEngine(): (e: Engine)
    ensures e.providerAvailable && forall history, epl :: !e.accepts(history, epl)
    ensures forall ev :: e.delivers(ev)
  {
    CooperativeEngine().(accepts := (history: seq<Epl>, epl: Epl) => false)
  }

  /** An engine that refuses a text it has already compiled, as a second `create window` of the same name is refused. */
  function UniqueTextEngine(): (e: Engine)
    ensures e.providerAvailable
    ensures forall history, epl :: e.accepts(history, epl) <==> epl !in history
  {
    CooperativeEngine().(accepts := (history: seq<Epl>, epl: Epl) => epl !in history)
  }

  /** An engine that compiles `dependent` only once `base` has been compiled, as a statement reading from a named window needs that window. */
  function DependencyEngine(base: Epl, dependent: Epl): (e: Engine)
    requires base != dependent
    ensures e.providerAvailable
    ensures forall history :: e.accepts(history, base)
    ensures forall history :: e.accepts(history, dependent) <==> base in history
  {
    CooperativeEngine().(accepts := (history: seq<Epl>, epl: Epl) => epl != dependent || base in history)
  }

  /** A template configured with a name and no statements reports that name and an empty statement set. */
  method NamedTemplateWithoutStatements(n: string) returns (name: Option<string>, statements: seq<Statement>)
    ensures name == Some(n) && statements == []
  {
    var t := new EsperTemplate();
    t.SetName(n);
    name := t.GetName();
    statements := t.GetStatements();
  }

  /** Sending before `initialize` throws and the runtime receives nothing. */
  method SendBeforeInitialise(e: Event) returns (r: Outcome<Error>, received: seq<Event>)
    ensures r == Fail(NullRuntime) && received == []
  {
    var t := new EsperTemplate();
    r := t.SendEvent(e, CooperativeEngine());
    received := t.received;
  }

  /** A second `initialize` throws, whatever engine either call meets and however the first one ended. */
  method InitialiseTwice(id: string, epl: Epl, first: Engine, second: Engine)
    returns (r1: Outcome<Error>, r2: Outcome<Error>)
    ensures r2 == Fail(AlreadyInitialised)
  {
    var t := new EsperTemplate();
    var s := new Statement(id, epl);
    var added := t.AddStatement(s, first);
    r1 := t.Initialize(first);
    r2 := t.Initialize(second);
  }

  /**
   * When the provider cannot be obtained, `initialize` fails, the retry is refused
   * and events cannot be sent: the template is unusable.
   */
  method InitialiseWithoutProvider(e: Event) returns (init: Outcome<Error>, retry: Outcome<Error>, send: Outcome<Error>)
    ensures init == Fail(SetupFailed(ProviderUnavailable))
    ensures retry == Fail(AlreadyInitialised)
    ensures send == Fail(NullRuntime)
  {
    var t := new EsperTemplate();
    var engine := CooperativeEngine().(providerAvailable := false);
    init := t.Initialize(engine);
    retry := t.Initialize(CooperativeEngine());
    send := t.SendEvent(e, CooperativeEngine());
  }

  /**
   * After the provider lookup failed, the flag is set but the provider reference is
   * still null: `addStatement` inserts the statement and then throws a null-pointer
   * exception, leaving it unassociated.
   */
  method AddAfterFailedInitialise(id: string, epl: Epl)
    returns (r: Outcome<Error>, statements: seq<Statement>, s: Statement)
    ensures r == Fail(NullProvider)
    ensures statements == [s] && s.handle == None && s.state == Unassociated
  {
    var t := new EsperTemplate();
    var engine := CooperativeEngine().(providerAvailable := false);
    var init := t.Initialize(engine);
    s := new Statement(id, epl);
    r := t.AddStatement(s, engine);
    statements := t.statements;
  }

  /**
   * When a statement's EPL is rejected during `initialize`, the runtime has already
   * been obtained: `initialize` reports a configuration error, yet `sendEvent`
   * forwards events afterwards.
   */
  method SendAfterRejectedStatement(id: string, epl: Epl, e: Event)
    returns (init: Outcome<Error>, send: Outcome<Error>, received: seq<Event>)
    ensures init == Fail(SetupFailed(Rejected(epl)))
    ensures send == Pass && received == [e]
  {
    var t := new EsperTemplate();
    var s := new Statement(id, epl);
    var engine := RejectingEngine();
    var added := t.AddStatement(s, engine);
    assert Epls(t.statements) == [epl];
    assert SetupLength(engine, t.compiled, Epls(t.statements)) == 0;
    init := t.Initialize(engine);
    assert t.runtime.Some? && t.received == [];
    assert init == Fail(SetupFailed(Rejected(s.epl)));
    send := t.SendEvent(e, engine);
    received := t.received;
  }

  /**
   * A statement added after `initialize` is compiled at once and bound to the new
   * engine statement; one added before is bound by `initialize` itself.
   */
  method AddBeforeAndAfterInitialise(epl1: Epl, epl2: Epl)
    returns (compiled: seq<Epl>, s1: Statement, s2: Statement)
    ensures compiled == [epl1, epl2]
    ensures s1.handle == Some(0) && s2.handle == Some(1)
    ensures s1.state == Started && s2.state == Started
  {
    var t := new EsperTemplate();
    var engine := CooperativeEngine();
    s1 := new Statement("first", epl1);
    var a1 := t.AddStatement(s1, engine);
    assert Epls(t.statements) == [epl1];
    assert SetupLength(engine, t.compiled, Epls(t.statements)) == 1;
    var init := t.Initialize(engine);
    s2 := new Statement("second", epl2);
    var a2 := t.AddStatement(s2, engine);
    compiled := t.compiled;
  }

  /** A fresh template holding one statement `s`, initialised against a cooperative engine. */
  method InitialisedWithOne(id: string, epl: Epl)
    returns (t: EsperTemplate, s: Statement, added: Outcome<Error>, init: Outcome<Error>)
    ensures fresh(t) && fresh(s)
    ensures t.Valid() && t.statements == [s] && t.Lookup(id) == Some(0)
    ensures s.id == id && s.handle.Some? && s.state == Started
    ensures added == Pass && init == Pass
  {
    t := new EsperTemplate();
    var engine := CooperativeEngine();
    s := new Statement(id, epl);
    added := t.AddStatement(s, engine);
    assert t.statements == [s] && Epls(t.statements) == [epl];
    SetupLengthUnique(engine, [], [epl], 1);
    init := t.Initialize(engine);
    assert t.Lookup(id) == Some(0);
  }

  /**
   * Add, initialise, start, stop and destroy a statement; afterwards the set is
   * empty and starting it again fails with an unknown-statement error.
   */
  method StatementLifecycle(id: string, epl: Epl)
    returns (steps: seq<Outcome<Error>>, again: Outcome<Error>, statements: seq<Statement>, s: Statement)
    ensures steps == [Pass, Pass, Pass, Pass, Pass]
    ensures s.state == Destroyed && statements == []
    ensures again == Fail(UnknownStatement(id))
  {
    var t, added, init;
    t, s, added, init := InitialisedWithOne(id, epl);
    var engine := CooperativeEngine();
    var started := t.StartStatement(id, engine);
    var stopped := t.StopStatement(id, engine);
    assert t.statements == [s] && t.Lookup(id) == Some(0);
    assert Registry.RemoveAt([s], 0) == [];
    assert s.handle.Some? && Transition(s.handle, s.state, Destroy, engine) == (Pass, Destroyed);
    var destroyed := t.DestroyStatement(id, engine);
    assert t.statements == [];
    again := t.StartStatement(id, engine);
    steps := [added, init, started, stopped, destroyed];
    statements := t.statements;
  }

  /**
   * Two statements with the same `create window` text: `initialize` compiles the
   * first, the engine refuses the second in view of the first, and `initialize`
   * fails with the first statement started and the second left unassociated.
   */
  method DuplicateWindow(epl: Epl) returns (init: Outcome<Error>, compiled: seq<Epl>, s1: Statement, s2: Statement)
    ensures init == Fail(SetupFailed(Rejected(epl)))
    ensures compiled == [epl]
    ensures s1.handle == Some(0) && s1.state == Started
    ensures s2.handle == None && s2.state == Unassociated
  {
    var engine := UniqueTextEngine();
    assert [epl, epl][..1] == [epl];
    SetupLengthUnique(engine, [], [epl, epl], 1);
    var t;
    t, s1, s2 := TwoStatements(epl, epl, engine);
    init := t.Initialize(engine);
    compiled := t.compiled;
  }

  /** A fresh, uninitialised template holding two new statements with these texts, in this order. */
  method TwoStatements(epl1: Epl, epl2: Epl, engine: Engine) returns (t: EsperTemplate, s1: Statement, s2: Statement)
    ensures fresh(t) && fresh(s1) && fresh(s2)
    ensures t.Valid() && !t.initialised && t.compiled == []
    ensures t.statements == [s1, s2] && Epls(t.statements) == [epl1, epl2]
    ensures s1.handle == None && s1.state == Unassociated && s2.handle == None && s2.state == Unassociated
  {
    t := new EsperTemplate();
    s1 := new Statement("first", epl1);
    s2 := new Statement("second", epl2);
    var a1 := t.AddStatement(s1, engine);
    var a2 := t.AddStatement(s2, engine);
    assert t.statements == [s1, s2] && Epls(t.statements) == [epl1, epl2];
  }

  /** `initialize` of a fresh template holding two statements with these texts, in this order. */
  method InitialiseTwo(epl1: Epl, epl2: Epl, engine: Engine) returns (init: Outcome<Error>)
    requires engine.providerAvailable
    ensures var n := SetupLength(engine, [], [epl1, epl2]);
      init == if n == 2 then Pass else Fail(SetupFailed(Rejected([epl1, epl2][n])))
  {
    var t, s1, s2 := TwoStatements(epl1, epl2, engine);
    init := t.Initialize(engine);
  }

  /**
   * A statement that reads from another one's window compiles when it comes second in
   * iteration order and is rejected when it comes first: the outcome of
   * `initialize` depends on the order of the statement set.
   */
  method DependentStatementOrder(window: Epl, reader: Epl)
    returns (inOrder: Outcome<Error>, reversed: Outcome<Error>)
    requires window != reader
    ensures inOrder == Pass
    ensures reversed == Fail(SetupFailed(Rejected(reader)))
  {
    var engine := DependencyEngine(window, reader);
    assert [window, reader][..1] == [window];
    SetupLengthUnique(engine, [], [window, reader], 2);
    inOrder := InitialiseTwo(window, reader, engine);
    SetupLengthUnique(engine, [], [reader, window], 0);
    reversed := InitialiseTwo(reader, window, engine);
  }

  /**
   * After a successful destroy of `id`, when no other statement carried `id`,
   * `findStatementById(id)` throws; every other id still finds the statement it
   * found before.
   */
  method DestroyThenFind(t: EsperTemplate, id: string, other: string, engine: Engine)
    returns (destroyed: Outcome<Error>, again: Result<Statement, Error>, kept: Result<Statement, Error>)
    requires t.Valid() && t.Lookup(id).Some?
    requires forall j :: 0 <= j < |t.statements| && t.statements[j].id == id ==> j == t.Lookup(id).value
    requires other != id
    modifies t, t.statements
    ensures destroyed == Pass ==> again == Failure(UnknownStatement(id))
    ensures destroyed == Pass ==>
      (old(t.Lookup(other)).None? ==> kept == Failure(UnknownStatement(other))) &&
      (old(t.Lookup(other)).Some? ==> kept == Success(old(t.statements)[old(t.Lookup(other)).value]))
  {
    ghost var before := t.statements;
    ghost var k := t.Lookup(id).value;
    destroyed := t.DestroyStatement(id, engine);
    again := t.FindStatementById(id);
    kept := t.FindStatementById(other);
    if destroyed == Pass {
      assert t.statements == Registry.RemoveAt(before, k);
      Registry.FindAfterRemove(before, k, HasId(id));
      Registry.FindAfterRemove(before, k, HasId(other));
    }
  }
}
