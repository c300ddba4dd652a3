# OpenCredo Esper: template state machine and wire-tap binder, in Dafny

This project models two pieces of the OpenCredo Esper integration and proves properties of them.

- **`EsperTemplate`** keeps an insertion-ordered set of EPL statements and an `initialised` flag, plus nullable references to the Esper service provider and its runtime. `addStatement` always inserts. It compiles the statement at once only when the template is already initialised. `startStatement`, `stopStatement` and `destroyStatement` look the statement up by id and throw when the id is unknown. `destroyStatement` asserts that the statement reached `DESTROYED`, then removes it. `sendEvent` throws while the runtime is null. `initialize` can run only once: it sets the flag before doing any setup, so a failed initialisation still blocks a retry.
- **`EsperWireTapChannelsBeanPostProcessor`** holds a mapping from regex patterns to wire taps. It is called after each message channel is initialised. For every mapping whose pattern matches the channel's whole name, it appends that mapping's tap to the channel's interceptor list.

Files:

- `wrappers.dfy`: the `Option`/`Result`/`Outcome` types used for Java nulls and exceptions.
- `registry.dfy`: the set of statements, kept as a sequence of distinct objects. `Find` is the front-to-back scan. `RemoveAt` is one deletion. The lemmas say what a lookup sees after a removal.
- `engine.dfy`: the Esper engine as an abstract collaborator, `Engine`. It says:
  - whether the provider lookup succeeds (`providerAvailable`);
  - which EPL texts `createEPL` accepts, given the texts compiled before (`accepts`);
  - which events `sendEvent` processes without throwing (`delivers`);
  - which state a statement reaches on start, stop or destroy (`transition`; `None` means the engine throws).

  It also holds the template's error kinds.
- `statement.dfy`: `Statement`, an object with a fixed id and EPL text, an optional engine handle and a lifecycle state.
- `template.dfy`: the `EsperTemplate` class. Its fields are the source's fields, plus three that record what the template did to the engine:
  - `compiled`: the EPL texts compiled, in order. A handle is a position in this list, so every compilation yields a fresh handle. The engine judges each new text against this list.
  - `received`: the events sent to the runtime.
  - `providerDestroyed`: whether `cleanup` destroyed the provider.
- `template_scenarios.dfy`: clients that chain several template operations. Their contracts follow from the operations' contracts alone.
- `wire_taps.dfy`: the post-processor, the `Channel` class and `MatchingTaps`, the list of taps a channel gets. It also holds the lemmas that characterise that list.
- `wire_tap_scenarios.dfy`: a concrete binding that shows full matching differs from substring search.

The regex engine is not modelled. A `Pattern` carries its regex text and `fullMatches`, the set of strings that `matcher(s).matches()` accepts. `FullMatch(p, name)` is that test.

## Behaviour of the code worth knowing

- **A failed `initialize` can leave the template partly usable.** `epRuntime` is set before the statements are compiled (EsperTemplate.java:138-142). So when a statement's EPL is rejected, the statements before it stay associated and `sendEvent` still forwards events afterwards. `TemplateScenarios.SendAfterRejectedStatement` proves this.
- **`addStatement` after a failed provider lookup throws a null-pointer exception.** The provider reference is still null but `initialised` is true. The statement has already been inserted when the exception is thrown. `TemplateScenarios.AddAfterFailedInitialise` proves this.
- **Whether a statement compiles can depend on the statements before it.** `setupEPStatements` compiles in the set's iteration order against one provider (EsperTemplate.java:157-162). A second `create window` of the same name is refused, and a statement that reads from a named window, such as a `select … from W` or an `on W …`, compiles only once that window exists. `TemplateScenarios.DuplicateWindow` and `TemplateScenarios.DependentStatementOrder` prove what `initialize` does in these cases.
- **Taps follow the mapping's iteration order.** The binder loops over the `Map`'s entry set (EsperWireTapChannelsBeanPostProcessor.java:62-66), and Java leaves that order unspecified. The model takes the mapping as a sequence in that iteration order.

## Model

| member | source | states |
|---|---|---|
| `Registry.Find` | esper-template/src/main/java/org/opencredo/esper/EsperTemplate.java:109-116 | The scan returns the first position whose element satisfies the test, and no earlier element satisfies it. It returns `None` exactly when no element does. |
| `Registry.RemoveAtKeepsOrder` | esper-template/src/main/java/org/opencredo/esper/EsperTemplate.java:97 | Removing one position keeps every other element in its original order. The removed multiset is exactly that one element. |
| `Registry.RemoveAtDistinct` | esper-template/src/main/java/org/opencredo/esper/EsperTemplate.java:97 | Removing from a set keeps it a set. The removed object is no longer present, and every other object still is. |
| `Registry.FindAfterRemove` | esper-template/src/main/java/org/opencredo/esper/EsperTemplate.java:93-116 | After a removal, a lookup finds the same element as before, unless that element was the one removed. If the removed element was the only match, the lookup fails. |
| `Statements.Transition` | esper-template/src/main/java/org/opencredo/esper/EsperTemplate.java:100-107 | A lifecycle command that fails leaves the state unchanged. A statement never associated with the engine cannot change state. The command succeeds exactly when the statement has a handle and the engine does not throw. On success the statement takes the state the engine reports. |
| `Statements.Statement.SetEPStatement` | esper-template/src/main/java/org/opencredo/esper/EsperTemplate.java:159-160 | Binds the statement to the engine statement just created, which is started. |
| `Statements.Statement.Run` | esper-template/src/main/java/org/opencredo/esper/EsperTemplate.java:95-106 | Delegates start, stop or destroy to the engine with the effect `Transition` describes. The handle never changes. |
| `Template.SetupLength` | esper-template/src/main/java/org/opencredo/esper/EsperTemplate.java:157-162 | The number of statements the loop compiles before it stops. Every text before that point is accepted given the history and the texts before it; the text at that point is rejected. |
| `Template.EsperTemplate.constructor` | esper-template/src/main/java/org/opencredo/esper/EsperTemplate.java:49-55 | A new template has an empty statement set, is not initialised, and has null provider, runtime, name, configuration and listener. |
| `Template.EsperTemplate.SetName` | esper-template/src/main/java/org/opencredo/esper/EsperTemplate.java:57-59 | Sets the name and changes no other field. |
| `Template.EsperTemplate.GetName` | esper-template/src/main/java/org/opencredo/esper/EsperTemplate.java:61-63 | Returns the name last set, and changes nothing. |
| `Template.EsperTemplate.SetStatements` | esper-template/src/main/java/org/opencredo/esper/EsperTemplate.java:65-67 | Replaces the statement set and changes no other field. The set invariant is kept. |
| `Template.EsperTemplate.GetStatements` | esper-template/src/main/java/org/opencredo/esper/EsperTemplate.java:81-83 | Returns the statement set in iteration order, and changes nothing. |
| `Template.EsperTemplate.SetConfiguration` | esper-template/src/main/java/org/opencredo/esper/EsperTemplate.java:69-71 | Sets the configuration resource and changes no other field. |
| `Template.EsperTemplate.SetUnmatchedListener` | esper-template/src/main/java/org/opencredo/esper/EsperTemplate.java:73-75 | Sets the unmatched listener and changes no other field. |
| `Template.EsperTemplate.GetEsperNativeRuntime` | esper-template/src/main/java/org/opencredo/esper/EsperTemplate.java:77-79 | Returns the runtime reference. When it is not null, `initialize` has run and obtained a provider, and the runtime is that provider's. |
| `Template.EsperTemplate.CreateEPL` | esper-template/src/main/java/org/opencredo/esper/EsperTemplate.java:88 | With a null provider, throws a null-pointer exception. With a text the engine rejects, given the texts compiled so far, throws the engine's exception. Otherwise records the compiled text and returns a fresh handle, its position in the compiled list. |
| `Template.EsperTemplate.AddStatement` | esper-template/src/main/java/org/opencredo/esper/EsperTemplate.java:85-91 | Always inserts the statement at the end, unless that object is already present. Before initialisation nothing else happens. After initialisation the statement is compiled and bound to a fresh handle. It throws a null-pointer exception when the provider is null after a failed initialisation. It propagates the engine's exception on a rejected text. In both error cases the statement is still inserted. |
| `Template.EsperTemplate.FindStatementById` | esper-template/src/main/java/org/opencredo/esper/EsperTemplate.java:109-116 | Returns the first statement, in iteration order, with the given id. It throws IllegalArgumentException exactly when no statement has that id. |
| `Template.EsperTemplate.StartStatement` | esper-template/src/main/java/org/opencredo/esper/EsperTemplate.java:100-103 | An unknown id throws before any statement is touched. Otherwise only the found statement changes, as `Transition` says for Start. Set membership never changes. |
| `Template.EsperTemplate.StopStatement` | esper-template/src/main/java/org/opencredo/esper/EsperTemplate.java:104-107 | The same as StartStatement, for Stop. |
| `Template.EsperTemplate.DestroyStatement` | esper-template/src/main/java/org/opencredo/esper/EsperTemplate.java:93-98 | An unknown id throws and leaves the set unchanged. An engine exception propagates, and so does a destroy that does not reach DESTROYED (the assertion); in both cases the statement stays in the set. Otherwise exactly the found position is removed, and the others keep their order. |
| `Template.EsperTemplate.Remove` | esper-template/src/main/java/org/opencredo/esper/EsperTemplate.java:97 | Removes the one position that holds the given object. |
| `Template.EsperTemplate.SendEvent` | esper-template/src/main/java/org/opencredo/esper/EsperTemplate.java:118-128 | Succeeds exactly when the runtime reference is not null and the runtime processes the event without throwing. Then the runtime receives the event exactly once. With a null runtime it throws InvalidEsperConfigurationException; an exception of the runtime propagates. In both failure cases nothing is recorded as sent. |
| `Template.EsperTemplate.ConfigureEPServiceProvider` | esper-template/src/main/java/org/opencredo/esper/EsperTemplate.java:171-186 | Obtains the provider for the template's name. It is user-configured exactly when a configuration resource is set and exists. When reading the configuration or the lookup throws, the provider reference is unchanged. |
| `Template.EsperTemplate.SetupEPStatements` | esper-template/src/main/java/org/opencredo/esper/EsperTemplate.java:157-162 | Compiles the statements in iteration order, up to the first rejected text. Each text is judged against the texts compiled before it, including earlier statements of the same loop. Each statement before that point gets the next fresh handle and is started; those after it are untouched. The call succeeds exactly when no text is rejected. |
| `Template.EsperTemplate.SetupStatement` | esper-template/src/main/java/org/opencredo/esper/EsperTemplate.java:159-160 | One loop pass. A text rejected after the texts compiled so far throws and leaves the statement untouched. Otherwise the text is recorded as compiled and the statement is bound to the fresh handle and started. |
| `Template.EsperTemplate.Initialize` | esper-template/src/main/java/org/opencredo/esper/EsperTemplate.java:130-148 | Afterwards the template is always initialised. A second call throws InvalidEsperConfigurationException and changes nothing. A failed provider lookup leaves the provider and runtime null. Otherwise the runtime, with the unmatched listener if one is set, is in place before the statements are compiled. A normal return means every statement was given a distinct fresh handle. Every setup failure is wrapped as a configuration error. |
| `Template.EsperTemplate.Cleanup` | esper-template/src/main/java/org/opencredo/esper/EsperTemplate.java:150-152 | Destroys the provider, or throws a null-pointer exception when there is none. |
| `TemplateScenarios.NamedTemplateWithoutStatements` | esper-template/src/test/java/org/opencredo/esper/config/xml/NoStatementsNamedEsperTemplateParserTest.java:35-42 | A template given only a name reports an empty statement set and returns that name. |
| `TemplateScenarios.SendBeforeInitialise` | esper-template/src/main/java/org/opencredo/esper/EsperTemplate.java:118-128 | Sending before `initialize` throws, and the runtime receives nothing. |
| `TemplateScenarios.InitialiseTwice` | esper-template/src/main/java/org/opencredo/esper/EsperTemplate.java:130-134 | A second `initialize` throws AlreadyInitialised, whatever the engine does and whether or not the first call failed. |
| `TemplateScenarios.InitialiseWithoutProvider` | esper-template/src/main/java/org/opencredo/esper/EsperTemplate.java:130-146 | After a failed provider lookup, the retry is refused and `sendEvent` keeps failing. |
| `TemplateScenarios.AddAfterFailedInitialise` | esper-template/src/main/java/org/opencredo/esper/EsperTemplate.java:85-91 | After a failed provider lookup, `addStatement` inserts the statement and then throws a null-pointer exception. The statement stays unassociated. |
| `TemplateScenarios.SendAfterRejectedStatement` | esper-template/src/main/java/org/opencredo/esper/EsperTemplate.java:136-145 | A rejected statement fails `initialize`, yet the runtime is already set, so `sendEvent` forwards the event. |
| `TemplateScenarios.AddBeforeAndAfterInitialise` | esper-template/src/main/java/org/opencredo/esper/EsperTemplate.java:85-91 | A statement added before `initialize` is bound by it (handle 0). One added afterwards is bound at once (handle 1). |
| `TemplateScenarios.StatementLifecycle` | esper-template/src/main/java/org/opencredo/esper/EsperTemplate.java:93-116 | Add, initialise, start, stop and destroy all succeed. The statement ends DESTROYED, the set is empty, and a later start fails with an unknown-statement error. |
| `TemplateScenarios.DuplicateWindow` | esper-template/src/main/java/org/opencredo/esper/EsperTemplate.java:136-162 | With an engine that refuses a text already compiled, two statements with the same text make `initialize` fail on the second. The first is bound to handle 0 and started; the second stays unassociated. |
| `TemplateScenarios.InitialiseTwo` | esper-template/src/main/java/org/opencredo/esper/EsperTemplate.java:130-162 | `initialize` on a template with two statements succeeds exactly when the engine compiles both in turn. Otherwise it fails with the first text it rejects, wrapped as a configuration error. |
| `TemplateScenarios.DependentStatementOrder` | esper-template/src/main/java/org/opencredo/esper/EsperTemplate.java:157-162 | A statement that reads from another's window makes `initialize` succeed when it comes second and fail with its own text when it comes first. |
| `TemplateScenarios.DestroyThenFind` | esper-template/src/main/java/org/opencredo/esper/EsperTemplate.java:93-116 | After a successful destroy of an id no other statement carries, looking that id up throws. Every other id finds the statement it found before, or still finds none. |
| `WireTapChannels.Attached` | esper-si-support/src/main/java/org/opencredo/esper/integration/config/xml/EsperWireTapChannelsBeanPostProcessor.java:63-64 | One mapping contributes at most one interceptor. |
| `WireTapChannels.MatchingTaps` | esper-si-support/src/main/java/org/opencredo/esper/integration/config/xml/EsperWireTapChannelsBeanPostProcessor.java:60-66 | The list of taps attached for a name is no longer than the mapping. Its full characterisation is in the three lemmas below. |
| `WireTapChannels.MatchingTapsAppend` | esper-si-support/src/main/java/org/opencredo/esper/integration/config/xml/EsperWireTapChannelsBeanPostProcessor.java:62-66 | Scanning two runs of mappings attaches the first run's taps, then the second's. |
| `WireTapChannels.MatchingTapsSnoc` | esper-si-support/src/main/java/org/opencredo/esper/integration/config/xml/EsperWireTapChannelsBeanPostProcessor.java:62-66 | One more loop step appends the entry's tap exactly when its pattern fully matches. |
| `WireTapChannels.MatchingTapsMembership` | esper-si-support/src/main/java/org/opencredo/esper/integration/config/xml/EsperWireTapChannelsBeanPostProcessor.java:63-64 | A tap is attached exactly when some mapping with that tap has a pattern that fully matches the name. Taps of non-matching mappings are never attached. |
| `WireTapChannels.MatchingTapsSelect` | esper-si-support/src/main/java/org/opencredo/esper/integration/config/xml/EsperWireTapChannelsBeanPostProcessor.java:60-66 | There is an increasing list of mapping positions, holding exactly the matching ones. The attached list is their taps, position by position. So each matching entry is attached exactly once, in iteration order. |
| `WireTapChannels.MatchPositionsExact` | esper-si-support/src/main/java/org/opencredo/esper/integration/config/xml/EsperWireTapChannelsBeanPostProcessor.java:62-64 | The positions of the matching mappings are strictly increasing. A position is among them exactly when that mapping's pattern fully matches the name. |
| `WireTapChannels.MatchPositionsTaps` | esper-si-support/src/main/java/org/opencredo/esper/integration/config/xml/EsperWireTapChannelsBeanPostProcessor.java:60-66 | The attached list equals the taps of the mappings at those positions, taken in order. |
| `WireTapChannels.NewPostProcessor` | esper-si-support/src/main/java/org/opencredo/esper/integration/config/xml/EsperWireTapChannelsBeanPostProcessor.java:38-41 | Construction fails exactly when the mapping is null. Otherwise the processor holds that mapping. |
| `WireTapChannels.WireTapChannelsPostProcessor.PostProcessBeforeInitialization` | esper-si-support/src/main/java/org/opencredo/esper/integration/config/xml/EsperWireTapChannelsBeanPostProcessor.java:43-45 | Returns the same bean. It has no modifies clause, so it has no effect. |
| `WireTapChannels.WireTapChannelsPostProcessor.PostProcessAfterInitialization` | esper-si-support/src/main/java/org/opencredo/esper/integration/config/xml/EsperWireTapChannelsBeanPostProcessor.java:47-53 | Returns the same bean. A bean that is not a channel is untouched. A channel gets exactly what AddMatchingWireTaps gives it. |
| `WireTapChannels.WireTapChannelsPostProcessor.AddMatchingWireTaps` | esper-si-support/src/main/java/org/opencredo/esper/integration/config/xml/EsperWireTapChannelsBeanPostProcessor.java:56-67 | A channel without a name fails the assertion before any interceptor is attached. Otherwise the interceptor list becomes the old list followed by the taps of the fully matching mappings, in order. The name does not change. |
| `WireTapChannels.Channel.AddInterceptor` | esper-si-support/src/main/java/org/opencredo/esper/integration/config/xml/EsperWireTapChannelsBeanPostProcessor.java:64 | Appends one interceptor to the channel's list. |
| `WireTapScenarios.PatternOutcomes` | esper-si-support/src/main/java/org/opencredo/esper/integration/config/xml/EsperWireTapChannelsBeanPostProcessor.java:63 | `order\..*` fully matches "order.created" and "order.audit.log". `audit\..*` fully matches neither. |
| `WireTapScenarios.OrderAndAuditChannels` | esper-si-support/src/main/java/org/opencredo/esper/integration/config/xml/EsperWireTapChannelsBeanPostProcessor.java:60-66 | With `order\..*` mapped to T and `audit\..*` mapped to U, both channels get only T. Yet a substring search for `audit\..*` would succeed on "order.audit.log". |
| `WireTapScenarios.AuditFoundInside` | esper-si-support/src/main/java/org/opencredo/esper/integration/config/xml/EsperWireTapChannelsBeanPostProcessor.java:63 | A substring search for `audit\..*` succeeds on "order.audit.log", although the full match does not. |
| `WireTapScenarios.RegisterChannels` | esper-si-support/src/main/java/org/opencredo/esper/integration/config/xml/EsperWireTapChannelsBeanPostProcessor.java:47-66 | A channel keeps its existing interceptor and gets T after it. A non-channel bean comes back unchanged. A channel without a name is rejected. |

## Left out

- The Esper engine itself (query compilation and execution, listeners, subscribers) is abstract. `Engine` only says which calls succeed and which statement state they report.
- The engine calls `getEPRuntime` and `setUnmatchedListener` are assumed not to throw.
- Template.EsperTemplate.SendEvent: when the runtime throws, the model records the event as not received. Work the engine did for that event before throwing is not modelled.
- `EsperStatement.java` is not part of this model. Two of its behaviours are assumed:
  - a statement created by `createEPL` is started;
  - a start, stop or destroy on a statement without a handle throws and changes nothing.
- `EPServiceProviderManager.getProvider` returns one provider per name for the whole process. The model treats the provider as a value that holds the name and whether the user configuration was used. Each template starts an empty list of compiled texts.
- Loading the configuration resource (EsperTemplate.java:175-179) is I/O. It is folded into the single `providerAvailable` outcome.
- Template.EsperTemplate.Cleanup: `EPServiceProvider.destroy` is assumed not to throw. After `cleanup`, `sendEvent`, `createEPL` and lifecycle commands are modelled as if the provider were still alive; the engine's refusal of calls on a destroyed provider is not captured. The model records only that the provider was destroyed. A second call is not told apart from the first. Statements are not moved to DESTROYED, and the source does not do that either.
- Template.EsperTemplate.SetStatements: copies the sequence. The Java code shares the caller's `Set` object, and `getStatements` returns the internal set. Later changes made through those references are not modelled. The `Set` passed in is assumed to iterate in insertion order, like the `LinkedHashSet` the field starts as (EsperTemplate.java:52). The iteration order of other `Set` implementations, and where they place an added element, is not modelled; that order decides which statement `findStatementById` returns first and the order in which `setupEPStatements` compiles.
- `equals` on statements is taken as object identity, so the set never holds one object twice. `EsperStatement` is not in this model, so this cannot be checked against its source.
- Null arguments are not modelled. In Java they behave as follows:
  - A null id: `findStatementById` compares with `statement.getId().equals(id)` (EsperTemplate.java:111), which is false for null, so the lookup throws `IllegalArgumentException` as for an unknown id.
  - A null statement: before initialisation `addStatement(null)` returns normally, since the `LinkedHashSet` accepts null (line 86); a later `initialize` then fails at line 159 with the null-pointer exception wrapped at line 145, and a later lookup throws a null-pointer exception at line 111. After initialisation `addStatement(null)` throws a null-pointer exception at line 88.
  - A statement whose id is null: any lookup that reaches it throws a null-pointer exception at line 111.
- Names, ids and EPL texts are ordinary strings. The template's name and the channel's name may be null (`None`).
- `synchronized` and `volatile`: every operation is modelled as sequential.
- Logging is not modelled.
- The Java regular-expression engine is not modelled. A pattern is given by the strings it fully matches. In the concrete scenarios, these sets are written out by hand.
- A Java `Map` cannot hold the same pattern key twice, and its entry-set order is unspecified. The model takes the mapping as a sequence in iteration order; that sequence may repeat a pattern.
- The wire-tap interceptor, which forwards messages to the template, is not part of this model. Its source is not among the core files.
- `EsperWireTapParser` is not modelled: it only turns XML into bean definitions.
- The `YNoodleBar` sample interface is not modelled: it has no behaviour.
