/** Concrete bindings: two patterns, two taps, and channels registered against them. */
module WireTapScenarios {
  import opened Wrappers
  import opened WireTapChannels

  /** The characters Java's `.` does not match by default. */
  predicate LineTerminator(c: char) {
    c == '\n' || c == '\r' || c == '\U{0085}' || c == '\U{2028}' || c == '\U{2029}'
  }

  /** No character of `s` is a line terminator, so `.*` matches all of it. */
  predicate WithinLine(s: string) {
    forall i :: 0 <= i < |s| ==> !LineTerminator(s[i])
  }

  /** `pattern.matcher(s).find()`: some substring of `s` matches in full. The binder tests full matches instead. */
  predicate Finds(p: Pattern, s: string) {
    exists i, j :: 0 <= i <= j <= |s| && p.fullMatches(s[i..j])
  }

  /** The full-match language of `<prefix>.*` (with the prefix's own dots escaped). */
  predicate PrefixThenLine(prefix: string, s: string) {
    |prefix| <= |s| && s[..|prefix|] == prefix && WithinLine(s[|prefix|..])
  }

  function OrderPattern(): Pattern {
    Pattern("order\\..*", (s: string) => PrefixThenLine("order.", s))
  }

  function AuditPattern(): Pattern {
    Pattern("audit\\..*", (s: string) => PrefixThenLine("audit.", s))
  }

  /** The full-match outcome of each pattern on each of the two channel names. */
  lemma PatternOutcomes()
    ensures FullMatch(OrderPattern(), "order.created") && FullMatch(OrderPattern(), "order.audit.log")
    ensures !FullMatch(AuditPattern(), "order.created") && !FullMatch(AuditPattern(), "order.audit.log")
  {
    CreatedOutcomes();
    AuditLogOutcomes();
  }

  /** "order.created" is fully matched by `order\..*` and not by `audit\..*`. */
  lemma CreatedOutcomes()
    ensures FullMatch(OrderPattern(), "order.created") && !FullMatch(AuditPattern(), "order.created")
  {
    assert "order.created"[..6] == "order." && "order.created"[6..] == "created";
    assert WithinLine("created");
    assert "order." != "audit.";
  }

  /** "order.audit.log" is fully matched by `order\..*` and not by `audit\..*`. */
  lemma AuditLogOutcomes()
    ensures FullMatch(OrderPattern(), "order.audit.log") && !FullMatch(AuditPattern(), "order.audit.log")
  {
    assert "order.audit.log"[..6] == "order." && "order.audit.log"[6..] == "audit.log";
    assert WithinLine("audit.log");
    assert "order." != "audit.";
  }

  /** Two mappings contribute to a name what each contributes on its own, in order. */
  lemma TwoMappings(a: Mapping, b: Mapping, name: string)
    ensures MatchingTaps([a, b], name) == Attached(a, name) + Attached(b, name)
  {
    assert [a, b][1..] == [b];
    assert [b][1..] == [];
  }

  /**
   * With `order\..*` bound to T and `audit\..*` bound to U, both "order.created" and
   * "order.audit.log" get only T: the audit pattern is found inside the second name
   * but does not match all of it.
   */
  lemma OrderAndAuditChannels(t: WireTap, u: WireTap)
    ensures MatchingTaps([Mapping(OrderPattern(), t), Mapping(AuditPattern(), u)], "order.created") == [Tap(t)]
    ensures MatchingTaps([Mapping(OrderPattern(), t), Mapping(AuditPattern(), u)], "order.audit.log") == [Tap(t)]
    ensures Finds(AuditPattern(), "order.audit.log")
  {
    PatternOutcomes();
    TwoMappings(Mapping(OrderPattern(), t), Mapping(AuditPattern(), u), "order.created");
    TwoMappings(Mapping(OrderPattern(), t), Mapping(AuditPattern(), u), "order.audit.log");
    AuditFoundInside();
  }

  /** A substring search for `audit\..*` succeeds on "order.audit.log": "audit.log" matches in full. */
  lemma AuditFoundInside()
    ensures Finds(AuditPattern(), "order.audit.log")
  {
    var name := "order.audit.log";
    assert name[6..15] == "audit.log";
    assert "audit.log"[..6] == "audit." && "audit.log"[6..] == "log" && WithinLine("log");
    assert PrefixThenLine("audit.", name[6..15]);
  }

  /**
   * A channel that already has an interceptor keeps it and gets the matching tap
   * after it; a bean that is not a channel comes back unchanged.
   */
  method RegisterChannels(t: WireTap, u: WireTap, existing: Interceptor)
    returns (attached: seq<Interceptor>, other: Result<Bean, Error>, unnamed: Result<Bean, Error>)
    ensures attached == [existing, Tap(t)]
    ensures other == Success(OtherBean(7))
    ensures unnamed == Failure(NullChannelName)
  {
    var created := NewPostProcessor(Some([Mapping(OrderPattern(), t), Mapping(AuditPattern(), u)]));
    var processor := created.value;
    OrderAndAuditChannels(t, u);
    var channel := new Channel(Some("order.created"), [existing]);
    var r := processor.PostProcessAfterInitialization(ChannelBean(channel), "orders");
    attached := channel.interceptors;
    other := processor.PostProcessAfterInitialization(OtherBean(7), "other");
    var nameless := new Channel(None, []);
    unnamed := processor.PostProcessAfterInitialization(ChannelBean(nameless), "nameless");
  }
}
