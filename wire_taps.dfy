/**
 * The wire-tap binder: a bean post-processor holding (pattern, wire tap) mappings.
 * After a message channel is initialised it attaches, in mapping iteration order,
 * the wire tap of every mapping whose pattern matches the channel's whole name.
 */
module WireTapChannels {
  import opened Wrappers

  /**
   * A compiled regular expression. The regex engine is not modelled: a pattern is
   * given by its source text and by the strings it matches in full.
   */
  datatype Pattern = Pattern(regex: string, fullMatches: string -> bool)

  /** `pattern.matcher(name).matches()`: the whole name is in the pattern's language. */
  predicate FullMatch(p: Pattern, name: string) {
    p.fullMatches(name)
  }

  /** A wire-tap interceptor forwarding to a template, with or without delivery context. */
  datatype WireTap = WireTap(id: nat, sendContext: bool)

  /** An interceptor on a channel: one of the wire taps, or any other interceptor. */
  datatype Interceptor = Tap(tap: WireTap) | Other(id: nat)

  /** One entry of the pattern-to-wire-tap mapping. */
  datatype Mapping = Mapping(pattern: Pattern, tap: WireTap)

  /** The exceptions the binder throws (IllegalArgumentException from Spring's Assert). */
  datatype Error = NullMappings | NullChannelName

  /** A message channel: its component name (possibly null) and its interceptor list. */
  class Channel {
    var name: Option<string>
    var interceptors: seq<Interceptor>

    constructor (name: Option<string>, interceptors: seq<Interceptor>)
      ensures this.name == name && this.interceptors == interceptors
    {
      this.name := name;
      this.interceptors := interceptors;
    }

    /** `addInterceptor`: appends to the interceptor list. */
    method AddInterceptor(i: Interceptor)
      modifies this`interceptors
      ensures interceptors == old(interceptors) + [i]
    {
      interceptors := interceptors + [i];
    }
  }

  /** A bean handed to the post-processor: a message channel or any other object. */
  datatype Bean = ChannelBean(channel: Channel) | OtherBean(id: nat)

  /** The wire taps of the mappings whose pattern fully matches `name`, in mapping order. */
  function MatchingTaps(mappings: seq<Mapping>, name: string): (r: seq<Interceptor>)
    ensures |r| <= |mappings|
  {
    if mappings == [] then []
    else Attached(mappings[0], name) + MatchingTaps(mappings[1..], name)
  }

  /** What one mapping contributes for this name: its tap if the pattern matches, nothing otherwise. */
  function Attached(m: Mapping, name: string): (r: seq<Interceptor>)
    ensures |r| <= 1
  {
    if FullMatch(m.pattern, name) then [Tap(m.tap)] else []
  }

  /** Filtering distributes over concatenation of the mapping sequence. */
  lemma {:induction false} MatchingTapsAppend(a: seq<Mapping>, b: seq<Mapping>, name: string)
    ensures MatchingTaps(a + b, name) == MatchingTaps(a, name) + MatchingTaps(b, name)
  {
    if a == [] {
      assert a + b == b;
    } else {
      assert (a + b)[0] == a[0] && (a + b)[1..] == a[1..] + b;
      MatchingTapsAppend(a[1..], b, name);
      calc {
        MatchingTaps(a + b, name);
        Attached(a[0], name) + MatchingTaps(a[1..] + b, name);
        Attached(a[0], name) + (MatchingTaps(a[1..], name) + MatchingTaps(b, name));
        (Attached(a[0], name) + MatchingTaps(a[1..], name)) + MatchingTaps(b, name);
      }
    }
  }

  /** The taps of a prefix one entry longer: the last entry's tap is appended exactly when it matches. */
  lemma MatchingTapsSnoc(mappings: seq<Mapping>, i: nat, name: string)
    requires i < |mappings|
    ensures MatchingTaps(mappings[..i + 1], name) ==
      MatchingTaps(mappings[..i], name) +
      Attached(mappings[i], name)
  {
    assert mappings[..i + 1] == mappings[..i] + [mappings[i]];
    MatchingTapsAppend(mappings[..i], [mappings[i]], name);
  }

  /**
   * A tap is among the attached ones exactly when some mapping with that tap has
   * a pattern that fully matches the name: matching taps are attached, and taps of
   * non-matching mappings never are.
   */
  lemma {:induction false} MatchingTapsMembership(mappings: seq<Mapping>, name: string, t: WireTap)
    ensures Tap(t) in MatchingTaps(mappings, name) <==>
      exists k :: 0 <= k < |mappings| && mappings[k].tap == t && FullMatch(mappings[k].pattern, name)
  {
    if mappings != [] {
      MatchingTapsMembership(mappings[1..], name, t);
      if Tap(t) in MatchingTaps(mappings[1..], name) {
        var k :| 0 <= k < |mappings[1..]| && mappings[1..][k].tap == t && FullMatch(mappings[1..][k].pattern, name);
        assert mappings[k + 1] == mappings[1..][k];
      }
      if exists k :: 0 <= k < |mappings| && mappings[k].tap == t && FullMatch(mappings[k].pattern, name) {
        var k :| 0 <= k < |mappings| && mappings[k].tap == t && FullMatch(mappings[k].pattern, name);
        if k > 0 {
          assert mappings[1..][k - 1] == mappings[k];
        }
      }
    }
  }

  /** `idx` is a strictly increasing list of positions below `n`. */
  predicate Positions(idx: seq<nat>, n: nat) {
    (forall j :: 0 <= j < |idx| ==> idx[j] < n) &&
    (forall i, j :: 0 <= i < j < |idx| ==> idx[i] < idx[j])
  }

  /** Every position of `idx` moved one place to the right. */
  function Shift(idx: seq<nat>, n: nat): (r: seq<nat>)
    ensures |r| == |idx|
    ensures forall j :: 0 <= j < |r| ==> r[j] == idx[j] + 1
    ensures forall k :: k in r <==> k > 0 && k - 1 in idx
    ensures Positions(idx, n) ==> Positions(r, n + 1)
  {
    seq(|idx|, j requires 0 <= j < |idx| => idx[j] + 1)
  }

  /** The positions of the mappings whose pattern fully matches `name`, front to back. */
  function MatchPositions(mappings: seq<Mapping>, name: string): (r: seq<nat>)
    ensures forall j :: 0 <= j < |r| ==> r[j] < |mappings|
  {
    if mappings == [] then []
    else
      var rest := MatchPositions(mappings[1..], name);
      (if FullMatch(mappings[0].pattern, name) then [0] else []) + Shift(rest, |mappings| - 1)
  }

  /** `MatchPositions` is increasing and holds exactly the positions of the fully matching mappings. */
  lemma {:induction false} MatchPositionsExact(mappings: seq<Mapping>, name: string)
    ensures Positions(MatchPositions(mappings, name), |mappings|)
    ensures forall k :: 0 <= k < |mappings| ==>
      (k in MatchPositions(mappings, name) <==> FullMatch(mappings[k].pattern, name))
  {
    if mappings == [] {
      return;
    }
    var tail := mappings[1..];
    MatchPositionsExact(tail, name);
    var rest := MatchPositions(tail, name);
    var shifted := Shift(rest, |tail|);
    var head := if FullMatch(mappings[0].pattern, name) then [0] else [];
    var idx := head + shifted;
    assert idx == MatchPositions(mappings, name);
    forall k | 0 <= k < |mappings| ensures k in idx <==> FullMatch(mappings[k].pattern, name) {
      if k > 0 {
        assert tail[k - 1] == mappings[k];
        assert k in idx <==> k in shifted;
      } else {
        assert 0 !in shifted;
      }
    }
    if head == [] {
      assert idx == shifted;
    } else {
      PrependZero(shifted, |mappings|);
    }
  }

  /** The taps of the mappings at the positions `idx`, in that order. */
  function TapsAt(mappings: seq<Mapping>, idx: seq<nat>): (r: seq<Interceptor>)
    requires forall j :: 0 <= j < |idx| ==> idx[j] < |mappings|
    ensures |r| == |idx|
    ensures forall j :: 0 <= j < |idx| ==> r[j] == Tap(mappings[idx[j]].tap)
  {
    seq(|idx|, j requires 0 <= j < |idx| => Tap(mappings[idx[j]].tap))
  }

  /** Selecting at two runs of positions gives the two selections one after the other. */
  lemma TapsAtAppend(mappings: seq<Mapping>, a: seq<nat>, b: seq<nat>)
    requires forall j :: 0 <= j < |a| ==> a[j] < |mappings|
    requires forall j :: 0 <= j < |b| ==> b[j] < |mappings|
    ensures TapsAt(mappings, a + b) == TapsAt(mappings, a) + TapsAt(mappings, b)
  {
  }

  /** Positions one to the right select from the mappings what the unshifted ones select from the rest. */
  lemma TapsAtShift(mappings: seq<Mapping>, rest: seq<nat>)
    requires |mappings| > 0
    requires forall j :: 0 <= j < |rest| ==> rest[j] < |mappings| - 1
    ensures TapsAt(mappings, Shift(rest, |mappings| - 1)) == TapsAt(mappings[1..], rest)
  {
    var shifted := Shift(rest, |mappings| - 1);
    forall j | 0 <= j < |rest| ensures mappings[shifted[j]] == mappings[1..][rest[j]] {
      assert shifted[j] == rest[j] + 1;
    }
  }

  /** The attached list is the taps of the mappings at `MatchPositions`. */
  lemma {:induction false} MatchPositionsTaps(mappings: seq<Mapping>, name: string)
    ensures MatchingTaps(mappings, name) == TapsAt(mappings, MatchPositions(mappings, name))
  {
    if mappings == [] {
      return;
    }
    var tail := mappings[1..];
    MatchPositionsTaps(tail, name);
    var rest := MatchPositions(tail, name);
    var head: seq<nat> := if FullMatch(mappings[0].pattern, name) then [0] else [];
    var shifted := Shift(rest, |tail|);
    assert MatchPositions(mappings, name) == head + shifted;
    TapsAtAppend(mappings, head, shifted);
    TapsAtShift(mappings, rest);
    assert TapsAt(mappings, head) == Attached(mappings[0], name);
  }

  /**
   * Independent description of the attached taps: there is an increasing list of
   * mapping positions, holding exactly the matching ones, whose taps are the
   * attached list position by position. So each matching mapping contributes its
   * tap exactly once, in mapping iteration order.
   */
  lemma MatchingTapsSelect(mappings: seq<Mapping>, name: string) returns (idx: seq<nat>)
    ensures Positions(idx, |mappings|)
    ensures forall k :: 0 <= k < |mappings| ==> (k in idx <==> FullMatch(mappings[k].pattern, name))
    ensures |MatchingTaps(mappings, name)| == |idx|
    ensures forall j :: 0 <= j < |idx| ==> MatchingTaps(mappings, name)[j] == Tap(mappings[idx[j]].tap)
  {
    idx := MatchPositions(mappings, name);
    MatchPositionsExact(mappings, name);
    MatchPositionsTaps(mappings, name);
  }

  /** Position 0 can go in front of a list of positions that are all greater than 0. */
  lemma PrependZero(idx: seq<nat>, n: nat)
    requires n > 0 && Positions(idx, n)
    requires forall j :: 0 <= j < |idx| ==> idx[j] > 0
    ensures Positions([0] + idx, n)
  {
    var r := [0] + idx;
    forall i, j | 0 <= i < j < |r| ensures r[i] < r[j] {
      assert r[j] == idx[j - 1];
      if i > 0 {
        assert r[i] == idx[i - 1];
      }
    }
  }

  /** `new EsperWireTapChannelsBeanPostProcessor(mappings)`: a null mapping is rejected. */
  function NewPostProcessor(mappings: Option<seq<Mapping>>): (r: Result<WireTapChannelsPostProcessor, Error>)
    ensures r.Success? <==> mappings.Some?
    ensures r.Success? ==> r.value.mappings == mappings.value
    ensures r.Failure? ==> r.error == NullMappings
  {
    match mappings
    case None => Failure(NullMappings)
    case Some(m) => Success(PostProcessor(m))
  }

  /** `EsperWireTapChannelsBeanPostProcessor`: its mapping is fixed at construction. */
  datatype WireTapChannelsPostProcessor = PostProcessor(mappings: seq<Mapping>)
  {
    /** Returns the bean as it is and has no effect. */
    method PostProcessBeforeInitialization(bean: Bean, beanName: string) returns (r: Bean)
      ensures r == bean
    {
      r := bean;
    }

    /**
     * Returns the same bean. A channel gets its matching wire taps attached (or the
     * null-name assertion fails); any other bean is left untouched.
     */
    method PostProcessAfterInitialization(bean: Bean, beanName: string) returns (r: Result<Bean, Error>)
      modifies if bean.ChannelBean? then {bean.channel} else {}
      ensures bean.OtherBean? ==> r == Success(bean)
      ensures bean.ChannelBean? ==>
        var c := bean.channel;
        c.name == old(c.name) &&
        (old(c.name).None? ==> r == Failure(NullChannelName) && c.interceptors == old(c.interceptors)) &&
        (old(c.name).Some? ==>
          r == Success(bean) &&
          c.interceptors == old(c.interceptors) + MatchingTaps(mappings, old(c.name).value))
    {
      if bean.ChannelBean? {
        var added := AddMatchingWireTaps(bean.channel);
        if added.Fail? {
          return Failure(added.error);
        }
      }
      r := Success(bean);
    }

    /**
     * `addMatchingWireTaps`: fails the assertion on a channel without a name before
     * attaching anything; otherwise appends, in mapping order, the tap of every
     * mapping whose pattern fully matches the name, keeping the interceptors
     * already there. Nothing else about the channel changes.
     */
    method AddMatchingWireTaps(channel: Channel) returns (r: Outcome<Error>)
      modifies channel`interceptors
      ensures channel.name.None? ==> r == Fail(NullChannelName) && channel.interceptors == old(channel.interceptors)
      ensures channel.name.Some? ==>
        r == Pass && channel.interceptors == old(channel.interceptors) + MatchingTaps(mappings, channel.name.value)
    {
      if channel.name == None {
        return Fail(NullChannelName);
      }
      var name := channel.name.value;
      var i := 0;
      while i < |mappings|
        invariant 0 <= i <= |mappings|
        invariant channel.interceptors == old(channel.interceptors) + MatchingTaps(mappings[..i], name)
      {
        MatchingTapsSnoc(mappings, i, name);
        if FullMatch(mappings[i].pattern, name) {
          channel.AddInterceptor(Tap(mappings[i].tap));
        }
        i := i + 1;
      }
      assert mappings[..i] == mappings;
      r := Pass;
    }
  }
}
