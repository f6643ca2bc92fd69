/**
 * The travel workflow's state (`AgentState`) and its merge reducer: the
 * `messages` channel is combined with list concatenation, every other field is
 * last-writer-wins. A step returns a partial state of the same shape, in which
 * `None` means "key not present in the returned dictionary".
 */
module State {
  import opened Wrappers

  /** Who wrote a chat message: the human user or the language model. */
  datatype Role = Human | Ai

  /** A role-tagged chat message. */
  datatype Message = Message(role: Role, content: string)

  /** The exceptions raised by steps, routers and the engine. */
  datatype Error =
    | KeyError(key: string)              // a required dictionary key is absent
    | IndexError                         // the last element of an empty list was read
    | ExternalCallError(detail: string)  // an opaque capability (language model, weather lookup) failed
    | UnknownBranch                      // a router returned a value its path map does not list
    | InvalidGraph                       // the graph builder was given an inconsistent topology
    | EmptyInput                         // a thread without a checkpoint was resumed without input

  /** The travel workflow's state; every scalar key may be absent. */
  datatype AgentState = AgentState(
    messages: seq<Message>,
    location: Option<string>,
    weather: Option<string>,
    itinerary: Option<string>,
    humanFeedback: Option<string>,
    revisionCount: Option<int>)

  /** The state of a thread nothing has been written to, and also the update that writes nothing. */
  const Empty: AgentState := AgentState([], None, None, None, None, None)

  /** `b` starts with `a`: no entry of `a` was dropped or reordered. */
  predicate IsPrefix<T(==)>(a: seq<T>, b: seq<T>) {
    |a| <= |b| && b[..|a|] == a
  }

  /** The last-writer-wins reducer of one scalar key. */
  function Replace<T>(current: Option<T>, update: Option<T>): Option<T> {
    if update.Some? then update else current
  }

  /** Applies a step's partial update to a state, key by key. */
  function Merge(s: AgentState, u: AgentState): AgentState {
    AgentState(
      s.messages + u.messages,
      Replace(s.location, u.location),
      Replace(s.weather, u.weather),
      Replace(s.itinerary, u.itinerary),
      Replace(s.humanFeedback, u.humanFeedback),
      Replace(s.revisionCount, u.revisionCount))
  }

  /**
   * What a merge does to each key: the log becomes the old log followed by
   * the update's entries; a scalar present in the update wins, an absent one
   * keeps the old value.
   */
  lemma MergeSemantics(s: AgentState, u: AgentState)
    ensures var r := Merge(s, u);
      && |r.messages| == |s.messages| + |u.messages|
      && r.messages[..|s.messages|] == s.messages
      && r.messages[|s.messages|..] == u.messages
      && (u.location.Some? ==> r.location == u.location)
      && (u.location.None? ==> r.location == s.location)
      && (u.weather.Some? ==> r.weather == u.weather)
      && (u.weather.None? ==> r.weather == s.weather)
      && (u.itinerary.Some? ==> r.itinerary == u.itinerary)
      && (u.itinerary.None? ==> r.itinerary == s.itinerary)
      && (u.humanFeedback.Some? ==> r.humanFeedback == u.humanFeedback)
      && (u.humanFeedback.None? ==> r.humanFeedback == s.humanFeedback)
      && (u.revisionCount.Some? ==> r.revisionCount == u.revisionCount)
      && (u.revisionCount.None? ==> r.revisionCount == s.revisionCount)
  {
  }

  /** A merge keeps the old log as a prefix of the new one. */
  lemma MergeKeepsHistory(s: AgentState, u: AgentState)
    ensures IsPrefix(s.messages, Merge(s, u).messages)
  {
    assert (s.messages + u.messages)[..|s.messages|] == s.messages;
  }

  /** An update that writes no key leaves the state as it was. */
  lemma MergeEmptyIsIdentity(s: AgentState)
    ensures Merge(s, Empty) == s
  {
    assert s.messages + [] == s.messages;
  }

  /** Merging two updates one after the other is merging their combination once. */
  lemma MergeComposes(s: AgentState, u: AgentState, v: AgentState)
    ensures Merge(Merge(s, u), v) == Merge(s, Merge(u, v))
  {
    assert (s.messages + u.messages) + v.messages == s.messages + (u.messages + v.messages);
  }

  /** Merges a sequence of updates, first to last. */
  function MergeAll(s: AgentState, us: seq<AgentState>): AgentState
    decreases |us|
  {
    if us == [] then s else MergeAll(Merge(s, us[0]), us[1..])
  }

  /** The number of messages a sequence of updates carries. */
  function MessageCount(us: seq<AgentState>): nat
    decreases |us|
  {
    if us == [] then 0 else |us[0].messages| + MessageCount(us[1..])
  }

  /**
   * Over any sequence of merges the log never shrinks and never reorders:
   * the first log is a prefix of the last, which is longer by exactly the
   * number of messages the updates carried.
   */
  lemma {:induction false} MergeAllKeepsHistory(s: AgentState, us: seq<AgentState>)
    ensures IsPrefix(s.messages, MergeAll(s, us).messages)
    ensures |MergeAll(s, us).messages| == |s.messages| + MessageCount(us)
    decreases |us|
  {
    if us != [] {
      var s' := Merge(s, us[0]);
      MergeAllKeepsHistory(s', us[1..]);
      MergeKeepsHistory(s, us[0]);
      PrefixTransitive(s.messages, s'.messages, MergeAll(s, us).messages);
    }
  }

  /** Being a prefix is transitive. */
  lemma PrefixTransitive<T>(a: seq<T>, b: seq<T>, c: seq<T>)
    requires IsPrefix(a, b) && IsPrefix(b, c)
    ensures IsPrefix(a, c)
  {
    assert c[..|a|] == c[..|b|][..|a|];
  }
}
