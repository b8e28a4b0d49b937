/**
 Refresh notifications: one database listener (internal/persistence/events.go) fans out to streams
 that wait in a select (internal/web/events.go). Streams, listener, broadcasts and commits
 interleave step by step; a broadcast hands out its tokens one channel at a time.
 */
module Notifications {
  import opened Basics

  type StreamId = nat

  /** Where a stream handler stands; a snapshot read is one step. */
  datatype Phase = Attached | Reading | Sending | Waiting

  /** `seen` is the version of the last snapshot, `told` that of the last one announced. */
  datatype Stream = Stream(phase: Phase, seen: nat, told: nat, token: bool)

  datatype Stage = Resync | Casting | Idle | Popped

  /** `pending` counts notifications delivered to the live connection and not yet taken. */
  datatype Listener = Offline | Listening(alive: bool, pending: nat, stage: Stage)

  /** A broadcast under the hub's mutex: the version it started at and the channels left to visit. */
  datatype Cast = Cast(start: nat, remaining: set<StreamId>)

  /** `version` counts commits that notify, `covered` is where the last finished broadcast began. */
  datatype State = State(version: nat, covered: nat, listener: Listener, cast: Option<Cast>, streams: map<StreamId, Stream>)

  datatype Event =
    | Commit
    | Connect
    | Break
    | Disconnect
    | BeginCast
    | CastTo(id: StreamId)
    | EndCast
    | Pop
    | Subscribe(id: StreamId)
    | Unsubscribe(id: StreamId)
    | Snapshot(id: StreamId)
    | Send(id: StreamId)
    | Receive(id: StreamId)
    | Tick(id: StreamId)

  /** The visible page at each version. */
  type Content = nat -> nat

  function With(s: State, id: StreamId, t: Stream): State { s.(streams := s.streams[id := t]) }

  /** The state after an event, or None when it cannot happen. Snapshot compares with the page last
      read and remembers whether a change has to be announced. */
  function Next(page: Content, s: State, e: Event): Option<State> {
    match e
    case Commit =>
      Some(s.(version := s.version + 1,
              listener := if s.listener.Listening? && s.listener.alive
                          then s.listener.(pending := s.listener.pending + 1) else s.listener))
    case Connect => if s.listener.Offline? then Some(s.(listener := Listening(true, 0, Resync))) else None
    case Break => if s.listener.Listening? then Some(s.(listener := s.listener.(alive := false))) else None
    case Disconnect =>
      if s.listener.Listening? && !s.listener.alive && s.listener.stage.Idle? then Some(s.(listener := Offline)) else None
    case BeginCast =>
      if s.listener.Listening? && (s.listener.stage.Resync? || s.listener.stage.Popped?) && s.cast.None?
      then Some(s.(cast := Some(Cast(s.version, s.streams.Keys)), listener := s.listener.(stage := Casting)))
      else None
    case CastTo(id) =>
      if s.cast.Some? && id in s.cast.value.remaining && id in s.streams
      then Some(With(s, id, s.streams[id].(token := true)).(cast := Some(Cast(s.cast.value.start, s.cast.value.remaining - {id}))))
      else None
    case EndCast =>
      if s.cast.Some? && s.cast.value.remaining == {} && s.listener.Listening?
      then Some(s.(cast := None, covered := s.cast.value.start, listener := s.listener.(stage := Idle)))
      else None
    case Pop =>
      if s.listener.Listening? && s.listener.stage.Idle? && s.listener.pending > 0
      then Some(s.(listener := s.listener.(pending := s.listener.pending - 1, stage := Popped)))
      else None
    case Subscribe(id) =>
      if s.cast.None? && id !in s.streams then Some(With(s, id, Stream(Attached, 0, 0, false))) else None
    case Unsubscribe(id) =>
      if s.cast.None? && id in s.streams then Some(s.(streams := s.streams - {id})) else None
    case Snapshot(id) =>
      if id in s.streams && (s.streams[id].phase.Attached? || s.streams[id].phase.Reading?) then
        var t := s.streams[id];
        var told := if t.phase.Attached? || page(s.version) != page(t.seen) then s.version else t.told;
        Some(With(s, id, t.(phase := Sending, seen := s.version, told := told)))
      else None
    case Send(id) =>
      if id in s.streams && s.streams[id].phase.Sending? then Some(With(s, id, s.streams[id].(phase := Waiting))) else None
    case Receive(id) =>
      if id in s.streams && s.streams[id].phase.Waiting? && s.streams[id].token
      then Some(With(s, id, s.streams[id].(phase := Reading, token := false))) else None
    case Tick(id) =>
      if id in s.streams && s.streams[id].phase.Waiting? then Some(With(s, id, s.streams[id].(phase := Reading))) else None
  }

  predicate Initial(s: State) { s.covered == s.version && s.listener.Offline? && s.cast.None? && s.streams == map[] }

  // ------------------------------------------------------------------ invariant

  /** The stream has read its snapshot and will not read again unless woken. */
  predicate Settled(t: Stream) { t.phase.Sending? || t.phase.Waiting? }

  /** What must have a token: a settled stream behind the given version. */
  predicate Woken(t: Stream, version: nat) { Settled(t) && t.seen < version ==> t.token }

  ghost predicate Tokens(s: State) {
    && (forall id <- s.streams :: Woken(s.streams[id], s.covered))
    && (s.cast.Some? ==> forall id <- s.streams :: id in s.cast.value.remaining || Woken(s.streams[id], s.cast.value.start))
  }

  ghost predicate Casts(s: State) {
    && s.covered <= s.version
    && (s.cast.Some? <==> s.listener.Listening? && s.listener.stage.Casting?)
    && (s.cast.Some? ==> s.covered <= s.cast.value.start <= s.version && s.cast.value.remaining <= s.streams.Keys)
  }

  /** Every commit is covered by a broadcast, by the one under way, or by a notification to come. */
  ghost predicate Reach(s: State) {
    s.listener.Listening? && s.listener.alive ==>
      match s.listener.stage
      case Idle => s.version <= s.covered + s.listener.pending
      case Casting => s.cast.Some? ==> s.version <= s.cast.value.start + s.listener.pending
      case _ => true
  }

  ghost predicate Told(page: Content, s: State) {
    forall id <- s.streams :: s.streams[id].seen <= s.version
      && (!s.streams[id].phase.Attached? ==> page(s.streams[id].told) == page(s.streams[id].seen))
  }

  ghost predicate Inv(page: Content, s: State) { Tokens(s) && Casts(s) && Reach(s) && Told(page, s) }

  lemma NextTokens(page: Content, s: State, e: Event, t: State)
    requires Tokens(s) && Casts(s) && Next(page, s, e) == Some(t)
    ensures Tokens(t)
  {
  }

  lemma NextCasts(page: Content, s: State, e: Event, t: State)
    requires Casts(s) && Next(page, s, e) == Some(t)
    ensures Casts(t)
  {
  }

  lemma NextReach(page: Content, s: State, e: Event, t: State)
    requires Casts(s) && Reach(s) && Next(page, s, e) == Some(t)
    ensures Reach(t)
  {
  }

  lemma NextTold(page: Content, s: State, e: Event, t: State)
    requires Told(page, s) && Next(page, s, e) == Some(t)
    ensures Told(page, t)
  {
  }

  // ------------------------------------------------------------------------ runs

  ghost predicate IsRun(page: Content, states: seq<State>, events: seq<Event>) {
    && |states| == |events| + 1 && Initial(states[0])
    && forall i | 0 <= i < |events| :: Next(page, states[i], events[i]) == Some(states[i + 1])
  }

  lemma {:induction false} Reachable(page: Content, states: seq<State>, events: seq<Event>, i: nat)
    requires IsRun(page, states, events) && i < |states|
    ensures Inv(page, states[i])
  {
    if i > 0 {
      hide Next, Tokens, Casts, Reach, Told;
      Reachable(page, states, events, i - 1);
      NextTokens(page, states[i - 1], events[i - 1], states[i]);
      NextCasts(page, states[i - 1], events[i - 1], states[i]);
      NextReach(page, states[i - 1], events[i - 1], states[i]);
      NextTold(page, states[i - 1], events[i - 1], states[i]);
    }
  }

  /** Main result: a stream waiting in its select whose last snapshot is older than a finished
      broadcast always has a token in its channel. */
  lemma NoLostRefresh(page: Content, states: seq<State>, events: seq<Event>, i: nat, id: StreamId)
    requires IsRun(page, states, events) && i < |states| && id in states[i].streams
    requires states[i].streams[id].phase.Waiting? && states[i].streams[id].seen < states[i].covered
    ensures states[i].streams[id].token
  {
    Reachable(page, states, events, i);
  }

  /** Main result: once the listener is connected, resynced and drained, every commit is covered. */
  lemma DrainedCoversAll(page: Content, states: seq<State>, events: seq<Event>, i: nat)
    requires IsRun(page, states, events) && i < |states|
    requires states[i].listener == Listening(true, 0, Idle)
    ensures states[i].covered == states[i].version
  {
    Reachable(page, states, events, i);
  }

  /** At rest, with no token left, every waiting stream has read the newest commit and its client
      was told of the page as it is now. */
  lemma RestIsCurrent(page: Content, states: seq<State>, events: seq<Event>, i: nat, id: StreamId)
    requires IsRun(page, states, events) && i < |states| && id in states[i].streams
    requires states[i].listener == Listening(true, 0, Idle)
    requires states[i].streams[id].phase.Waiting? && !states[i].streams[id].token
    ensures states[i].streams[id].seen == states[i].version
    ensures page(states[i].streams[id].told) == page(states[i].version)
  {
    Reachable(page, states, events, i);
  }

  // --------------------------------------------------------------------- the hub

  /** The subscriber map with its one-slot channels, as the mutex sees it. */
  class Hub {
    var subs: map<StreamId, bool>

    constructor ()
      ensures subs == map[]
    {
      subs := map[];
    }

    method Subscribe(id: StreamId)
      requires id !in subs
      modifies this
      ensures subs == old(subs)[id := false]
    {
      subs := subs[id := false];
    }

    method Unsubscribe(id: StreamId)
      modifies this
      ensures subs == old(subs) - {id}
    {
      subs := subs - {id};
    }

    /** A full channel keeps its token; nobody is skipped and nobody is added. */
    method Broadcast()
      modifies this
      ensures subs.Keys == old(subs).Keys && forall id <- subs :: subs[id]
    {
      var rest := subs.Keys;
      while rest != {}
        invariant rest <= subs.Keys == old(subs).Keys
        invariant forall id <- subs.Keys - rest :: subs[id]
      {
        var id :| id in rest;
        if !subs[id] { subs := subs[id := true]; }
        rest := rest - {id};
      }
    }

    /** A receive in the stream's select. */
    method Receive(id: StreamId) returns (ok: bool)
      modifies this
      ensures ok == (id in old(subs) && old(subs)[id])
      ensures subs == if ok then old(subs)[id := false] else old(subs)
    {
      ok := id in subs && subs[id];
      if ok { subs := subs[id := false]; }
    }
  }
}
