/**
 * Within-day traffic monitoring: which agents entered a new link during the
 * last simulation step, and which link. Link-enter events fill the map of the
 * running step, arrivals and stuck agents leave it, and at the end of each step
 * that map becomes the last step's map and a fresh one is started.
 */
module LinkEnteredTracking {
  import opened Wrappers
  import opened Ids

  /** The events the provider listens to. */
  datatype TrackedEvent =
    | LinkEnter(personId: Id, linkId: Id)
    | PersonArrival(personId: Id)
    | PersonStuck(personId: Id)

  /**
   * The running step's agent-to-link map after one event: a link-enter records
   * the agent on that link, overwriting an earlier entry; an arrival or a stuck
   * agent drops the agent's entry. No other agent's entry changes.
   */
  function Track(entered: map<Id, Id>, e: TrackedEvent): (m: map<Id, Id>)
    ensures e.personId in m <==> e.LinkEnter?
    ensures e.LinkEnter? ==> m[e.personId] == e.linkId
    ensures forall p :: p != e.personId ==> (p in m <==> p in entered)
    ensures forall p :: p != e.personId && p in m ==> m[p] == entered[p]
  {
    match e
    case LinkEnter(personId, linkId) => entered[personId := linkId]
    case PersonArrival(personId) => entered - {personId}
    case PersonStuck(personId) => entered - {personId}
  }

  /** The map after handling `es` in order. */
  function TrackAll(entered: map<Id, Id>, es: seq<TrackedEvent>): map<Id, Id>
    decreases |es|
  {
    if es == [] then entered else Track(TrackAll(entered, es[..|es| - 1]), es[|es| - 1])
  }

  /** The last event of `es` about agent `p`, if any. */
  function LastEventOf(es: seq<TrackedEvent>, p: Id): (r: Option<TrackedEvent>)
    decreases |es|
    ensures r.None? <==> forall i | 0 <= i < |es| :: es[i].personId != p
    ensures r.Some? ==> r.value.personId == p
    ensures r.Some? ==> exists i | 0 <= i < |es| :: es[i] == r.value && forall j | i < j < |es| :: es[j].personId != p
  {
    if es == [] then None
    else if es[|es| - 1].personId == p then Some(es[|es| - 1])
    else LastEventOf(es[..|es| - 1], p)
  }

  /**
   * After a sequence of events an agent's entry is decided by the last event
   * about it: a link-enter leaves it on that link, an arrival or a stuck event
   * leaves it out, and without any event its entry is what it was.
   */
  lemma {:induction false} TrackAllFollowsLastEvent(entered: map<Id, Id>, es: seq<TrackedEvent>, p: Id)
    decreases |es|
    ensures LastEventOf(es, p).None? ==>
              (p in TrackAll(entered, es) <==> p in entered)
              && (p in entered ==> TrackAll(entered, es)[p] == entered[p])
    ensures LastEventOf(es, p).Some? ==>
              (p in TrackAll(entered, es) <==> LastEventOf(es, p).value.LinkEnter?)
              && (LastEventOf(es, p).value.LinkEnter? ==> TrackAll(entered, es)[p] == LastEventOf(es, p).value.linkId)
  {
    if es != [] {
      TrackAllFollowsLastEvent(entered, es[..|es| - 1], p);
    }
  }

  /**
   * What a step leaves for the next: starting from the empty map, agent `p`
   * is recorded on link `l` exactly when its last event of the step was
   * entering `l`.
   */
  lemma {:induction false} StepRecordsLastLinkEntered(es: seq<TrackedEvent>, p: Id, l: Id)
    ensures (p in TrackAll(map[], es) && TrackAll(map[], es)[p] == l) <==> LastEventOf(es, p) == Some(LinkEnter(p, l))
  {
    TrackAllFollowsLastEvent(map[], es, p);
  }

  class LinkEnteredProvider {
    var linkEnteredAgents: map<Id, Id>              // agent -> link, running step
    var lastTimeStepLinkEnteredAgents: map<Id, Id>  // agent -> link, last completed step

    constructor ()
      ensures linkEnteredAgents == map[] && lastTimeStepLinkEnteredAgents == map[]
    {
      linkEnteredAgents, lastTimeStepLinkEnteredAgents := map[], map[];
    }

    /** The agents that entered a link in the last completed step, as a value callers cannot alter. */
    method GetLinkEnteredAgentsInLastTimeStep() returns (agents: map<Id, Id>)
      ensures agents == lastTimeStepLinkEnteredAgents
    {
      agents := lastTimeStepLinkEnteredAgents;
    }

    /** Starts an iteration with nothing recorded. */
    method Reset(iteration: int)
      modifies this
      ensures linkEnteredAgents == map[] && lastTimeStepLinkEnteredAgents == map[]
    {
      linkEnteredAgents := map[];
      lastTimeStepLinkEnteredAgents := map[];
    }

    method HandlePersonStuckEvent(personId: Id)
      modifies this`linkEnteredAgents
      ensures linkEnteredAgents == Track(old(linkEnteredAgents), PersonStuck(personId))
    {
      linkEnteredAgents := linkEnteredAgents - {personId};
    }

    method HandlePersonArrivalEvent(personId: Id)
      modifies this`linkEnteredAgents
      ensures linkEnteredAgents == Track(old(linkEnteredAgents), PersonArrival(personId))
    {
      linkEnteredAgents := linkEnteredAgents - {personId};
    }

    method HandleLinkEnterEvent(personId: Id, linkId: Id)
      modifies this`linkEnteredAgents
      ensures linkEnteredAgents == Track(old(linkEnteredAgents), LinkEnter(personId, linkId))
    {
      linkEnteredAgents := linkEnteredAgents[personId := linkId];
    }

    /** Ends a step: its map becomes the last step's map, and the next step starts empty. */
    method NotifyMobsimAfterSimStep()
      modifies this
      ensures lastTimeStepLinkEnteredAgents == old(linkEnteredAgents)
      ensures linkEnteredAgents == map[]
    {
      lastTimeStepLinkEnteredAgents := linkEnteredAgents;
      linkEnteredAgents := map[];
    }
  }
}
