/** The conversation session: `ThreadManager` holds the backend thread id,
    the in-progress flag and the one re-armable idle timer. The backend client
    is represented by the log of requests sent through it; the answer to a
    thread creation is a parameter (`None` when the client raised). Timers
    are numbered: `resetTimer` is the slot holding the last timer created,
    `liveTimers` the timers started and neither cancelled nor fired, and
    `FireTimer` is the explicit expiry step. */
module Threads {
  import opened Base
  import opened Events

  datatype ContentPart = TextPart(text: Payload) | ImageFilePart(fileId: Payload, detail: string)

  /** A request sent to the conversational backend. */
  datatype Request =
    | ThreadsCreate
    | MessagesCreate(threadId: Option<string>, role: string, content: seq<ContentPart>, attachments: seq<Payload>)
    | RunsCreateAndStream(threadId: Option<string>, assistantId: string)

  /** A slot holding at most the timer `slot` leaves room for at most one
      live timer. */
  lemma AtMostOneLive(live: set<nat>, slot: Option<nat>)
    requires forall t | t in live :: slot == Some(t)
    ensures |live| <= 1
    ensures slot.None? ==> live == {}
  {
    if slot.Some? {
      assert live <= {slot.value};
      if slot.value in live {
        assert live == {slot.value};
      } else {
        assert live == {};
      }
    }
  }

  /** The fields of a `ThreadManager`, as a value. */
  datatype Session = Session(threadId: Option<string>, inProgress: bool, resetTimer: Option<nat>,
                             liveTimers: set<nat>, timersStarted: nat, requests: seq<Request>)

  /** `create_thread()` on a session, the backend answering `created`. */
  function Created(s: Session, created: Option<string>): Session
  {
    if s.threadId.Some? && !s.inProgress then s
    else s.(requests := s.requests + [ThreadsCreate], threadId := if created.Some? then created else s.threadId)
  }

  /** A completed or failed run: the interaction is over and the idle timer
      is re-armed (`end_of_interaction()`). */
  function Closed(s: Session): Session
  {
    s.(inProgress := false, resetTimer := Some(s.timersStarted), liveTimers := {s.timersStarted},
       timersStarted := s.timersStarted + 1)
  }

  class ThreadManager {
    var threadId: Option<string>
    var interactionInProgress: bool
    var resetTimer: Option<nat>
    var liveTimers: set<nat>
    var timersStarted: nat
    var requests: seq<Request>

    function State(): Session
      reads this
    {
      Session(threadId, interactionInProgress, resetTimer, liveTimers, timersStarted, requests)
    }

    /** Only the timer in the slot can be live, and the slot holds a timer
        that was started. */
    ghost predicate Valid()
      reads this
    {
      && (forall t | t in liveTimers :: resetTimer == Some(t))
      && (resetTimer.Some? ==> resetTimer.value < timersStarted)
    }

    constructor()
      ensures Valid()
      ensures threadId == None && !interactionInProgress
      ensures resetTimer == None && liveTimers == {} && requests == []
    {
      threadId := None;
      interactionInProgress := false;
      resetTimer := None;
      liveTimers := {};
      timersStarted := 0;
      requests := [];
    }

    /** `create_thread()`; `created` is the id the backend would give a new
        thread, or `None` if creating it raises. */
    method CreateThread(created: Option<string>) returns (r: Option<string>)
      requires Valid()
      modifies this`threadId, this`requests
      ensures Valid()
      ensures old(threadId).Some? && !interactionInProgress ==>
        r == old(threadId) && threadId == old(threadId) && requests == old(requests)
      ensures !(old(threadId).Some? && !interactionInProgress) ==>
        requests == old(requests) + [ThreadsCreate] && r == created &&
        threadId == (if created.Some? then created else old(threadId))
      ensures State() == Created(old(State()), created)
    {
      if threadId.Some? && !interactionInProgress {
        return threadId;
      }
      requests := requests + [ThreadsCreate];
      if created.Some? {
        threadId := created;
        return threadId;
      }
      return None;
    }

    /** `add_message_to_thread(content, snapshot_file_id)`. A failing send is
        caught and changes nothing further, so its outcome is not a parameter. */
    method AddMessageToThread(content: Payload, snapshotFileId: Payload := Null)
      modifies this`requests
      ensures !IsSet(threadId) || interactionInProgress ==> requests == old(requests)
      ensures IsSet(threadId) && !interactionInProgress ==>
        requests == old(requests) + [MessagesCreate(threadId, "user", [TextPart(content)],
                                                   if Truthy(snapshotFileId) then [snapshotFileId] else [])]
    {
      if !IsSet(threadId) {
        return;
      }
      if interactionInProgress {
        return;
      }
      var messageContent := [TextPart(content)];
      var attachments: seq<Payload> := [];
      if Truthy(snapshotFileId) {
        attachments := attachments + [snapshotFileId];
      }
      assert attachments == if Truthy(snapshotFileId) then [snapshotFileId] else [];
      requests := requests + [MessagesCreate(threadId, "user", messageContent, attachments)];
    }

    /** `handle_interaction(content)`. */
    method HandleInteraction(content: Payload, created: Option<string>)
      requires Valid()
      modifies this
      ensures Valid()
      ensures interactionInProgress
      ensures resetTimer == Some(old(timersStarted)) && liveTimers == {old(timersStarted)}
      ensures timersStarted == old(timersStarted) + 1
      ensures old(interactionInProgress) && IsSet(old(threadId)) ==>
        threadId == old(threadId) && requests == old(requests)
      ensures old(interactionInProgress) && !IsSet(old(threadId)) ==>
        threadId == (if created.Some? then created else old(threadId)) &&
        requests == old(requests) + [ThreadsCreate]
      ensures !old(interactionInProgress) ==>
        threadId == (if old(threadId).Some? then old(threadId) else created) &&
        requests == old(requests) + (if old(threadId).Some? then [] else [ThreadsCreate]) +
                    (if IsSet(threadId) then [MessagesCreate(threadId, "user", [TextPart(content)], [])] else [])
    {
      if !IsSet(threadId) || !interactionInProgress {
        var _ := CreateThread(created);
      }
      AddMessageToThread(content);
      interactionInProgress := true;
      ResetLastInteractionTime();
    }

    /** `reset_thread()`. */
    method ResetThread()
      modifies this`threadId, this`interactionInProgress
      ensures threadId == None && !interactionInProgress
    {
      threadId := None;
      interactionInProgress := false;
    }

    /** `reset_last_interaction_time()`: cancel the live timer in the slot,
        then start a fresh one. */
    method ResetLastInteractionTime()
      requires Valid()
      modifies this`resetTimer, this`liveTimers, this`timersStarted
      ensures Valid()
      ensures resetTimer == Some(old(timersStarted)) && timersStarted == old(timersStarted) + 1
      ensures liveTimers == {old(timersStarted)}
    {
      if resetTimer.Some? && resetTimer.value in liveTimers {
        liveTimers := liveTimers - {resetTimer.value};
      }
      assert liveTimers == {};
      var next := timersStarted;
      timersStarted := timersStarted + 1;
      resetTimer := Some(next);
      liveTimers := liveTimers + {next};
    }

    /** `end_of_interaction()`. */
    method EndOfInteraction()
      requires Valid()
      modifies this`resetTimer, this`liveTimers, this`timersStarted
      ensures Valid()
      ensures resetTimer == Some(old(timersStarted)) && timersStarted == old(timersStarted) + 1
      ensures liveTimers == {old(timersStarted)}
    {
      ResetLastInteractionTime();
    }

    /** Expiry of live timer `t`: the timer callback resets the thread. A
        cancelled timer is not live, so it can never reach this step. */
    method FireTimer(t: nat)
      requires Valid() && t in liveTimers
      modifies this`liveTimers, this`threadId, this`interactionInProgress
      ensures Valid()
      ensures liveTimers == {} && threadId == None && !interactionInProgress
    {
      AtMostOneLive(liveTimers, resetTimer);
      liveTimers := liveTimers - {t};
      ResetThread();
    }
  }
}
