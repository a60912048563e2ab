/** `src/hooks/useScheduledMessages.ts`: the scheduled-message log, cached in memory and kept in step
    with the store by fetch, add (prepend), update (replace by id) and delete
    (remove by id). A failed store call leaves the list as it was, records the
    error and hands the failure back to the caller. */
module UseScheduledMessages {
  import opened Text
  import opened Records
  import opened ListOps

  /** The rows an update or delete with this id touches. */
  function HasId(id: string): ScheduledMessage -> bool { (x: ScheduledMessage) => x.id == id }

  /** The rows a delete with this id keeps. */
  function OtherThan(id: string): ScheduledMessage -> bool { (x: ScheduledMessage) => x.id != id }

  class ScheduledMessagesHook {
    var scheduledMessages: seq<ScheduledMessage>
    var loading: bool
    var error: Option<string>

    constructor ()
      ensures scheduledMessages == [] && loading && error == None
    {
      scheduledMessages := [];
      loading := true;
      error := None;
    }

    /** Replaces the list with the fetched rows (none reads as `[]`); on failure
        only `error` changes. */
    method FetchScheduledMessages(reply: Reply<Option<seq<ScheduledMessage>>>)
      modifies this
      ensures !loading
      ensures reply.Ok? ==> scheduledMessages == (if reply.data.Some? then reply.data.value else []) && error == old(error)
      ensures reply.Err? ==> scheduledMessages == old(scheduledMessages) && error == Some(Describe(reply.failure, "An error occurred"))
    {
      loading := true;
      match reply {
        case Ok(data) =>
          scheduledMessages := if data.Some? then data.value else [];
        case Err(failure) =>
          error := Some(Describe(failure, "An error occurred"));
      }
      loading := false;
    }

    /** Puts the stored row in front of the list. */
    method AddScheduledMessage(reply: Reply<ScheduledMessage>) returns (outcome: Reply<ScheduledMessage>)
      modifies this
      ensures outcome == reply && loading == old(loading)
      ensures reply.Ok? ==> scheduledMessages == [reply.data] + old(scheduledMessages) && error == old(error)
      ensures reply.Err? ==> scheduledMessages == old(scheduledMessages) && error == Some(Describe(reply.failure, "Failed to schedule message"))
    {
      match reply {
        case Ok(data) =>
          scheduledMessages := [data] + scheduledMessages;
        case Err(failure) =>
          error := Some(Describe(failure, "Failed to schedule message"));
      }
      outcome := reply;
    }

    /** Sends `payload` for the row with this id and puts the stored row in
        place of every cached row with that id. The update payload is `updates` exactly as given; no timestamp is added. */
    method UpdateScheduledMessage(id: string, updates: Fields, reply: Reply<ScheduledMessage>) returns (payload: Fields, outcome: Reply<ScheduledMessage>)
      modifies this
      ensures payload == updates
      ensures outcome == reply && loading == old(loading)
      ensures reply.Ok? ==> scheduledMessages == ReplaceWhere(old(scheduledMessages), HasId(id), reply.data) && error == old(error)
      ensures reply.Err? ==> scheduledMessages == old(scheduledMessages) && error == Some(Describe(reply.failure, "Failed to update scheduled message"))
    {
      payload := updates;
      match reply {
        case Ok(data) =>
          scheduledMessages := ReplaceWhere(scheduledMessages, HasId(id), data);
        case Err(failure) =>
          error := Some(Describe(failure, "Failed to update scheduled message"));
      }
      outcome := reply;
    }

    /** Drops every cached row with this id. */
    method DeleteScheduledMessage(id: string, reply: Reply<()>) returns (outcome: Reply<()>)
      modifies this
      ensures outcome == reply && loading == old(loading)
      ensures reply.Ok? ==> scheduledMessages == Filter(old(scheduledMessages), OtherThan(id)) && error == old(error)
      ensures reply.Err? ==> scheduledMessages == old(scheduledMessages) && error == Some(Describe(reply.failure, "Failed to delete scheduled message"))
    {
      match reply {
        case Ok(_) =>
          scheduledMessages := Filter(scheduledMessages, OtherThan(id));
        case Err(failure) =>
          error := Some(Describe(failure, "Failed to delete scheduled message"));
      }
      outcome := reply;
    }
  }
}
