/** `src/hooks/useMessageTemplates.ts`: the message templates the message center offers, cached in memory and kept in step
    with the store by fetch, add (prepend), update (replace by id) and delete
    (remove by id). A failed store call leaves the list as it was, records the
    error and hands the failure back to the caller. */
module UseMessageTemplates {
  import opened Text
  import opened Records
  import opened ListOps

  /** The rows an update or delete with this id touches. */
  function HasId(id: string): MessageTemplate -> bool { (x: MessageTemplate) => x.id == id }

  /** The rows a delete with this id keeps. */
  function OtherThan(id: string): MessageTemplate -> bool { (x: MessageTemplate) => x.id != id }

  class MessageTemplatesHook {
    var templates: seq<MessageTemplate>
    var loading: bool
    var error: Option<string>

    constructor ()
      ensures templates == [] && loading && error == None
    {
      templates := [];
      loading := true;
      error := None;
    }

    /** Replaces the list with the fetched rows (none reads as `[]`); on failure
        only `error` changes. */
    method FetchTemplates(reply: Reply<Option<seq<MessageTemplate>>>)
      modifies this
      ensures !loading
      ensures reply.Ok? ==> templates == (if reply.data.Some? then reply.data.value else []) && error == old(error)
      ensures reply.Err? ==> templates == old(templates) && error == Some(Describe(reply.failure, "An error occurred"))
    {
      loading := true;
      match reply {
        case Ok(data) =>
          templates := if data.Some? then data.value else [];
        case Err(failure) =>
          error := Some(Describe(failure, "An error occurred"));
      }
      loading := false;
    }

    /** Puts the stored row in front of the list. */
    method AddTemplate(reply: Reply<MessageTemplate>) returns (outcome: Reply<MessageTemplate>)
      modifies this
      ensures outcome == reply && loading == old(loading)
      ensures reply.Ok? ==> templates == [reply.data] + old(templates) && error == old(error)
      ensures reply.Err? ==> templates == old(templates) && error == Some(Describe(reply.failure, "Failed to add template"))
    {
      match reply {
        case Ok(data) =>
          templates := [data] + templates;
        case Err(failure) =>
          error := Some(Describe(failure, "Failed to add template"));
      }
      outcome := reply;
    }

    /** Sends `payload` for the row with this id and puts the stored row in
        place of every cached row with that id. The update payload is `updates` with `updated_at` set to `now`. */
    method UpdateTemplate(id: string, updates: Fields, now: string, reply: Reply<MessageTemplate>) returns (payload: Fields, outcome: Reply<MessageTemplate>)
      modifies this
      ensures payload == updates["updated_at" := StrValue(now)]
      ensures outcome == reply && loading == old(loading)
      ensures reply.Ok? ==> templates == ReplaceWhere(old(templates), HasId(id), reply.data) && error == old(error)
      ensures reply.Err? ==> templates == old(templates) && error == Some(Describe(reply.failure, "Failed to update template"))
    {
      payload := updates["updated_at" := StrValue(now)];
      match reply {
        case Ok(data) =>
          templates := ReplaceWhere(templates, HasId(id), data);
        case Err(failure) =>
          error := Some(Describe(failure, "Failed to update template"));
      }
      outcome := reply;
    }

    /** Drops every cached row with this id. */
    method DeleteTemplate(id: string, reply: Reply<()>) returns (outcome: Reply<()>)
      modifies this
      ensures outcome == reply && loading == old(loading)
      ensures reply.Ok? ==> templates == Filter(old(templates), OtherThan(id)) && error == old(error)
      ensures reply.Err? ==> templates == old(templates) && error == Some(Describe(reply.failure, "Failed to delete template"))
    {
      match reply {
        case Ok(_) =>
          templates := Filter(templates, OtherThan(id));
        case Err(failure) =>
          error := Some(Describe(failure, "Failed to delete template"));
      }
      outcome := reply;
    }
  }
}
