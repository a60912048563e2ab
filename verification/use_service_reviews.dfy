/** `src/hooks/useServiceReviews.ts`: the service reviews, cached in memory and kept in step
    with the store by fetch, add (prepend), update (replace by id) and delete
    (remove by id). A failed store call leaves the list as it was, records the
    error and hands the failure back to the caller. */
module UseServiceReviews {
  import opened Text
  import opened Records
  import opened ListOps

  /** The rows an update or delete with this id touches. */
  function HasId(id: string): ServiceReview -> bool { (x: ServiceReview) => x.id == id }

  /** The rows a delete with this id keeps. */
  function OtherThan(id: string): ServiceReview -> bool { (x: ServiceReview) => x.id != id }

  class ServiceReviewsHook {
    var reviews: seq<ServiceReview>
    var loading: bool
    var error: Option<string>

    constructor ()
      ensures reviews == [] && loading && error == None
    {
      reviews := [];
      loading := true;
      error := None;
    }

    /** Replaces the list with the fetched rows (none reads as `[]`); on failure
        only `error` changes. */
    method FetchReviews(reply: Reply<Option<seq<ServiceReview>>>)
      modifies this
      ensures !loading
      ensures reply.Ok? ==> reviews == (if reply.data.Some? then reply.data.value else []) && error == old(error)
      ensures reply.Err? ==> reviews == old(reviews) && error == Some(Describe(reply.failure, "An error occurred"))
    {
      loading := true;
      match reply {
        case Ok(data) =>
          reviews := if data.Some? then data.value else [];
        case Err(failure) =>
          error := Some(Describe(failure, "An error occurred"));
      }
      loading := false;
    }

    /** Puts the stored row in front of the list. */
    method AddReview(reply: Reply<ServiceReview>) returns (outcome: Reply<ServiceReview>)
      modifies this
      ensures outcome == reply && loading == old(loading)
      ensures reply.Ok? ==> reviews == [reply.data] + old(reviews) && error == old(error)
      ensures reply.Err? ==> reviews == old(reviews) && error == Some(Describe(reply.failure, "Failed to add review"))
    {
      match reply {
        case Ok(data) =>
          reviews := [data] + reviews;
        case Err(failure) =>
          error := Some(Describe(failure, "Failed to add review"));
      }
      outcome := reply;
    }

    /** Sends `payload` for the row with this id and puts the stored row in
        place of every cached row with that id. The update payload is `updates` exactly as given; no timestamp is added. */
    method UpdateReview(id: string, updates: Fields, reply: Reply<ServiceReview>) returns (payload: Fields, outcome: Reply<ServiceReview>)
      modifies this
      ensures payload == updates
      ensures outcome == reply && loading == old(loading)
      ensures reply.Ok? ==> reviews == ReplaceWhere(old(reviews), HasId(id), reply.data) && error == old(error)
      ensures reply.Err? ==> reviews == old(reviews) && error == Some(Describe(reply.failure, "Failed to update review"))
    {
      payload := updates;
      match reply {
        case Ok(data) =>
          reviews := ReplaceWhere(reviews, HasId(id), data);
        case Err(failure) =>
          error := Some(Describe(failure, "Failed to update review"));
      }
      outcome := reply;
    }

    /** Drops every cached row with this id. */
    method DeleteReview(id: string, reply: Reply<()>) returns (outcome: Reply<()>)
      modifies this
      ensures outcome == reply && loading == old(loading)
      ensures reply.Ok? ==> reviews == Filter(old(reviews), OtherThan(id)) && error == old(error)
      ensures reply.Err? ==> reviews == old(reviews) && error == Some(Describe(reply.failure, "Failed to delete review"))
    {
      match reply {
        case Ok(_) =>
          reviews := Filter(reviews, OtherThan(id));
        case Err(failure) =>
          error := Some(Describe(failure, "Failed to delete review"));
      }
      outcome := reply;
    }
  }
}
