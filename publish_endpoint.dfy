/** The message bus as the services see it: publishing either delivers the
    event or fails, depending on whether the broker is reachable. */
module Messaging {
  import opened Domain

  class PublishEndpoint {
    /** Whether the broker accepts messages; set by the environment. */
    var available: bool
    /** Every event delivered so far, oldest first. */
    var published: seq<Event>

    constructor (available: bool)
      ensures this.available == available && published == []
    {
      this.available := available;
      published := [];
    }

    /** Delivers `e` when the broker is available; otherwise delivers nothing
        and reports the failure. */
    method Publish(e: Event) returns (ok: bool)
      modifies this`published
      ensures ok == available
      ensures published == old(published) + (if ok then [e] else [])
    {
      ok := available;
      if ok {
        published := published + [e];
      }
    }
  }
}
