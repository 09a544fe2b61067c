/** The push-notification side channel. */
module Notifications {

  /**
   * The notification endpoint, seen as the list of texts it has been sent.
   * The HTTP status of a delivery is ignored; a request that cannot be made
   * at all is not modelled, so every push here is received.
   */
  class PushSink {
    var sent: seq<string>

    constructor ()
      ensures sent == []
    {
      sent := [];
    }

    /** Posts one message to the endpoint. */
    method Push(text: string)
      modifies this
      ensures sent == old(sent) + [text]
    {
      sent := sent + [text];
    }
  }
}
