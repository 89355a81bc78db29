/**
 * The notification channel an order processor is wired to. Delivery itself
 * (an e-mail, a text message) is outside the model: the channel is a sink
 * that records, in order, every message handed to it.
 */
module Notifications {

  class NotificationSink {
    /** The messages delivered so far, oldest first. */
    var delivered: seq<string>

    constructor ()
      ensures delivered == []
    {
      delivered := [];
    }

    /** Delivers one message: it is appended to the trace unchanged. */
    method SendNotification(message: string)
      modifies this
      ensures delivered == old(delivered) + [message]
    {
      delivered := delivered + [message];
    }
  }
}
