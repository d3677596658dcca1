/** The host's notification service: a fire-and-forget sink of toasts, shared by the button and the agent service. */
module Notifications {

  datatype Level = Info | Warning | Danger

  datatype Notification = Notification(message: string, level: Level)

  class NotificationService {
    /** Every notification shown so far, in order. */
    var log: seq<Notification>

    constructor ()
      ensures log == []
    {
      log := [];
    }

    /** `notification.add(message, { type: level })` */
    method Add(message: string, level: Level)
      modifies this
      ensures log == old(log) + [Notification(message, level)]
    {
      log := log + [Notification(message, level)];
    }
  }
}
