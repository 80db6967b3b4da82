/**
 * The door-status formatter of notify/formatter.py: a sink on the door
 * information bus that turns each door update into one desktop
 * notification and forwards it to its own sink. Forwarding is recorded as
 * the `Delivery` it makes rather than performed.
 */
module Formatter {
  import opened Wrappers
  import opened Door
  import opened NotifySend
  import opened NotificationBus

  /** The notification announcing `doorInformation`; `iconPath` is the icon directory. */
  function FormatDoorStatus(iconPath: string, doorInformation: DoorInformation): (n: DesktopNotification)
    ensures n.summary == "Garage Status"
    ensures n.body == Some(if doorInformation.status == Open then "Garage Opening" else "Garage Closing")
    ensures n.appName == Some("mqtt-to-libnotify")
    ensures n.icon == Some(iconPath + "garage.png")
    ensures n.urgency.None? && n.expireTime.None?
  {
    var text := if doorInformation.status == Open then "Garage Opening" else "Garage Closing";
    WithSummary("Garage Status").(
      body := Some(text),
      appName := Some("mqtt-to-libnotify"),
      icon := Some(iconPath + "garage.png"))
  }

  /**
   * Two door updates are announced alike exactly when both or neither say
   * the door is open: closed and unknown read the same, and the time of the
   * update plays no part.
   */
  lemma OnlyOpenDiffers(iconPath: string, s: DoorInformation, t: DoorInformation)
    ensures FormatDoorStatus(iconPath, s) == FormatDoorStatus(iconPath, t) <==> (s.status == Open <==> t.status == Open)
  {
  }

  class DoorStatusNotificationFormatter {
    const iconPath: string
    const notificationSource: NotificationSource<DoorInformation>
    const notificationSink: object

    constructor (iconPath: string, notificationSource: NotificationSource<DoorInformation>, notificationSink: object)
      ensures this.iconPath == iconPath
      ensures this.notificationSource == notificationSource
      ensures this.notificationSink == notificationSink
    {
      this.iconPath := iconPath;
      this.notificationSource := notificationSource;
      this.notificationSink := notificationSink;
    }

    /** Subscribes this formatter, at the end, to the door information source. */
    method Start()
      modifies notificationSource
      ensures notificationSource.subscribers == old(notificationSource.subscribers) + [this]
    {
      notificationSource.Subscribe(this);
    }

    /**
     * Forwards exactly one notification to the sink for each door update;
     * it depends on the door status alone, not on the time it was reported.
     */
    method Notify(doorInformation: DoorInformation) returns (forwarded: Delivery<DesktopNotification>)
      ensures forwarded.sink == notificationSink
      ensures forwarded.arg == FormatDoorStatus(iconPath, doorInformation)
    {
      forwarded := Delivery(notificationSink, FormatDoorStatus(iconPath, doorInformation));
    }
  }
}
