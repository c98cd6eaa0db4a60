/**
 * The activity's event-stream handler: a single receiver slot that `onListen` fills and
 * `onCancel` empties, and the receiver's translation of each broadcast intent into the map
 * handed to the Flutter side.
 *
 * `registerReceiver` / `unregisterReceiver` are recorded in the ghost set `registered`;
 * Flutter's event sink records what it was given.
 */
module MainActivity {
  import opened Wrappers
  import opened Intents
  import opened NotificationListener

  /** The map handed to `events.success`: each key maps to a string or to null. */
  type FlutterEvent = map<string, Option<string>>

  const EventKeys: set<string> := {ExtraAction, ExtraId, ExtraPackage, ExtraTitle, ExtraText}

  /** `intent?.getStringExtra(key)`. */
  function Extra(intent: Option<Intent>, key: string): Option<string> {
    match intent
    case None => None
    case Some(i) => GetStringExtra(i, key)
  }

  /**
   * The event `onReceive` sends for `intent`: always the five keys; action and id are never
   * null (a missing action reads as "POST", a missing id as ""); package, title and text are
   * passed through as they are, null included.
   */
  function ToFlutterEvent(intent: Option<Intent>): (event: FlutterEvent)
    ensures event.Keys == EventKeys
    ensures Extra(intent, ExtraAction).None? ==> event[ExtraAction] == Some("POST")
    ensures Extra(intent, ExtraAction).Some? ==> event[ExtraAction] == Extra(intent, ExtraAction)
    ensures Extra(intent, ExtraId).None? ==> event[ExtraId] == Some("")
    ensures Extra(intent, ExtraId).Some? ==> event[ExtraId] == Extra(intent, ExtraId)
    ensures event[ExtraPackage] == Extra(intent, ExtraPackage)
    ensures event[ExtraTitle] == Extra(intent, ExtraTitle)
    ensures event[ExtraText] == Extra(intent, ExtraText)
  {
    map[
      ExtraAction := Some(Extra(intent, ExtraAction).GetOr("POST")),
      ExtraId := Some(Extra(intent, ExtraId).GetOr("")),
      ExtraPackage := Extra(intent, ExtraPackage),
      ExtraTitle := Extra(intent, ExtraTitle),
      ExtraText := Extra(intent, ExtraText)
    ]
  }

  /** Flutter's `EventChannel.EventSink`: the events it has been given, oldest first. */
  class EventSink {
    var delivered: seq<FlutterEvent>

    constructor ()
      ensures delivered == []
    {
      delivered := [];
    }

    method Success(event: FlutterEvent)
      modifies this
      ensures delivered == old(delivered) + [event]
    {
      delivered := delivered + [event];
    }
  }

  /** The broadcast receiver `onListen` creates, bound to the sink that call was given. */
  class Receiver {
    const events: EventSink

    constructor (events: EventSink)
      ensures this.events == events
    {
      this.events := events;
    }

    /** Sends exactly one event to the sink: the translation of `intent`. */
    method OnReceive(intent: Option<Intent>)
      modifies events
      ensures events.delivered == old(events.delivered) + [ToFlutterEvent(intent)]
    {
      var action := Extra(intent, ExtraAction).GetOr("POST");
      var id := Extra(intent, ExtraId).GetOr("");

      var packageName := Extra(intent, ExtraPackage);
      var title := Extra(intent, ExtraTitle);
      var text := Extra(intent, ExtraText);

      events.Success(map[
        ExtraAction := Some(action),
        ExtraId := Some(id),
        ExtraPackage := packageName,
        ExtraTitle := title,
        ExtraText := text
      ]);
    }
  }

  /** The `EventChannel.StreamHandler` with its single `receiver` slot. */
  class StreamHandler {
    var receiver: Receiver?
    /** The receivers currently registered with the platform for the listener's broadcasts. */
    ghost var registered: set<Receiver>

    /** The receiver in the slot is always a registered one, so `onCancel` may unregister it. */
    ghost predicate Valid()
      reads this
    {
      receiver != null ==> receiver in registered
    }

    constructor ()
      ensures Valid()
      ensures receiver == null && registered == {}
    {
      receiver := null;
      registered := {};
    }

    /** `registerReceiver(r, filter)`: the platform delivers the listener's broadcasts to `r` from now on. */
    ghost method RegisterReceiver(r: Receiver)
      modifies this`registered
      ensures registered == old(registered) + {r}
    {
      registered := registered + {r};
    }

    /** `unregisterReceiver(r)`: the platform throws for a receiver that is not registered. */
    ghost method UnregisterReceiver(r: Receiver)
      requires r in registered
      modifies this`registered
      ensures registered == old(registered) - {r}
    {
      registered := registered - {r};
    }

    /**
     * With no sink, nothing changes. Otherwise a new receiver bound to `events` takes the
     * slot and is registered; the previous one, if any, is replaced in the slot (the last
     * subscriber wins) but stays registered.
     */
    method OnListen(events: EventSink?)
      requires Valid()
      modifies this
      ensures Valid()
      ensures events == null ==> receiver == old(receiver) && registered == old(registered)
      ensures events != null ==> receiver != null && fresh(receiver) && receiver.events == events
      ensures events != null ==> registered == old(registered) + {receiver}
    {
      if events == null { return; }

      receiver := new Receiver(events);
      RegisterReceiver(receiver);
    }

    /**
     * Unregisters and clears the slot when it holds a receiver; an empty slot stays empty,
     * so a second call changes nothing.
     */
    method OnCancel()
      requires Valid()
      modifies this
      ensures Valid()
      ensures receiver == null
      ensures old(receiver) != null ==> registered == old(registered) - {old(receiver)}
      ensures old(receiver) == null ==> registered == old(registered)
    {
      if receiver != null {
        UnregisterReceiver(receiver);
        receiver := null;
      }
    }
  }

  /**
   * A POST broadcast from the listener reaches the Flutter side with action "POST", the
   * smart id, and the package, title and untrimmed text it was built from.
   */
  lemma ForwardedPost(packageName: string, title: string, text: string)
    ensures ToFlutterEvent(Some(PostIntent(packageName, title, text)))
         == map[ExtraAction := Some("POST"), ExtraId := Some(SmartId(packageName, title)),
                ExtraPackage := Some(packageName), ExtraTitle := Some(title), ExtraText := Some(text)]
  {
  }

  /**
   * A REMOVE broadcast from the listener reaches the Flutter side with action "REMOVE" and
   * the smart id; package, title and text are all null.
   */
  lemma ForwardedRemove(packageName: string, title: string)
    ensures ToFlutterEvent(Some(RemoveIntent(packageName, title)))
         == map[ExtraAction := Some("REMOVE"), ExtraId := Some(SmartId(packageName, title)),
                ExtraPackage := None, ExtraTitle := None, ExtraText := None]
  {
  }

  /** A missing intent is forwarded as a POST with an empty id and no data. */
  lemma ForwardedMissingIntent()
    ensures ToFlutterEvent(None)
         == map[ExtraAction := Some("POST"), ExtraId := Some(""),
                ExtraPackage := None, ExtraTitle := None, ExtraText := None]
  {
  }

  /**
   * A listen / listen with no sink / listen / cancel / cancel sequence: the second sink's
   * receiver takes the slot from the first, the slot ends empty, the second cancel changes
   * nothing, and the overwritten first receiver is the only one still registered.
   */
  method SubscriptionScenario() returns (handler: StreamHandler, overwritten: Receiver, first: EventSink)
    ensures handler.Valid() && handler.receiver == null
    ensures handler.registered == {overwritten}
    ensures overwritten.events == first
  {
    handler := new StreamHandler();
    first := new EventSink();
    var second := new EventSink();

    handler.OnListen(first);
    overwritten := handler.receiver;
    handler.OnListen(null);
    assert handler.receiver == overwritten;
    handler.OnListen(second);
    var current := handler.receiver;
    assert current != null && current.events == second && current != overwritten;

    handler.OnCancel();
    assert handler.registered == {overwritten};
    handler.OnCancel();
  }
}
