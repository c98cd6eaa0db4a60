/**
 * The Android `Intent` that carries one notification event from the listener service
 * to the activity's broadcast receiver, seen as a value: an action string and a bundle of
 * string extras.
 */
module Intents {
  import opened Wrappers

  /** The broadcast action the listener sends and the activity's receiver filters on. */
  const ListenerAction: string := "com.example.focusdesk.NOTIFICATION_LISTENER"

  /** The extras keys both sides agree on. */
  const ExtraAction: string := "action"
  const ExtraId: string := "id"
  const ExtraPackage: string := "package"
  const ExtraTitle: string := "title"
  const ExtraText: string := "text"

  datatype Intent = Intent(action: string, extras: map<string, string>)

  /** A fresh intent for `action` with no extras, as `Intent(action)` builds it. */
  function NewIntent(action: string): (r: Intent)
    ensures r.action == action
    ensures forall key :: GetStringExtra(r, key).None?
  {
    Intent(action, map[])
  }

  /** `intent.getStringExtra(key)`: the string stored under `key`, or null. */
  function GetStringExtra(intent: Intent, key: string): Option<string> {
    if key in intent.extras then Some(intent.extras[key]) else None
  }

  /** `intent.putExtra(key, value)`: afterwards `key` reads back `value`, every other key reads as before. */
  function PutExtra(intent: Intent, key: string, value: string): (r: Intent)
    ensures r.action == intent.action
    ensures GetStringExtra(r, key) == Some(value)
    ensures forall k :: k != key ==> GetStringExtra(r, k) == GetStringExtra(intent, k)
    ensures r.extras.Keys == intent.extras.Keys + {key}
  {
    Intent(intent.action, intent.extras[key := value])
  }
}
