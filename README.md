# FocusDesk notification filter and forwarder, in Dafny

FocusDesk shows a phone's notifications on a desktop view while the app is in the
foreground. Two pieces of its Android side are modelled here:

- the notification listener service (`FocusNotificationListener.kt`), which decides for
  each posted notification whether to broadcast a POST event, and for each removed
  notification that has a title broadcasts a REMOVE event. Both events carry a "smart id",
  `package + "|" + title`, so that a removal finds the item its post created;
- the activity's event-stream handler (`MainActivity.kt`). It has one `receiver` slot,
  which `onListen` fills and `onCancel` empties. The receiver turns each broadcast intent
  into the map sent to the Flutter side.

Files:

- `wrappers.dfy`: `Option`, for Kotlin's nullable values and the elvis operator.
- `intents.dfy`: the broadcast `Intent` as a value (an action and string extras) with
  `putExtra` / `getStringExtra`, and the extras keys both sides use.
- `strings.dfy`: Kotlin's `String.trim()` over Kotlin's whitespace test.
- `notification_listener.dfy`: the filter chain (`Decide`), the smart id, the two intents,
  and the listener class. Its `sent` log of broadcasts stands for `sendBroadcast`.
- `main_activity.dfy`: the receiver's translation (`ToFlutterEvent`), the receiver, the
  stream handler with its slot and the ghost set of registered receivers, and lemmas that
  connect the listener's intents to what reaches Flutter.

Platform inputs are plain values. A notification is a `StatusBarNotification`: package,
ongoing flag, `flags` as a 32-bit word, category, ranking lookup outcome, title and text.
The session flag `AppState.isAppInForeground` is a parameter. The ranking lookup is either
`Ranked(importance)` or `LookupFailed(freshImportance)`. In the second case the lookup threw,
and the ranking kept whatever importance a fresh `Ranking()` has.

The Android constants the code uses are written out: `FLAG_GROUP_SUMMARY = 0x200`,
`IMPORTANCE_DEFAULT = 3`, `IMPORTANCE_HIGH = 4`.

Two points of the code's behaviour:

- A REMOVE intent sets only `action` and `id`, so the receiver forwards null package,
  title and text.
- The decision is an if / else-if / else with no fall-through. For example, a VIP app that
  is not important is rejected without reaching the high-importance test. It still agrees
  with the fall-through reading (VIP and important, or communication and important, or
  importance at least high), because a non-important ranking is below default, so also
  below high; `ShouldAllowAsCascade` proves this.

## Model

| member | source | states |
|---|---|---|
| `Strings.LeadingWhitespace` | android/app/src/main/kotlin/com/example/focusdesk/FocusNotificationListener.kt:174 | the prefix it measures is all whitespace, and the next character, if any, is not |
| `Strings.TrailingWhitespace` | android/app/src/main/kotlin/com/example/focusdesk/FocusNotificationListener.kt:174 | the suffix it measures is all whitespace, and the character before it, if any, is not |
| `Strings.Trim` | android/app/src/main/kotlin/com/example/focusdesk/FocusNotificationListener.kt:174 | `text.trim()` is a contiguous slice of the text with only whitespace before and after it; it is empty exactly when every character is whitespace; otherwise its first and last characters are not whitespace |
| `Strings.IsBlank` | android/app/src/main/kotlin/com/example/focusdesk/FocusNotificationListener.kt:174 | `text.trim().isEmpty()` holds exactly when every character of the text is whitespace; `HasContent`'s ensures rests on it |
| `NotificationListener.RankingImportance` | android/app/src/main/kotlin/com/example/focusdesk/FocusNotificationListener.kt:148-164 | `ranking.importance` as read at lines 152 and 164: the looked-up value, or after a throw the value a fresh `Ranking()` holds; `IsImportant`, `ShouldAllow` and `OtherNotificationsNeedHighImportance` are stated over it |
| `NotificationListener.PolicyListsDisjoint` | android/app/src/main/kotlin/com/example/focusdesk/FocusNotificationListener.kt:110-122 | the VIP set and the blacklist share no package |
| `NotificationListener.IsGroupSummary` | android/app/src/main/kotlin/com/example/focusdesk/FocusNotificationListener.kt:135 | the summary test reads exactly bit 9 (`FLAG_GROUP_SUMMARY`) of the flags |
| `NotificationListener.IsCommunication` | android/app/src/main/kotlin/com/example/focusdesk/FocusNotificationListener.kt:139-145 | email, message, call, event and alarm are communication; every other category, null included, is not |
| `NotificationListener.IsImportant` | android/app/src/main/kotlin/com/example/focusdesk/FocusNotificationListener.kt:148-155 | fail-open: unimportant only when the lookup succeeded with an importance below default; importance at least default is always important |
| `NotificationListener.ShouldAllow` | android/app/src/main/kotlin/com/example/focusdesk/FocusNotificationListener.kt:157-165 | importance at least high is always allowed, and an allowed notification is always important; `PriorityNotificationsFailOpen` and `OtherNotificationsNeedHighImportance` give each branch exactly |
| `NotificationListener.ShouldAllowAsCascade` | android/app/src/main/kotlin/com/example/focusdesk/FocusNotificationListener.kt:157-165 | the no-fall-through decision equals "VIP and important, or communication and important, or raw importance at least high" |
| `NotificationListener.HasContent` | android/app/src/main/kotlin/com/example/focusdesk/FocusNotificationListener.kt:170-174 | title and text are both non-null and the text has a non-whitespace character; it is the last filter of `Decide`, and `PriorityNotificationsFailOpen` and `OtherNotificationsNeedHighImportance` take it as a hypothesis |
| `NotificationListener.Decide` | android/app/src/main/kotlin/com/example/focusdesk/FocusNotificationListener.kt:124-174 | no event when the session flag is off, the package is blacklisted (even if it is also VIP), the notification is ongoing, or the group-summary bit is set; an admitted notification passed the allow decision and has a title and a text with a non-whitespace character |
| `NotificationListener.AdmittedWhenEveryFilterPasses` | android/app/src/main/kotlin/com/example/focusdesk/FocusNotificationListener.kt:124-174 | the converse: a notification that passes every filter is admitted, so the filters are the only reasons to drop a post |
| `NotificationListener.PriorityNotificationsFailOpen` | android/app/src/main/kotlin/com/example/focusdesk/FocusNotificationListener.kt:148-162 | for a VIP package or a communication category (email, message, call, event, alarm), admitted iff the ranking lookup threw or importance >= default |
| `NotificationListener.OtherNotificationsNeedHighImportance` | android/app/src/main/kotlin/com/example/focusdesk/FocusNotificationListener.kt:148-165 | for any other notification, admitted iff the raw ranking importance >= high; a thrown lookup gives no fail-open here and decides exactly as the fresh ranking's importance would |
| `NotificationListener.DecideMonotoneInImportance` | android/app/src/main/kotlin/com/example/focusdesk/FocusNotificationListener.kt:148-167 | raising the importance of an admitted notification keeps it admitted |
| `NotificationListener.SmartId` | android/app/src/main/kotlin/com/example/focusdesk/FocusNotificationListener.kt:179 | the id consists of the package, then one bar, then the title, and nothing else |
| `NotificationListener.SmartIdInjective` | android/app/src/main/kotlin/com/example/focusdesk/FocusNotificationListener.kt:179 | when neither package contains a bar, equal ids mean equal (package, title) pairs, even if titles contain bars |
| `NotificationListener.BarInPackageAliases` | android/app/src/main/kotlin/com/example/focusdesk/FocusNotificationListener.kt:179 | a bar inside a package lets two different pairs share one id |
| `NotificationListener.PostIntent` | android/app/src/main/kotlin/com/example/focusdesk/FocusNotificationListener.kt:181-186 | the POST intent has the listener's action and exactly five extras: action "POST", the smart id, the package, the title, and the untrimmed text |
| `NotificationListener.RemoveIntent` | android/app/src/main/kotlin/com/example/focusdesk/FocusNotificationListener.kt:200-202 | the REMOVE intent has exactly two extras: action "REMOVE" and the smart id; package, title and text read as null |
| `NotificationListener.FocusNotificationListener.OnNotificationPosted` | android/app/src/main/kotlin/com/example/focusdesk/FocusNotificationListener.kt:124-188 | the source's early-return chain appends one POST intent when `Decide` admits the notification, and nothing otherwise |
| `NotificationListener.FocusNotificationListener.OnNotificationRemoved` | android/app/src/main/kotlin/com/example/focusdesk/FocusNotificationListener.kt:190-205 | runs no filter; appends one REMOVE intent when the title is present, nothing when it is null |
| `NotificationListener.RemovalMatchesPost` | android/app/src/main/kotlin/com/example/focusdesk/FocusNotificationListener.kt:179-202 | after an admitted post, a removal with the same package and title always emits, and its id equals the post's id, whatever the other fields of either notification |
| `NotificationListener.SameConversationSameId` | android/app/src/main/kotlin/com/example/focusdesk/FocusNotificationListener.kt:176-183 | two admitted posts with the same (package, title) get the same id, whatever their texts |
| `NotificationListener.WhatsAppMessageScenario` | android/app/src/main/kotlin/com/example/focusdesk/FocusNotificationListener.kt:124-186 | a default-importance WhatsApp message titled "Nirmiti" with text "hi" is admitted, and its id is "com.whatsapp", a bar, then "Nirmiti" |
| `MainActivity.ToFlutterEvent` | android/app/src/main/kotlin/com/example/focusdesk/MainActivity.kt:58-73 | the forwarded map always has the five keys; a missing action becomes "POST" and a missing id becomes ""; package, title and text pass through unchanged, null included |
| `MainActivity.Receiver.OnReceive` | android/app/src/main/kotlin/com/example/focusdesk/MainActivity.kt:55-75 | each received intent sends exactly one event, its translation, to the sink the receiver was created for |
| `MainActivity.StreamHandler.constructor` | android/app/src/main/kotlin/com/example/focusdesk/MainActivity.kt:49 | the slot starts empty, and nothing is registered |
| `MainActivity.StreamHandler.RegisterReceiver` | android/app/src/main/kotlin/com/example/focusdesk/MainActivity.kt:78-83 | the receiver joins the registered set |
| `MainActivity.StreamHandler.UnregisterReceiver` | android/app/src/main/kotlin/com/example/focusdesk/MainActivity.kt:88 | callable only for a registered receiver (the platform throws otherwise); the receiver leaves the registered set |
| `MainActivity.StreamHandler.OnListen` | android/app/src/main/kotlin/com/example/focusdesk/MainActivity.kt:51-84 | a null sink changes nothing; otherwise a new receiver bound to the sink takes the slot and is registered (last subscriber wins), and the previous receiver stays registered |
| `MainActivity.StreamHandler.OnCancel` | android/app/src/main/kotlin/com/example/focusdesk/MainActivity.kt:86-91 | afterwards the slot is empty; the receiver that was in it is unregistered, which is always allowed because the slot's receiver is registered (`Valid`); with an empty slot nothing changes, so a second call is a no-op |
| `MainActivity.ForwardedPost` | android/app/src/main/kotlin/com/example/focusdesk/MainActivity.kt:58-73 | a listener POST reaches Flutter as action "POST", the smart id, and the package, title and text it carried |
| `MainActivity.ForwardedRemove` | android/app/src/main/kotlin/com/example/focusdesk/MainActivity.kt:58-73 | a listener REMOVE reaches Flutter as action "REMOVE" and the smart id, with package, title and text all null |
| `MainActivity.ForwardedMissingIntent` | android/app/src/main/kotlin/com/example/focusdesk/MainActivity.kt:58-64 | a null intent is forwarded as a POST with id "" and no data |
| `MainActivity.SubscriptionScenario` | android/app/src/main/kotlin/com/example/focusdesk/MainActivity.kt:51-91 | after listen, listen with no sink, listen, cancel, cancel: the slot is empty and the registered set is exactly the overwritten first receiver, bound to the first sink |

## Left out

- The commented-out earlier listener at the top of `FocusNotificationListener.kt` (lines 1-96) is not modelled. It is dead code, and it used the platform key as the id.
- `sendBroadcast` and the platform's delivery of intents to registered receivers are not modelled. The listener appends to its `sent` log, and `Receiver.OnReceive` is called with an intent as input. Ordering and delivery across processes are the platform's job.
- `registerReceiver` / `unregisterReceiver`, the intent filter and the SDK-version branch (`MainActivity.kt:78-83`) are reduced to adding or removing the receiver in the ghost set `registered`.
- `currentRanking.getRanking` is an input (`RankingLookup`). The importance of a fresh `Ranking()` is not known here, so it is part of that input. The boolean that `getRanking` returns is ignored by the source and not modelled.
- The Android constants (`FLAG_GROUP_SUMMARY`, `IMPORTANCE_DEFAULT`, `IMPORTANCE_HIGH`) come from the SDK, not from this repository. Their values are written out as constants.
- `Notification.category` is a string. It is an enumeration here, with every other category and null mapped to `Other`.
- `sbn.isOngoing` is an input of its own, not derived from the flags.
- The title is modelled as what `getString("android.title")` returns. A title stored as a non-`String` char sequence therefore arrives as null, just as it would in the source.
- `Strings.IsWhitespace` follows the JVM definition of Kotlin's `Char.isWhitespace()` for one fixed Unicode version. Dafny characters are Unicode scalar values, not UTF-16 code units, so surrogate pairs are not modelled.
- `AppState.isAppInForeground` and the `onResume` / `onPause` lifecycle that set it are a parameter of `OnNotificationPosted`.
- The "openSettings" method channel (`MainActivity.kt:37-44`) is a fire-and-forget settings command outside the filter and forwarder, and is not modelled.
- Concurrency between the service and the activity, and races on the receiver slot, are not modelled. Each callback runs to completion before the next one starts.
- The `Intent` and the Flutter map are values rather than platform objects. In the source they are local objects that are built and handed over, and nothing else holds a reference to them.
- Flutter's `EventSink.success` becomes an append to the sink's `delivered` log. The `arguments` and `context` parameters, which the source never reads, are omitted.
