/**
 * The notification listener service: which posted notifications are forwarded to the
 * desktop view, and the identity ("smart id") that lets a later removal find the item
 * a post created.
 *
 * Each platform input the service reads is turned into a plain value of
 * `StatusBarNotification`; the session flag `AppState.isAppInForeground` is a parameter;
 * `sendBroadcast` appends to the listener's `sent` log.
 */
module NotificationListener {
  import opened Wrappers
  import opened Intents
  import opened Strings

  /** Apps whose important notifications always go through (WhatsApp and the SMS app). */
  const VipPackages: set<string> := {"com.whatsapp", "com.google.android.apps.messaging"}

  /** Apps whose notifications never go through. */
  const BlacklistPackages: set<string> := {
    "com.amazon.mShop.android.shopping",
    "com.flipkart.android",
    "in.swiggy.android",
    "com.application.zomato",
    "com.facebook.katana"
  }

  /** Android's `Notification.FLAG_GROUP_SUMMARY` bit. */
  const FlagGroupSummary: bv32 := 0x200

  /** Android's `NotificationManager.IMPORTANCE_DEFAULT` and `IMPORTANCE_HIGH`. */
  const ImportanceDefault: int := 3
  const ImportanceHigh: int := 4

  /** `Notification.category`; every other category string, and null, is `Other`. */
  datatype Category = Email | Message | Call | Event | Alarm | Other

  /**
   * The outcome of `currentRanking.getRanking(sbn.key, ranking)`: either it filled in the
   * ranking's importance, or it threw and `ranking` kept the importance a fresh `Ranking()`
   * starts with.
   */
  datatype RankingLookup =
    | Ranked(importance: int)
    | LookupFailed(freshImportance: int)

  /** What the service reads from one `StatusBarNotification`. */
  datatype StatusBarNotification = StatusBarNotification(
    packageName: string,
    isOngoing: bool,
    flags: bv32,              // notification.flags
    category: Category,
    ranking: RankingLookup,
    title: Option<string>,    // extras.getString("android.title")
    text: Option<string>)     // extras.getCharSequence("android.text")?.toString()

  /** The email, message, call, event and alarm categories: every category but `Other`. */
  predicate IsCommunication(c: Category): (communication: bool)
    ensures communication <==> !c.Other?
  {
    c == Email || c == Message || c == Call || c == Event || c == Alarm
  }

  /** The group-summary flag is bit 9 of the notification's flags. */
  predicate IsGroupSummary(flags: bv32): (summary: bool)
    ensures summary <==> (flags >> 9) & 1 == 1
  {
    flags & FlagGroupSummary != 0
  }

  /** `ranking.importance` once the lookup has run, whether or not it threw. */
  function RankingImportance(r: RankingLookup): (importance: int)
    ensures r.Ranked? ==> importance == r.importance
    ensures r.LookupFailed? ==> importance == r.freshImportance
  {
    match r
    case Ranked(i) => i
    case LookupFailed(i) => i
  }

  /**
   * `isImportant`: at least default importance, and true when the lookup threw (fail-open).
   * Only a lookup that succeeded with an importance below default is unimportant.
   */
  predicate IsImportant(r: RankingLookup): (important: bool)
    ensures !important <==> r.Ranked? && r.importance < ImportanceDefault
    ensures RankingImportance(r) >= ImportanceDefault ==> important
  {
    match r
    case Ranked(i) => i >= ImportanceDefault
    case LookupFailed(_) => true
  }

  /**
   * `shouldAllow`: VIP apps and communication categories need `isImportant`; every other
   * notification needs the raw ranking importance to be at least high.
   */
  predicate ShouldAllow(n: StatusBarNotification): (allow: bool)
    ensures RankingImportance(n.ranking) >= ImportanceHigh ==> allow
    ensures allow ==> IsImportant(n.ranking)
  {
    if n.packageName in VipPackages then IsImportant(n.ranking)
    else if IsCommunication(n.category) then IsImportant(n.ranking)
    else RankingImportance(n.ranking) >= ImportanceHigh
  }

  /** The title and text the event would carry are there, and the text is not blank. */
  predicate HasContent(n: StatusBarNotification): (content: bool)
    ensures content <==> n.title.Some? && n.text.Some?
                         && exists i :: 0 <= i < |n.text.value| && !IsWhitespace(n.text.value[i])
  {
    n.title.Some? && n.text.Some? && !IsBlank(n.text.value)
  }

  /**
   * Whether `onNotificationPosted` broadcasts an event: the filters in their source order,
   * each one able to reject on its own.
   */
  function Decide(n: StatusBarNotification, appInForeground: bool): (admit: bool)
    ensures !appInForeground ==> !admit
    ensures n.packageName in BlacklistPackages ==> !admit
    ensures n.isOngoing ==> !admit
    ensures IsGroupSummary(n.flags) ==> !admit
    ensures admit ==> ShouldAllow(n)
    ensures admit ==> n.title.Some? && n.text.Some?
    ensures admit ==> exists i :: 0 <= i < |n.text.value| && !IsWhitespace(n.text.value[i])
  {
    if !appInForeground then false
    else if n.packageName in BlacklistPackages then false
    else if n.isOngoing then false
    else if IsGroupSummary(n.flags) then false
    else if !ShouldAllow(n) then false
    else HasContent(n)
  }

  /**
   * The identity of a conversation: package, a bar, then title. It is made of exactly
   * those three parts, so it never depends on the text or on any handle of the platform.
   */
  function SmartId(packageName: string, title: string): (id: string)
    ensures |id| == |packageName| + 1 + |title|
    ensures id[..|packageName|] == packageName
    ensures id[|packageName|] == '|'
    ensures id[|packageName| + 1..] == title
  {
    packageName + "|" + title
  }

  /** The intent `onNotificationPosted` broadcasts: all five extras set. */
  function PostIntent(packageName: string, title: string, text: string): (intent: Intent)
    ensures intent.action == ListenerAction
    ensures intent.extras.Keys == {ExtraAction, ExtraId, ExtraPackage, ExtraTitle, ExtraText}
    ensures GetStringExtra(intent, ExtraAction) == Some("POST")
    ensures GetStringExtra(intent, ExtraId) == Some(SmartId(packageName, title))
    ensures GetStringExtra(intent, ExtraPackage) == Some(packageName)
    ensures GetStringExtra(intent, ExtraTitle) == Some(title)
    ensures GetStringExtra(intent, ExtraText) == Some(text)
  {
    var intent := NewIntent(ListenerAction);
    var intent := PutExtra(intent, ExtraAction, "POST");
    var intent := PutExtra(intent, ExtraId, SmartId(packageName, title));
    var intent := PutExtra(intent, ExtraPackage, packageName);
    var intent := PutExtra(intent, ExtraTitle, title);
    PutExtra(intent, ExtraText, text)
  }

  /** The intent `onNotificationRemoved` broadcasts: only action and id are set. */
  function RemoveIntent(packageName: string, title: string): (intent: Intent)
    ensures intent.action == ListenerAction
    ensures intent.extras.Keys == {ExtraAction, ExtraId}
    ensures GetStringExtra(intent, ExtraAction) == Some("REMOVE")
    ensures GetStringExtra(intent, ExtraId) == Some(SmartId(packageName, title))
    ensures GetStringExtra(intent, ExtraPackage).None?
    ensures GetStringExtra(intent, ExtraTitle).None?
    ensures GetStringExtra(intent, ExtraText).None?
  {
    var intent := NewIntent(ListenerAction);
    var intent := PutExtra(intent, ExtraAction, "REMOVE");
    PutExtra(intent, ExtraId, SmartId(packageName, title))
  }

  /** The listener service; `sent` is every intent it has broadcast, oldest first. */
  class FocusNotificationListener {
    var sent: seq<Intent>

    constructor ()
      ensures sent == []
    {
      sent := [];
    }

    /** Broadcasts at most one POST intent, exactly when `Decide` admits the notification. */
    method OnNotificationPosted(sbn: StatusBarNotification, appInForeground: bool)
      modifies this
      ensures sent == old(sent) + (if Decide(sbn, appInForeground)
                                   then [PostIntent(sbn.packageName, sbn.title.value, sbn.text.value)]
                                   else [])
    {
      if !appInForeground { return; }

      var packageName := sbn.packageName;
      if packageName in BlacklistPackages { return; }

      if sbn.isOngoing { return; }
      if sbn.flags & FlagGroupSummary != 0 { return; }

      var category := sbn.category;
      var isCommunication := category == Email || category == Message || category == Call
                             || category == Event || category == Alarm;

      var rankingImportance: int;
      var isImportant := false;
      match sbn.ranking {
        case Ranked(i) =>
          rankingImportance := i;
          isImportant := i >= ImportanceDefault;
        case LookupFailed(initial) =>
          rankingImportance := initial;
          isImportant := true;
      }
      assert isImportant == IsImportant(sbn.ranking);
      assert rankingImportance == RankingImportance(sbn.ranking);

      var shouldAllow := false;
      if packageName in VipPackages {
        if isImportant { shouldAllow := true; }
      } else if isCommunication {
        if isImportant { shouldAllow := true; }
      } else {
        if rankingImportance >= ImportanceHigh { shouldAllow := true; }
      }
      assert shouldAllow == ShouldAllow(sbn);
      if !shouldAllow { return; }

      if sbn.title.None? { return; }
      var title := sbn.title.value;
      if sbn.text.None? { return; }
      var text := sbn.text.value;
      if IsBlank(text) { return; }

      var smartId := SmartId(packageName, title);
      var intent := NewIntent(ListenerAction);
      intent := PutExtra(intent, ExtraAction, "POST");
      intent := PutExtra(intent, ExtraId, smartId);
      intent := PutExtra(intent, ExtraPackage, packageName);
      intent := PutExtra(intent, ExtraTitle, title);
      intent := PutExtra(intent, ExtraText, text);
      assert intent == PostIntent(packageName, title, text);
      sent := sent + [intent];
    }

    /** Runs no filter: broadcasts one REMOVE intent when the title is there, nothing otherwise. */
    method OnNotificationRemoved(sbn: StatusBarNotification)
      modifies this
      ensures sent == old(sent) + (if sbn.title.Some?
                                   then [RemoveIntent(sbn.packageName, sbn.title.value)]
                                   else [])
    {
      var title := sbn.title;
      var packageName := sbn.packageName;
      if title.Some? {
        var smartId := SmartId(packageName, title.value);
        var intent := NewIntent(ListenerAction);
        intent := PutExtra(intent, ExtraAction, "REMOVE");
        intent := PutExtra(intent, ExtraId, smartId);
        sent := sent + [intent];
      }
    }
  }

  /** The converse of `Decide`'s rejections: a notification that passes every filter is admitted. */
  lemma AdmittedWhenEveryFilterPasses(n: StatusBarNotification, appInForeground: bool)
    requires appInForeground
    requires n.packageName !in BlacklistPackages
    requires !n.isOngoing && !IsGroupSummary(n.flags)
    requires ShouldAllow(n)
    requires n.title.Some? && n.text.Some?
    requires exists i :: 0 <= i < |n.text.value| && !IsWhitespace(n.text.value[i])
    ensures Decide(n, appInForeground)
  {
  }

  /**
   * For a VIP app or a communication category, a notification that passes the other
   * filters is admitted exactly when the lookup threw or its importance is at least default.
   */
  lemma PriorityNotificationsFailOpen(n: StatusBarNotification)
    requires n.packageName !in BlacklistPackages && !n.isOngoing && !IsGroupSummary(n.flags)
    requires HasContent(n)
    requires n.packageName in VipPackages || IsCommunication(n.category)
    ensures Decide(n, true) <==> (n.ranking.LookupFailed? || n.ranking.importance >= ImportanceDefault)
  {
  }

  /**
   * Any other notification is admitted exactly when the ranking's raw importance is at
   * least high; a failed lookup does not help, only the importance a fresh ranking holds counts.
   */
  lemma OtherNotificationsNeedHighImportance(n: StatusBarNotification)
    requires n.packageName !in BlacklistPackages && !n.isOngoing && !IsGroupSummary(n.flags)
    requires HasContent(n)
    requires n.packageName !in VipPackages && !IsCommunication(n.category)
    ensures Decide(n, true) <==> RankingImportance(n.ranking) >= ImportanceHigh
    ensures n.ranking.LookupFailed? ==>
              Decide(n, true) == Decide(n.(ranking := Ranked(n.ranking.freshImportance)), true)
  {
  }

  /**
   * The if / else-if / else of `shouldAllow` has no fall-through, yet it agrees with the
   * cascade "VIP and important, or communication and important, or importance at least
   * high": an unimportant ranking is below default, so also below high.
   */
  lemma ShouldAllowAsCascade(n: StatusBarNotification)
    ensures ShouldAllow(n) <==>
              || (n.packageName in VipPackages && IsImportant(n.ranking))
              || (IsCommunication(n.category) && IsImportant(n.ranking))
              || RankingImportance(n.ranking) >= ImportanceHigh
  {
  }

  /** No package is on both lists; if one were, the blacklist test would reject it first. */
  lemma PolicyListsDisjoint()
    ensures VipPackages * BlacklistPackages == {}
  {
  }

  /** Raising a notification's importance never turns an admission into a rejection. */
  lemma DecideMonotoneInImportance(n: StatusBarNotification, appInForeground: bool, higher: int)
    requires n.ranking.Ranked? && n.ranking.importance <= higher
    requires Decide(n, appInForeground)
    ensures Decide(n.(ranking := Ranked(higher)), appInForeground)
  {
  }

  /**
   * Distinct (package, title) pairs get distinct ids as long as the packages contain no bar;
   * the titles may contain one.
   */
  lemma SmartIdInjective(p1: string, t1: string, p2: string, t2: string)
    requires '|' !in p1 && '|' !in p2
    requires SmartId(p1, t1) == SmartId(p2, t2)
    ensures p1 == p2 && t1 == t2
  {
  }

  /** A bar inside a package name lets two different pairs share an id. */
  lemma BarInPackageAliases()
    ensures SmartId("a|b", "c") == SmartId("a", "b|c")
  {
  }

  /**
   * A removal of (package, title) produces the id a post of the same pair got, whatever
   * else the two notifications carry: removal re-checks no filter and the id ignores the text.
   */
  lemma RemovalMatchesPost(posted: StatusBarNotification, removed: StatusBarNotification, appInForeground: bool)
    requires Decide(posted, appInForeground)
    requires removed.packageName == posted.packageName && removed.title == posted.title
    ensures removed.title.Some?
    ensures GetStringExtra(RemoveIntent(removed.packageName, removed.title.value), ExtraId)
         == GetStringExtra(PostIntent(posted.packageName, posted.title.value, posted.text.value), ExtraId)
  {
  }

  /** Two admitted posts of the same (package, title) carry the same id, whatever their texts. */
  lemma SameConversationSameId(n1: StatusBarNotification, n2: StatusBarNotification, fg1: bool, fg2: bool)
    requires Decide(n1, fg1) && Decide(n2, fg2)
    requires n1.packageName == n2.packageName && n1.title == n2.title
    ensures GetStringExtra(PostIntent(n1.packageName, n1.title.value, n1.text.value), ExtraId)
         == GetStringExtra(PostIntent(n2.packageName, n2.title.value, n2.text.value), ExtraId)
  {
  }

  /** A WhatsApp message of default importance from "Nirmiti" is posted as "com.whatsapp|Nirmiti". */
  lemma WhatsAppMessageScenario()
    ensures var n := StatusBarNotification("com.whatsapp", false, 0, Message, Ranked(ImportanceDefault),
                                           Some("Nirmiti"), Some("hi"));
            Decide(n, true)
            && GetStringExtra(PostIntent(n.packageName, n.title.value, n.text.value), ExtraId)
               == Some("com.whatsapp|Nirmiti")
  {
    var n := StatusBarNotification("com.whatsapp", false, 0, Message, Ranked(ImportanceDefault),
                                   Some("Nirmiti"), Some("hi"));
    assert n.packageName !in BlacklistPackages && ShouldAllow(n);
    assert !IsBlank("hi") by { assert !IsWhitespace("hi"[0]); }
    assert SmartId("com.whatsapp", "Nirmiti") == "com.whatsapp|Nirmiti";
  }
}
