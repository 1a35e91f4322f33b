/**
 * The Firestore service layer of the QR generator (src/lib/database.ts): document
 * values, `cleanUndefinedValues`, the subscription sub-record of a user profile, and
 * the read-then-write operations of UserService and QRCodeService on the `users` and
 * `qr-codes` collections.
 */
module Database {
  import opened Wrappers

  /** A Firestore field value as JavaScript hands it to the service layer.
      `Undef` is JavaScript's `undefined`. `Time` stands for a Firestore Timestamp or a
      `serverTimestamp()` sentinel and is kept opaque, as milliseconds since the epoch. */
  datatype Json =
    | Undef
    | Null
    | Bool(b: bool)
    | Num(n: int)
    | Str(s: string)
    | Time(millis: int)
    | Arr(items: seq<Json>)
    | Obj(fields: map<string, Json>)

  /** A document, as its top-level fields. */
  type Doc = map<string, Json>

  /** A collection: document id to document. */
  type Collection = map<string, Doc>

  /** JavaScript truthiness, as `a || b` and `if (a)` read a value. */
  predicate Truthy(v: Json) {
    match v
    case Undef => false
    case Null => false
    case Bool(b) => b
    case Num(n) => n != 0
    case Str(s) => s != ""
    case _ => true
  }

  // --------------------------------------------------------------------------
  // cleanUndefinedValues

  /** What `cleanUndefinedValues` keeps for a defined entry: a nested plain object is
      cleaned in turn; null, arrays and primitives are copied as they are. */
  function CleanValue(v: Json): Json
    decreases v, 1
  {
    if v.Obj? then Obj(CleanObject(v.fields)) else v
  }

  /** The object `cleanUndefinedValues(obj)` returns. */
  function CleanObject(m: Doc): (r: Doc)
    decreases Obj(m), 0
    ensures forall k :: k in r <==> k in m && m[k] != Undef
    ensures forall k :: k in r && !m[k].Obj? ==> r[k] == m[k]
  {
    map k | k in m && m[k] != Undef :: CleanValue(m[k])
  }

  /** No object level reachable through nested objects holds `undefined`.
      Arrays are not entered, as `cleanUndefinedValues` does not enter them. */
  predicate NoUndefined(m: Doc)
    decreases Obj(m)
  {
    forall k :: k in m ==> m[k] != Undef && (m[k].Obj? ==> NoUndefined(m[k].fields))
  }

  /** `cleanUndefinedValues`: walks the entries of `obj` and fills `cleaned`. */
  method CleanUndefinedValues(obj: Doc) returns (cleaned: Doc)
    ensures cleaned == CleanObject(obj)
    decreases Obj(obj)
  {
    cleaned := map[];
    var pending := obj.Keys;
    while pending != {}
      invariant pending <= obj.Keys
      invariant forall k :: k in cleaned <==> k in obj && k !in pending && obj[k] != Undef
      invariant forall k :: k in cleaned ==> cleaned[k] == CleanValue(obj[k])
      decreases pending
    {
      var key :| key in pending;
      var value := obj[key];
      if value != Undef {
        if value.Obj? {
          var inner := CleanUndefinedValues(value.fields);
          cleaned := cleaned[key := Obj(inner)];
        } else {
          cleaned := cleaned[key := value];
        }
      }
      pending := pending - {key};
    }
    assert cleaned.Keys == CleanObject(obj).Keys;
  }

  /** After cleaning, no object level holds `undefined`. */
  lemma {:induction false} CleanLeavesNoUndefined(m: Doc)
    ensures NoUndefined(CleanObject(m))
    decreases Obj(m)
  {
    var r := CleanObject(m);
    forall k | k in r && r[k].Obj?
      ensures NoUndefined(r[k].fields)
    {
      assert r[k] == CleanValue(m[k]);
      assert m[k].Obj? && r[k] == Obj(CleanObject(m[k].fields));
      CleanLeavesNoUndefined(m[k].fields);
    }
  }

  /** Cleaning an object that holds no `undefined` at any object level changes nothing. */
  lemma {:induction false} CleanKeepsDefinedObject(m: Doc)
    requires NoUndefined(m)
    ensures CleanObject(m) == m
    decreases Obj(m)
  {
    forall k | k in m && m[k].Obj?
      ensures CleanObject(m[k].fields) == m[k].fields
    {
      CleanKeepsDefinedObject(m[k].fields);
    }
    assert forall k :: k in m ==> CleanObject(m)[k] == m[k];
  }

  /** Cleaning twice is cleaning once. */
  lemma CleanIdempotent(m: Doc)
    ensures CleanObject(CleanObject(m)) == CleanObject(m)
  {
    CleanLeavesNoUndefined(m);
    CleanKeepsDefinedObject(CleanObject(m));
  }

  /** Cleaning keeps the truthiness of a defined value. */
  lemma CleanValueTruthy(v: Json)
    requires v != Undef
    ensures CleanValue(v) != Undef && (Truthy(CleanValue(v)) <==> Truthy(v))
  {
  }

  /** Adding a defined entry to an object without `undefined` keeps it so. */
  lemma NoUndefinedUpdate(m: Doc, k: string, v: Json)
    requires NoUndefined(m) && v != Undef
    requires v.Obj? ==> NoUndefined(v.fields)
    ensures NoUndefined(m[k := v])
  {
  }

  // --------------------------------------------------------------------------
  // The subscription sub-record of a user profile

  /** The local subscription status of a profile. */
  datatype PlanStatus = Active | Cancelled | Expired

  function StatusName(s: PlanStatus): string {
    match s
    case Active => "active"
    case Cancelled => "cancelled"
    case Expired => "expired"
  }

  function ParseStatus(name: string): (r: Option<PlanStatus>)
    ensures forall s: PlanStatus :: r == Some(s) <==> StatusName(s) == name
  {
    if name == "active" then Some(Active)
    else if name == "cancelled" then Some(Cancelled)
    else if name == "expired" then Some(Expired)
    else None
  }

  /** `UserProfile['subscription']`. The plan is a string: the handlers store whatever
      plan identifier they are given, not only "free" or "premium". */
  datatype Subscription = Subscription(
    plan: string,
    status: PlanStatus,
    currentPeriodEnd: Option<int>,
    stripeCustomerId: Option<string>,
    stripeSubscriptionId: Option<string>)

  /** The object literal the handlers pass to `updateSubscription`; an absent part is an
      absent key. */
  function SubscriptionJson(sub: Subscription): (j: Json)
    ensures j.Obj? && NoUndefined(j.fields)
    ensures j.fields.Keys <= {"plan", "status", "currentPeriodEnd", "stripeCustomerId", "stripeSubscriptionId"}
    ensures "plan" in j.fields && j.fields["plan"] == Str(sub.plan)
    ensures "status" in j.fields && j.fields["status"] == Str(StatusName(sub.status))
    ensures "currentPeriodEnd" in j.fields <==> sub.currentPeriodEnd.Some?
    ensures "stripeCustomerId" in j.fields <==> sub.stripeCustomerId.Some?
    ensures "stripeSubscriptionId" in j.fields <==> sub.stripeSubscriptionId.Some?
  {
    var base := map["plan" := Str(sub.plan), "status" := Str(StatusName(sub.status))];
    var withEnd := if sub.currentPeriodEnd.Some? then base["currentPeriodEnd" := Time(sub.currentPeriodEnd.value)] else base;
    var withCustomer := if sub.stripeCustomerId.Some? then withEnd["stripeCustomerId" := Str(sub.stripeCustomerId.value)] else withEnd;
    Obj(if sub.stripeSubscriptionId.Some? then withCustomer["stripeSubscriptionId" := Str(sub.stripeSubscriptionId.value)] else withCustomer)
  }

  /** Reads an optional string entry: absent is None, a string is Some, anything else
      is malformed. */
  function ReadOptionalString(d: Doc, key: string): Option<Option<string>> {
    if key !in d then Some(None)
    else if d[key].Str? then Some(Some(d[key].s))
    else None
  }

  function ReadOptionalTime(d: Doc, key: string): Option<Option<int>> {
    if key !in d then Some(None)
    else if d[key].Time? then Some(Some(d[key].millis))
    else None
  }

  /** Reads a stored subscription sub-record back. */
  function ParseSubscription(j: Json): Option<Subscription> {
    if !j.Obj? then None
    else
      var d := j.fields;
      if "plan" !in d || !d["plan"].Str? || "status" !in d || !d["status"].Str? then None
      else
        var status := ParseStatus(d["status"].s);
        var end := ReadOptionalTime(d, "currentPeriodEnd");
        var customer := ReadOptionalString(d, "stripeCustomerId");
        var subscription := ReadOptionalString(d, "stripeSubscriptionId");
        if status.None? || end.None? || customer.None? || subscription.None? then None
        else Some(Subscription(d["plan"].s, status.value, end.value, customer.value, subscription.value))
  }

  /** A written sub-record reads back as the record that was written. */
  lemma SubscriptionRoundTrip(sub: Subscription)
    ensures ParseSubscription(SubscriptionJson(sub)) == Some(sub)
  {
    var d := SubscriptionJson(sub).fields;
    assert ParseStatus(StatusName(sub.status)) == Some(sub.status);
    assert ReadOptionalTime(d, "currentPeriodEnd") == Some(sub.currentPeriodEnd);
    assert ReadOptionalString(d, "stripeCustomerId") == Some(sub.stripeCustomerId);
    assert ReadOptionalString(d, "stripeSubscriptionId") == Some(sub.stripeSubscriptionId);
  }

  // --------------------------------------------------------------------------
  // UserService: the documents it writes

  /** The subscription of a new profile: free and active, no processor ids. */
  const DefaultSubscription: Json := Obj(map["plan" := Str("free"), "status" := Str("active")])

  /** The QR settings of a new profile: 256 pixels, black on white, level M. */
  const DefaultQrSettings: Json := Obj(map[
    "size" := Num(256),
    "foregroundColor" := Str("#000000"),
    "backgroundColor" := Str("#ffffff"),
    "errorCorrectionLevel" := Str("M")])

  const DefaultPreferences: Json := Obj(map["theme" := Str("system"), "defaultQRSettings" := DefaultQrSettings])

  function DefaultUsage(now: int): Json {
    Obj(map["qrCodesCreated" := Num(0), "aiRequestsUsed" := Num(0), "lastResetDate" := Time(now)])
  }

  /** The defaults are truthy objects without `undefined`, which cleaning leaves alone. */
  lemma DefaultsDefined(now: int)
    ensures DefaultSubscription.Obj? && NoUndefined(DefaultSubscription.fields)
    ensures DefaultPreferences.Obj? && NoUndefined(DefaultPreferences.fields)
    ensures DefaultUsage(now).Obj? && NoUndefined(DefaultUsage(now).fields)
    ensures CleanValue(DefaultSubscription) == DefaultSubscription
    ensures CleanValue(DefaultPreferences) == DefaultPreferences
    ensures CleanValue(DefaultUsage(now)) == DefaultUsage(now)
  {
    DefaultSubscriptionDefined();
    DefaultPreferencesDefined();
    DefaultUsageDefined(now);
  }

  lemma DefaultSubscriptionDefined()
    ensures NoUndefined(DefaultSubscription.fields) && CleanValue(DefaultSubscription) == DefaultSubscription
  {
    CleanKeepsDefinedObject(DefaultSubscription.fields);
  }

  lemma DefaultPreferencesDefined()
    ensures NoUndefined(DefaultPreferences.fields) && CleanValue(DefaultPreferences) == DefaultPreferences
  {
    assert NoUndefined(DefaultQrSettings.fields);
    CleanKeepsDefinedObject(DefaultPreferences.fields);
  }

  lemma DefaultUsageDefined(now: int)
    ensures NoUndefined(DefaultUsage(now).fields) && CleanValue(DefaultUsage(now)) == DefaultUsage(now)
  {
    CleanKeepsDefinedObject(DefaultUsage(now).fields);
  }

  /** The profile parts createOrUpdate fills with a default when they are not supplied. */
  const DefaultedParts: set<string> := {"subscription", "preferences", "usage"}

  /** `d[key] || fallback`. */
  function FieldOr(d: Doc, key: string, fallback: Json): Json {
    if key in d && Truthy(d[key]) then d[key] else fallback
  }

  /** The profile supplies a truthy value for `key`. */
  predicate Supplies(profile: Doc, key: string) {
    key in profile && Truthy(profile[key])
  }

  /** The object literal `newUserData` built from the cleaned profile. */
  function NewUserData(cleaned: Doc, now: int): Doc {
    cleaned["subscription" := FieldOr(cleaned, "subscription", DefaultSubscription)]
           ["preferences" := FieldOr(cleaned, "preferences", DefaultPreferences)]
           ["usage" := FieldOr(cleaned, "usage", DefaultUsage(now))]
           ["createdAt" := Time(now)]
           ["updatedAt" := Time(now)]
  }

  lemma NewUserDataDefined(cleaned: Doc, now: int)
    requires NoUndefined(cleaned)
    ensures NoUndefined(NewUserData(cleaned, now))
  {
    DefaultsDefined(now);
    var s := cleaned["subscription" := FieldOr(cleaned, "subscription", DefaultSubscription)];
    NoUndefinedUpdate(cleaned, "subscription", FieldOr(cleaned, "subscription", DefaultSubscription));
    var p := s["preferences" := FieldOr(cleaned, "preferences", DefaultPreferences)];
    NoUndefinedUpdate(s, "preferences", FieldOr(cleaned, "preferences", DefaultPreferences));
    var u := p["usage" := FieldOr(cleaned, "usage", DefaultUsage(now))];
    NoUndefinedUpdate(p, "usage", FieldOr(cleaned, "usage", DefaultUsage(now)));
    NoUndefinedUpdate(u, "createdAt", Time(now));
    NoUndefinedUpdate(u["createdAt" := Time(now)], "updatedAt", Time(now));
  }

  /** The document `createOrUpdate` writes with `setDoc` for a uid that has none. */
  function NewUserDoc(profile: Doc, now: int): (r: Doc)
    ensures NoUndefined(r)
    ensures forall key :: key in DefaultedParts ==> key in r
    ensures Supplies(profile, "subscription") ==> r["subscription"] == CleanValue(profile["subscription"])
    ensures !Supplies(profile, "subscription") ==> r["subscription"] == DefaultSubscription
    ensures Supplies(profile, "preferences") ==> r["preferences"] == CleanValue(profile["preferences"])
    ensures !Supplies(profile, "preferences") ==> r["preferences"] == DefaultPreferences
    ensures Supplies(profile, "usage") ==> r["usage"] == CleanValue(profile["usage"])
    ensures !Supplies(profile, "usage") ==> r["usage"] == DefaultUsage(now)
    ensures "createdAt" in r && r["createdAt"] == Time(now)
    ensures "updatedAt" in r && r["updatedAt"] == Time(now)
    ensures forall k :: k in profile && profile[k] != Undef && k !in DefaultedParts && k != "createdAt" && k != "updatedAt"
              ==> k in r && r[k] == CleanValue(profile[k])
    ensures forall k :: k in r ==> k in profile || k in DefaultedParts || k == "createdAt" || k == "updatedAt"
  {
    var cleaned := CleanObject(profile);
    CleanLeavesNoUndefined(profile);
    forall key | key in profile && profile[key] != Undef
      ensures Truthy(CleanValue(profile[key])) <==> Truthy(profile[key])
    {
      CleanValueTruthy(profile[key]);
    }
    NewUserDataDefined(cleaned, now);
    NewUserDataParts(cleaned, now);
    WrittenKeysDistinct();
    CleanKeepsDefinedObject(NewUserData(cleaned, now));
    CleanObject(NewUserData(cleaned, now))
  }

  /** The five written keys are distinct. */
  lemma WrittenKeysDistinct()
    ensures "subscription" != "preferences" && "subscription" != "usage" && "preferences" != "usage"
    ensures "createdAt" != "updatedAt"
    ensures forall k :: k in DefaultedParts ==> k != "createdAt" && k != "updatedAt"
  {
    assert "createdAt"[0] != "updatedAt"[0];
  }

  /** Each entry of `newUserData`. */
  lemma NewUserDataParts(cleaned: Doc, now: int)
    ensures var d := NewUserData(cleaned, now);
      && d.Keys == cleaned.Keys + DefaultedParts + {"createdAt", "updatedAt"}
      && d["subscription"] == FieldOr(cleaned, "subscription", DefaultSubscription)
      && d["preferences"] == FieldOr(cleaned, "preferences", DefaultPreferences)
      && d["usage"] == FieldOr(cleaned, "usage", DefaultUsage(now))
      && d["createdAt"] == Time(now) && d["updatedAt"] == Time(now)
      && forall k :: k in cleaned && k !in DefaultedParts && k != "createdAt" && k != "updatedAt" ==> d[k] == cleaned[k]
  {
    WrittenKeysDistinct();
  }

  /** The document after `createOrUpdate` updates an existing profile: every supplied
      top-level field replaces the stored one, every other stored field stays. */
  function ExistingUserDoc(current: Doc, profile: Doc, now: int): (r: Doc)
    ensures "updatedAt" in r && r["updatedAt"] == Time(now)
    ensures forall k :: k in profile && profile[k] != Undef && k != "updatedAt"
              ==> k in r && r[k] == CleanValue(profile[k])
    ensures forall k :: k in current && (k !in profile || profile[k] == Undef) && k != "updatedAt"
              ==> k in r && r[k] == current[k]
    ensures forall k :: k in r ==> k in current || (k in profile && profile[k] != Undef) || k == "updatedAt"
  {
    var cleaned := CleanObject(profile);
    CleanLeavesNoUndefined(profile);
    NoUndefinedUpdate(cleaned, "updatedAt", Time(now));
    CleanKeepsDefinedObject(cleaned["updatedAt" := Time(now)]);
    current + CleanObject(cleaned["updatedAt" := Time(now)])
  }

  /** The document after `updateSubscription`: the subscription sub-record is replaced as
      a whole and only `updatedAt` changes beside it. */
  function SubscriptionWrite(current: Doc, subscription: Json, now: int): (r: Doc)
    ensures "subscription" in r && r["subscription"] == subscription
    ensures "updatedAt" in r && r["updatedAt"] == Time(now)
    ensures forall k :: k in current && k != "subscription" && k != "updatedAt" ==> k in r && r[k] == current[k]
    ensures r.Keys == current.Keys + {"subscription", "updatedAt"}
  {
    current + map["subscription" := subscription, "updatedAt" := Time(now)]
  }

  /** What `UserService.getById` returns: the stored fields with the document id added
      as `id` (a stored `id` field wins, as the spread comes second), or None when the
      document does not exist. */
  function ProfileOf(users: Collection, uid: string): Option<Doc> {
    if uid in users then Some(map["id" := Str(uid)] + users[uid]) else None
  }

  /** `profile?.subscription?.stripeCustomerId`, kept only when it is truthy: a missing
      profile, a subscription that is not an object, or an absent, empty or otherwise
      falsy id all read as None. */
  function CustomerIdOf(profile: Option<Doc>): (r: Option<Json>)
    ensures r.Some? ==> Truthy(r.value)
    ensures r.Some? ==>
      && profile.Some? && "subscription" in profile.value && profile.value["subscription"].Obj?
      && "stripeCustomerId" in profile.value["subscription"].fields
      && r.value == profile.value["subscription"].fields["stripeCustomerId"]
    ensures r.None? && profile.Some? && "subscription" in profile.value && profile.value["subscription"].Obj?
      && "stripeCustomerId" in profile.value["subscription"].fields
      ==> !Truthy(profile.value["subscription"].fields["stripeCustomerId"])
  {
    if profile.None? || "subscription" !in profile.value then None
    else
      var sub := profile.value["subscription"];
      if sub.Obj? && "stripeCustomerId" in sub.fields && Truthy(sub.fields["stripeCustomerId"])
      then Some(sub.fields["stripeCustomerId"])
      else None
  }

  /** The customer id read back from a profile whose subscription sub-record was just
      written: the stored `id` key never shadows `subscription`. */
  lemma StoredCustomerIdReadsBack(users: Collection, uid: string, subscription: Doc, id: string, now: int)
    requires uid in users
    requires "stripeCustomerId" in subscription && subscription["stripeCustomerId"] == Str(id) && id != ""
    ensures CustomerIdOf(ProfileOf(users[uid := SubscriptionWrite(users[uid], Obj(subscription), now)], uid)) == Some(Str(id))
  {
    var d := SubscriptionWrite(users[uid], Obj(subscription), now);
    var p := map["id" := Str(uid)] + d;
    assert "subscription" in p && p["subscription"] == Obj(subscription);
  }

  /** The usage counters `incrementUsage` may raise. */
  datatype UsageCounter = QrCodesCreated | AiRequestsUsed

  function CounterName(c: UsageCounter): string {
    match c
    case QrCodesCreated => "qrCodesCreated"
    case AiRequestsUsed => "aiRequestsUsed"
  }

  /** A stored counter as `d[key] || 0` reads it: an absent counter is 0. */
  function Count(d: Doc, key: string): int {
    if key in d && d[key].Num? then d[key].n else 0
  }

  /** The fields of a value that a dotted-path update writes into. */
  function FieldsOf(v: Json): Doc {
    if v.Obj? then v.fields else map[]
  }

  /** The document after `incrementUsage` for an existing profile, or None when reading
      `user.usage[type]` throws because `usage` is null or absent. */
  function UsageIncremented(current: Doc, counter: UsageCounter, now: int): (r: Option<Doc>)
    ensures r.None? <==> "usage" !in current || current["usage"] == Undef || current["usage"] == Null
    ensures r.Some? ==>
      var name := CounterName(counter);
      && "usage" in r.value && r.value["usage"].Obj?
      && name in r.value["usage"].fields
      && r.value["usage"].fields[name] == Num(Count(FieldsOf(current["usage"]), name) + 1)
      && (forall k :: k in FieldsOf(current["usage"]) && k != name
            ==> k in r.value["usage"].fields && r.value["usage"].fields[k] == FieldsOf(current["usage"])[k])
      && r.value["usage"].fields.Keys == FieldsOf(current["usage"]).Keys + {name}
    ensures r.Some? ==> "updatedAt" in r.value && r.value["updatedAt"] == Time(now)
    ensures r.Some? ==> forall k :: k in current && k != "usage" && k != "updatedAt" ==> k in r.value && r.value[k] == current[k]
    ensures r.Some? ==> r.value.Keys == current.Keys + {"updatedAt"}
  {
    if "usage" !in current || current["usage"] == Undef || current["usage"] == Null then None
    else
      var usage := FieldsOf(current["usage"]);
      var name := CounterName(counter);
      Some(current + map["usage" := Obj(usage[name := Num(Count(usage, name) + 1)]), "updatedAt" := Time(now)])
  }

  /** The QR-code document after `incrementScanCount` for an existing code. */
  function ScanCountIncremented(current: Doc, now: int): (r: Doc)
    ensures "scanCount" in r && r["scanCount"] == Num(Count(current, "scanCount") + 1)
    ensures "updatedAt" in r && r["updatedAt"] == Time(now)
    ensures forall k :: k in current && k != "scanCount" && k != "updatedAt" ==> k in r && r[k] == current[k]
    ensures r.Keys == current.Keys + {"scanCount", "updatedAt"}
  {
    current + map["scanCount" := Num(Count(current, "scanCount") + 1), "updatedAt" := Time(now)]
  }

  /** The profile `initializeUserProfile` hands to `createOrUpdate`. */
  function InitialProfile(uid: string, email: string, displayName: Option<string>, now: int): (r: Doc)
    ensures "uid" in r && r["uid"] == Str(uid)
    ensures "email" in r && r["email"] == Str(email)
    ensures "subscription" in r && r["subscription"] == DefaultSubscription
    ensures "preferences" in r && r["preferences"] == DefaultPreferences
    ensures "usage" in r && r["usage"] == DefaultUsage(now)
    ensures "displayName" in r <==> displayName.Some? && displayName.value != ""
    ensures "displayName" in r ==> r["displayName"] == Str(displayName.value)
    ensures r.Keys <= {"uid", "email", "displayName", "subscription", "preferences", "usage"}
  {
    var base := map["uid" := Str(uid), "email" := Str(email)]
                   ["subscription" := DefaultSubscription]
                   ["preferences" := DefaultPreferences]
                   ["usage" := DefaultUsage(now)];
    assert "displayName"[0] != "preferences"[0];
    if displayName.Some? && displayName.value != "" then base["displayName" := Str(displayName.value)] else base
  }

  /** A newly initialised profile is on the free plan, active, with both counters at 0,
      and has a display name exactly when a non-empty one was given. */
  lemma InitializedProfileIsFree(uid: string, email: string, displayName: Option<string>, now: int)
    ensures var d := NewUserDoc(InitialProfile(uid, email, displayName, now), now);
      && ParseSubscription(d["subscription"]) == Some(Subscription("free", Active, None, None, None))
      && d["usage"] == DefaultUsage(now)
      && ("displayName" in d <==> displayName.Some? && displayName.value != "")
  {
    var p := InitialProfile(uid, email, displayName, now);
    var d := NewUserDoc(p, now);
    assert d["subscription"] == DefaultSubscription by {
      DefaultSubscriptionDefined();
      assert Supplies(p, "subscription");
    }
    DefaultSubscriptionReadsFree();
    assert d["usage"] == DefaultUsage(now) by {
      DefaultUsageDefined(now);
      assert Supplies(p, "usage");
    }
    assert "displayName" in d <==> "displayName" in p by {
      DisplayNameIsPlain();
    }
  }

  /** `displayName` is neither a defaulted part nor a timestamp. */
  lemma DisplayNameIsPlain()
    ensures "displayName" !in DefaultedParts && "displayName" != "createdAt" && "displayName" != "updatedAt"
  {
    assert "displayName"[0] != "preferences"[0];
  }

  /** The default sub-record reads back as free, active and without processor ids. */
  lemma DefaultSubscriptionReadsFree()
    ensures ParseSubscription(DefaultSubscription) == Some(Subscription("free", Active, None, None, None))
  {
    var sub := DefaultSubscription.fields;
    assert ReadOptionalTime(sub, "currentPeriodEnd") == Some(None);
    assert ReadOptionalString(sub, "stripeCustomerId") == Some(None);
    assert ReadOptionalString(sub, "stripeSubscriptionId") == Some(None);
  }

  /** Run on a uid whose profile exists, `initializeUserProfile` overwrites the stored
      subscription with the free default: its one caller only runs it for a missing profile. */
  lemma InitializeOverwritesSubscription(current: Doc, uid: string, email: string, displayName: Option<string>, now: int)
    ensures var d := ExistingUserDoc(current, InitialProfile(uid, email, displayName, now), now);
      "subscription" in d && d["subscription"] == DefaultSubscription
  {
    DefaultsDefined(now);
  }

  // --------------------------------------------------------------------------
  // The store

  /** Firestore's rule for the data of a write: no `undefined` anywhere in it, inside
      nested objects and arrays alike. The store is built without
      `ignoreUndefinedProperties`, so data breaking the rule is rejected. */
  predicate Storable(v: Json)
    decreases v
  {
    match v
    case Undef => false
    case Arr(items) => forall i :: 0 <= i < |items| ==> Storable(items[i])
    case Obj(fields) => forall k :: k in fields ==> Storable(fields[k])
    case _ => true
  }

  /** A document Firestore accepts as the data of a write. */
  predicate StorableDoc(m: Doc) {
    forall k :: k in m ==> Storable(m[k])
  }

  /** Data Firestore accepts holds no `undefined` at any object level either. */
  lemma {:induction false} StorableHasNoUndefined(m: Doc)
    requires StorableDoc(m)
    ensures NoUndefined(m)
    decreases Obj(m)
  {
    forall k | k in m && m[k].Obj?
      ensures NoUndefined(m[k].fields)
    {
      assert Storable(m[k]);
      StorableHasNoUndefined(m[k].fields);
    }
  }

  /** The data `QRCodeService.create` hands to `addDoc`: the record with both
      timestamps set. */
  function CreatedQrCode(qrCode: Doc, now: int): (d: Doc)
    ensures d.Keys == qrCode.Keys + {"createdAt", "updatedAt"}
    ensures d["createdAt"] == Time(now) && d["updatedAt"] == Time(now)
    ensures forall k :: k in qrCode && k != "createdAt" && k != "updatedAt" ==> d[k] == qrCode[k]
  {
    qrCode + map["createdAt" := Time(now), "updatedAt" := Time(now)]
  }

  /** `addDoc` accepts the new code exactly when the record holds no `undefined` outside
      the two timestamps it overrides. */
  lemma CreatedQrCodeStorable(qrCode: Doc, now: int)
    ensures StorableDoc(CreatedQrCode(qrCode, now)) <==>
      forall k :: k in qrCode && k != "createdAt" && k != "updatedAt" ==> Storable(qrCode[k])
  {
    var d := CreatedQrCode(qrCode, now);
    assert Storable(d["createdAt"]) && Storable(d["updatedAt"]);
  }

  /** A code whose optional `title` is left `undefined` is rejected. */
  lemma UntitledQrCodeRejected(now: int)
    ensures !StorableDoc(CreatedQrCode(map["title" := Undef, "content" := Str("https://example.com")], now))
  {
    var d := CreatedQrCode(map["title" := Undef, "content" := Str("https://example.com")], now);
    assert d["title"] == Undef;
  }

  /** So is one whose `customizations.logoUrl` is `undefined`, one object level down. */
  lemma NestedUndefinedRejected(now: int)
    ensures !StorableDoc(CreatedQrCode(map["customizations" := Obj(map["logoUrl" := Undef])], now))
  {
    var d := CreatedQrCode(map["customizations" := Obj(map["logoUrl" := Undef])], now);
    assert d["customizations"].fields["logoUrl"] == Undef;
  }

  datatype StoreError =
    | NotFound       // updateDoc on a document that does not exist
    | UsageMissing   // `user.usage[type]` read on a null or absent `usage`
    | UndefinedValue // `addDoc` or `updateDoc` data holding `undefined`

  datatype Outcome = Done | Failed(error: StoreError)

  /** The two collections the services use, `users` and `qr-codes`. */
  class Firestore {
    var users: Collection
    var qrCodes: Collection

    constructor (users: Collection, qrCodes: Collection)
      ensures this.users == users && this.qrCodes == qrCodes
    {
      this.users := users;
      this.qrCodes := qrCodes;
    }

    /** `UserService.getById`: the stored fields with the document id added as `id`. */
    method GetUser(uid: string) returns (profile: Option<Doc>)
      ensures profile.None? <==> uid !in users
      ensures profile.Some? ==> profile.value == map["id" := Str(uid)] + users[uid]
      ensures profile == ProfileOf(users, uid)
    {
      if uid in users {
        profile := Some(map["id" := Str(uid)] + users[uid]);
      } else {
        profile := None;
      }
    }

    /** `UserService.createOrUpdate`: clean the profile, then update the existing
        document or create one with the defaults filled in. */
    method CreateOrUpdate(profile: Doc, now: int)
      requires "uid" in profile && profile["uid"].Str?
      modifies this
      ensures var uid := profile["uid"].s;
        users == old(users)[uid := if uid in old(users) then ExistingUserDoc(old(users)[uid], profile, now)
                                   else NewUserDoc(profile, now)]
      ensures qrCodes == old(qrCodes)
    {
      var uid := profile["uid"].s;
      var cleanedProfile := CleanUndefinedValues(profile);
      if uid in users {
        var update := CleanUndefinedValues(cleanedProfile["updatedAt" := Time(now)]);
        users := users[uid := users[uid] + update];
      } else {
        var newUserData := cleanedProfile
          ["subscription" := FieldOr(cleanedProfile, "subscription", DefaultSubscription)]
          ["preferences" := FieldOr(cleanedProfile, "preferences", DefaultPreferences)]
          ["usage" := FieldOr(cleanedProfile, "usage", DefaultUsage(now))]
          ["createdAt" := Time(now)]
          ["updatedAt" := Time(now)];
        var data := CleanUndefinedValues(newUserData);
        users := users[uid := data];
      }
    }

    /** `UserService.updateSubscription`. */
    method UpdateSubscription(uid: string, subscription: Json, now: int) returns (outcome: Outcome)
      modifies this
      ensures outcome == if uid in old(users) then Done else Failed(NotFound)
      ensures users == if uid in old(users) then old(users)[uid := SubscriptionWrite(old(users)[uid], subscription, now)]
                       else old(users)
      ensures qrCodes == old(qrCodes)
    {
      if uid in users {
        users := users[uid := users[uid] + map["subscription" := subscription, "updatedAt" := Time(now)]];
        outcome := Done;
      } else {
        outcome := Failed(NotFound);
      }
    }

    /** `UserService.incrementUsage`: read the profile, then write the counter plus one. */
    method IncrementUsage(uid: string, counter: UsageCounter, now: int) returns (outcome: Outcome)
      modifies this
      ensures uid !in old(users) ==> outcome == Done && users == old(users)
      ensures uid in old(users) && UsageIncremented(old(users)[uid], counter, now).None?
        ==> outcome == Failed(UsageMissing) && users == old(users)
      ensures uid in old(users) && UsageIncremented(old(users)[uid], counter, now).Some?
        ==> outcome == Done && users == old(users)[uid := UsageIncremented(old(users)[uid], counter, now).value]
      ensures qrCodes == old(qrCodes)
    {
      var user := GetUser(uid);
      if user.None? {
        return Done;
      }
      var profile := user.value;
      assert "usage" in profile <==> "usage" in users[uid];
      assert "usage" in profile ==> profile["usage"] == users[uid]["usage"];
      if "usage" !in profile || profile["usage"] == Undef || profile["usage"] == Null {
        return Failed(UsageMissing);
      }
      var name := CounterName(counter);
      var usage := FieldsOf(profile["usage"]);
      var currentCount := Count(usage, name);
      var updated := users[uid] + map["usage" := Obj(usage[name := Num(currentCount + 1)]), "updatedAt" := Time(now)];
      assert UsageIncremented(users[uid], counter, now) == Some(updated);
      users := users[uid := updated];
      outcome := Done;
    }

    /** `QRCodeService.create`: the generated id is a parameter, fresh in the collection.
        Data holding `undefined` is rejected and nothing is stored. */
    method CreateQrCode(id: string, qrCode: Doc, now: int) returns (outcome: Outcome)
      requires id !in qrCodes
      modifies this
      ensures outcome == if StorableDoc(CreatedQrCode(qrCode, now)) then Done else Failed(UndefinedValue)
      ensures qrCodes == if outcome.Done? then old(qrCodes)[id := CreatedQrCode(qrCode, now)] else old(qrCodes)
      ensures users == old(users)
    {
      var data := qrCode + map["createdAt" := Time(now), "updatedAt" := Time(now)];
      if !StorableDoc(data) {
        return Failed(UndefinedValue);
      }
      qrCodes := qrCodes[id := data];
      outcome := Done;
    }

    /** `QRCodeService.getById`. */
    method GetQrCode(id: string) returns (code: Option<Doc>)
      ensures code.None? <==> id !in qrCodes
      ensures code.Some? ==> code.value == map["id" := Str(id)] + qrCodes[id]
    {
      if id in qrCodes {
        code := Some(map["id" := Str(id)] + qrCodes[id]);
      } else {
        code := None;
      }
    }

    /** `QRCodeService.update`: the given fields and `updatedAt` replace the stored ones.
        Data holding `undefined` is rejected before the document is looked up. */
    method UpdateQrCode(id: string, updates: Doc, now: int) returns (outcome: Outcome)
      modifies this
      ensures outcome == if !StorableDoc(updates["updatedAt" := Time(now)]) then Failed(UndefinedValue)
                         else if id in old(qrCodes) then Done else Failed(NotFound)
      ensures qrCodes == if outcome.Done? then old(qrCodes)[id := old(qrCodes)[id] + updates["updatedAt" := Time(now)]]
                         else old(qrCodes)
      ensures users == old(users)
    {
      var data := updates["updatedAt" := Time(now)];
      if !StorableDoc(data) {
        outcome := Failed(UndefinedValue);
      } else if id in qrCodes {
        qrCodes := qrCodes[id := qrCodes[id] + data];
        outcome := Done;
      } else {
        outcome := Failed(NotFound);
      }
    }

    /** `QRCodeService.delete`. */
    method DeleteQrCode(id: string)
      modifies this
      ensures qrCodes == old(qrCodes) - {id}
      ensures users == old(users)
    {
      qrCodes := qrCodes - {id};
    }

    /** `QRCodeService.incrementScanCount`: read the code, then write its count plus one. */
    method IncrementScanCount(id: string, now: int)
      modifies this
      ensures qrCodes == if id in old(qrCodes) then old(qrCodes)[id := ScanCountIncremented(old(qrCodes)[id], now)]
                         else old(qrCodes)
      ensures users == old(users)
    {
      var code := GetQrCode(id);
      if code.Some? {
        var scanCount := Count(code.value, "scanCount");
        assert scanCount == Count(qrCodes[id], "scanCount");
        var increment := map["scanCount" := Num(scanCount + 1)];
        assert StorableDoc(increment["updatedAt" := Time(now)]) by {
          var data := increment["updatedAt" := Time(now)];
          assert forall k :: k in data ==> data[k] == Num(scanCount + 1) || data[k] == Time(now);
        }
        var _ := UpdateQrCode(id, increment, now);
      }
    }
  }

  /** `initializeUserProfile`: build the default profile, add the display name when it is
      non-empty, and hand it to `createOrUpdate`. */
  method InitializeUserProfile(db: Firestore, uid: string, email: string, displayName: Option<string>, now: int)
    modifies db
    ensures var profile := InitialProfile(uid, email, displayName, now);
      db.users == old(db.users)[uid := if uid in old(db.users) then ExistingUserDoc(old(db.users)[uid], profile, now)
                                       else NewUserDoc(profile, now)]
    ensures db.qrCodes == old(db.qrCodes)
  {
    var userProfileData := map[
      "uid" := Str(uid),
      "email" := Str(email),
      "subscription" := DefaultSubscription,
      "preferences" := DefaultPreferences,
      "usage" := DefaultUsage(now)];
    if displayName.Some? && displayName.value != "" {
      userProfileData := userProfileData["displayName" := Str(displayName.value)];
    }
    assert userProfileData == InitialProfile(uid, email, displayName, now);
    db.CreateOrUpdate(userProfileData, now);
  }
}
