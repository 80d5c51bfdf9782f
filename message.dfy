/** The `PushwooshMessage` builder: a record of optional fields changed in
    place by chainable setters, and its serialisation to the payload of one
    notification in a `createMessage` request. */
module Message {
  import opened Values
  import opened Errors

  /** The `content` field: one plain text, or a text per language code. */
  datatype Body = Plain(text: string) | Localized(texts: map<string, string>)

  /** The first argument of `deliverAt`: a text already in "Y-m-d H:i" form,
      or a date-time object, reduced to that text and the name of its zone. */
  datatype Moment = Text(text: string) | DateTime(formatted: string, zoneName: string)

  /** The abstract state of a message: one entry per protected property of
      the PHP class, `None` where the property is `null`. */
  datatype Fields = Fields(
    androidRootParameters: Option<map<string, Value>>,
    apnsTrimContent: Option<int>,
    campaign: Option<string>,
    content: Body,
    data: Option<map<string, Value>>,
    identifier: Option<string>,
    iosBadges: Option<string>,
    iosCategoryId: Option<int>,
    iosCritical: Option<bool>,
    iosRootParameters: Option<map<string, Value>>,
    iosSilent: Option<int>,
    iosSound: Option<string>,
    iosSubtitle: Option<string>,
    iosThreadId: Option<string>,
    iosTitle: Option<string>,
    iosTtl: Option<int>,
    preset: Option<string>,
    recipientTimezone: bool,
    shortenUrl: Option<bool>,
    timezone: Option<string>,
    throughput: Option<int>,
    url: Option<string>,
    when: string)

  /** The state the constructor leaves: the given content, the sender's
      timezone, delivery "now", everything else unset. */
  function Initial(content: string): Fields {
    Fields(None, None, None, Plain(content), None, None, None, None, None, None, None,
           None, None, None, None, None, None, false, None, None, None, None, "now")
  }

  /** The values `apnsTrimContent` and `iosSilent` accept. */
  predicate IsFlag(n: int) {
    n == 0 || n == 1
  }

  /** What every sequence of setter calls keeps true of a message. */
  predicate WellFormed(f: Fields) {
    && (f.apnsTrimContent.Some? ==> IsFlag(f.apnsTrimContent.value))
    && (f.iosSilent.Some? ==> IsFlag(f.iosSilent.value))
    && (f.throughput.Some? ==> 100 <= f.throughput.value <= 1000)
    && (f.url.Some? <==> f.shortenUrl.Some?)
    && (f.content.Localized? ==> f.content.texts != map[])
  }

  // ----- The setters with rules of their own -----

  /** `throttle`: the send rate is the limit clamped to [100, 1000]. */
  function SendRate(limit: int): (rate: int)
    ensures 100 <= rate <= 1000
    ensures 100 <= limit <= 1000 ==> rate == limit
    ensures limit < 100 ==> rate == 100
    ensures limit > 1000 ==> rate == 1000
  {
    var capped := if limit < 1000 then limit else 1000;
    if 100 < capped then capped else 100
  }

  /** `content`: without a (truthy) language the content becomes that plain
      text; with one, a plain content first becomes an empty per-language
      map, then the text is stored under the language, other languages kept. */
  function WithContent(current: Body, text: string, language: Option<string>): (r: Body)
    ensures !TruthyOpt(language) ==> r == Plain(text)
    ensures TruthyOpt(language) ==> r.Localized? && language.value in r.texts && r.texts[language.value] == text
    ensures TruthyOpt(language) ==> forall l :: l != language.value ==>
              (l in r.texts <==> current.Localized? && l in current.texts)
    ensures TruthyOpt(language) ==> forall l :: l != language.value && l in r.texts ==>
              r.texts[l] == current.texts[l]
  {
    if TruthyOpt(language) then
      var texts := if current.Localized? then current.texts else map[];
      Localized(texts[language.value := text])
    else
      Plain(text)
  }

  /** `associate`: the notification's id becomes the identifier only while
      the identifier is falsy (unset, "" or "0"). */
  function Associated(identifier: Option<string>, notificationId: string): (r: Option<string>)
    ensures TruthyOpt(identifier) ==> r == identifier
    ensures !TruthyOpt(identifier) ==> r == Some(notificationId)
    ensures TruthyOpt(r) <==> TruthyOpt(identifier) || Truthy(notificationId)
  {
    if TruthyOpt(identifier) then identifier else Some(notificationId)
  }

  /** Where `with` writes a root parameter. */
  datatype Targets = Targets(android: bool, ios: bool)

  /** The platform check and routing of `with`. The check is PHP's loose
      `in_array` against `[null, 'ios', 'android']`, under which "" equals
      `null`; `$platform ?: 'android'` and `$platform ?: 'ios'` then route a
      missing or empty platform to both sides. */
  function Route(platform: Option<string>): (t: Option<Targets>)
    ensures t.None? <==> platform.Some? && platform.value !in {"", "ios", "android"}
    ensures t.Some? ==> (t.value.android <==> platform.None? || platform.value in {"", "android"})
    ensures t.Some? ==> (t.value.ios <==> platform.None? || platform.value in {"", "ios"})
  {
    if platform.None? || platform.value == "" then Some(Targets(true, true))
    else if platform.value == "android" then Some(Targets(true, false))
    else if platform.value == "ios" then Some(Targets(false, true))
    else None
  }

  /** `$array[$key] = $value` on a property that may still be `null`: PHP
      creates the array on the first write. */
  function Put(m: Option<map<string, Value>>, key: string, value: Value): map<string, Value> {
    m.GetOr(map[])[key := value]
  }

  // ----- Serialisation -----

  /** The keys of a serialised message, in the order `jsonSerialize` lists
      them; `WireName` gives the text of each. */
  datatype Key =
    | AndroidRootParamsKey | ApnsTrimContentKey | CampaignKey | ContentKey | DataKey
    | IgnoreUserTimezoneKey | IosBadgesKey | IosCategoryIdKey | IosCriticalKey
    | IosRootParamsKey | IosSilentKey | IosSoundKey | IosSubtitleKey | IosThreadIdKey
    | IosTitleKey | IosTtlKey | LinkKey | MinimizeLinkKey | PresetKey | SendDateKey | SendRateKey
    | TransactionIdKey | TimezoneKey

  function WireName(k: Key): string {
    match k
    case AndroidRootParamsKey => "android_root_params"
    case ApnsTrimContentKey => "apns_trim_content"
    case CampaignKey => "campaign"
    case ContentKey => "content"
    case DataKey => "data"
    case IgnoreUserTimezoneKey => "ignore_user_timezone"
    case IosBadgesKey => "ios_badges"
    case IosCategoryIdKey => "ios_category_id"
    case IosCriticalKey => "ios_critical"
    case IosRootParamsKey => "ios_root_params"
    case IosSilentKey => "ios_silent"
    case IosSoundKey => "ios_sound"
    case IosSubtitleKey => "ios_subtitle"
    case IosThreadIdKey => "ios_thread_id"
    case IosTitleKey => "ios_title"
    case IosTtlKey => "ios_ttl"
    case LinkKey => "link"
    case MinimizeLinkKey => "minimize_link"
    case PresetKey => "preset"
    case SendDateKey => "send_date"
    case SendRateKey => "send_rate"
    case TransactionIdKey => "transactionId"
    case TimezoneKey => "timezone"
  }

  const AllKeys: set<Key> := {
    AndroidRootParamsKey, ApnsTrimContentKey, CampaignKey, ContentKey, DataKey,
    IgnoreUserTimezoneKey, IosBadgesKey, IosCategoryIdKey, IosCriticalKey,
    IosRootParamsKey, IosSilentKey, IosSoundKey, IosSubtitleKey, IosThreadIdKey,
    IosTitleKey, IosTtlKey, LinkKey, MinimizeLinkKey, PresetKey, SendDateKey, SendRateKey,
    TransactionIdKey, TimezoneKey
  }

  /** The only key whose wire name can be `name`: wire names differ in
      length or, failing that, in their sixth character (their first when
      they are shorter). */
  function Candidate(name: string): Option<Key> {
    var c := if |name| > 5 then name[5] else if |name| > 0 then name[0] else ' ';
    match |name|
    case 4 => if c == 'd' then Some(DataKey) else if c == 'l' then Some(LinkKey) else None
    case 6 => if c == 't' then Some(PresetKey) else None
    case 7 => if c == 'n' then Some(ContentKey) else if c == 't' then Some(IosTtlKey) else None
    case 8 => if c == 'i' then Some(CampaignKey) else if c == 'o' then Some(TimezoneKey) else None
    case 9 =>
      if c == 'o' then Some(IosSoundKey) else if c == 'i' then Some(IosTitleKey)
      else if c == 'd' then Some(SendDateKey) else if c == 'r' then Some(SendRateKey) else None
    case 10 => if c == 'a' then Some(IosBadgesKey) else if c == 'i' then Some(IosSilentKey) else None
    case 12 => if c == 'r' then Some(IosCriticalKey) else if c == 'u' then Some(IosSubtitleKey) else None
    case 13 =>
      if c == 'h' then Some(IosThreadIdKey) else if c == 'i' then Some(MinimizeLinkKey)
      else if c == 'a' then Some(TransactionIdKey) else None
    case 15 => if c == 'a' then Some(IosCategoryIdKey) else if c == 'o' then Some(IosRootParamsKey) else None
    case 17 => if c == 't' then Some(ApnsTrimContentKey) else None
    case 19 => if c == 'i' then Some(AndroidRootParamsKey) else None
    case 20 => if c == 'e' then Some(IgnoreUserTimezoneKey) else None
    case _ => None
  }

  /** The key a wire name stands for, if any: the reading direction of
      `WireName`. */
  function KeyNamed(name: string): (k: Option<Key>)
    ensures k.Some? ==> WireName(k.value) == name
  {
    var c := Candidate(name);
    if c.Some? && WireName(c.value) == name then c else None
  }

  /** Every key is read back from its wire name. */
  lemma WireNamesRoundTrip(k: Key)
    ensures KeyNamed(WireName(k)) == Some(k)
  {
    match k
    case AndroidRootParamsKey =>
    case ApnsTrimContentKey =>
    case CampaignKey =>
    case ContentKey =>
    case DataKey =>
    case IgnoreUserTimezoneKey =>
    case IosBadgesKey =>
    case IosCategoryIdKey =>
    case IosCriticalKey =>
    case IosRootParamsKey =>
    case IosSilentKey =>
    case IosSoundKey =>
    case IosSubtitleKey =>
    case IosThreadIdKey =>
    case IosTitleKey =>
    case IosTtlKey =>
    case LinkKey =>
    case MinimizeLinkKey =>
    case PresetKey =>
    case SendDateKey =>
    case SendRateKey =>
    case TransactionIdKey =>
    case TimezoneKey =>
  }

  /** No two keys share a wire name, so a payload keyed by `Key` stands for
      PHP's string-keyed array. */
  lemma WireNamesDistinct(k1: Key, k2: Key)
    ensures WireName(k1) == WireName(k2) ==> k1 == k2
  {
    WireNamesRoundTrip(k1);
    WireNamesRoundTrip(k2);
  }

  function OptStr(o: Option<string>): Value {
    if o.Some? then Str(o.value) else Null
  }

  function OptInt(o: Option<int>): Value {
    if o.Some? then Int(o.value) else Null
  }

  function OptBool(o: Option<bool>): Value {
    if o.Some? then Bool(o.value) else Null
  }

  function OptDict(o: Option<map<string, Value>>): Value {
    if o.Some? then Dict(o.value) else Null
  }

  function BodyValue(b: Body): Value {
    match b
    case Plain(text) => Str(text)
    case Localized(texts) => Dict(map l | l in texts :: Str(texts[l]))
  }

  /** The entry `jsonSerialize` puts under each key before filtering, `Null`
      where the property is unset. `minimize_link` is only looked at when the
      URL is truthy. */
  function Entry(f: Fields, k: Key): Value {
    match k
    case AndroidRootParamsKey => OptDict(f.androidRootParameters)
    case ApnsTrimContentKey => OptInt(f.apnsTrimContent)
    case CampaignKey => OptStr(f.campaign)
    case ContentKey => BodyValue(f.content)
    case DataKey => OptDict(f.data)
    case IgnoreUserTimezoneKey => Bool(!f.recipientTimezone)
    case IosBadgesKey => OptStr(f.iosBadges)
    case IosCategoryIdKey => OptInt(f.iosCategoryId)
    case IosCriticalKey => OptBool(f.iosCritical)
    case IosRootParamsKey => OptDict(f.iosRootParameters)
    case IosSilentKey => OptInt(f.iosSilent)
    case IosSoundKey => OptStr(f.iosSound)
    case IosSubtitleKey => OptStr(f.iosSubtitle)
    case IosThreadIdKey => OptStr(f.iosThreadId)
    case IosTitleKey => OptStr(f.iosTitle)
    case IosTtlKey => OptInt(f.iosTtl)
    case LinkKey => OptStr(f.url)
    case MinimizeLinkKey => if TruthyOpt(f.url) then OptBool(f.shortenUrl) else Null
    case PresetKey => OptStr(f.preset)
    case SendDateKey => Str(f.when)
    case SendRateKey => OptInt(f.throughput)
    case TransactionIdKey => OptStr(f.identifier)
    case TimezoneKey => OptStr(f.timezone)
  }

  /** The array `jsonSerialize` builds: every key with its entry. */
  function RawPayload(f: Fields): map<Key, Value> {
    map k | k in AllKeys :: Entry(f, k)
  }

  /** `array_filter` with `$value !== null`: keeps exactly the non-null
      entries, each with its value. */
  function DropNulls(m: map<Key, Value>): (r: map<Key, Value>)
    ensures forall k :: k in r <==> k in m && m[k] != Null
    ensures forall k :: k in r ==> r[k] == m[k]
  {
    map k | k in m && m[k] != Null :: m[k]
  }

  /** Every key has an entry in the array `jsonSerialize` builds. */
  lemma AllKeysListed(k: Key)
    ensures k in AllKeys
  {
  }

  /** The payload `jsonSerialize` returns: exactly the keys whose entry is not
      null, each with its entry. `ignore_user_timezone`, `content` and
      `send_date` are never null, so they are always present. */
  function Payload(f: Fields): (payload: map<Key, Value>)
    ensures forall k :: k in payload <==> Entry(f, k) != Null
    ensures forall k :: k in payload ==> payload[k] == Entry(f, k)
    ensures IgnoreUserTimezoneKey in payload && payload[IgnoreUserTimezoneKey] == Bool(!f.recipientTimezone)
    ensures ContentKey in payload && payload[ContentKey] == BodyValue(f.content)
    ensures SendDateKey in payload && payload[SendDateKey] == Str(f.when)
  {
    var raw := RawPayload(f);
    forall k ensures k in raw {
      AllKeysListed(k);
    }
    DropNulls(raw)
  }

  /** A key whose entry is set appears in the payload with that entry. */
  lemma EntryInPayload(f: Fields, k: Key)
    requires Entry(f, k) != Null
    ensures k in Payload(f) && Payload(f)[k] == Entry(f, k)
  {
  }

  /** A fresh message serialises to exactly its content, `ignore_user_timezone`
      true and `send_date` "now". */
  lemma FreshPayload(content: string)
    ensures Payload(Initial(content))
         == map[ContentKey := Str(content), IgnoreUserTimezoneKey := Bool(true), SendDateKey := Str("now")]
  {
    var f := Initial(content);
    var expected := map[ContentKey := Str(content), IgnoreUserTimezoneKey := Bool(true), SendDateKey := Str("now")];
    forall k ensures k in Payload(f) <==> k in expected {
      match k
      case ContentKey =>
      case IgnoreUserTimezoneKey =>
      case SendDateKey =>
      case _ => assert Entry(f, k) == Null;
    }
    assert Payload(f).Keys == expected.Keys;
  }

  /** `send_date` always carries the delivery moment; `timezone` appears
      exactly when one was given. */
  lemma ScheduleFields(f: Fields)
    ensures Payload(f)[SendDateKey] == Str(f.when)
    ensures TimezoneKey in Payload(f) <==> f.timezone.Some?
    ensures TimezoneKey in Payload(f) ==> Payload(f)[TimezoneKey] == Str(f.timezone.value)
  {
    assert Entry(f, SendDateKey) == Str(f.when);
    assert Entry(f, TimezoneKey) == OptStr(f.timezone);
  }

  /** `transactionId` appears exactly when an identifier was set. */
  lemma IdentifierField(f: Fields)
    ensures TransactionIdKey in Payload(f) <==> f.identifier.Some?
    ensures TransactionIdKey in Payload(f) ==> Payload(f)[TransactionIdKey] == Str(f.identifier.value)
  {
    assert Entry(f, TransactionIdKey) == OptStr(f.identifier);
  }

  /** `link` appears once a URL is set; `minimize_link` only when that URL
      is truthy, and then carries the shorten flag. */
  lemma LinkFields(f: Fields)
    requires WellFormed(f)
    ensures LinkKey in Payload(f) <==> f.url.Some?
    ensures LinkKey in Payload(f) ==> Payload(f)[LinkKey] == Str(f.url.value)
    ensures MinimizeLinkKey in Payload(f) <==> TruthyOpt(f.url)
    ensures MinimizeLinkKey in Payload(f) ==> Payload(f)[MinimizeLinkKey] == Bool(f.shortenUrl.value)
  {
    assert Entry(f, LinkKey) == OptStr(f.url);
    assert Entry(f, MinimizeLinkKey) == if TruthyOpt(f.url) then OptBool(f.shortenUrl) else Null;
  }

  /** Localised content serialises to a map from language to text. */
  lemma LocalizedContentPayload(f: Fields)
    requires f.content.Localized?
    ensures var c := Payload(f)[ContentKey];
      && c.Dict?
      && c.entries.Keys == f.content.texts.Keys
      && forall l :: l in c.entries ==> c.entries[l] == Str(f.content.texts[l])
  {
  }

  // ----- Properties of several setter calls -----

  /** Texts set for two different languages both survive. */
  lemma LanguagesAccumulate(current: Body, t1: string, l1: string, t2: string, l2: string)
    requires Truthy(l1) && Truthy(l2) && l1 != l2
    ensures var r := WithContent(WithContent(current, t1, Some(l1)), t2, Some(l2));
      r.Localized? && l1 in r.texts && l2 in r.texts && r.texts[l1] == t1 && r.texts[l2] == t2
  {
    var mid := WithContent(current, t1, Some(l1));
    assert mid.Localized? && l1 in mid.texts && mid.texts[l1] == t1;
  }

  /** Setting the content without a language discards every translation. */
  lemma PlainContentOverwrites(current: Body, t1: string, l1: string, t2: string)
    ensures WithContent(WithContent(current, t1, Some(l1)), t2, None) == Plain(t2)
  {
  }

  /** First write wins: once the identifier is truthy, later associations
      leave it alone, whether it came from `identifier` or from `associate`. */
  lemma AssociationIsFirstWriteWins(identifier: Option<string>, first: string, second: string)
    requires TruthyOpt(identifier) || Truthy(first)
    ensures Associated(Associated(identifier, first), second) == Associated(identifier, first)
    ensures Associated(Associated(identifier, first), second) == (if TruthyOpt(identifier) then identifier else Some(first))
  {
  }

  /** An explicit platform writes exactly its own maps; none writes all three. */
  lemma RoutingIsExclusive(platform: Option<string>)
    requires Route(platform).Some?
    ensures TruthyOpt(platform) ==> Route(platform).value.android != Route(platform).value.ios
    ensures !TruthyOpt(platform) ==> Route(platform).value == Targets(true, true)
  {
  }

  function Digit(d: int): char
    requires 0 <= d < 10
  {
    "0123456789"[d]
  }

  /** PHP's rendering of an integer inside a string. */
  function Decimal(n: int): string
    decreases if n < 0 then 1 - n else n
  {
    if n < 0 then "-" + Decimal(-n)
    else if n < 10 then [Digit(n)]
    else Decimal(n / 10) + [Digit(n % 10)]
  }

  // ----- The builder -----

  class PushwooshMessage {
    var androidRootParameters: Option<map<string, Value>>
    var apnsTrimContent: Option<int>
    var campaign: Option<string>
    var content: Body
    var data: Option<map<string, Value>>
    var identifier: Option<string>
    var iosBadges: Option<string>
    var iosCategoryId: Option<int>
    var iosCritical: Option<bool>
    var iosRootParameters: Option<map<string, Value>>
    var iosSilent: Option<int>
    var iosSound: Option<string>
    var iosSubtitle: Option<string>
    var iosThreadId: Option<string>
    var iosTitle: Option<string>
    var iosTtl: Option<int>
    var preset: Option<string>
    var recipientTimezone: bool
    var shortenUrl: Option<bool>
    var timezone: Option<string>
    var throughput: Option<int>
    var url: Option<string>
    var when: string

    /** The current values of all properties. */
    function State(): Fields
      reads this
    {
      Fields(androidRootParameters, apnsTrimContent, campaign, content, data, identifier,
             iosBadges, iosCategoryId, iosCritical, iosRootParameters, iosSilent, iosSound,
             iosSubtitle, iosThreadId, iosTitle, iosTtl, preset, recipientTimezone,
             shortenUrl, timezone, throughput, url, when)
    }

    predicate Valid()
      reads this
    {
      WellFormed(State())
    }

    constructor (content: string := "")
      ensures Valid() && State() == Initial(content)
    {
      androidRootParameters, apnsTrimContent, campaign := None, None, None;
      this.content, data, identifier := Plain(content), None, None;
      iosBadges, iosCategoryId, iosCritical, iosRootParameters := None, None, None, None;
      iosSilent, iosSound, iosSubtitle, iosThreadId := None, None, None, None;
      iosTitle, iosTtl, preset := None, None, None;
      recipientTimezone := false;
      shortenUrl, timezone, throughput, url := None, None, None, None;
      when := "now";
    }

    /** `jsonSerialize`. */
    function JsonSerialize(): map<Key, Value>
      reads this
    {
      Payload(State())
    }

    method Associate(notificationId: string)
      requires Valid()
      modifies this
      ensures Valid()
      ensures State() == old(State()).(identifier := Associated(old(identifier), notificationId))
    {
      if !TruthyOpt(identifier) {
        identifier := Some(notificationId);
      }
    }

    method ApnsTrimContent(value: int) returns (r: Outcome)
      requires Valid()
      modifies this
      ensures Valid()
      ensures r == if IsFlag(value) then Done else Rejected(InvalidArgument("Invalid platform " + Decimal(value)))
      ensures r.Rejected? ==> State() == old(State())
      ensures r.Done? ==> State() == old(State()).(apnsTrimContent := Some(value))
    {
      if !IsFlag(value) {
        return Rejected(InvalidArgument("Invalid platform " + Decimal(value)));
      }
      apnsTrimContent := Some(value);
      r := Done;
    }

    method Campaign(campaign: string)
      requires Valid()
      modifies this
      ensures Valid()
      ensures State() == old(State()).(campaign := Some(campaign))
    {
      this.campaign := Some(campaign);
    }

    method Content(text: string, language: Option<string> := None)
      requires Valid()
      modifies this
      ensures Valid()
      ensures State() == old(State()).(content := WithContent(old(content), text, language))
    {
      if TruthyOpt(language) {
        if !content.Localized? {
          content := Localized(map[]);
        }
        content := Localized(content.texts[language.value := text]);
        assert language.value in content.texts;
      } else {
        content := Plain(text);
      }
    }

    /** A date-time argument brings its own zone, which replaces the
        `timezone` argument. */
    method DeliverAt(moment: Moment, timezone: Option<string> := None)
      requires Valid()
      modifies this
      ensures Valid()
      ensures moment.Text? ==> when == moment.text && this.timezone == timezone
      ensures moment.DateTime? ==> when == moment.formatted && this.timezone == Some(moment.zoneName)
      ensures State() == old(State()).(when := when, timezone := this.timezone)
    {
      if moment.DateTime? {
        this.timezone := Some(moment.zoneName);
        when := moment.formatted;
      } else {
        this.timezone := timezone;
        when := moment.text;
      }
    }

    method Identifier(identifier: string)
      requires Valid()
      modifies this
      ensures Valid()
      ensures State() == old(State()).(identifier := Some(identifier))
    {
      this.identifier := Some(identifier);
    }

    method IosBadges(iosBadges: string)
      requires Valid()
      modifies this
      ensures Valid()
      ensures State() == old(State()).(iosBadges := Some(iosBadges))
    {
      this.iosBadges := Some(iosBadges);
    }

    method IosCategoryId(iosCategoryId: int)
      requires Valid()
      modifies this
      ensures Valid()
      ensures State() == old(State()).(iosCategoryId := Some(iosCategoryId))
    {
      this.iosCategoryId := Some(iosCategoryId);
    }

    method IosCritical(iosCritical: bool)
      requires Valid()
      modifies this
      ensures Valid()
      ensures State() == old(State()).(iosCritical := Some(iosCritical))
    {
      this.iosCritical := Some(iosCritical);
    }

    method IosSilent(value: int) returns (r: Outcome)
      requires Valid()
      modifies this
      ensures Valid()
      ensures r == if IsFlag(value) then Done else Rejected(InvalidArgument("Invalid platform " + Decimal(value)))
      ensures r.Rejected? ==> State() == old(State())
      ensures r.Done? ==> State() == old(State()).(iosSilent := Some(value))
    {
      if !IsFlag(value) {
        return Rejected(InvalidArgument("Invalid platform " + Decimal(value)));
      }
      iosSilent := Some(value);
      r := Done;
    }

    method IosSound(iosSound: string)
      requires Valid()
      modifies this
      ensures Valid()
      ensures State() == old(State()).(iosSound := Some(iosSound))
    {
      this.iosSound := Some(iosSound);
    }

    method IosSubtitle(iosSubtitle: string)
      requires Valid()
      modifies this
      ensures Valid()
      ensures State() == old(State()).(iosSubtitle := Some(iosSubtitle))
    {
      this.iosSubtitle := Some(iosSubtitle);
    }

    method IosThreadId(iosThreadId: string)
      requires Valid()
      modifies this
      ensures Valid()
      ensures State() == old(State()).(iosThreadId := Some(iosThreadId))
    {
      this.iosThreadId := Some(iosThreadId);
    }

    method IosTitle(iosTitle: string)
      requires Valid()
      modifies this
      ensures Valid()
      ensures State() == old(State()).(iosTitle := Some(iosTitle))
    {
      this.iosTitle := Some(iosTitle);
    }

    method IosTtl(iosTtl: int)
      requires Valid()
      modifies this
      ensures Valid()
      ensures State() == old(State()).(iosTtl := Some(iosTtl))
    {
      this.iosTtl := Some(iosTtl);
    }

    method Preset(preset: string)
      requires Valid()
      modifies this
      ensures Valid()
      ensures State() == old(State()).(preset := Some(preset))
    {
      this.preset := Some(preset);
    }

    method Throttle(limit: int)
      requires Valid()
      modifies this
      ensures Valid()
      ensures State() == old(State()).(throughput := Some(SendRate(limit)))
    {
      throughput := Some(SendRate(limit));
    }

    method Url(url: string, shorten: bool := true)
      requires Valid()
      modifies this
      ensures Valid()
      ensures State() == old(State()).(url := Some(url), shortenUrl := Some(shorten))
    {
      shortenUrl := Some(shorten);
      this.url := Some(url);
    }

    /** The platform is checked before anything is written. */
    method With(key: string, value: Value, platform: Option<string> := None) returns (r: Outcome)
      requires Valid()
      modifies this
      ensures Valid()
      ensures r.Rejected? <==> Route(platform).None?
      ensures r.Rejected? ==> r.error == InvalidArgument("Invalid platform " + platform.value)
      ensures r.Rejected? ==> State() == old(State())
      ensures r.Done? ==>
        var t := Route(platform).value;
        && androidRootParameters == (if t.android then Some(Put(old(androidRootParameters), key, value)) else old(androidRootParameters))
        && data == (if t.android then Some(Put(old(data), key, value)) else old(data))
        && iosRootParameters == (if t.ios then Some(Put(old(iosRootParameters), key, value)) else old(iosRootParameters))
        && State() == old(State()).(androidRootParameters := androidRootParameters, data := data,
                                    iosRootParameters := iosRootParameters)
    {
      if platform.Some? && platform.value !in {"", "ios", "android"} {
        return Rejected(InvalidArgument("Invalid platform " + platform.value));
      }
      if platform.None? || platform.value == "" || platform.value == "android" {
        androidRootParameters := Some(Put(androidRootParameters, key, value));
        data := Some(Put(data, key, value));
      }
      if platform.None? || platform.value == "" || platform.value == "ios" {
        iosRootParameters := Some(Put(iosRootParameters, key, value));
      }
      r := Done;
    }

    method UseRecipientTimezone()
      requires Valid()
      modifies this
      ensures Valid()
      ensures State() == old(State()).(recipientTimezone := true)
      ensures JsonSerialize()[IgnoreUserTimezoneKey] == Bool(false)
    {
      recipientTimezone := true;
    }
  }
}
