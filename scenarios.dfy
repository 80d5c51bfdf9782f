/** The repository's unit tests, replayed against the model: each method
    builds the same objects, makes the same calls and asserts what the test
    asserts. The proofs use the methods' contracts and the functions those
    contracts name. A few methods, marked as such, check cases the tests
    do not. */
module Scenarios {
  import opened Values
  import opened Errors
  import opened Message
  import opened Client

  method RequiredAttributesArePresent() {
    var m := new PushwooshMessage();
    var p := m.JsonSerialize();
    assert p[ContentKey].Str?;
    assert p[IgnoreUserTimezoneKey] == Bool(true);
    assert p[SendDateKey] == Str("now");
    FreshPayload("");
  }

  method ApnsTrimContentModification() {
    var m := new PushwooshMessage();
    assert ApnsTrimContentKey !in m.JsonSerialize();
    var r := m.ApnsTrimContent(0);
    assert m.JsonSerialize()[ApnsTrimContentKey] == Int(0);
    r := m.ApnsTrimContent(1);
    assert m.JsonSerialize()[ApnsTrimContentKey] == Int(1);
  }

  /** Not among the repository's tests: an out-of-range flag is refused and
      nothing is written. */
  method ApnsTrimContentRejected() {
    var m := new PushwooshMessage();
    ghost var before := m.State();
    var r := m.ApnsTrimContent(2);
    assert Decimal(2) == [Digit(2)] == "2";
    assert "Invalid platform " + "2" == "Invalid platform 2";
    assert r == Rejected(InvalidArgument("Invalid platform 2"));
    assert m.State() == before;
  }

  method ContentModification() {
    var m := new PushwooshMessage();
    m.Content("foo");
    assert m.JsonSerialize()[ContentKey] == Str("foo");
  }

  method LocalizedContentModification() {
    var m := new PushwooshMessage();
    m.Content("bar", Some("baz"));
    assert m.content.texts == map["baz" := "bar"];
    LocalizedContentPayload(m.State());
    assert m.JsonSerialize()[ContentKey] == Dict(map["baz" := Str("bar")]);
  }

  method DeliveryMomentModification() {
    var m := new PushwooshMessage();
    m.DeliverAt(Text("2019-02-07 19:33"));
    ScheduleFields(m.State());
    ghost var p := m.JsonSerialize();
    assert p[SendDateKey] == Str("2019-02-07 19:33");
    assert TimezoneKey !in p;
  }

  method DeliveryMomentWithZone() {
    var m := new PushwooshMessage();
    m.DeliverAt(Text("2019-01-09 03:57"), Some("Europe/Amsterdam"));
    ScheduleFields(m.State());
    ghost var p := m.JsonSerialize();
    assert p[SendDateKey] == Str("2019-01-09 03:57");
    assert p[TimezoneKey] == Str("Europe/Amsterdam");
  }

  method DeliveryMomentFromDateTime() {
    var m := new PushwooshMessage();
    m.DeliverAt(DateTime("2019-05-23 09:49", "Australia/Brisbane"));
    ScheduleFields(m.State());
    ghost var p := m.JsonSerialize();
    assert p[SendDateKey] == Str("2019-05-23 09:49");
    assert p[TimezoneKey] == Str("Australia/Brisbane");
  }

  method CampaignModification() {
    var m := new PushwooshMessage();
    FreshPayload("");
    assert CampaignKey !in m.JsonSerialize();
    m.Campaign("foo");
    EntryInPayload(m.State(), CampaignKey);
    assert m.JsonSerialize()[CampaignKey] == Str("foo");
  }

  /** A zone given as an object reaches `deliverAt` as its name. */
  method DeliveryMomentWithZoneObject() {
    var m := new PushwooshMessage();
    m.DeliverAt(Text("2019-03-19 21:50"), Some("Atlantic/Bermuda"));
    ScheduleFields(m.State());
    ghost var p := m.JsonSerialize();
    assert p[SendDateKey] == Str("2019-03-19 21:50");
    assert p[TimezoneKey] == Str("Atlantic/Bermuda");
  }

  method IosBadgesModification() {
    var m := new PushwooshMessage();
    FreshPayload("");
    assert IosBadgesKey !in m.JsonSerialize();
    m.IosBadges("1");
    EntryInPayload(m.State(), IosBadgesKey);
    assert m.JsonSerialize()[IosBadgesKey] == Str("1");
  }

  method IosCategoryIdModification() {
    var m := new PushwooshMessage();
    FreshPayload("");
    assert IosCategoryIdKey !in m.JsonSerialize();
    m.IosCategoryId(1);
    EntryInPayload(m.State(), IosCategoryIdKey);
    assert m.JsonSerialize()[IosCategoryIdKey] == Int(1);
  }

  method IosCriticalModification() {
    var m := new PushwooshMessage();
    FreshPayload("");
    assert IosCriticalKey !in m.JsonSerialize();
    m.IosCritical(true);
    EntryInPayload(m.State(), IosCriticalKey);
    assert m.JsonSerialize()[IosCriticalKey] == Bool(true);
  }

  method IosSilentModification() {
    var m := new PushwooshMessage();
    FreshPayload("");
    assert IosSilentKey !in m.JsonSerialize();
    var r := m.IosSilent(0);
    assert m.JsonSerialize()[IosSilentKey] == Int(0);
    r := m.IosSilent(1);
    assert m.JsonSerialize()[IosSilentKey] == Int(1);
  }

  method IosSoundModification() {
    var m := new PushwooshMessage();
    FreshPayload("");
    assert IosSoundKey !in m.JsonSerialize();
    m.IosSound("foo");
    EntryInPayload(m.State(), IosSoundKey);
    assert m.JsonSerialize()[IosSoundKey] == Str("foo");
  }

  method IosSubtitleModification() {
    var m := new PushwooshMessage();
    FreshPayload("");
    assert IosSubtitleKey !in m.JsonSerialize();
    m.IosSubtitle("foo");
    EntryInPayload(m.State(), IosSubtitleKey);
    assert m.JsonSerialize()[IosSubtitleKey] == Str("foo");
  }

  method IosThreadIdModification() {
    var m := new PushwooshMessage();
    FreshPayload("");
    assert IosThreadIdKey !in m.JsonSerialize();
    m.IosThreadId("foo");
    EntryInPayload(m.State(), IosThreadIdKey);
    assert m.JsonSerialize()[IosThreadIdKey] == Str("foo");
  }

  method IosTitleModification() {
    var m := new PushwooshMessage();
    FreshPayload("");
    assert IosTitleKey !in m.JsonSerialize();
    m.IosTitle("foo");
    EntryInPayload(m.State(), IosTitleKey);
    assert m.JsonSerialize()[IosTitleKey] == Str("foo");
  }

  method IosTtlModification() {
    var m := new PushwooshMessage();
    FreshPayload("");
    assert IosTtlKey !in m.JsonSerialize();
    m.IosTtl(1);
    EntryInPayload(m.State(), IosTtlKey);
    assert m.JsonSerialize()[IosTtlKey] == Int(1);
  }

  method PresetModification() {
    var m := new PushwooshMessage();
    FreshPayload("");
    assert PresetKey !in m.JsonSerialize();
    m.Preset("foo");
    EntryInPayload(m.State(), PresetKey);
    assert m.JsonSerialize()[PresetKey] == Str("foo");
  }

  method IdentifierModification() {
    var m := new PushwooshMessage();
    IdentifierField(m.State());
    assert TransactionIdKey !in m.JsonSerialize();
    m.Identifier("foo");
    IdentifierField(m.State());
    assert m.JsonSerialize()[TransactionIdKey] == Str("foo");
  }

  method NotificationAssociation(notificationId: string)
    requires Truthy(notificationId)
  {
    var m := new PushwooshMessage();
    m.Associate(notificationId);
    IdentifierField(m.State());
    assert m.JsonSerialize()[TransactionIdKey] == Str(notificationId);
    m.Identifier("foo");
    m.Associate(notificationId);
    assert m.identifier == Some("foo");
  }

  method RootParameterModification() {
    var m := new PushwooshMessage();
    var r := m.With("foo", Str("bar"));
    ghost var p := m.JsonSerialize();
    assert p[AndroidRootParamsKey] == Dict(map["foo" := Str("bar")]);
    assert p[IosRootParamsKey] == Dict(map["foo" := Str("bar")]);
    assert p[DataKey] == Dict(map["foo" := Str("bar")]);
  }

  method RootParameterModificationAndroid() {
    var m := new PushwooshMessage();
    var r := m.With("foo", Str("bar"), Some("android"));
    ghost var p := m.JsonSerialize();
    assert p[AndroidRootParamsKey] == Dict(map["foo" := Str("bar")]);
    assert IosRootParamsKey !in p;
  }

  method RootParameterModificationIos() {
    var m := new PushwooshMessage();
    var r := m.With("foo", Str("bar"), Some("ios"));
    ghost var p := m.JsonSerialize();
    assert AndroidRootParamsKey !in p;
    assert p[IosRootParamsKey] == Dict(map["foo" := Str("bar")]);
  }

  /** Not among the repository's tests: an unknown platform is refused and
      nothing is written. */
  method RootParameterUnknownPlatform() {
    var m := new PushwooshMessage();
    ghost var before := m.State();
    var r := m.With("foo", Str("bar"), Some("windows"));
    assert r == Rejected(InvalidArgument("Invalid platform windows"));
    assert m.State() == before;
  }

  method ThroughputModification() {
    var m := new PushwooshMessage();
    assert SendRateKey !in m.JsonSerialize();
    m.Throttle(10);
    assert m.JsonSerialize()[SendRateKey] == Int(100);
    m.Throttle(100);
    assert m.JsonSerialize()[SendRateKey] == Int(100);
  }

  method ThroughputCapped() {
    var m := new PushwooshMessage();
    m.Throttle(1000);
    assert m.JsonSerialize()[SendRateKey] == Int(1000);
    m.Throttle(10000);
    assert m.JsonSerialize()[SendRateKey] == Int(1000);
  }

  method UrlModification() {
    var m := new PushwooshMessage();
    LinkFields(m.State());
    ghost var p := m.JsonSerialize();
    assert LinkKey !in p && MinimizeLinkKey !in p;
    m.Url("https://google.com");
    LinkFields(m.State());
    p := m.JsonSerialize();
    assert p[LinkKey] == Str("https://google.com") && p[MinimizeLinkKey] == Bool(true);
  }

  method UrlWithoutShortening() {
    var m := new PushwooshMessage();
    m.Url("https://google.com", false);
    LinkFields(m.State());
    ghost var p := m.JsonSerialize();
    assert p[LinkKey] == Str("https://google.com") && p[MinimizeLinkKey] == Bool(false);
  }

  method TimezoneStrategyModification() {
    var m := new PushwooshMessage();
    assert m.JsonSerialize()[IgnoreUserTimezoneKey] == Bool(true);
    m.UseRecipientTimezone();
    assert m.JsonSerialize()[IgnoreUserTimezoneKey] == Bool(false);
  }

  /** A batch with a message calls `createMessage` once; the sentinel id
      comes back as null, in queue order. */
  method DispatchUponFlush() {
    var reply := ApiResponse(Some(200), Some("OK"), Null, Some([NoCode, "abc123"]));
    var transport := new HttpClient(_ => Delivered(reply));
    var pushwoosh := new Pushwoosh(transport, "APP", "TOKEN");
    var message := new PushwooshMessage("foo");
    var pending := pushwoosh.Send(message);
    assert pushwoosh.createMessageCalls == 0 && transport.log == [];
    var ids := pending.Flush();
    assert pushwoosh.createMessageCalls == 1;
    var translated := MapIdentifiers([NoCode, "abc123"]);
    assert translated[0] == None && translated[1] == Some("abc123");
    assert translated == [None, Some("abc123")];
    assert ids == Some(Success([None, Some("abc123")]));
    assert pending.sentCalls == 1;
  }

  method NoDispatchIfQueueIsEmpty() {
    var transport := new HttpClient(_ => Failed(TransportError("unreachable", false)));
    var pushwoosh := new Pushwoosh(transport, "APP", "TOKEN");
    var pending := new PushwooshPendingMessage(pushwoosh);
    var ids := pending.Flush();
    assert ids == None && pushwoosh.createMessageCalls == 0 && transport.log == [];
  }

  /** A non-200 status fails with the API's message and leaves the batch unsent. */
  method ApiErrorLeavesBatchUnsent() {
    var reply := ApiResponse(Some(210), Some("Argument error"), Null, None);
    var transport := new HttpClient(_ => Delivered(reply));
    var pushwoosh := new Pushwoosh(transport, "APP", "TOKEN");
    var message := new PushwooshMessage("foo");
    var pending := pushwoosh.Send(message);
    var ids := pending.Flush();
    assert ids == Some(Failure(ApiError("Argument error")));
    assert pending.sentCalls == 0;
  }

  /** A transient error is retried once with the same request. */
  method TransientErrorIsRetriedOnce() {
    var reply := ApiResponse(None, None, Null, Some(["abc123"]));
    var transport := new HttpClient(n => if n == 0 then Failed(TransportError("502", true)) else Delivered(reply));
    var pushwoosh := new Pushwoosh(transport, "APP", "TOKEN");
    var message := new PushwooshMessage("foo");
    var pending := pushwoosh.Send(message);
    var ids := pending.Flush();
    assert MapIdentifiers(["abc123"]) == [Some("abc123")];
    assert ids == Some(Success([Some("abc123")]));
    assert transport.log == [RequestFor([message]), RequestFor([message])];
  }
}
