/** The notification API helpers (src/lib/api/notifications.ts): the query list
    `getNotifications` sends and the paths of the per-notification and per-user calls. */
module NotificationsApi {
  import opened Wrappers
  import opened Text
  import opened QueryParams

  const DefaultPage: int := 1
  const DefaultPageSize: int := 20

  /** The candidate parameters: user, page and size always, the read filter when given. */
  function Candidates(userId: string, isRead: Option<bool>, page: int, pageSize: int): (r: Entries)
    ensures Names(r) == ["userId", "page", "pageSize", "isRead"]
  {
    [("userId", Some(userId)), ("page", Some(IntToString(page))), ("pageSize", Some(IntToString(pageSize))),
     ("isRead", if isRead.Some? then Some(BoolToString(isRead.value)) else None)]
  }

  /** `getNotifications`: `page` and `pageSize` default to 1 and 20 when not passed; the
      list starts from the three fixed entries and `isRead` is appended when defined. */
  method GetNotifications(userId: string, isRead: Option<bool>, page: Option<int>, pageSize: Option<int>)
    returns (path: string, params: Params)
    ensures path == "/notifications"
    ensures params == Collect(Candidates(userId, isRead, page.GetOr(DefaultPage), pageSize.GetOr(DefaultPageSize)))
  {
    var p := page.GetOr(DefaultPage);
    var size := pageSize.GetOr(DefaultPageSize);
    ghost var c := Candidates(userId, isRead, p, size);
    path := "/notifications";
    params := [("userId", userId), ("page", IntToString(p)), ("pageSize", IntToString(size))];
    FixedEntries(c);
    if isRead.Some? {
      params := params + [("isRead", BoolToString(isRead.value))];
    }
    assert c[..4][..3] == c[..3];
    assert c[..4] == c;
  }

  /** The three fixed entries are always collected. */
  lemma FixedEntries(c: Entries)
    requires |c| == 4 && c[0].1.Some? && c[1].1.Some? && c[2].1.Some?
    ensures Collect(c[..3]) == [(c[0].0, c[0].1.value), (c[1].0, c[1].1.value), (c[2].0, c[2].1.value)]
  {
    assert c[..1][..0] == [];
    assert Collect(c[..1]) == [(c[0].0, c[0].1.value)];
    assert c[..2][..1] == c[..1];
    assert Collect(c[..2]) == [(c[0].0, c[0].1.value), (c[1].0, c[1].1.value)];
    assert c[..3][..2] == c[..2];
  }

  /** The three fixed entries come first in this order, and `isRead` comes last exactly
      when it is defined, `false` included. */
  lemma NotificationParamShape(userId: string, isRead: Option<bool>, page: int, pageSize: int)
    ensures var p := Collect(Candidates(userId, isRead, page, pageSize));
      && |p| == (if isRead.Some? then 4 else 3)
      && p[..3] == [("userId", userId), ("page", IntToString(page)), ("pageSize", IntToString(pageSize))]
      && (isRead.Some? ==> p[3] == ("isRead", BoolToString(isRead.value)))
    ensures Lookup(Collect(Candidates(userId, Some(false), page, pageSize)), "isRead") == Some("false")
    ensures Lookup(Collect(Candidates(userId, None, page, pageSize)), "isRead") == None
  {
    var c := Candidates(userId, isRead, page, pageSize);
    FixedEntries(c);
    assert c[..4][..3] == c[..3];
    assert c[..4] == c;
    var cf := Candidates(userId, Some(false), page, pageSize);
    var cn := Candidates(userId, None, page, pageSize);
    assert Distinct(Names(cf)) && Distinct(Names(cn));
    CollectLookup(cf);
    CollectLookup(cn);
    assert cf[3].0 == "isRead";
  }

  /** Without page and size, the defaults 1 and 20 are sent. */
  lemma DefaultPaging(userId: string, isRead: Option<bool>)
    ensures var p := Collect(Candidates(userId, isRead, DefaultPage, DefaultPageSize));
      Lookup(p, "page") == Some("1") && Lookup(p, "pageSize") == Some("20")
  {
    var c := Candidates(userId, isRead, DefaultPage, DefaultPageSize);
    assert Distinct(Names(c));
    CollectLookup(c);
    assert c[1].0 == "page" && c[2].0 == "pageSize";
    DefaultPagingText();
  }

  lemma DefaultPagingText()
    ensures IntToString(DefaultPage) == "1" && IntToString(DefaultPageSize) == "20"
  {
    assert NatToString(2) == [DigitChar(2)];
    assert NatToString(20) == NatToString(2) + [DigitChar(0)];
  }

  /** `markNotificationAsRead`. */
  function ReadPath(notificationId: string): (r: string)
    ensures |r| == |notificationId| + 20
    ensures StartsWith(r, "/notifications/") && r[15..|r| - 5] == notificationId && r[|r| - 5..] == "/read"
  {
    "/notifications/" + notificationId + "/read"
  }

  /** `markAllNotificationsAsRead`: the user id travels in the query string. */
  function ReadAllPath(userId: string): (r: string)
    ensures StartsWith(r, "/notifications/read-all?userId=") && r[31..] == userId
  {
    "/notifications/read-all?userId=" + userId
  }

  /** `deleteNotification`. */
  function DeletePath(notificationId: string): (r: string)
    ensures StartsWith(r, "/notifications/") && r[15..] == notificationId
  {
    "/notifications/" + notificationId
  }

  /** `getNotificationPreferences` and `updateNotificationPreferences`. */
  function PreferencesPath(userId: string): (r: string)
    ensures StartsWith(r, "/notifications/preferences/") && r[27..] == userId
  {
    "/notifications/preferences/" + userId
  }

  /** Each path names exactly one notification or user. */
  lemma NotificationPathsInjective(a: string, b: string)
    ensures ReadPath(a) == ReadPath(b) <==> a == b
    ensures DeletePath(a) == DeletePath(b) <==> a == b
    ensures PreferencesPath(a) == PreferencesPath(b) <==> a == b
    ensures ReadAllPath(a) == ReadAllPath(b) <==> a == b
  {
    if ReadPath(a) == ReadPath(b) {
      assert a == ReadPath(a)[15..|ReadPath(a)| - 5];
    }
    if DeletePath(a) == DeletePath(b) {
      assert a == DeletePath(a)[15..];
    }
    if PreferencesPath(a) == PreferencesPath(b) {
      assert a == PreferencesPath(a)[27..];
    }
    if ReadAllPath(a) == ReadAllPath(b) {
      assert a == ReadAllPath(a)[31..];
    }
  }
}
