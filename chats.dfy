/**
 * convex/chats.ts: the sidebar listing of a user's chats grouped by day, the
 * mutation that opens a chat and schedules its first reply and its title, and
 * the title update that the title generator ends with.
 */
module Chats {
  import opened Common
  import opened Schema
  import opened Store
  import opened Helpers

  // ---------------------------------------------------------------------------
  // The page of chats: `by_user` in descending order, `take(100)`
  // ---------------------------------------------------------------------------

  /** The number of chats the listing reads. */
  const PageSize: nat := 100

  /**
   * Up to n of the user's chats, newest first: the table read from its newest
   * row backwards, keeping the rows of the user until n are kept.
   */
  function Newest(table: seq<Chat>, uid: UserId, n: nat): seq<Chat>
    decreases |table|
  {
    if table == [] || n == 0 then []
    else
      var last := table[|table| - 1];
      var rest := table[..|table| - 1];
      if last.userId == uid then [last] + Newest(rest, uid, n - 1) else Newest(rest, uid, n)
  }

  /** The chats the listing starts from: the caller's newest `PageSize` chats. */
  function FetchChats(table: seq<Chat>, uid: UserId): (r: seq<Chat>)
    ensures |r| <= PageSize
    ensures forall c | c in r :: c in table && c.userId == uid
  {
    NewestBounds(table, uid, PageSize);
    Newest(table, uid, PageSize)
  }

  predicate IdsIncreasing(s: seq<Chat>) {
    forall i, j | 0 <= i < j < |s| :: s[i].id < s[j].id
  }

  predicate IdsDecreasing(s: seq<Chat>) {
    forall i, j | 0 <= i < j < |s| :: s[i].id > s[j].id
  }

  /** At most n chats come back, each a chat of the user from the table. */
  lemma {:induction false} NewestBounds(table: seq<Chat>, uid: UserId, n: nat)
    ensures |Newest(table, uid, n)| <= n
    ensures forall c | c in Newest(table, uid, n) :: c in table && c.userId == uid
    decreases |table|
  {
    if table != [] && n != 0 {
      var last := table[|table| - 1];
      var rest := table[..|table| - 1];
      if last.userId == uid {
        NewestBounds(rest, uid, n - 1);
      } else {
        NewestBounds(rest, uid, n);
      }
    }
  }

  /** In a table whose ids grow with insertion, the page is newest first. */
  lemma {:induction false} NewestDescending(table: seq<Chat>, uid: UserId, n: nat)
    requires IdsIncreasing(table)
    ensures IdsDecreasing(Newest(table, uid, n))
    decreases |table|
  {
    if table != [] && n != 0 {
      var last := table[|table| - 1];
      var rest := table[..|table| - 1];
      assert IdsIncreasing(rest);
      if last.userId == uid {
        NewestDescending(rest, uid, n - 1);
        NewestBounds(rest, uid, n - 1);
        var tail := Newest(rest, uid, n - 1);
        forall c | c in tail
          ensures c.id < last.id
        {
          var k :| 0 <= k < |rest| && rest[k] == c;
          assert table[k] == c;
        }
        ConsDecreasing(last, tail);
      } else {
        NewestDescending(rest, uid, n);
      }
    }
  }

  /** A chat newer than all of a newest-first list can head it. */
  lemma ConsDecreasing(c: Chat, s: seq<Chat>)
    requires IdsDecreasing(s)
    requires forall d | d in s :: d.id < c.id
    ensures IdsDecreasing([c] + s)
  {
    var r := [c] + s;
    forall i, j | 0 <= i < j < |r|
      ensures r[i].id > r[j].id
    {
      assert r[j] == s[j - 1];
      if i > 0 {
        assert r[i] == s[i - 1];
      }
    }
  }

  /**
   * Nothing newer is skipped: a chat of the user that is not on the page only
   * misses it because the page is full, and it is older than every chat on it.
   */
  lemma {:induction false} NewestComplete(table: seq<Chat>, uid: UserId, n: nat)
    requires IdsIncreasing(table)
    ensures var r := Newest(table, uid, n);
      forall c | c in table && c.userId == uid && c !in r :: |r| == n && forall d | d in r :: c.id < d.id
    decreases |table|
  {
    if table != [] && n != 0 {
      var last := table[|table| - 1];
      var rest := table[..|table| - 1];
      assert IdsIncreasing(rest);
      var r := Newest(table, uid, n);
      var m := if last.userId == uid then n - 1 else n;
      NewestComplete(rest, uid, m);
      NewestBounds(rest, uid, m);
      var tail := Newest(rest, uid, m);
      forall c | c in table && c.userId == uid && c !in r
        ensures |r| == n && forall d | d in r :: c.id < d.id
      {
        var k :| 0 <= k < |table| && table[k] == c;
        if k == |table| - 1 {
          assert false;
        }
        assert c == rest[k];
        assert c !in tail;
        forall d | d in r
          ensures c.id < d.id
        {
          if last.userId == uid && d == last {
          } else {
            assert d in tail;
          }
        }
      }
    }
  }

  /** The page of `FetchChats` is newest first and leaves out only older chats of a full page. */
  lemma FetchChatsNewestFirst(table: seq<Chat>, uid: UserId)
    requires IdsIncreasing(table)
    ensures IdsDecreasing(FetchChats(table, uid))
    ensures var r := FetchChats(table, uid);
      forall c | c in table && c.userId == uid && c !in r :: |r| == PageSize && forall d | d in r :: c.id < d.id
  {
    NewestDescending(table, uid, PageSize);
    NewestComplete(table, uid, PageSize);
  }

  /** The chat inserted last, if it is the user's, heads the user's page. */
  lemma NewestInsertHeadsPage(table: seq<Chat>, c: Chat)
    ensures var r := FetchChats(table + [c], c.userId);
      |r| > 0 && r[0] == c
  {
    assert (table + [c])[..|table|] == table;
  }

  // ---------------------------------------------------------------------------
  // Day labels
  // ---------------------------------------------------------------------------

  /**
   * The local calendar of the server: the day number a timestamp falls on
   * (`toDateString`), and the long label of a day (`toLocaleDateString` with
   * weekday, year, month and day).
   */
  datatype Calendar = Calendar(dayOf: int -> int, longDate: int -> string)

  /** The label a chat created at `creationTime` is listed under when the time is `now`. */
  function DateKey(cal: Calendar, creationTime: int, now: int): (r: string)
    ensures cal.dayOf(creationTime) == cal.dayOf(now) ==> r == "Today"
    ensures cal.dayOf(creationTime) == cal.dayOf(now) - 1 ==> r == "Yesterday"
    ensures cal.dayOf(creationTime) != cal.dayOf(now) && cal.dayOf(creationTime) != cal.dayOf(now) - 1 ==>
      r == cal.longDate(cal.dayOf(creationTime))
  {
    var day := cal.dayOf(creationTime);
    var today := cal.dayOf(now);
    if day == today then "Today"
    else if day == today - 1 then "Yesterday"
    else cal.longDate(day)
  }

  function KeyOf(cal: Calendar, now: int, c: Chat): string {
    DateKey(cal, c.creationTime, now)
  }

  // ---------------------------------------------------------------------------
  // Grouping: a Map from label to chats, read back in insertion order
  // ---------------------------------------------------------------------------

  datatype Group = Group(date: string, chats: seq<Chat>)

  /** The labels of the chats, each once, in the order they first occur. */
  function Keys(chats: seq<Chat>, cal: Calendar, now: int): seq<string>
    decreases |chats|
  {
    if chats == [] then []
    else
      var ks := Keys(chats[..|chats| - 1], cal, now);
      var k := KeyOf(cal, now, chats[|chats| - 1]);
      if k in ks then ks else ks + [k]
  }

  /** The chats under label `key`, in the order of the input. */
  function Under(chats: seq<Chat>, cal: Calendar, now: int, key: string): seq<Chat>
    decreases |chats|
  {
    if chats == [] then []
    else
      var last := chats[|chats| - 1];
      Under(chats[..|chats| - 1], cal, now, key) + (if KeyOf(cal, now, last) == key then [last] else [])
  }

  /** The listing: one group per label, in first-occurrence order. */
  function Grouped(chats: seq<Chat>, cal: Calendar, now: int): seq<Group> {
    var ks := Keys(chats, cal, now);
    seq(|ks|, j requires 0 <= j < |ks| => Group(ks[j], Under(chats, cal, now, ks[j])))
  }

  predicate Distinct<T(==)>(s: seq<T>) {
    forall i, j | 0 <= i < j < |s| :: s[i] != s[j]
  }

  /** The labels are distinct and are exactly the labels of the chats. */
  lemma {:induction false} KeysAreLabels(chats: seq<Chat>, cal: Calendar, now: int)
    ensures Distinct(Keys(chats, cal, now))
    ensures forall k :: k in Keys(chats, cal, now) <==> exists i | 0 <= i < |chats| :: KeyOf(cal, now, chats[i]) == k
    decreases |chats|
  {
    if chats != [] {
      var rest := chats[..|chats| - 1];
      KeysAreLabels(rest, cal, now);
      forall k
        ensures k in Keys(chats, cal, now) <==> exists i | 0 <= i < |chats| :: KeyOf(cal, now, chats[i]) == k
      {
        if exists i | 0 <= i < |chats| :: KeyOf(cal, now, chats[i]) == k {
          var i :| 0 <= i < |chats| && KeyOf(cal, now, chats[i]) == k;
          if i < |rest| {
            assert KeyOf(cal, now, rest[i]) == k;
          }
        }
        if k in Keys(rest, cal, now) {
          var i :| 0 <= i < |rest| && KeyOf(cal, now, rest[i]) == k;
          assert chats[i] == rest[i];
        }
      }
    }
  }

  /** A label has chats under it exactly when it is one of the keys: no group is empty. */
  lemma {:induction false} UnderEmptyIffNoKey(chats: seq<Chat>, cal: Calendar, now: int, key: string)
    ensures Under(chats, cal, now, key) == [] <==> key !in Keys(chats, cal, now)
    decreases |chats|
  {
    if chats != [] {
      UnderEmptyIffNoKey(chats[..|chats| - 1], cal, now, key);
    }
  }

  /** Every chat under a label carries that label and comes from the input. */
  lemma {:induction false} UnderOnlyItsKey(chats: seq<Chat>, cal: Calendar, now: int, key: string)
    ensures forall c | c in Under(chats, cal, now, key) :: c in chats && KeyOf(cal, now, c) == key
    decreases |chats|
  {
    if chats != [] {
      var rest := chats[..|chats| - 1];
      UnderOnlyItsKey(rest, cal, now, key);
      forall c | c in Under(chats, cal, now, key)
        ensures c in chats && KeyOf(cal, now, c) == key
      {
        if c in Under(rest, cal, now, key) {
          var k :| 0 <= k < |rest| && rest[k] == c;
          assert chats[k] == c;
        }
      }
    }
  }

  /** Every chat is listed under its own label. */
  lemma {:induction false} EveryChatUnderItsKey(chats: seq<Chat>, cal: Calendar, now: int)
    ensures forall i | 0 <= i < |chats| :: chats[i] in Under(chats, cal, now, KeyOf(cal, now, chats[i]))
    decreases |chats|
  {
    if chats != [] {
      var rest := chats[..|chats| - 1];
      EveryChatUnderItsKey(rest, cal, now);
      forall i | 0 <= i < |chats|
        ensures chats[i] in Under(chats, cal, now, KeyOf(cal, now, chats[i]))
      {
        if i < |rest| {
          assert chats[i] == rest[i];
          assert chats[i] in Under(rest, cal, now, KeyOf(cal, now, rest[i]));
        }
      }
    }
  }

  /** Within a label the chats keep the input's order: a newest-first input gives newest-first groups. */
  lemma {:induction false} UnderKeepsOrder(chats: seq<Chat>, cal: Calendar, now: int, key: string)
    requires IdsDecreasing(chats)
    ensures IdsDecreasing(Under(chats, cal, now, key))
    decreases |chats|
  {
    if chats != [] {
      var rest := chats[..|chats| - 1];
      var last := chats[|chats| - 1];
      assert IdsDecreasing(rest);
      UnderKeepsOrder(rest, cal, now, key);
      UnderOnlyItsKey(rest, cal, now, key);
      var u := Under(rest, cal, now, key);
      if KeyOf(cal, now, last) == key {
        forall c | c in u
          ensures c.id > last.id
        {
          var k :| 0 <= k < |rest| && rest[k] == c;
          assert chats[k] == c;
        }
        SnocDecreasing(u, last);
      }
    }
  }

  /** A chat older than all of a newest-first list can end it. */
  lemma SnocDecreasing(s: seq<Chat>, c: Chat)
    requires IdsDecreasing(s)
    requires forall d | d in s :: d.id > c.id
    ensures IdsDecreasing(s + [c])
  {
    var r := s + [c];
    forall i, j | 0 <= i < j < |r|
      ensures r[i].id > r[j].id
    {
      assert r[i] == s[i];
    }
  }

  /** The labels of a prefix of the chats are a prefix of the labels: groups come in first-occurrence order. */
  lemma {:induction false} KeysGrowWithPrefix(chats: seq<Chat>, cal: Calendar, now: int, i: nat)
    requires i <= |chats|
    ensures Keys(chats[..i], cal, now) <= Keys(chats, cal, now)
    decreases |chats| - i
  {
    if i < |chats| {
      KeysGrowWithPrefix(chats, cal, now, i + 1);
      assert chats[..i + 1][..i] == chats[..i];
    } else {
      assert chats[..i] == chats;
    }
  }

  /** The first chat's label heads the listing, and the first chat heads its group. */
  lemma {:induction false} FirstChatHeadsListing(chats: seq<Chat>, cal: Calendar, now: int)
    requires chats != []
    ensures var ks := Keys(chats, cal, now);
      |ks| > 0 && ks[0] == KeyOf(cal, now, chats[0])
    ensures var u := Under(chats, cal, now, KeyOf(cal, now, chats[0]));
      |u| > 0 && u[0] == chats[0]
    decreases |chats|
  {
    var rest := chats[..|chats| - 1];
    if rest != [] {
      FirstChatHeadsListing(rest, cal, now);
      assert rest[0] == chats[0];
    }
  }

  /** The sum of the sizes of the groups under labels `ks`. */
  function GroupSizes(chats: seq<Chat>, cal: Calendar, now: int, ks: seq<string>): nat
    decreases |ks|
  {
    if ks == [] then 0
    else GroupSizes(chats, cal, now, ks[..|ks| - 1]) + |Under(chats, cal, now, ks[|ks| - 1])|
  }

  /** Adding a chat adds it to the group of its label only. */
  lemma {:induction false} GroupSizesAppend(chats: seq<Chat>, c: Chat, cal: Calendar, now: int, ks: seq<string>)
    requires Distinct(ks)
    ensures GroupSizes(chats + [c], cal, now, ks)
         == GroupSizes(chats, cal, now, ks) + (if KeyOf(cal, now, c) in ks then 1 else 0)
    decreases |ks|
  {
    assert (chats + [c])[..|chats|] == chats;
    if ks != [] {
      var init := ks[..|ks| - 1];
      assert Distinct(init);
      GroupSizesAppend(chats, c, cal, now, init);
      assert KeyOf(cal, now, c) in ks <==> KeyOf(cal, now, c) in init || KeyOf(cal, now, c) == ks[|ks| - 1];
    }
  }

  /** The groups together hold as many chats as the input: no chat is lost or listed twice. */
  lemma {:induction false} GroupSizesSum(chats: seq<Chat>, cal: Calendar, now: int)
    ensures GroupSizes(chats, cal, now, Keys(chats, cal, now)) == |chats|
    decreases |chats|
  {
    if chats != [] {
      var rest := chats[..|chats| - 1];
      var c := chats[|chats| - 1];
      assert rest + [c] == chats;
      var ks := Keys(rest, cal, now);
      var k := KeyOf(cal, now, c);
      GroupSizesSum(rest, cal, now);
      KeysAreLabels(rest, cal, now);
      GroupSizesAppend(rest, c, cal, now, ks);
      if k !in ks {
        var ks' := ks + [k];
        assert ks'[..|ks'| - 1] == ks;
        UnderEmptyIffNoKey(rest, cal, now, k);
      }
    }
  }

  /** No two groups share a label, and no group is empty. */
  lemma GroupedDistinctNonEmpty(chats: seq<Chat>, cal: Calendar, now: int)
    ensures var g := Grouped(chats, cal, now);
      && (forall a, b | 0 <= a < b < |g| :: g[a].date != g[b].date)
      && (forall j | 0 <= j < |g| :: g[j].chats != [])
  {
    var ks := Keys(chats, cal, now);
    var g := Grouped(chats, cal, now);
    KeysAreLabels(chats, cal, now);
    forall a, b | 0 <= a < b < |g|
      ensures g[a].date != g[b].date
    {
      assert g[a].date == ks[a] && g[b].date == ks[b];
    }
    forall j | 0 <= j < |g|
      ensures g[j].chats != []
    {
      UnderEmptyIffNoKey(chats, cal, now, ks[j]);
    }
  }

  /** A group holds chats of the input that carry its label. */
  lemma GroupedMembersCarryLabel(chats: seq<Chat>, cal: Calendar, now: int, j: nat)
    requires j < |Grouped(chats, cal, now)|
    ensures var g := Grouped(chats, cal, now)[j];
      forall c | c in g.chats :: c in chats && KeyOf(cal, now, c) == g.date
  {
    UnderOnlyItsKey(chats, cal, now, Keys(chats, cal, now)[j]);
  }

  /** Every chat is in the group of its label. */
  lemma GroupedCoversChats(chats: seq<Chat>, cal: Calendar, now: int, i: nat)
    requires i < |chats|
    ensures var g := Grouped(chats, cal, now);
      exists j | 0 <= j < |g| :: g[j].date == KeyOf(cal, now, chats[i]) && chats[i] in g[j].chats
  {
    var ks := Keys(chats, cal, now);
    var g := Grouped(chats, cal, now);
    var k := KeyOf(cal, now, chats[i]);
    KeysAreLabels(chats, cal, now);
    EveryChatUnderItsKey(chats, cal, now);
    assert KeyOf(cal, now, chats[i]) == k;
    assert k in ks;
    var j :| 0 <= j < |ks| && ks[j] == k;
    assert g[j].date == k && g[j].chats == Under(chats, cal, now, k);
  }

  /**
   * The handler's loop: a `Map` from label to chats, a fresh entry the first
   * time a label is seen, then the entries read back in insertion order.
   */
  method GroupByDate(chats: seq<Chat>, cal: Calendar, now: int) returns (r: seq<Group>)
    ensures r == Grouped(chats, cal, now)
  {
    var keys: seq<string> := [];
    var groups: map<string, seq<Chat>> := map[];
    var i := 0;
    while i < |chats|
      invariant 0 <= i <= |chats|
      invariant keys == Keys(chats[..i], cal, now)
      invariant forall k :: k in groups <==> k in keys
      invariant forall k | k in groups :: groups[k] == Under(chats[..i], cal, now, k)
    {
      assert chats[..i + 1][..i] == chats[..i];
      var dateKey := DateKey(cal, chats[i].creationTime, now);
      if dateKey !in groups {
        UnderEmptyIffNoKey(chats[..i], cal, now, dateKey);
        groups := groups[dateKey := []];
        keys := keys + [dateKey];
      }
      groups := groups[dateKey := groups[dateKey] + [chats[i]]];
      i := i + 1;
    }
    assert chats[..i] == chats;
    r := seq(|keys|, j requires 0 <= j < |keys| => Group(keys[j], groups[keys[j]]));
  }

  // ---------------------------------------------------------------------------
  // Handlers
  // ---------------------------------------------------------------------------

  /**
   * `getChatsGroupedByDate(sessionToken)`: the session check, the caller's user
   * row, then the caller's newest page of chats grouped by day.
   */
  method GetChatsGroupedByDate(db: Db, token: string, cal: Calendar, now: int) returns (r: Result<seq<Group>, Error>)
    ensures token !in db.sessions ==> r == Err(Unauthorized)
    ensures token in db.sessions && db.sessions[token] !in db.users ==> r == Err(NullUser)
    ensures r.Ok? <==> token in db.sessions && db.sessions[token] in db.users
    ensures r.Ok? ==> r.value == Grouped(FetchChats(db.chats, db.sessions[token]), cal, now)
  {
    var auth := VerifyAuth(db, token);
    if auth.Err? {
      return Err(auth.error);
    }
    var uid := AuthUserId(auth.value);
    if uid.Err? {
      return Err(uid.error);
    }
    var chats := FetchChats(db.chats, uid.value);
    var groups := GroupByDate(chats, cal, now);
    return Ok(groups);
  }

  /** The title a chat has until the generated one arrives. */
  const NewChatTitle := "New Chat"

  /**
   * `startChatWithFirstMessage`: the session check, then a new chat titled
   * "New Chat" owned by the caller, then the reply and the title generation
   * scheduled in that order; the result is the new chat's id.
   */
  method StartChatWithFirstMessage(db: Db, scheduler: Scheduler, prompt: string, clientId: string, model: string,
                                   webSearch: Option<bool>, token: string, now: int)
    returns (r: Result<ChatId, Error>)
    requires db.Valid()
    modifies db, scheduler
    ensures db.Valid()
    ensures token !in old(db.sessions) ==> r == Err(Unauthorized)
    ensures token in old(db.sessions) && old(db.sessions[token]) !in old(db.users) ==> r == Err(NullUser)
    ensures r.Ok? <==> token in old(db.sessions) && old(db.sessions[token]) in old(db.users)
    ensures r.Err? ==> db.chats == old(db.chats) && db.nextChatId == old(db.nextChatId)
                       && scheduler.queue == old(scheduler.queue)
    ensures r.Ok? ==> r.value == old(db.nextChatId) && r.value !in ChatIds(old(db.chats))
    ensures r.Ok? ==> db.nextChatId == r.value + 1
    ensures r.Ok? ==> db.chats == old(db.chats) + [Chat(r.value, now, NewChatTitle, old(db.sessions[token]))]
    ensures r.Ok? ==> scheduler.queue == old(scheduler.queue)
                        + [SendMessage(prompt, r.value, clientId, model, webSearch, token),
                           GenerateChatTitle(prompt, r.value)]
    ensures db.sessions == old(db.sessions) && db.users == old(db.users) && db.apiKeys == old(db.apiKeys)
  {
    var auth := VerifyAuth(db, token);
    if auth.Err? {
      return Err(auth.error);
    }
    var uid := AuthUserId(auth.value);
    if uid.Err? {
      return Err(uid.error);
    }
    var chatId := db.InsertChat(NewChatTitle, uid.value, now);
    scheduler.RunAfter(SendMessage(prompt, chatId, clientId, model, webSearch, token));
    scheduler.RunAfter(GenerateChatTitle(prompt, chatId));
    return Ok(chatId);
  }

  /**
   * A chat just started is the first one the caller's listing shows, under
   * "Today", titled "New Chat".
   */
  lemma StartedChatListedFirst(table: seq<Chat>, id: ChatId, uid: UserId, cal: Calendar, now: int)
    ensures var g := Grouped(FetchChats(table + [Chat(id, now, NewChatTitle, uid)], uid), cal, now);
      |g| > 0 && g[0].date == "Today" && |g[0].chats| > 0 && g[0].chats[0] == Chat(id, now, NewChatTitle, uid)
  {
    var c := Chat(id, now, NewChatTitle, uid);
    NewestInsertHeadsPage(table, c);
    var page := FetchChats(table + [c], uid);
    FirstChatHeadsListing(page, cal, now);
  }

  /** `updateChatTitle(chatId, title)`: the chat's title is replaced; a missing chat is an error. */
  method UpdateChatTitle(db: Db, chatId: ChatId, title: string) returns (r: Result<(), Error>)
    requires db.Valid()
    modifies db
    ensures db.Valid()
    ensures r.Err? <==> chatId !in ChatIds(old(db.chats))
    ensures r.Err? ==> r.error == DocumentNotFound && db.chats == old(db.chats)
    ensures r.Ok? ==> db.chats == Retitled(old(db.chats), chatId, title)
    ensures db.sessions == old(db.sessions) && db.users == old(db.users) && db.apiKeys == old(db.apiKeys)
    ensures db.nextChatId == old(db.nextChatId)
  {
    r := db.PatchChatTitle(chatId, title);
  }

  /**
   * `generateChatTitle(prompt, chatId)` after the completion request: `content`
   * is the first choice's message. An absent or empty message is
   * "No response from Groq" and leaves the chat alone; otherwise it becomes
   * the chat's title.
   */
  method GenerateChatTitleWith(db: Db, chatId: ChatId, content: Option<string>) returns (r: Result<(), Error>)
    requires db.Valid()
    modifies db
    ensures db.Valid()
    ensures content.None? || content == Some("") ==> r == Err(NoResponse) && db.chats == old(db.chats)
    ensures content.Some? && content.value != "" && chatId !in ChatIds(old(db.chats)) ==>
      r == Err(DocumentNotFound) && db.chats == old(db.chats)
    ensures r.Ok? <==> content.Some? && content.value != "" && chatId in ChatIds(old(db.chats))
    ensures r.Ok? ==> db.chats == Retitled(old(db.chats), chatId, content.value)
    ensures db.sessions == old(db.sessions) && db.users == old(db.users) && db.apiKeys == old(db.apiKeys)
    ensures db.nextChatId == old(db.nextChatId)
  {
    if content.None? || content.value == "" {
      return Err(NoResponse);
    }
    r := UpdateChatTitle(db, chatId, content.value);
  }
}
