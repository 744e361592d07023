/** The auth service: Telegram login data is checked (bot token configured,
    not older than a day, signature over the data-check-string) before the
    user is created or updated by Telegram id; `refresh` re-reads a user.
    The HMAC-SHA256 signature is the parameter `sign`, applied to the bot
    token and the check string; the clock is `nowMs`. Token issuing is not
    part of this model. */
module Auth {
  import opened Common
  import opened Entities
  import opened Store

  /** The login data the Telegram widget sends; an absent optional field is `None`. */
  datatype TelegramAuthDto = TelegramAuthDto(
    id: int,
    firstName: Option<string>,
    lastName: Option<string>,
    username: Option<string>,
    photoUrl: Option<string>,
    authDate: int,
    hash: string)

  // ---------------------------------------------------------------------
  // Freshness

  const MaxAgeSeconds := 86400

  /** `now - auth_date > 86400`, `now` being the clock in whole seconds. */
  predicate Expired(nowMs: int, authDate: int) {
    nowMs / 1000 - authDate > MaxAgeSeconds
  }

  /** Data exactly a day old is accepted, a second older is not, and data
      dated in the future is accepted. */
  lemma FreshnessBoundary(nowSeconds: int, authDate: int)
    ensures !Expired(nowSeconds * 1000, nowSeconds - MaxAgeSeconds)
    ensures Expired(nowSeconds * 1000, nowSeconds - MaxAgeSeconds - 1)
    ensures authDate >= nowSeconds ==> !Expired(nowSeconds * 1000 + 999, authDate)
  {
    assert (nowSeconds * 1000) / 1000 == nowSeconds;
    assert (nowSeconds * 1000 + 999) / 1000 == nowSeconds;
  }

  // ---------------------------------------------------------------------
  // The data-check-string

  datatype Entry = Entry(key: string, value: string)

  /** `Object.entries(dto)` without the final `hash` entry: the fields the
      request carries, values as template literals render them (numbers in
      decimal). */
  function Fields(dto: TelegramAuthDto): (es: seq<Entry>)
    ensures forall e :: e in es ==> e.key != "hash"
  {
    [Entry("id", IntToString(dto.id))]
    + (if dto.firstName.Some? then [Entry("first_name", dto.firstName.value)] else [])
    + (if dto.lastName.Some? then [Entry("last_name", dto.lastName.value)] else [])
    + (if dto.username.Some? then [Entry("username", dto.username.value)] else [])
    + (if dto.photoUrl.Some? then [Entry("photo_url", dto.photoUrl.value)] else [])
    + [Entry("auth_date", IntToString(dto.authDate))]
  }

  /** `Object.entries(dto)`. */
  function Entries(dto: TelegramAuthDto): (es: seq<Entry>)
    ensures |es| > 0 && es[|es| - 1] == Entry("hash", dto.hash)
  {
    Fields(dto) + [Entry("hash", dto.hash)]
  }

  /** No two different entries share a key. */
  predicate KeysUnique(es: seq<Entry>) {
    forall x, y :: x in es && y in es && x.key == y.key ==> x == y
  }

  predicate SortedByKey(es: seq<Entry>) {
    forall i, j :: 0 <= i < j < |es| ==> StrLe(es[i].key, es[j].key)
  }

  /** `.filter(([key]) => key !== 'hash')`. */
  function WithoutHash(es: seq<Entry>): (r: seq<Entry>)
    ensures forall e :: e in r <==> e in es && e.key != "hash"
    decreases |es|
  {
    if es == [] then []
    else
      var last := es[|es| - 1];
      assert es == es[..|es| - 1] + [last];
      if last.key == "hash" then WithoutHash(es[..|es| - 1]) else WithoutHash(es[..|es| - 1]) + [last]
  }

  /** The filter keeps every entry but the `hash` ones as many times as they come. */
  lemma {:induction false} WithoutHashCount(es: seq<Entry>, e: Entry)
    ensures multiset(WithoutHash(es))[e] == if e.key == "hash" then 0 else multiset(es)[e]
    decreases |es|
  {
    if es != [] {
      var init := es[..|es| - 1];
      assert es == init + [es[|es| - 1]];
      WithoutHashCount(init, e);
    }
  }

  /** Puts `e` after every entry whose key is not greater (so the sort is stable). */
  function InsertEntry(xs: seq<Entry>, e: Entry): (r: seq<Entry>)
    requires SortedByKey(xs)
    ensures SortedByKey(r)
    ensures multiset(r) == multiset(xs) + multiset{e}
    decreases |xs|
  {
    if xs == [] then [e]
    else if StrLt(e.key, xs[0].key) then
      InsertFront(xs, e);
      [e] + xs
    else
      SortedTail(xs);
      var tail := InsertEntry(xs[1..], e);
      InsertBehind(xs, e, tail);
      [xs[0]] + tail
  }

  lemma SortedTail(xs: seq<Entry>)
    requires SortedByKey(xs) && xs != []
    ensures SortedByKey(xs[1..])
  {
    var rest := xs[1..];
    assert forall i :: 0 <= i < |rest| ==> rest[i] == xs[i + 1];
  }

  /** An entry with a smaller key than the head goes first. */
  lemma InsertFront(xs: seq<Entry>, e: Entry)
    requires SortedByKey(xs) && xs != [] && StrLt(e.key, xs[0].key)
    ensures SortedByKey([e] + xs)
  {
    forall x | x in xs ensures StrLe(e.key, x.key) {
      var j :| 0 <= j < |xs| && xs[j] == x;
      if j > 0 {
        assert StrLe(xs[0].key, xs[j].key);
        StrLeTransitive(e.key, xs[0].key, xs[j].key);
      }
    }
    ConsSorted(e, xs);
  }

  /** Otherwise the head stays first, ahead of the rest with the entry inserted. */
  lemma InsertBehind(xs: seq<Entry>, e: Entry, tail: seq<Entry>)
    requires SortedByKey(xs) && xs != [] && !StrLt(e.key, xs[0].key)
    requires SortedByKey(tail) && multiset(tail) == multiset(xs[1..]) + multiset{e}
    ensures SortedByKey([xs[0]] + tail)
    ensures multiset([xs[0]] + tail) == multiset(xs) + multiset{e}
  {
    StrLtTotal(e.key, xs[0].key);
    var rest := xs[1..];
    forall x | x in tail ensures StrLe(xs[0].key, x.key) {
      assert x in multiset(tail);
      if x != e {
        assert x in rest;
        var j :| 0 <= j < |rest| && rest[j] == x;
        assert xs[j + 1] == x;
      }
    }
    ConsSorted(xs[0], tail);
    assert xs == [xs[0]] + rest;
  }

  /** An entry whose key is not above any key of a sorted list can head it. */
  lemma ConsSorted(h: Entry, tail: seq<Entry>)
    requires SortedByKey(tail)
    requires forall x :: x in tail ==> StrLe(h.key, x.key)
    ensures SortedByKey([h] + tail)
  {
    var r := [h] + tail;
    forall i, j | 0 <= i < j < |r|
      ensures StrLe(r[i].key, r[j].key)
    {
      assert r[j] == tail[j - 1];
      if i > 0 {
        assert r[i] == tail[i - 1];
      }
    }
  }

  /** `.sort(([a], [b]) => a.localeCompare(b))`, as a stable insertion sort. */
  function SortEntries(es: seq<Entry>): (r: seq<Entry>)
    ensures SortedByKey(r)
    ensures multiset(r) == multiset(es)
    decreases |es|
  {
    if es == [] then []
    else
      var init := es[..|es| - 1];
      assert es == init + [es[|es| - 1]];
      InsertEntry(SortEntries(init), es[|es| - 1])
  }

  /** `.map(([key, value]) => `${key}=${value}`)`. */
  function Lines(es: seq<Entry>): (r: seq<string>)
    ensures |r| == |es| && forall i :: 0 <= i < |es| ==> r[i] == es[i].key + "=" + es[i].value
  {
    seq(|es|, i requires 0 <= i < |es| => es[i].key + "=" + es[i].value)
  }

  /** The data-check-string: every field but `hash`, ordered by key, as
      `key=value` lines joined by a newline. */
  function CheckString(es: seq<Entry>): string {
    Join(Lines(SortEntries(WithoutHash(es))), '\n')
  }

  /** Two key-ordered lists of the same entries start with the same entry
      when no two of the entries share a key. */
  lemma SameHead(xs: seq<Entry>, ys: seq<Entry>)
    requires SortedByKey(xs) && SortedByKey(ys) && KeysUnique(ys)
    requires multiset(xs) == multiset(ys) && xs != []
    ensures ys != [] && xs[0] == ys[0]
  {
    assert xs[0] in multiset(ys);
    var j :| 0 <= j < |ys| && ys[j] == xs[0];
    assert ys[0] in multiset(xs);
    var i :| 0 <= i < |xs| && xs[i] == ys[0];
    assert StrLe(ys[0].key, xs[0].key) by { if j > 0 { assert StrLe(ys[0].key, ys[j].key); } }
    assert StrLe(xs[0].key, ys[0].key) by { if i > 0 { assert StrLe(xs[0].key, xs[i].key); } }
    if xs[0].key != ys[0].key {
      StrLtAsymmetric(xs[0].key, ys[0].key);
    }
  }

  /** Two key-ordered lists of the same entries, no two of which share a key,
      are the same list. */
  lemma {:induction false} SortedUnique(xs: seq<Entry>, ys: seq<Entry>)
    requires SortedByKey(xs) && SortedByKey(ys) && KeysUnique(ys)
    requires multiset(xs) == multiset(ys)
    ensures xs == ys
    decreases |xs|
  {
    if xs != [] {
      SameHead(xs, ys);
      TailMultiset(xs);
      TailMultiset(ys);
      SortedTail(xs);
      SortedTail(ys);
      assert KeysUnique(ys[1..]) by {
        assert forall x :: x in ys[1..] ==> x in ys;
      }
      SortedUnique(xs[1..], ys[1..]);
      assert xs == [xs[0]] + xs[1..] && ys == [ys[0]] + ys[1..];
    } else {
      assert |multiset(ys)| == 0;
    }
  }

  lemma TailMultiset(xs: seq<Entry>)
    requires xs != []
    ensures multiset(xs[1..]) == multiset(xs) - multiset{xs[0]}
  {
    assert xs == [xs[0]] + xs[1..];
  }

  /** The check string does not depend on the order the fields arrive in. */
  lemma CheckStringOrderFree(es: seq<Entry>, es': seq<Entry>)
    requires KeysUnique(es') && multiset(es) == multiset(es')
    ensures CheckString(es) == CheckString(es')
  {
    var a, b := WithoutHash(es), WithoutHash(es');
    forall e ensures multiset(a)[e] == multiset(b)[e] {
      WithoutHashCount(es, e);
      WithoutHashCount(es', e);
    }
    assert multiset(a) == multiset(b);
    var sb := SortEntries(b);
    forall x, y | x in sb && y in sb && x.key == y.key ensures x == y {
      assert x in multiset(b) && y in multiset(b);
    }
    SortedUnique(SortEntries(a), sb);
  }

  /** Every line of the check string comes from a field other than `hash`. */
  lemma SortedFieldsFromInput(es: seq<Entry>)
    ensures forall e :: e in SortEntries(WithoutHash(es)) ==> e in es && e.key != "hash"
  {
    forall e | e in SortEntries(WithoutHash(es)) ensures e in es && e.key != "hash" {
      assert e in multiset(SortEntries(WithoutHash(es)));
    }
  }

  /** The check string splits back, line by line, into the `key=value` lines
      of the sorted fields, so it ends in no newline. */
  lemma CheckStringLines(es: seq<Entry>)
    requires WithoutHash(es) != []
    requires forall e :: e in es ==> '\n' !in e.key && '\n' !in e.value
    ensures Split(CheckString(es), '\n') == Lines(SortEntries(WithoutHash(es)))
    ensures var s := CheckString(es); |s| > 0 && s[|s| - 1] != '\n'
  {
    var sorted := SortEntries(WithoutHash(es));
    var lines := Lines(sorted);
    assert |sorted| > 0 by { assert |multiset(sorted)| == |multiset(WithoutHash(es))|; }
    SortedFieldsFromInput(es);
    forall i | 0 <= i < |lines| ensures '\n' !in lines[i] {
      assert sorted[i] in sorted;
    }
    SplitJoin(lines, '\n');
    NoTrailingNewline(lines);
  }

  lemma NoTrailingNewline(lines: seq<string>)
    requires |lines| > 0 && |lines[|lines| - 1]| > 0 && '\n' !in lines[|lines| - 1]
    ensures var s := Join(lines, '\n'); |s| > 0 && s[|s| - 1] != '\n'
  {
    JoinEndsWithLast(lines, '\n');
    var s := Join(lines, '\n');
    var last := lines[|lines| - 1];
    assert s[|s| - |last|..] == last;
    assert s[|s| - 1] == last[|last| - 1];
  }

  /** The `hash` field is not signed: the check string of the data is the
      same whatever hash it carries. */
  lemma HashNotSigned(dto: TelegramAuthDto, h: string)
    ensures CheckString(Entries(dto)) == CheckString(Entries(dto.(hash := h)))
  {
    var es := Entries(dto);
    assert es[..|es| - 1] == Fields(dto);
    var es' := Entries(dto.(hash := h));
    assert es'[..|es'| - 1] == Fields(dto);
  }

  // ---------------------------------------------------------------------
  // Validation and login

  /** `validateTelegramData`: an unconfigured bot token first, then stale
      data, then a signature that does not match; on success the check
      string that was signed. */
  function ValidateTelegramData(botToken: Option<string>, dto: TelegramAuthDto, nowMs: int,
                                sign: (string, string) -> string): (r: Result<string>)
    ensures !Truthy(botToken) ==> r == Err(Unauthorized("Bot token not configured"))
    ensures Truthy(botToken) && Expired(nowMs, dto.authDate) ==> r == Err(Unauthorized("Telegram auth data expired"))
    ensures r.Ok? <==> Truthy(botToken) && !Expired(nowMs, dto.authDate) && sign(botToken.value, CheckString(Entries(dto))) == dto.hash
    ensures r.Err? ==> r.error.Unauthorized?
    ensures r.Ok? ==> r.value == CheckString(Entries(dto))
  {
    if !Truthy(botToken) then Err(Unauthorized("Bot token not configured"))
    else if Expired(nowMs, dto.authDate) then Err(Unauthorized("Telegram auth data expired"))
    else
      var checkString := CheckString(Entries(dto));
      if sign(botToken.value, checkString) != dto.hash then Err(Unauthorized("Invalid Telegram auth data"))
      else Ok(checkString)
  }

  /** The user row keyed by Telegram id `tid`, if any. */
  ghost function UserKey(users: map<string, User>, tid: string): (r: Option<string>)
    ensures r.Some? ==> r.value in users && users[r.value].telegramId == tid
    ensures r.None? <==> forall k :: k in users ==> users[k].telegramId != tid
  {
    if exists k :: k in users && users[k].telegramId == tid then
      var k :| k in users && users[k].telegramId == tid; Some(k)
    else None
  }

  /** The upsert's `update`: each profile field the login carries replaces the column. */
  function ApplyProfile(u: User, dto: TelegramAuthDto): (v: User)
    ensures v.id == u.id && v.telegramId == u.telegramId
    ensures v.username == (if dto.username.Some? then dto.username else u.username)
    ensures v.firstName == (if dto.firstName.Some? then dto.firstName else u.firstName)
    ensures v.lastName == (if dto.lastName.Some? then dto.lastName else u.lastName)
    ensures v.avatarUrl == (if dto.photoUrl.Some? then dto.photoUrl else u.avatarUrl)
  {
    u.(username := if dto.username.Some? then dto.username else u.username,
       firstName := if dto.firstName.Some? then dto.firstName else u.firstName,
       lastName := if dto.lastName.Some? then dto.lastName else u.lastName,
       avatarUrl := if dto.photoUrl.Some? then dto.photoUrl else u.avatarUrl)
  }

  /** The upsert of `telegramLogin`: the user with Telegram id `tid` has its
      profile updated, or is created under `newId` when there is none. */
  method UpsertUser(db: Db, dto: TelegramAuthDto, newId: string) returns (u: User)
    requires db.Valid() && newId !in db.users
    modifies db
    ensures db.Valid() && OnlyUsersChanged(db)
    ensures u.telegramId == IntToString(dto.id) && db.users == old(db.users)[u.id := u]
    ensures UserKey(old(db.users), IntToString(dto.id)).Some? ==>
      u == ApplyProfile(old(db.users)[UserKey(old(db.users), IntToString(dto.id)).value], dto)
    ensures UserKey(old(db.users), IntToString(dto.id)).None? ==>
      u == User(newId, IntToString(dto.id), dto.username, dto.firstName, dto.lastName, dto.photoUrl)
  {
    var tid := IntToString(dto.id);
    if exists k :: k in db.users && db.users[k].telegramId == tid {
      var k :| k in db.users && db.users[k].telegramId == tid;
      assert UserKey(db.users, tid) == Some(k);
      u := ApplyProfile(db.users[k], dto);
    } else {
      u := User(newId, tid, dto.username, dto.firstName, dto.lastName, dto.photoUrl);
    }
    db.users := db.users[u.id := u];
  }

  /** `telegramLogin`: validation first, leaving the users as they were when
      it fails; then the upsert by Telegram id `String(dto.id)`. */
  method TelegramLogin(db: Db, dto: TelegramAuthDto, botToken: Option<string>, nowMs: int,
                       sign: (string, string) -> string, newId: string)
    returns (r: Result<User>)
    requires db.Valid() && newId !in db.users
    modifies db
    ensures db.Valid() && OnlyUsersChanged(db)
    ensures r.Err? <==> ValidateTelegramData(botToken, dto, nowMs, sign).Err?
    ensures r.Err? ==> r.error == ValidateTelegramData(botToken, dto, nowMs, sign).error && db.users == old(db.users)
    ensures r.Ok? ==> r.value.telegramId == IntToString(dto.id) && db.users == old(db.users)[r.value.id := r.value]
    ensures r.Ok? && UserKey(old(db.users), IntToString(dto.id)).Some? ==>
      r.value == ApplyProfile(old(db.users)[UserKey(old(db.users), IntToString(dto.id)).value], dto)
    ensures r.Ok? && UserKey(old(db.users), IntToString(dto.id)).None? ==>
      r.value == User(newId, IntToString(dto.id), dto.username, dto.firstName, dto.lastName, dto.photoUrl)
  {
    var v := ValidateTelegramData(botToken, dto, nowMs, sign);
    if v.Err? {
      return Err(v.error);
    }
    var u := UpsertUser(db, dto, newId);
    return Ok(u);
  }

  /** After a login, exactly one user has the login's Telegram id; a login
      whose Telegram id already has a user adds no user. */
  lemma LoginKeepsOneUserPerTelegramId(users: map<string, User>, users': map<string, User>, u: User, tid: string)
    requires TelegramIdsUnique(users) && u.telegramId == tid
    requires forall k :: k in users ==> users[k].id == k
    requires UserKey(users, tid).Some? ==> u.id == UserKey(users, tid).value
    requires UserKey(users, tid).None? ==> u.id !in users
    requires users' == users[u.id := u]
    ensures forall k :: k in users' && users'[k].telegramId == tid ==> k == u.id
    ensures UserKey(users, tid).Some? ==> users'.Keys == users.Keys
    ensures UserKey(users, tid).None? ==> |users'| == |users| + 1
  {
  }

  /** `refresh`: the user, or Unauthorized when the id names none. */
  function Refresh(users: map<string, User>, userId: string): (r: Result<User>)
    ensures r.Err? <==> userId !in users
    ensures r.Err? ==> r.error == Unauthorized("User not found")
    ensures r.Ok? ==> r.value == users[userId]
  {
    if userId !in users then Err(Unauthorized("User not found")) else Ok(users[userId])
  }
}
