/** cmd/migrate-yourls/migration.go: the import loop, what it leaves behind and why it may be run again. */
module Migration {
  import opened Basics
  import opened Text
  import opened Permissions
  import opened ShortUrls
  import opened Ownership
  import ClickEvents

  datatype Row = Row(keyword: string, url: string, title: string, createdAt: int, clicks: int)

  datatype Summary = Summary(migrated: nat, skipped: nat, failed: nat)

  /** What one invocation is given besides its rows. */
  datatype Job = Job(domain: DomainId, systemEmail: string, owners: map<string, string>, today: int)

  function NormalizeEmail(email: string): string {
    Fold(TrimSpace(email))
  }

  function OwnerEmail(job: Job, row: Row): string {
    if row.keyword in job.owners && job.owners[row.keyword] != "" then job.owners[row.keyword] else job.systemEmail
  }

  function ImportedUrl(job: Job, systemUser: UserId, row: Row): ShortUrl {
    ShortUrl(job.domain, row.keyword, row.url, row.title, systemUser, row.createdAt, YourlsImport)
  }

  /** The row's code, target, title and date, under the job's domain, as the system user's import. */
  predicate CarriesOver(job: Job, systemUser: UserId, row: Row, url: ShortUrl) {
    && url.domain == job.domain && url.code == row.keyword
    && url.longUrl == row.url && url.title == row.title && url.createdAt == row.createdAt
    && url.createdBy == systemUser && url.source == YourlsImport
  }

  /** A row belongs to the non-empty email mapped to its keyword, and to the system user without one. */
  lemma OwnerEmailIff(job: Job, row: Row, email: string)
    ensures OwnerEmail(job, row) == email <==>
              || ((row.keyword, email) in job.owners.Items && email != "")
              || ((row.keyword !in job.owners || (row.keyword, "") in job.owners.Items) && email == job.systemEmail)
  {
  }

  function Baseline(job: Job, row: Row): Option<(int, nat)> {
    if row.clicks > 0 then Some((job.today, row.clicks)) else None
  }

  predicate Eligible(w: World, job: Job, row: Row) {
    !IsReservedShortCode(row.keyword) && !Taken(w.urls, job.domain, row.keyword)
  }

  // ----- The import without a cache and without failures -----

  function MigrateRow(w: World, job: Job, systemUser: UserId, row: Row): World {
    var known := Known(w, OwnerEmail(job, row));
    if Eligible(w, job, row)
    then Imported(known, ImportedUrl(job, systemUser, row), FindUser(known.users, OwnerEmail(job, row)), Baseline(job, row))
    else known
  }

  function RowStep(job: Job, systemUser: UserId): (World, Row) -> World {
    (w, row) => MigrateRow(w, job, systemUser, row)
  }

  function MigrateRows(w: World, job: Job, systemUser: UserId, rows: seq<Row>): World {
    FoldLeft(RowStep(job, systemUser), w, rows)
  }

  lemma MigrateRowsLast(w: World, job: Job, systemUser: UserId, rows: seq<Row>)
    requires rows != []
    ensures MigrateRows(w, job, systemUser, rows) ==
            MigrateRow(MigrateRows(w, job, systemUser, rows[..|rows| - 1]), job, systemUser, rows[|rows| - 1])
  {
  }

  function SystemUser(w: World, job: Job): UserId {
    FindEnsured(w.users, job.systemEmail);
    FindUser(EnsureUser(w.users, job.systemEmail), job.systemEmail).value
  }

  function Migrate(w: World, job: Job, rows: seq<Row>): World {
    MigrateRows(Known(w, job.systemEmail), job, SystemUser(w, job), rows)
  }

  // ----- Emails: what the cache compares against what the store compares -----

  lemma {:induction false} FoldTrimLeft(s: string)
    ensures Fold(TrimLeft(s)) == TrimLeft(Fold(s))
    decreases |s|
  {
    if s != "" && IsSpace(s[0]) {
      FoldTrimLeft(s[1..]);
      assert Fold(s)[1..] == Fold(s[1..]);
    }
  }

  lemma {:induction false} FoldTrimRight(s: string)
    ensures Fold(TrimRight(s)) == TrimRight(Fold(s))
    decreases |s|
  {
    if s != "" && IsSpace(s[|s| - 1]) {
      FoldTrimRight(s[..|s| - 1]);
      assert Fold(s)[..|s| - 1] == Fold(s[..|s| - 1]);
    }
  }

  /** Emails the store takes for equal are equal to the cache. */
  lemma NormalizeRespectsFold(a: string, b: string)
    requires EqualFold(a, b)
    ensures NormalizeEmail(a) == NormalizeEmail(b)
  {
    FoldTrimLeft(a);
    FoldTrimLeft(b);
    FoldTrimRight(TrimLeft(a));
    FoldTrimRight(TrimLeft(b));
  }

  /** Two emails, each with its outer white space set apart, are equal to the cache exactly when what is left of them
      differs by letter case at most. */
  lemma SameKeyIff(pa: string, a: string, qa: string, pb: string, b: string, qb: string)
    requires AllSpace(pa) && AllSpace(qa) && AllSpace(pb) && AllSpace(qb) && Trimmed(a) && Trimmed(b)
    ensures NormalizeEmail(pa + a + qa) == NormalizeEmail(pb + b + qb) <==> EqualFold(a, b)
  {
    TrimSpaceOf(pa, a, qa);
    TrimSpaceOf(pb, b, qb);
  }

  /** Every email the import looks up, in order. */
  function Emails(job: Job, rows: seq<Row>): seq<string> {
    if rows == [] then [job.systemEmail] else Emails(job, rows[..|rows| - 1]) + [OwnerEmail(job, rows[|rows| - 1])]
  }

  /** No two emails are equal to the cache but different to the store, that is, differ by outer white space. */
  ghost predicate SpacingConsistent(emails: seq<string>) {
    forall a, b :: a in emails && b in emails && NormalizeEmail(a) == NormalizeEmail(b) ==> EqualFold(a, b)
  }

  type Cache = map<string, UserId>

  datatype Lookups = Lookups(users: seq<string>, ids: seq<UserId>)

  /** find-or-create for each email in turn, asking the store every time. */
  function Uncached(users: seq<string>, emails: seq<string>): (r: Lookups)
    ensures |r.ids| == |emails| && users <= r.users
  {
    if emails == [] then Lookups(users, [])
    else
      var before := Uncached(users, emails[..|emails| - 1]);
      var email := emails[|emails| - 1];
      FindEnsured(before.users, email);
      var after := EnsureUser(before.users, email);
      Lookups(after, before.ids + [FindUser(after, email).value])
  }

  /** One find-or-create with the cache in front of the store. */
  function LookUp(users: seq<string>, cache: Cache, email: string): (r: (seq<string>, UserId, Cache))
    ensures users <= r.0
  {
    var key := NormalizeEmail(email);
    if key in cache then (users, cache[key], cache)
    else
      FindEnsured(users, email);
      var after := EnsureUser(users, email);
      var id := FindUser(after, email).value;
      (after, id, cache[key := id])
  }

  /** The same lookups through the cache. */
  function Cached(users: seq<string>, emails: seq<string>): (r: (Lookups, Cache))
    ensures |r.0.ids| == |emails| && users <= r.0.users
  {
    if emails == [] then (Lookups(users, []), map[])
    else
      var (before, cache) := Cached(users, emails[..|emails| - 1]);
      var (after, id, cache') := LookUp(before.users, cache, emails[|emails| - 1]);
      (Lookups(after, before.ids + [id]), cache')
  }

  ghost predicate Answers(r: Lookups, emails: seq<string>, i: nat) {
    i < |emails| && i < |r.ids| && FindUser(r.users, emails[i]) == Some(r.ids[i])
  }

  lemma EnsureKeeps(users: seq<string>, email: string, other: string)
    requires FindUser(users, other).Some?
    ensures FindUser(EnsureUser(users, email), other) == FindUser(users, other)
  {
    FindEnsured(users, email);
    FindUserInPrefix(users, EnsureUser(users, email), other);
  }

  lemma UncachedStep(users: seq<string>, emails: seq<string>)
    requires emails != []
    ensures var n := |emails| - 1;
      var before, r := Uncached(users, emails[..n]), Uncached(users, emails);
      && r.users == EnsureUser(before.users, emails[n])
      && before.ids <= r.ids
      && Answers(r, emails, n)
  {
    FindEnsured(Uncached(users, emails[..|emails| - 1]).users, emails[|emails| - 1]);
  }

  lemma {:induction false} UncachedFinds(users: seq<string>, emails: seq<string>, i: nat)
    requires i < |emails|
    ensures Answers(Uncached(users, emails), emails, i)
    decreases |emails|
  {
    var n := |emails| - 1;
    UncachedStep(users, emails);
    if i != n {
      assert |emails[..n]| == n;
      UncachedFinds(users, emails[..n], i);
      EnsureAnswers(Uncached(users, emails[..n]), Uncached(users, emails), emails, i);
    }
  }

  lemma EnsureAnswers(before: Lookups, after: Lookups, emails: seq<string>, i: nat)
    requires emails != [] && Answers(before, emails[..|emails| - 1], i) && before.ids <= after.ids
    requires after.users == EnsureUser(before.users, emails[|emails| - 1])
    ensures Answers(after, emails, i)
  {
    EnsureKeeps(before.users, emails[|emails| - 1], emails[i]);
  }

  /** The cache answers each key as it was answered the first time. */
  lemma {:induction false} CachedRepeats(users: seq<string>, emails: seq<string>, i: nat)
    requires i < |emails|
    ensures var (r, cache) := Cached(users, emails);
      NormalizeEmail(emails[i]) in cache && cache[NormalizeEmail(emails[i])] == r.ids[i]
    decreases |emails|
  {
    var n := |emails| - 1;
    if i != n {
      assert |emails[..n]| == n && emails[..n][i] == emails[i];
      CachedRepeats(users, emails[..n], i);
    }
  }

  lemma {:induction false} CacheKeys(users: seq<string>, emails: seq<string>, key: string) returns (i: nat)
    requires key in Cached(users, emails).1
    ensures i < |emails| && NormalizeEmail(emails[i]) == key
    decreases |emails|
  {
    var n := |emails| - 1;
    if NormalizeEmail(emails[n]) == key {
      i := n;
    } else {
      i := CacheKeys(users, emails[..n], key);
    }
  }

  /** While cached and uncached lookups agree, what the cache answers an email is what the store would. */
  lemma CacheAnswersAsStore(users: seq<string>, emails: seq<string>, email: string)
    requires Cached(users, emails).0 == Uncached(users, emails)
    requires SpacingConsistent(emails + [email]) && NormalizeEmail(email) in Cached(users, emails).1
    ensures FindUser(Uncached(users, emails).users, email) == Some(Cached(users, emails).1[NormalizeEmail(email)])
  {
    var i := CacheKeys(users, emails, NormalizeEmail(email));
    CachedRepeats(users, emails, i);
    UncachedFinds(users, emails, i);
    assert emails[i] in emails + [email] && email in emails + [email];
    FindUserFolds(Uncached(users, emails).users, emails[i], email);
  }

  lemma LookUpAsStore(users: seq<string>, cache: Cache, email: string)
    requires NormalizeEmail(email) in cache ==> FindUser(users, email) == Some(cache[NormalizeEmail(email)])
    ensures var (after, id, _) := LookUp(users, cache, email);
      after == EnsureUser(users, email) && FindUser(after, email) == Some(id)
  {
    FindEnsured(users, email);
  }

  lemma {:induction false} CacheAgreesIfConsistent(users: seq<string>, emails: seq<string>)
    requires SpacingConsistent(emails)
    ensures Cached(users, emails).0 == Uncached(users, emails)
    decreases |emails|
  {
    if emails != [] {
      var n := |emails| - 1;
      var earlier, email := emails[..n], emails[n];
      assert emails == earlier + [email] && |earlier| == n;
      PrefixConsistent(earlier, email);
      CacheAgreesIfConsistent(users, earlier);
      if NormalizeEmail(email) in Cached(users, earlier).1 {
        CacheAnswersAsStore(users, earlier, email);
      }
      LookUpAsStore(Uncached(users, earlier).users, Cached(users, earlier).1, email);
      CachedSnoc(users, earlier, email);
      UncachedSnoc(users, earlier, email);
    }
  }

  /** The cached lookups return the same users and leave the same users table as uncached ones exactly when no
      two of the emails differ by outer white space: the cache trims, the store does not. */
  lemma CacheAgreesIff(users: seq<string>, emails: seq<string>)
    ensures Cached(users, emails).0 == Uncached(users, emails) <==> SpacingConsistent(emails)
  {
    if SpacingConsistent(emails) {
      CacheAgreesIfConsistent(users, emails);
    } else {
      var a, b :| a in emails && b in emails && NormalizeEmail(a) == NormalizeEmail(b) && !EqualFold(a, b);
      var i: nat :| i < |emails| && emails[i] == a;
      var j: nat :| j < |emails| && emails[j] == b;
      CachedRepeats(users, emails, i);
      CachedRepeats(users, emails, j);
      UncachedFinds(users, emails, i);
      UncachedFinds(users, emails, j);
    }
  }

  lemma SpacedApart(pre: string, email: string, post: string)
    requires AllSpace(pre) && AllSpace(post) && pre + post != "" && Trimmed(email)
    ensures NormalizeEmail(email) == NormalizeEmail(pre + email + post) && !EqualFold(email, pre + email + post)
  {
    SameKeyIff("", email, "", pre, email, post);
    assert "" + email + "" == email && |pre + email + post| != |email|;
  }

  /** The failing input: any list with one email both bare and with white space around it. */
  lemma SpacingShows(users: seq<string>, emails: seq<string>, pre: string, email: string, post: string)
    requires AllSpace(pre) && AllSpace(post) && pre + post != "" && Trimmed(email)
    requires email in emails && pre + email + post in emails
    ensures Cached(users, emails).0 != Uncached(users, emails)
  {
    SpacedApart(pre, email, post);
    NotConsistent(emails, email, pre + email + post);
    CacheAgreesIff(users, emails);
  }

  lemma NotConsistent(emails: seq<string>, a: string, b: string)
    requires a in emails && b in emails && NormalizeEmail(a) == NormalizeEmail(b) && !EqualFold(a, b)
    ensures !SpacingConsistent(emails)
  {
  }

  // ----- What the import produces -----

  ghost predicate IsCode(w: World, job: Job, code: string, id: UrlId) {
    id < |w.urls| && w.urls[id].domain == job.domain && w.urls[id].code == code
  }

  /** URL `id` is row's: its fields, exactly one owner, that of the mapping, and its clicks as a baseline. */
  ghost predicate ComesFrom(w: World, job: Job, systemUser: UserId, id: UrlId, row: Row) {
    && id < |w.urls| && CarriesOver(job, systemUser, row, w.urls[id])
    && FindUser(w.users, OwnerEmail(job, row)).Some?
    && GrantsOf(w, id) == map[FindUser(w.users, OwnerEmail(job, row)).value := Owner]
    && (row.clicks > 0 ==>
          ClickEvents.DailyKey(id, job.today) in w.daily && w.daily[ClickEvents.DailyKey(id, job.today)] == row.clicks)
  }

  /** The import touches nothing that was there. */
  ghost predicate Untouched(w: World, w': World) {
    && w.users <= w'.users && w.urls <= w'.urls
    && (forall id: UrlId :: id < |w.urls| ==> GrantsOf(w', id) == GrantsOf(w, id))
    && (forall key: ClickEvents.DailyKey :: key.url < |w.urls| ==> (key in w'.daily <==> key in w.daily))
    && (forall key: ClickEvents.DailyKey :: key.url < |w.urls| && key in w.daily ==> w'.daily[key] == w.daily[key])
  }

  /** Grants hang on rows that exist. */
  ghost predicate GrantsHang(w: World) {
    forall id :: id in w.grants ==> id < |w.urls|
  }

  lemma KnownUntouched(w: World, email: string)
    requires GrantsHang(w)
    ensures Untouched(w, Known(w, email)) && GrantsHang(Known(w, email))
  {
    FindEnsured(w.users, email);
  }

  lemma ImportedUntouched(w: World, url: ShortUrl, owner: Option<UserId>, total: Option<(int, nat)>)
    requires GrantsHang(w)
    ensures Untouched(w, Imported(w, url, owner, total)) && GrantsHang(Imported(w, url, owner, total))
  {
  }

  lemma RowUntouched(w: World, job: Job, systemUser: UserId, row: Row)
    requires GrantsHang(w)
    ensures Untouched(w, MigrateRow(w, job, systemUser, row)) && GrantsHang(MigrateRow(w, job, systemUser, row))
  {
    var email := OwnerEmail(job, row);
    var known := Known(w, email);
    KnownUntouched(w, email);
    ImportedUntouched(known, ImportedUrl(job, systemUser, row), FindUser(known.users, email), Baseline(job, row));
  }

  lemma RowComesFrom(w: World, job: Job, systemUser: UserId, row: Row)
    requires GrantsHang(w) && Eligible(w, job, row)
    ensures ComesFrom(MigrateRow(w, job, systemUser, row), job, systemUser, |w.urls|, row)
  {
    FindEnsured(w.users, OwnerEmail(job, row));
    var known := Known(w, OwnerEmail(job, row));
    ImportedComesFrom(known, job, systemUser, row, FindUser(known.users, OwnerEmail(job, row)).value);
  }

  lemma ImportedComesFrom(w: World, job: Job, systemUser: UserId, row: Row, owner: UserId)
    requires GrantsHang(w) && FindUser(w.users, OwnerEmail(job, row)) == Some(owner)
    ensures ComesFrom(Imported(w, ImportedUrl(job, systemUser, row), Some(owner), Baseline(job, row)),
                      job, systemUser, |w.urls|, row)
  {
    var w' := Imported(w, ImportedUrl(job, systemUser, row), Some(owner), Baseline(job, row));
    assert GrantsOf(w', |w.urls|) == map[owner := Owner];
  }

  lemma UntouchedTrans(w0: World, w1: World, w2: World)
    requires Untouched(w0, w1) && Untouched(w1, w2)
    ensures Untouched(w0, w2)
  {
  }

  lemma StillComesFrom(w: World, w': World, job: Job, systemUser: UserId, id: UrlId, row: Row)
    requires Untouched(w, w') && ComesFrom(w, job, systemUser, id, row)
    ensures ComesFrom(w', job, systemUser, id, row)
  {
    FindUserInPrefix(w.users, w'.users, OwnerEmail(job, row));
  }

  lemma MigrateRowsUntouched(w: World, job: Job, systemUser: UserId, rows: seq<Row>)
    requires GrantsHang(w)
    ensures Untouched(w, MigrateRows(w, job, systemUser, rows)) && GrantsHang(MigrateRows(w, job, systemUser, rows))
  {
    var keeps := (x: World) => Untouched(w, x) && GrantsHang(x);
    forall x: World, next: Row | keeps(x) ensures keeps(RowStep(job, systemUser)(x, next)) {
      RowUntouched(x, job, systemUser, next);
      UntouchedTrans(w, x, MigrateRow(x, job, systemUser, next));
    }
    FoldKeeps(RowStep(job, systemUser), w, rows, keeps);
  }

  lemma TakenAfterRow(w: World, job: Job, systemUser: UserId, row: Row, code: string)
    ensures Taken(MigrateRow(w, job, systemUser, row).urls, job.domain, code) <==>
              Taken(w.urls, job.domain, code) || (!IsReservedShortCode(code) && row.keyword == code)
  {
    var w' := MigrateRow(w, job, systemUser, row);
    if Eligible(w, job, row) {
      assert w'.urls == w.urls + [ImportedUrl(job, systemUser, row)];
      TakenWithOneMore(w.urls, ImportedUrl(job, systemUser, row), job.domain, code);
    } else {
      assert w'.urls == w.urls;
    }
  }

  lemma TakenWithOneMore(urls: seq<ShortUrl>, url: ShortUrl, domain: DomainId, code: string)
    ensures Taken(urls + [url], domain, code) <==> Taken(urls, domain, code) || (url.domain == domain && url.code == code)
  {
    var urls' := urls + [url];
    if Taken(urls, domain, code) {
      var id :| 0 <= id < |urls| && urls[id].domain == domain && urls[id].code == code;
      assert urls'[id] == urls[id];
    }
    assert urls'[|urls|] == url;
  }

  ghost predicate AskedFor(rows: seq<Row>, code: string) {
    exists row :: row in rows && row.keyword == code
  }

  lemma AskedForLast(rows: seq<Row>, code: string)
    requires rows != []
    ensures AskedFor(rows, code) <==> AskedFor(rows[..|rows| - 1], code) || rows[|rows| - 1].keyword == code
  {
    assert rows == rows[..|rows| - 1] + [rows[|rows| - 1]];
  }

  /** Which codes are in use after an import: those in use before, and the unreserved keywords. */
  lemma {:induction false} TakenAfterRows(w: World, job: Job, systemUser: UserId, rows: seq<Row>, code: string)
    ensures Taken(MigrateRows(w, job, systemUser, rows).urls, job.domain, code) <==>
              Taken(w.urls, job.domain, code) || (!IsReservedShortCode(code) && AskedFor(rows, code))
    decreases |rows|
  {
    if rows != [] {
      var n := |rows| - 1;
      assert |rows[..n]| == n;
      TakenAfterRows(w, job, systemUser, rows[..n], code);
      MigrateRowsLast(w, job, systemUser, rows);
      TakenAfterRow(MigrateRows(w, job, systemUser, rows[..n]), job, systemUser, rows[n], code);
      AskedForLast(rows, code);
    }
  }

  /** The row's keyword is in use, and by the row itself. */
  ghost predicate RowWon(w: World, job: Job, systemUser: UserId, row: Row) {
    exists id :: IsCode(w, job, row.keyword, id) && ComesFrom(w, job, systemUser, id, row)
  }

  lemma StillWon(w: World, job: Job, systemUser: UserId, row: Row, next: Row)
    requires GrantsHang(w) && RowWon(w, job, systemUser, row)
    ensures RowWon(MigrateRow(w, job, systemUser, next), job, systemUser, row)
  {
    var w' := MigrateRow(w, job, systemUser, next);
    RowUntouched(w, job, systemUser, next);
    var id :| IsCode(w, job, row.keyword, id) && ComesFrom(w, job, systemUser, id, row);
    StillComesFrom(w, w', job, systemUser, id, row);
    assert IsCode(w', job, row.keyword, id);
  }

  lemma EligibleWins(w: World, job: Job, systemUser: UserId, row: Row)
    requires GrantsHang(w) && Eligible(w, job, row)
    ensures RowWon(MigrateRow(w, job, systemUser, row), job, systemUser, row)
  {
    RowComesFrom(w, job, systemUser, row);
    assert IsCode(MigrateRow(w, job, systemUser, row), job, row.keyword, |w.urls|);
  }

  lemma WinnerStays(w: World, job: Job, systemUser: UserId, rows: seq<Row>, row: Row)
    requires GrantsHang(w) && RowWon(w, job, systemUser, row)
    ensures RowWon(MigrateRows(w, job, systemUser, rows), job, systemUser, row)
  {
    var keeps := (x: World) => GrantsHang(x) && RowWon(x, job, systemUser, row);
    forall x: World, next: Row | keeps(x) ensures keeps(RowStep(job, systemUser)(x, next)) {
      StillWon(x, job, systemUser, row, next);
      RowUntouched(x, job, systemUser, next);
    }
    FoldKeeps(RowStep(job, systemUser), w, rows, keeps);
  }

  lemma FreeUntilAsked(w: World, job: Job, systemUser: UserId, earlier: seq<Row>, row: Row)
    requires Eligible(w, job, row) && forall other :: other in earlier ==> other.keyword != row.keyword
    ensures Eligible(MigrateRows(w, job, systemUser, earlier), job, row)
  {
    TakenAfterRows(w, job, systemUser, earlier, row.keyword);
  }

  lemma FirstAskerWins(w: World, job: Job, systemUser: UserId, earlier: seq<Row>, row: Row)
    requires GrantsHang(w) && Eligible(w, job, row) && forall other :: other in earlier ==> other.keyword != row.keyword
    ensures var after := MigrateRows(w, job, systemUser, earlier + [row]);
      GrantsHang(after) && RowWon(after, job, systemUser, row)
  {
    var before := MigrateRows(w, job, systemUser, earlier);
    MigrateRowsUntouched(w, job, systemUser, earlier);
    FreeUntilAsked(w, job, systemUser, earlier, row);
    EligibleWins(before, job, systemUser, row);
    RowUntouched(before, job, systemUser, row);
    MigrateRowsLast(w, job, systemUser, earlier + [row]);
    assert (earlier + [row])[..|earlier + [row]| - 1] == earlier;
  }

  /** A free, unreserved code goes to the first row that asks for it, with that row's owner and clicks. */
  lemma FirstEligibleRowWins(w: World, job: Job, systemUser: UserId, earlier: seq<Row>, row: Row, later: seq<Row>)
    requires GrantsHang(w) && Eligible(w, job, row) && forall other :: other in earlier ==> other.keyword != row.keyword
    ensures RowWon(MigrateRows(w, job, systemUser, earlier + [row] + later), job, systemUser, row)
  {
    FirstAskerWins(w, job, systemUser, earlier, row);
    WinnerStays(MigrateRows(w, job, systemUser, earlier + [row]), job, systemUser, later, row);
    FoldConcat(RowStep(job, systemUser), w, earlier + [row], later);
  }

  // ----- Running it again -----

  ghost predicate CodesSettled(w: World, job: Job, rows: seq<Row>) {
    forall row :: row in rows ==> !Eligible(w, job, row)
  }

  /** Nothing is left to do: every keyword is reserved or in use, and every email belongs to a user. */
  ghost predicate Settled(w: World, job: Job, rows: seq<Row>) {
    && CodesSettled(w, job, rows)
    && FindUser(w.users, job.systemEmail).Some?
    && forall row :: row in rows ==> FindUser(w.users, OwnerEmail(job, row)).Some?
  }

  lemma {:induction false} MigrateRowsSettles(w: World, job: Job, systemUser: UserId, rows: seq<Row>)
    requires GrantsHang(w) && FindUser(w.users, job.systemEmail).Some?
    ensures Settled(MigrateRows(w, job, systemUser, rows), job, rows)
    decreases |rows|
  {
    if rows != [] {
      var n := |rows| - 1;
      var w1 := MigrateRows(w, job, systemUser, rows[..n]);
      MigrateRowsSettles(w, job, systemUser, rows[..n]);
      MigrateRowsUntouched(w, job, systemUser, rows[..n]);
      RowSettles(w1, job, systemUser, rows);
    }
  }

  lemma RowSettles(w: World, job: Job, systemUser: UserId, rows: seq<Row>)
    requires rows != [] && GrantsHang(w) && Settled(w, job, rows[..|rows| - 1])
    ensures Settled(MigrateRow(w, job, systemUser, rows[|rows| - 1]), job, rows)
  {
    var n := |rows| - 1;
    var w' := MigrateRow(w, job, systemUser, rows[n]);
    RowUntouched(w, job, systemUser, rows[n]);
    RowSettlesCodes(w, job, systemUser, rows);
    FindUserInPrefix(w.users, w'.users, job.systemEmail);
    assert w'.users == EnsureUser(w.users, OwnerEmail(job, rows[n]));
    OwnersStayKnown(w.users, w'.users, job, rows);
  }

  lemma RowSettlesCodes(w: World, job: Job, systemUser: UserId, rows: seq<Row>)
    requires rows != [] && CodesSettled(w, job, rows[..|rows| - 1])
    ensures CodesSettled(MigrateRow(w, job, systemUser, rows[|rows| - 1]), job, rows)
  {
    var n := |rows| - 1;
    assert rows == rows[..n] + [rows[n]];
    forall row | row in rows ensures !Eligible(MigrateRow(w, job, systemUser, rows[n]), job, row) {
      TakenAfterRow(w, job, systemUser, rows[n], row.keyword);
    }
  }

  lemma OwnersStayKnown(users: seq<string>, users': seq<string>, job: Job, rows: seq<Row>)
    requires rows != [] && users' == EnsureUser(users, OwnerEmail(job, rows[|rows| - 1]))
    requires forall row :: row in rows[..|rows| - 1] ==> FindUser(users, OwnerEmail(job, row)).Some?
    ensures forall row :: row in rows ==> FindUser(users', OwnerEmail(job, row)).Some?
  {
    var n := |rows| - 1;
    var email := OwnerEmail(job, rows[n]);
    assert rows == rows[..n] + [rows[n]];
    forall row | row in rows ensures FindUser(users', OwnerEmail(job, row)).Some? {
      if row in rows[..n] {
        EnsureKeeps(users, email, OwnerEmail(job, row));
      } else {
        FindEnsured(users, email);
      }
    }
  }

  lemma {:induction false} SettledRowsAreNoOps(w: World, job: Job, systemUser: UserId, rows: seq<Row>)
    requires Settled(w, job, rows)
    ensures MigrateRows(w, job, systemUser, rows) == w
    decreases |rows|
  {
    if rows != [] {
      var n := |rows| - 1;
      SettledRowsAreNoOps(w, job, systemUser, rows[..n]);
      assert rows[n] in rows && !Eligible(w, job, rows[n]);
      assert Known(w, OwnerEmail(job, rows[n])) == w;
    }
  }

  /** Once every keyword is in use or reserved it stays so, whatever the services do meanwhile. */
  lemma CodesSettledForever(w: World, actions: seq<Action>, job: Job, rows: seq<Row>)
    requires Inv(w) && CodesSettled(w, job, rows)
    ensures CodesSettled(Run(w, actions), job, rows)
  {
    forall row | row in rows ensures !Eligible(Run(w, actions), job, row) {
      assert !Eligible(w, job, row);
      TakenStays(w, actions, job.domain, row.keyword);
    }
  }

  lemma SettledForever(w: World, actions: seq<Action>, job: Job, rows: seq<Row>)
    requires Inv(w) && Settled(w, job, rows)
    ensures Settled(Run(w, actions), job, rows)
  {
    var w' := Run(w, actions);
    CodesSettledForever(w, actions, job, rows);
    RunKeepsRows(w, actions);
    FindUserInPrefix(w.users, w'.users, job.systemEmail);
    forall row | row in rows ensures FindUser(w'.users, OwnerEmail(job, row)).Some? {
      FindUserInPrefix(w.users, w'.users, OwnerEmail(job, row));
    }
  }

  lemma TakenStays(w: World, actions: seq<Action>, domain: DomainId, code: string)
    requires Inv(w)
    ensures Taken(w.urls, domain, code) ==> Taken(Run(w, actions).urls, domain, code)
  {
    RunKeepsRows(w, actions);
    if Taken(w.urls, domain, code) {
      var id :| 0 <= id < |w.urls| && w.urls[id].domain == domain && w.urls[id].code == code;
      assert SameRow(w.urls[id], Run(w, actions).urls[id]);
    }
  }

  /** Import, let the services run, with clicks counted, URLs edited and grants changed, and import again, on
      whatever day: the second import changes nothing at all. */
  lemma RerunIsSafe(w: World, job: Job, rows: seq<Row>, actions: seq<Action>, day: int)
    requires Inv(w)
    ensures var later := Run(Migrate(w, job, rows), actions);
      Migrate(later, job.(today := day), rows) == later
  {
    var known := Known(w, job.systemEmail);
    FindEnsured(w.users, job.systemEmail);
    InvStep(w, AddUser(job.systemEmail));
    MigrateRowsSettles(known, job, SystemUser(w, job), rows);
    var w1 := Migrate(w, job, rows);
    MigrateIsARun(w, job, rows);
    SettledForever(w1, actions, job, rows);
    var later, job' := Run(w1, actions), job.(today := day);
    SettledOnAnyDay(later, job, rows, day);
    assert Known(later, job'.systemEmail) == later;
    SettledRowsAreNoOps(later, job', SystemUser(later, job'), rows);
  }

  lemma SettledOnAnyDay(w: World, job: Job, rows: seq<Row>, day: int)
    requires Settled(w, job, rows)
    ensures Settled(w, job.(today := day), rows)
  {
    var job' := job.(today := day);
    forall row | row in rows ensures !Eligible(w, job', row) && FindUser(w.users, OwnerEmail(job', row)).Some? {
      assert !Eligible(w, job, row) && FindUser(w.users, OwnerEmail(job, row)).Some?;
    }
  }

  lemma MigrateIsARun(w: World, job: Job, rows: seq<Row>)
    requires Inv(w)
    ensures Inv(Migrate(w, job, rows))
  {
    FindEnsured(w.users, job.systemEmail);
    InvStep(w, AddUser(job.systemEmail));
    MigrateRowsInv(Known(w, job.systemEmail), job, SystemUser(w, job), rows);
  }

  lemma {:induction false} MigrateRowsInv(w: World, job: Job, systemUser: UserId, rows: seq<Row>)
    requires Inv(w) && systemUser < |w.users|
    ensures Inv(MigrateRows(w, job, systemUser, rows))
    decreases |rows|
  {
    if rows != [] {
      var n := |rows| - 1;
      MigrateRowsInv(w, job, systemUser, rows[..n]);
      MigrateRowsUntouched(w, job, systemUser, rows[..n]);
      MigrateRowInv(MigrateRows(w, job, systemUser, rows[..n]), job, systemUser, rows[n]);
    }
  }

  lemma MigrateRowInv(w: World, job: Job, systemUser: UserId, row: Row)
    requires Inv(w) && systemUser < |w.users|
    ensures Inv(MigrateRow(w, job, systemUser, row))
  {
    var email := OwnerEmail(job, row);
    FindEnsured(w.users, email);
    InvStep(w, AddUser(email));
    var known := Step(w, AddUser(email));
    var insertion := Import(ImportedUrl(job, systemUser, row), FindUser(known.users, email), Baseline(job, row));
    InvStep(known, insertion);
    assert MigrateRow(w, job, systemUser, row) == if Eligible(w, job, row) then Step(known, insertion) else known;
  }

  // ----- The loop, with its cache and whatever fails -----

  /** URL `id` was inserted for this row, and nobody but the mapped owner was granted anything on it. */
  ghost predicate MadeFrom(w: World, job: Job, systemUser: UserId, id: UrlId, row: Row) {
    && id < |w.urls| && CarriesOver(job, systemUser, row, w.urls[id])
    && forall user :: user in GrantsOf(w, id) ==>
         GrantsOf(w, id)[user] == Owner && user < |w.users|
         && NormalizeEmail(w.users[user]) == NormalizeEmail(OwnerEmail(job, row))
  }

  ghost predicate MadeFromOneOf(w: World, job: Job, systemUser: UserId, id: UrlId, rows: seq<Row>) {
    exists row :: row in rows && MadeFrom(w, job, systemUser, id, row)
  }

  ghost predicate NewUrlsMadeFrom(w0: World, w: World, job: Job, systemUser: UserId, rows: seq<Row>) {
    forall id: UrlId :: |w0.urls| <= id < |w.urls| ==> MadeFromOneOf(w, job, systemUser, id, rows)
  }

  ghost predicate NewUrlsOwned(w0: World, w: World) {
    forall id: UrlId :: |w0.urls| <= id < |w.urls| ==> |OwnersOf(w, id)| == 1
  }

  /** The new URLs that have an owner. */
  function OwnedSince(w0: World, w: World): set<UrlId> {
    set id: UrlId | |w0.urls| <= id < |w.urls| && OwnersOf(w, id) != {}
  }

  /** What holds once `rows` have been worked through, whatever failed. */
  ghost predicate Accounted(w0: World, w: World, job: Job, systemUser: UserId, rows: seq<Row>, s: Summary) {
    && Untouched(w0, w)
    // Every row is counted once.
    && s.migrated + s.skipped + s.failed == |rows|
    // Every migrated row made a URL with an owner, and only failed rows may have made further ones.
    && s.migrated <= |OwnedSince(w0, w)|
    && |w0.urls| + s.migrated <= |w.urls| <= |w0.urls| + s.migrated + s.failed
    // Every new URL is some row's.
    && NewUrlsMadeFrom(w0, w, job, systemUser, rows)
    // Unless a row failed, every new URL has its owner and no row is left to do.
    && (s.failed == 0 ==> NewUrlsOwned(w0, w))
    && (s.failed == 0 ==> CodesSettled(w, job, rows))
  }

  /** Resolving an owner disturbs nothing. */
  lemma AccountedAfterLookup(w0: World, w: World, job: Job, systemUser: UserId, rows: seq<Row>, s: Summary,
                             email: string)
    requires Accounted(w0, w, job, systemUser, rows, s)
    ensures Accounted(w0, Known(w, email), job, systemUser, rows, s)
  {
    var w' := Known(w, email);
    FindEnsured(w.users, email);
    UntouchedTrans(w0, w, w');
    OwnersStay(w, w');
    assert OwnedSince(w0, w') == OwnedSince(w0, w);
    forall id: UrlId | |w0.urls| <= id < |w.urls| ensures MadeFromOneOf(w', job, systemUser, id, rows) {
      assert MadeFromOneOf(w, job, systemUser, id, rows);
      var made :| made in rows && MadeFrom(w, job, systemUser, id, made);
      assert MadeFrom(w', job, systemUser, id, made);
    }
    assert forall row :: row in rows ==> !Eligible(w, job, row) ==> !Eligible(w', job, row);
  }

  /** A row that inserts nothing is counted as failed, or as skipped if there was nothing to insert. */
  lemma AccountedWithoutInsert(w0: World, w: World, job: Job, systemUser: UserId, rows: seq<Row>, n: nat, s: Summary,
                               s': Summary)
    requires n < |rows| && Accounted(w0, w, job, systemUser, rows[..n], s)
    requires s' == s.(failed := s.failed + 1) || (s' == s.(skipped := s.skipped + 1) && !Eligible(w, job, rows[n]))
    ensures Accounted(w0, w, job, systemUser, rows[..n + 1], s')
  {
    NewUrlsStay(w0, w, w, job, systemUser, rows[..n], rows[n]);
    assert rows[..n + 1] == rows[..n] + [rows[n]];
  }

  lemma NewUrlsStay(w0: World, w: World, w': World, job: Job, systemUser: UserId, rows: seq<Row>, row: Row)
    requires Untouched(w, w') && NewUrlsMadeFrom(w0, w, job, systemUser, rows)
    requires forall id: UrlId :: |w.urls| <= id < |w'.urls| ==> MadeFrom(w', job, systemUser, id, row)
    ensures NewUrlsMadeFrom(w0, w', job, systemUser, rows + [row])
  {
    forall id: UrlId | |w0.urls| <= id < |w'.urls| ensures MadeFromOneOf(w', job, systemUser, id, rows + [row]) {
      if id < |w.urls| {
        assert MadeFromOneOf(w, job, systemUser, id, rows);
        var made :| made in rows && MadeFrom(w, job, systemUser, id, made);
        assert made in rows + [row] && MadeFrom(w', job, systemUser, id, made);
      } else {
        assert row in rows + [row] && MadeFrom(w', job, systemUser, id, row);
      }
    }
  }

  lemma OwnersStay(w: World, w': World)
    requires Untouched(w, w')
    ensures forall id: UrlId :: id < |w.urls| ==> OwnersOf(w', id) == OwnersOf(w, id)
  {
    forall id: UrlId | id < |w.urls| ensures OwnersOf(w', id) == OwnersOf(w, id) {
      assert GrantsOf(w', id) == GrantsOf(w, id);
    }
  }

  ghost predicate OwnerOption(w: World, job: Job, row: Row, owner: Option<UserId>) {
    owner.Some? ==> owner.value < |w.users| && NormalizeEmail(w.users[owner.value]) == NormalizeEmail(OwnerEmail(job, row))
  }

  lemma AccountedWithInsert(w0: World, w: World, job: Job, systemUser: UserId, rows: seq<Row>, n: nat,
                            owner: Option<UserId>, total: Option<(int, nat)>, s: Summary, s': Summary)
    requires n < |rows| && GrantsHang(w) && Accounted(w0, w, job, systemUser, rows[..n], s)
    requires OwnerOption(w, job, rows[n], owner)
    requires s' == s.(failed := s.failed + 1) || (s' == s.(migrated := s.migrated + 1) && owner.Some?)
    ensures var w' := Imported(w, ImportedUrl(job, systemUser, rows[n]), owner, total);
      Accounted(w0, w', job, systemUser, rows[..n + 1], s')
  {
    var w' := Imported(w, ImportedUrl(job, systemUser, rows[n]), owner, total);
    InsertedRow(w, job, systemUser, rows[n], owner, total);
    UntouchedTrans(w0, w, w');
    NewUrlsStay(w0, w, w', job, systemUser, rows[..n], rows[n]);
    OwnedWithInsert(w0, w, w');
    assert rows[..n + 1] == rows[..n] + [rows[n]];
    if s'.failed == 0 {
      OwnedWithOneMore(w0, w, w');
      InsertedSettles(w, job, systemUser, rows[..n], rows[n], owner, total);
    }
  }

  lemma OwnedWithInsert(w0: World, w: World, w': World)
    requires Untouched(w0, w) && Untouched(w, w') && |w'.urls| == |w.urls| + 1
    ensures |OwnedSince(w0, w')| == |OwnedSince(w0, w)| + if OwnersOf(w', |w.urls|) != {} then 1 else 0
  {
    OwnersStay(w, w');
    var id: UrlId := |w.urls|;
    assert OwnedSince(w0, w') == OwnedSince(w0, w) + if OwnersOf(w', id) != {} then {id} else {};
    assert id !in OwnedSince(w0, w);
  }

  lemma OwnedWithOneMore(w0: World, w: World, w': World)
    requires Untouched(w, w') && NewUrlsOwned(w0, w) && |w'.urls| == |w.urls| + 1 && |OwnersOf(w', |w.urls|)| == 1
    ensures NewUrlsOwned(w0, w')
  {
    OwnersStay(w, w');
  }

  lemma InsertedRow(w: World, job: Job, systemUser: UserId, row: Row, owner: Option<UserId>, total: Option<(int, nat)>)
    requires GrantsHang(w) && OwnerOption(w, job, row, owner)
    ensures var w' := Imported(w, ImportedUrl(job, systemUser, row), owner, total);
      && Untouched(w, w')
      && |w'.urls| == |w.urls| + 1
      && MadeFrom(w', job, systemUser, |w.urls|, row)
      && (owner.Some? ==> |OwnersOf(w', |w.urls|)| == 1)
  {
    var w' := Imported(w, ImportedUrl(job, systemUser, row), owner, total);
    if owner.Some? {
      assert GrantsOf(w', |w.urls|) == map[owner.value := Owner];
      assert OwnersOf(w', |w.urls|) == {owner.value};
    }
  }

  lemma InsertedSettles(w: World, job: Job, systemUser: UserId, rows: seq<Row>, row: Row,
                        owner: Option<UserId>, total: Option<(int, nat)>)
    requires CodesSettled(w, job, rows)
    ensures CodesSettled(Imported(w, ImportedUrl(job, systemUser, row), owner, total), job, rows + [row])
  {
    var w' := Imported(w, ImportedUrl(job, systemUser, row), owner, total);
    forall r | r in rows + [row] ensures !Eligible(w', job, r) {
      InsertedIsTaken(w, job, systemUser, row, owner, total, r.keyword);
    }
  }

  lemma InsertedIsTaken(w: World, job: Job, systemUser: UserId, row: Row, owner: Option<UserId>,
                        total: Option<(int, nat)>, code: string)
    ensures var w' := Imported(w, ImportedUrl(job, systemUser, row), owner, total);
      Taken(w.urls, job.domain, code) || code == row.keyword ==> Taken(w'.urls, job.domain, code)
  {
    var w' := Imported(w, ImportedUrl(job, systemUser, row), owner, total);
    if Taken(w.urls, job.domain, code) {
      var id :| 0 <= id < |w.urls| && w.urls[id].domain == job.domain && w.urls[id].code == code;
      assert w'.urls[id] == w.urls[id];
    } else {
      assert w'.urls[|w.urls|].code == row.keyword;
    }
  }

  /** The cache holds, per normalized email, a user with that normalized email. */
  ghost predicate CacheSound(cache: Cache, users: seq<string>) {
    forall key :: key in cache ==> cache[key] < |users| && NormalizeEmail(users[cache[key]]) == key
  }

  method ResolveOwner(store: Store, cache: Cache, email: string) returns (r: Result<UserId, StoreError>, cache': Cache)
    requires CacheSound(cache, store.world.users)
    modifies store`world, store`faults
    ensures store.world == old(store.world) || store.world == Known(old(store.world), email)
    ensures CacheSound(cache', store.world.users)
    ensures r.Ok? ==> r.value < |store.world.users| && NormalizeEmail(store.world.users[r.value]) == NormalizeEmail(email)
    ensures cache' == if r.Ok? then cache[NormalizeEmail(email) := r.value] else cache
    ensures NormalizeEmail(email) in cache ==> store.world == old(store.world) && r == Ok(cache[NormalizeEmail(email)])
    ensures NormalizeEmail(email) !in cache && r.Ok? ==>
              store.world == Known(old(store.world), email) && FindUser(store.world.users, email) == Some(r.value)
    ensures Follows(store.faults, old(store.faults)) && (r.Err? <==> !Succeeded(old(store.faults), store.faults))
    ensures r.Ok? ==> (store.world.users, r.value, cache') == LookUp(old(store.world.users), cache, email)
  {
    NoCallYet(store.faults);
    var key := NormalizeEmail(email);
    if key in cache {
      return Ok(cache[key]), cache;
    }
    r := store.FindOrCreateUser(email);
    cache' := cache;
    FindEnsured(old(store.world.users), email);
    if r.Ok? {
      cache' := cache[key := r.value];
      NormalizeRespectsFold(store.world.users[r.value], email);
    }
  }

  datatype Outcome = Migrated | Skipped | Failed

  function Tally(s: Summary, o: Outcome): Summary {
    match o
    case Migrated => s.(migrated := s.migrated + 1)
    case Skipped => s.(skipped := s.skipped + 1)
    case Failed => s.(failed := s.failed + 1)
  }

  /** What a row makes of the tables once its owner is resolved. */
  function ImportedRow(w: World, job: Job, systemUser: UserId, owner: UserId, row: Row): World {
    if Eligible(w, job, row) then Imported(w, ImportedUrl(job, systemUser, row), Some(owner), Baseline(job, row)) else w
  }

  /** The part of a row's work that follows the owner's resolution, by how its calls end: a new URL is left
      without an owner exactly when the insert took effect but was reported as failed, so that nothing was granted,
      or the grant took no effect; and then the row counts as failed. A failure to set the clicks is not counted. */
  method ImportRow(store: Store, job: Job, systemUser: UserId, owner: UserId, row: Row)
    returns (outcome: Outcome, ghost granted: Option<UserId>, ghost total: Option<(int, nat)>)
    requires GrantsHang(store.world)
    modifies store`world, store`faults
    ensures granted in {None, Some(owner)} && total in {None, Baseline(job, row)}
    ensures var first := old(store.faults); var second := LaterFaults(first); var third := LaterFaults(second);
      var insert, grant, count := NextFault(first), NextFault(second), NextFault(third);
      var eligible := Eligible(old(store.world), job, row);
      && (outcome == Skipped <==> IsReservedShortCode(row.keyword) || (!eligible && insert == NoFault))
      && (outcome == Migrated <==> eligible && insert == NoFault && grant == NoFault)
      && (granted.Some? <==> eligible && insert == NoFault && grant.TookEffect())
      && (total.Some? <==> outcome == Migrated && row.clicks > 0 && count.TookEffect())
      && store.world == (if eligible && insert.TookEffect()
                         then Imported(old(store.world), ImportedUrl(job, systemUser, row), granted, total)
                         else old(store.world))
      && (eligible && insert.TookEffect() ==>
            (OwnersOf(store.world, |old(store.world.urls)|) == {} <==> insert == FailedAfter || grant == FailedBefore))
    ensures Follows(store.faults, old(store.faults))
    ensures outcome == Outcome.Failed ==> !Succeeded(old(store.faults), store.faults)
    ensures Succeeded(old(store.faults), store.faults) ==>
              store.world == ImportedRow(old(store.world), job, systemUser, owner, row)
  {
    granted, total := None, None;
    NoCallYet(store.faults);
    if IsReservedShortCode(row.keyword) {
      return Skipped, granted, total;
    }
    ghost var w := store.world;
    var url := ImportedUrl(job, systemUser, row);
    NewUrlOwners(w, url, owner);
    OneCallMore(old(store.faults), store.faults);
    var id := store.InsertMigratedShortURL(url);
    if id == Err(Collision) {
      return Skipped, granted, total;
    }
    if id.Err? {
      return Outcome.Failed, granted, total;
    }
    assert store.world == Imported(w, url, None, None) && RoleOf(store.world, id.value, owner).None?;
    OneCallMore(old(store.faults), store.faults);
    var grantFailed := store.GrantOwner(id.value, owner);
    granted := if store.world == PutUrl(w, url) then None else Some(owner);
    if grantFailed {
      return Outcome.Failed, granted, total;
    }
    assert store.world == Imported(w, url, Some(owner), None);
    if row.clicks > 0 {
      OneCallMore(old(store.faults), store.faults);
      var setFailed := store.SetClickStatsTotal(id.value, job.today, row.clicks);
      total := if NextFault(LaterFaults(LaterFaults(old(store.faults)))).TookEffect() then Baseline(job, row) else None;
    }
    return Migrated, granted, total;
  }

  lemma NewUrlOwners(w: World, url: ShortUrl, owner: UserId)
    requires GrantsHang(w)
    ensures RoleOf(PutUrl(w, url), |w.urls|, owner).None?
    ensures forall total :: OwnersOf(Imported(w, url, None, total), |w.urls|) == {}
    ensures forall total :: OwnersOf(Imported(w, url, Some(owner), total), |w.urls|) == {owner}
    ensures PutGrant(PutUrl(w, url), |w.urls|, owner, Owner) != PutUrl(w, url)
  {
    forall total ensures OwnersOf(Imported(w, url, Some(owner), total), |w.urls|) == {owner} {
      assert GrantsOf(Imported(w, url, Some(owner), total), |w.urls|) == map[owner := Owner];
    }
    assert RoleOf(PutGrant(PutUrl(w, url), |w.urls|, owner, Owner), |w.urls|, owner) == Some(Owner);
  }

  /** Nobody owns such a URL on any continuation, and no later import has anything to do for its row. */
  lemma OwnerlessForever(w: World, job: Job, systemUser: UserId, row: Row, total: Option<(int, nat)>,
                         actions: seq<Action>)
    requires Inv(w) && systemUser < |w.users| && Eligible(w, job, row)
    ensures Inv(Imported(w, ImportedUrl(job, systemUser, row), None, total))
    ensures var later := Run(Imported(w, ImportedUrl(job, systemUser, row), None, total), actions);
      && Inv(later) && OwnersOf(later, |w.urls|) == {} && !Eligible(later, job, row)
  {
    var url := ImportedUrl(job, systemUser, row);
    var w' := Imported(w, url, None, total);
    assert w' == Step(w, Import(url, None, total));
    InvStep(w, Import(url, None, total));
    NewUrlOwners(w, url, systemUser);
    OwnersOverARun(w', actions, |w.urls|);
    InvRun(w', actions);
    InsertedIsTaken(w, job, systemUser, row, None, total, row.keyword);
    TakenStays(w', actions, job.domain, row.keyword);
  }

  /** What working through one row may do: resolve the owner, then insert at most one URL. */
  datatype Trace = Trace(known: World, outcome: Outcome, granted: Option<UserId>, total: Option<(int, nat)>)

  ghost predicate RowDone(w: World, w': World, job: Job, systemUser: UserId, row: Row, t: Trace) {
    && (t.known == w || t.known == Known(w, OwnerEmail(job, row)))
    && OwnerOption(t.known, job, row, t.granted) && t.total in {None, Baseline(job, row)}
    && (w' == t.known || (
          && Eligible(t.known, job, row)
          && w' == Imported(t.known, ImportedUrl(job, systemUser, row), t.granted, t.total)))
    && (t.outcome == Skipped ==> !Eligible(w', job, row) && w' == t.known)
    && (t.outcome == Migrated ==> w' != t.known && t.granted.Some?)
  }

  lemma RowAccounted(w0: World, w: World, w': World, job: Job, systemUser: UserId, rows: seq<Row>, n: nat, s: Summary,
                     t: Trace)
    requires n < |rows| && GrantsHang(w) && Accounted(w0, w, job, systemUser, rows[..n], s)
    requires RowDone(w, w', job, systemUser, rows[n], t)
    ensures Accounted(w0, w', job, systemUser, rows[..n + 1], Tally(s, t.outcome))
  {
    AccountedAfterLookup(w0, w, job, systemUser, rows[..n], s, OwnerEmail(job, rows[n]));
    if w' == t.known {
      AccountedWithoutInsert(w0, t.known, job, systemUser, rows, n, s, Tally(s, t.outcome));
    } else {
      AccountedWithInsert(w0, t.known, job, systemUser, rows, n, t.granted, t.total, s, Tally(s, t.outcome));
    }
  }

  lemma RowIsARun(w0: World, w: World, w': World, job: Job, systemUser: UserId, row: Row, t: Trace,
                  actions: seq<Action>)
    returns (actions': seq<Action>)
    requires w == Run(w0, actions) && Inv(w) && systemUser < |w.users| && RowDone(w, w', job, systemUser, row, t)
    ensures w' == Run(w0, actions') && Inv(w') && w.users <= w'.users
  {
    actions' := actions;
    FindEnsured(w.users, OwnerEmail(job, row));
    if t.known != w {
      InvStep(w, AddUser(OwnerEmail(job, row)));
      RunOne(w0, actions, AddUser(OwnerEmail(job, row)));
      actions' := actions + [AddUser(OwnerEmail(job, row))];
    }
    if w' != t.known {
      var insertion := Import(ImportedUrl(job, systemUser, row), t.granted, t.total);
      InsertionIsAStep(t.known, w', job, systemUser, row, t);
      InvStep(t.known, insertion);
      RunOne(w0, actions', insertion);
      actions' := actions' + [insertion];
    }
  }

  lemma InsertionIsAStep(known: World, w': World, job: Job, systemUser: UserId, row: Row, t: Trace)
    requires systemUser < |known.users| && OwnerOption(known, job, row, t.granted) && Eligible(known, job, row)
    requires w' == Imported(known, ImportedUrl(job, systemUser, row), t.granted, t.total)
    ensures w' == Step(known, Import(ImportedUrl(job, systemUser, row), t.granted, t.total)) && w'.users == known.users
  {
  }

  /** A row of the import as the loop does it when nothing fails. */
  function CachedRow(w: World, cache: Cache, job: Job, systemUser: UserId, row: Row): (World, Cache) {
    var (users, owner, cache') := LookUp(w.users, cache, OwnerEmail(job, row));
    (ImportedRow(w.(users := users), job, systemUser, owner, row), cache')
  }

  /** The body of the loop. */
  method MigrateNext(store: Store, job: Job, systemUser: UserId, row: Row, cache: Cache)
    returns (outcome: Outcome, cache': Cache, ghost t: Trace)
    requires GrantsHang(store.world) && CacheSound(cache, store.world.users)
    modifies store`world, store`faults
    ensures t.outcome == outcome && RowDone(old(store.world), store.world, job, systemUser, row, t)
    ensures CacheSound(cache', store.world.users)
    // A row fails only if one of its own calls does.
    ensures Follows(store.faults, old(store.faults))
    ensures outcome == Outcome.Failed ==> !Succeeded(old(store.faults), store.faults)
    ensures Succeeded(old(store.faults), store.faults) ==>
              (store.world, cache') == CachedRow(old(store.world), cache, job, systemUser, row)
  {
    ghost var w := store.world;
    FindEnsured(w.users, OwnerEmail(job, row));
    var owner;
    owner, cache' := ResolveOwner(store, cache, OwnerEmail(job, row));
    if owner.Err? {
      t := Trace(store.world, Outcome.Failed, None, None);
      return Outcome.Failed, cache', t;
    }
    ghost var known, granted, total := store.world, None, None;
    assert known == w.(users := known.users);
    ghost var before := store.faults;
    outcome, granted, total := ImportRow(store, job, systemUser, owner.value, row);
    MoreCalls(old(store.faults), before, store.faults);
    assert store.world.users == known.users;
    t := Trace(known, outcome, granted, total);
  }

  ghost predicate FirstWithItsKeyword(rows: seq<Row>, i: nat) {
    i < |rows| && forall row :: row in rows[..i] ==> row.keyword != rows[i].keyword
  }

  /** URL `id` was inserted for the first row with its keyword, which was free before the import. */
  ghost predicate MadeFromFirst(w0: World, w: World, job: Job, systemUser: UserId, id: UrlId, rows: seq<Row>) {
    exists i: nat ::
      FirstWithItsKeyword(rows, i) && Eligible(w0, job, rows[i]) && MadeFrom(w, job, systemUser, id, rows[i])
  }

  ghost predicate NewUrlsFirst(w0: World, w: World, job: Job, systemUser: UserId, rows: seq<Row>) {
    forall id: UrlId :: |w0.urls| <= id < |w.urls| ==> MadeFromFirst(w0, w, job, systemUser, id, rows)
  }

  lemma FirstStays(w0: World, w: World, w': World, job: Job, systemUser: UserId, id: UrlId, rows: seq<Row>, row: Row)
    requires MadeFromFirst(w0, w, job, systemUser, id, rows) && Untouched(w, w')
    ensures MadeFromFirst(w0, w', job, systemUser, id, rows + [row])
  {
    var i: nat :| FirstWithItsKeyword(rows, i) && Eligible(w0, job, rows[i]) && MadeFrom(w, job, systemUser, id, rows[i]);
    assert (rows + [row])[..i] == rows[..i] && (rows + [row])[i] == rows[i];
    assert FirstWithItsKeyword(rows + [row], i) && MadeFrom(w', job, systemUser, id, (rows + [row])[i]);
  }

  /** If all earlier rows are settled, a row that still finds its code free is the first to ask for it. */
  lemma FreeMeansFirst(w0: World, w: World, w': World, job: Job, systemUser: UserId, id: UrlId, rows: seq<Row>,
                       row: Row)
    requires Untouched(w0, w) && CodesSettled(w, job, rows) && Eligible(w, job, row)
    requires MadeFrom(w', job, systemUser, id, row)
    ensures MadeFromFirst(w0, w', job, systemUser, id, rows + [row])
  {
    var n, more := |rows|, rows + [row];
    assert more[..n] == rows && more[n] == row;
    forall earlier | earlier in rows ensures earlier.keyword != row.keyword {
      assert !Eligible(w, job, earlier);
    }
    forall k | 0 <= k < |w0.urls| ensures w0.urls[k].domain != job.domain || w0.urls[k].code != row.keyword {
      assert w.urls[k] == w0.urls[k];
    }
    assert FirstWithItsKeyword(more, n) && MadeFrom(w', job, systemUser, id, more[n]);
  }

  /** A row adds at most one URL, its own, and only if its code is free. */
  lemma RowAddsItsOwn(w: World, w': World, job: Job, systemUser: UserId, row: Row, t: Trace)
    requires GrantsHang(w) && RowDone(w, w', job, systemUser, row, t)
    ensures Untouched(w, w') && |w'.urls| <= |w.urls| + 1
    ensures |w'.urls| > |w.urls| ==> Eligible(w, job, row) && MadeFrom(w', job, systemUser, |w.urls|, row)
  {
    KnownUntouched(w, OwnerEmail(job, row));
    if w' != t.known {
      InsertedRow(t.known, job, systemUser, row, t.granted, t.total);
      UntouchedTrans(w, t.known, w');
    }
  }

  lemma NewUrlsFirstStep(w0: World, w: World, w': World, job: Job, systemUser: UserId, rows: seq<Row>, row: Row)
    requires Untouched(w0, w) && Untouched(w, w') && |w'.urls| <= |w.urls| + 1
    requires |w'.urls| > |w.urls| ==> Eligible(w, job, row) && MadeFrom(w', job, systemUser, |w.urls|, row)
    requires CodesSettled(w, job, rows) && NewUrlsFirst(w0, w, job, systemUser, rows)
    ensures NewUrlsFirst(w0, w', job, systemUser, rows + [row])
  {
    forall id: UrlId | |w0.urls| <= id < |w'.urls| ensures MadeFromFirst(w0, w', job, systemUser, id, rows + [row]) {
      if id < |w.urls| {
        FirstStays(w0, w, w', job, systemUser, id, rows, row);
      } else {
        FreeMeansFirst(w0, w, w', job, systemUser, id, rows, row);
      }
    }
  }

  /** The tables are reached by steps of the services. */
  ghost predicate Reached(w0: World, w: World, systemUser: UserId, actions: seq<Action>) {
    w == Run(w0, actions) && Inv(w) && systemUser < |w.users|
  }

  ghost predicate FirstSoFar(w0: World, w: World, job: Job, systemUser: UserId, rows: seq<Row>, n: nat, s: Summary)
    requires n <= |rows|
  {
    s.failed == 0 ==> NewUrlsFirst(w0, w, job, systemUser, rows[..n])
  }

  ghost predicate UntouchedIfSettled(w0: World, w: World, job: Job, rows: seq<Row>, s: Summary) {
    CodesSettled(w0, job, rows) ==> w == w0.(users := w.users) && s.migrated == 0
  }

  /** Everything the loop knows about the tables once the first n rows are done. */
  ghost predicate Progress(w0: World, w: World, job: Job, systemUser: UserId, rows: seq<Row>, n: nat, s: Summary,
                           actions: seq<Action>)
  {
    && n <= |rows|
    && Reached(w0, w, systemUser, actions)
    && Accounted(w0, w, job, systemUser, rows[..n], s)
    && FirstSoFar(w0, w, job, systemUser, rows, n, s)
    && UntouchedIfSettled(w0, w, job, rows, s)
  }

  lemma FirstSoFarStep(w0: World, w: World, w': World, job: Job, systemUser: UserId, rows: seq<Row>, n: nat, s: Summary,
                       t: Trace)
    requires n < |rows| && GrantsHang(w) && Accounted(w0, w, job, systemUser, rows[..n], s)
    requires FirstSoFar(w0, w, job, systemUser, rows, n, s) && RowDone(w, w', job, systemUser, rows[n], t)
    ensures FirstSoFar(w0, w', job, systemUser, rows, n + 1, Tally(s, t.outcome))
  {
    if Tally(s, t.outcome).failed == 0 {
      RowAddsItsOwn(w, w', job, systemUser, rows[n], t);
      NewUrlsFirstStep(w0, w, w', job, systemUser, rows[..n], rows[n]);
      assert rows[..n] + [rows[n]] == rows[..n + 1];
    }
  }

  lemma UntouchedStep(w0: World, w: World, w': World, job: Job, systemUser: UserId, rows: seq<Row>, n: nat, s: Summary,
                      t: Trace)
    requires n < |rows| && UntouchedIfSettled(w0, w, job, rows, s) && RowDone(w, w', job, systemUser, rows[n], t)
    ensures UntouchedIfSettled(w0, w', job, rows, Tally(s, t.outcome))
  {
    if CodesSettled(w0, job, rows) {
      SettledRowAddsNothing(w0, w, w', job, systemUser, rows[n], t);
    }
  }

  lemma SettledRowAddsNothing(w0: World, w: World, w': World, job: Job, systemUser: UserId, row: Row, t: Trace)
    requires w == w0.(users := w.users) && !Eligible(w0, job, row) && RowDone(w, w', job, systemUser, row, t)
    ensures w' == w0.(users := w'.users) && t.outcome != Migrated
  {
    assert t.known.urls == w0.urls;
  }

  lemma ProgressStep(w0: World, w: World, w': World, job: Job, systemUser: UserId, rows: seq<Row>, n: nat, s: Summary,
                     t: Trace, actions: seq<Action>) returns (actions': seq<Action>)
    requires n < |rows| && Progress(w0, w, job, systemUser, rows, n, s, actions)
    requires RowDone(w, w', job, systemUser, rows[n], t)
    ensures Progress(w0, w', job, systemUser, rows, n + 1, Tally(s, t.outcome), actions')
  {
    RowAccounted(w0, w, w', job, systemUser, rows, n, s, t);
    FirstSoFarStep(w0, w, w', job, systemUser, rows, n, s, t);
    UntouchedStep(w0, w, w', job, systemUser, rows, n, s, t);
    actions' := RowIsARun(w0, w, w', job, systemUser, rows[n], t, actions);
  }

  lemma ProgressStart(w0: World, job: Job, rows: seq<Row>)
    requires Inv(w0)
    ensures var w := Known(w0, job.systemEmail);
      Progress(w0, w, job, SystemUser(w0, job), rows, 0, Summary(0, 0, 0), [AddUser(job.systemEmail)])
  {
    var actions := [AddUser(job.systemEmail)];
    assert Run(w0, []) == w0 && actions == [] + actions;
    RunOne(w0, [], actions[0]);
    InvRun(w0, actions);
    FindEnsured(w0.users, job.systemEmail);
  }

  /** The whole import as the loop does it when nothing fails, and the cache it ends with. */
  function MigrateCached(w: World, job: Job, rows: seq<Row>): (World, Cache) {
    if rows == [] then
      var (users, _, cache) := LookUp(w.users, map[], job.systemEmail);
      (w.(users := users), cache)
    else
      var (before, cache) := MigrateCached(w, job, rows[..|rows| - 1]);
      CachedRow(before, cache, job, SystemUser(w, job), rows[|rows| - 1])
  }

  /** The tables and the cache after the first n rows. */
  ghost predicate AsCached(w0: World, w: World, cache: Cache, job: Job, rows: seq<Row>, n: nat) {
    n <= |rows| && MigrateCached(w0, job, rows[..n]) == (w, cache)
  }

  lemma AsCachedStep(w0: World, w: World, cache: Cache, w': World, cache': Cache, job: Job, rows: seq<Row>, n: nat)
    requires n < |rows| && AsCached(w0, w, cache, job, rows, n)
    requires (w', cache') == CachedRow(w, cache, job, SystemUser(w0, job), rows[n])
    ensures AsCached(w0, w', cache', job, rows, n + 1)
  {
    assert rows[..n + 1][..n] == rows[..n];
  }

  /** How the failures of the calls made so far show: in no more rows than calls, and without any not at all. */
  ghost predicate FailuresShow(w0: World, w: World, faults0: seq<Fault>, faults: seq<Fault>, cache: Cache, job: Job,
                               rows: seq<Row>, n: nat, s: Summary) {
    && Follows(faults, faults0) && s.failed + Failures(faults) <= Failures(faults0)
    && (Succeeded(faults0, faults) ==> s.failed == 0 && AsCached(w0, w, cache, job, rows, n))
  }

  lemma FailuresShowStart(w0: World, faults0: seq<Fault>, faults: seq<Fault>, cache: Cache, job: Job, rows: seq<Row>)
    requires Succeeded(faults0, faults) && MigrateCached(w0, job, []) == (Known(w0, job.systemEmail), cache)
    ensures FailuresShow(w0, Known(w0, job.systemEmail), faults0, faults, cache, job, rows, 0, Summary(0, 0, 0))
  {
    FailuresLeft(faults0, faults);
    assert rows[..0] == [];
  }

  lemma FailuresShowStep(w0: World, w: World, w': World, faults0: seq<Fault>, faults: seq<Fault>, faults': seq<Fault>,
                         cache: Cache, cache': Cache, job: Job, rows: seq<Row>, n: nat, s: Summary, outcome: Outcome)
    requires n < |rows| && FailuresShow(w0, w, faults0, faults, cache, job, rows, n, s)
    requires Follows(faults', faults) && (outcome == Outcome.Failed ==> !Succeeded(faults, faults'))
    requires Succeeded(faults, faults') ==> (w', cache') == CachedRow(w, cache, job, SystemUser(w0, job), rows[n])
    ensures FailuresShow(w0, w', faults0, faults', cache', job, rows, n + 1, Tally(s, outcome))
  {
    MoreCalls(faults0, faults, faults');
    FailuresLeft(faults, faults');
    if Succeeded(faults0, faults') {
      AsCachedStep(w0, w, cache, w', cache', job, rows, n);
    }
  }

  lemma AsCachedEnd(w0: World, w: World, cache: Cache, job: Job, rows: seq<Row>)
    requires AsCached(w0, w, cache, job, rows, |rows|)
    ensures w == MigrateCached(w0, job, rows).0
  {
    assert rows[..|rows|] == rows;
  }

  lemma EmailsSnoc(job: Job, rows: seq<Row>)
    requires rows != []
    ensures var n := |rows| - 1; Emails(job, rows) == Emails(job, rows[..n]) + [OwnerEmail(job, rows[n])]
  {
  }

  lemma {:induction false} OneEmailEach(job: Job, rows: seq<Row>)
    ensures |Emails(job, rows)| == |rows| + 1
    decreases |rows|
  {
    if rows != [] {
      OneEmailEach(job, rows[..|rows| - 1]);
    }
  }

  lemma CachedSnoc(users: seq<string>, emails: seq<string>, email: string)
    ensures var (before, cache) := Cached(users, emails);
      var (after, id, cache') := LookUp(before.users, cache, email);
      Cached(users, emails + [email]) == (Lookups(after, before.ids + [id]), cache')
  {
    assert (emails + [email])[..|emails|] == emails;
  }

  lemma UncachedSnoc(users: seq<string>, emails: seq<string>, email: string)
    ensures var before := Uncached(users, emails); var after := EnsureUser(before.users, email);
      FindUser(after, email).Some? &&
      Uncached(users, emails + [email]) == Lookups(after, before.ids + [FindUser(after, email).value])
  {
    FindEnsured(Uncached(users, emails).users, email);
    assert (emails + [email])[..|emails|] == emails;
  }

  lemma MigrateCachedLast(w: World, job: Job, rows: seq<Row>)
    requires rows != []
    ensures var n := |rows| - 1; var (before, cache) := MigrateCached(w, job, rows[..n]);
      var (users, _, cache') := LookUp(before.users, cache, OwnerEmail(job, rows[n]));
      MigrateCached(w, job, rows).0.users == users && MigrateCached(w, job, rows).1 == cache'
  {
  }

  /** Its cache and its users are those of the cached lookups. */
  lemma {:induction false} ImportLooksUpCached(w: World, job: Job, rows: seq<Row>)
    ensures MigrateCached(w, job, rows).0.users == Cached(w.users, Emails(job, rows)).0.users
    ensures MigrateCached(w, job, rows).1 == Cached(w.users, Emails(job, rows)).1
    decreases |rows|
  {
    if rows == [] {
      CachedSnoc(w.users, [], job.systemEmail);
      assert [] + [job.systemEmail] == [job.systemEmail];
    } else {
      var n := |rows| - 1;
      assert |rows[..n]| == n;
      ImportLooksUpCached(w, job, rows[..n]);
      MigrateCachedLast(w, job, rows);
      EmailsSnoc(job, rows);
      CachedSnoc(w.users, Emails(job, rows[..n]), OwnerEmail(job, rows[n]));
    }
  }

  /** And the URL a row makes goes to the user its lookup returned. */
  lemma CachedRowOwner(w: World, job: Job, rows: seq<Row>)
    requires rows != []
    ensures var n := |rows| - 1; var before := MigrateCached(w, job, rows[..n]).0;
      var lookups := Cached(w.users, Emails(job, rows)).0;
      var known := before.(users := lookups.users);
      && |lookups.ids| == n + 2
      && MigrateCached(w, job, rows).0 ==
           if Eligible(before, job, rows[n])
           then Imported(known, ImportedUrl(job, SystemUser(w, job), rows[n]),
                         Some(lookups.ids[n + 1]), Baseline(job, rows[n]))
           else known
  {
    var n := |rows| - 1;
    ImportLooksUpCached(w, job, rows[..n]);
    OneEmailEach(job, rows[..n]);
    EmailsSnoc(job, rows);
    CachedSnoc(w.users, Emails(job, rows[..n]), OwnerEmail(job, rows[n]));
  }

  lemma PrefixConsistent(emails: seq<string>, email: string)
    requires SpacingConsistent(emails + [email])
    ensures SpacingConsistent(emails)
  {
    assert forall a :: a in emails ==> a in emails + [email];
  }

  lemma MigrateUsersStep(w: World, job: Job, rows: seq<Row>)
    requires rows != []
    ensures var n := |rows| - 1;
      Migrate(w, job, rows).users == EnsureUser(Migrate(w, job, rows[..n]).users, OwnerEmail(job, rows[n]))
  {
    MigrateRowsLast(Known(w, job.systemEmail), job, SystemUser(w, job), rows);
  }

  lemma {:induction false} UncachedImport(w: World, job: Job, rows: seq<Row>)
    ensures Migrate(w, job, rows).users == Uncached(w.users, Emails(job, rows)).users
    decreases |rows|
  {
    if rows == [] {
      UncachedSnoc(w.users, [], job.systemEmail);
      assert [] + [job.systemEmail] == [job.systemEmail];
    } else {
      var n := |rows| - 1;
      assert |rows[..n]| == n;
      UncachedImport(w, job, rows[..n]);
      MigrateUsersStep(w, job, rows);
      EmailsSnoc(job, rows);
      UncachedSnoc(w.users, Emails(job, rows[..n]), OwnerEmail(job, rows[n]));
    }
  }

  /** If the emails are spaced alike, the cache does not show. */
  lemma {:induction false} CacheDoesNotShow(w: World, job: Job, rows: seq<Row>)
    requires SpacingConsistent(Emails(job, rows))
    ensures MigrateCached(w, job, rows).0 == Migrate(w, job, rows)
    decreases |rows|
  {
    if rows == [] {
      ImportLooksUpCached(w, job, rows);
      UncachedImport(w, job, rows);
      CacheAgreesIff(w.users, Emails(job, rows));
    } else {
      var emails, n := Emails(job, rows), |rows| - 1;
      assert |rows[..n]| == n;
      EmailsSnoc(job, rows);
      PrefixConsistent(Emails(job, rows[..n]), OwnerEmail(job, rows[n]));
      CacheDoesNotShow(w, job, rows[..n]);
      CachedRowOwner(w, job, rows);
      UncachedImport(w, job, rows);
      CacheAgreesIff(w.users, emails);
      OneEmailEach(job, rows);
      UncachedFinds(w.users, emails, n + 1);
      MigrateRowUsing(Migrate(w, job, rows[..n]), job, SystemUser(w, job), rows[n], Uncached(w.users, emails).users,
                      Uncached(w.users, emails).ids[n + 1]);
    }
  }

  lemma MigrateRowUsing(w: World, job: Job, systemUser: UserId, row: Row, users: seq<string>, owner: UserId)
    requires users == MigrateRow(w, job, systemUser, row).users && FindUser(users, OwnerEmail(job, row)) == Some(owner)
    ensures MigrateRow(w, job, systemUser, row) ==
      if Eligible(w, job, row)
      then Imported(w.(users := users), ImportedUrl(job, systemUser, row), Some(owner), Baseline(job, row))
      else w.(users := users)
  {
  }

  /** What a completed import guarantees, whatever failed on the way. */
  ghost predicate ImportDone(w0: World, w: World, job: Job, rows: seq<Row>, s: Summary) {
    && Accounted(w0, w, job, SystemUser(w0, job), rows, s)
    // Unless a row failed, every new URL is that of the first row asking for its code.
    && (s.failed == 0 ==> NewUrlsFirst(w0, w, job, SystemUser(w0, job), rows))
    // It is made of steps that every invariant over runs already covers.
    && (exists actions :: w == Run(w0, actions))
    // Once every keyword was in use or reserved, it touches no URL, no grant and no count.
    && (CodesSettled(w0, job, rows) ==> w == w0.(users := w.users) && s.migrated == 0)
  }

  lemma ProgressEnd(w0: World, w: World, job: Job, rows: seq<Row>, s: Summary, actions: seq<Action>)
    requires Progress(w0, w, job, SystemUser(w0, job), rows, |rows|, s, actions)
    ensures ImportDone(w0, w, job, rows, s)
  {
    assert rows[..|rows|] == rows;
  }

  lemma CacheStart(w: World, job: Job, systemUser: UserId)
    requires FindUser(EnsureUser(w.users, job.systemEmail), job.systemEmail) == Some(systemUser)
    ensures CacheSound(map[NormalizeEmail(job.systemEmail) := systemUser], EnsureUser(w.users, job.systemEmail))
    ensures MigrateCached(w, job, []) == (Known(w, job.systemEmail), map[NormalizeEmail(job.systemEmail) := systemUser])
  {
    NormalizeRespectsFold(EnsureUser(w.users, job.systemEmail)[systemUser], job.systemEmail);
    FirstLookUp(w.users, job.systemEmail);
  }

  lemma FirstLookUp(users: seq<string>, email: string)
    ensures var after := EnsureUser(users, email);
      FindUser(after, email).Some? &&
      var id := FindUser(after, email).value;
      LookUp(users, map[], email) == (after, id, map[NormalizeEmail(email) := id])
  {
    FindEnsured(users, email);
    var none: Cache := map[];
    var id := FindUser(EnsureUser(users, email), email).value;
    assert none[NormalizeEmail(email) := id] == map[NormalizeEmail(email) := id];
  }

  ghost predicate LoopKeeps(w0: World, w: World, faults0: seq<Fault>, faults: seq<Fault>, cache: Cache, job: Job,
                            systemUser: UserId, rows: seq<Row>, n: nat, s: Summary, actions: seq<Action>) {
    && systemUser == SystemUser(w0, job)
    && Progress(w0, w, job, systemUser, rows, n, s, actions)
    && CacheSound(cache, w.users)
    && FailuresShow(w0, w, faults0, faults, cache, job, rows, n, s)
  }

  lemma LoopStart(w0: World, faults0: seq<Fault>, faults: seq<Fault>, job: Job, rows: seq<Row>)
    requires Inv(w0) && Succeeded(faults0, faults)
    ensures LoopKeeps(w0, Known(w0, job.systemEmail), faults0, faults,
                      map[NormalizeEmail(job.systemEmail) := SystemUser(w0, job)], job, SystemUser(w0, job), rows, 0,
                      Summary(0, 0, 0), [AddUser(job.systemEmail)])
  {
    var cache: Cache := map[NormalizeEmail(job.systemEmail) := SystemUser(w0, job)];
    ProgressStart(w0, job, rows);
    FindEnsured(w0.users, job.systemEmail);
    CacheStart(w0, job, SystemUser(w0, job));
    FailuresShowStart(w0, faults0, faults, cache, job, rows);
  }

  lemma LoopReady(w0: World, w: World, faults0: seq<Fault>, faults: seq<Fault>, cache: Cache, job: Job,
                  systemUser: UserId, rows: seq<Row>, n: nat, s: Summary, actions: seq<Action>)
    requires LoopKeeps(w0, w, faults0, faults, cache, job, systemUser, rows, n, s, actions)
    ensures GrantsHang(w) && CacheSound(cache, w.users)
  {
  }

  lemma LoopStep(w0: World, w: World, w': World, faults0: seq<Fault>, faults: seq<Fault>, faults': seq<Fault>,
                 cache: Cache, cache': Cache, job: Job, systemUser: UserId, rows: seq<Row>, n: nat, n': nat, s: Summary,
                 s': Summary, t: Trace, actions: seq<Action>) returns (actions': seq<Action>)
    requires n' == n + 1 <= |rows| && s' == Tally(s, t.outcome)
    requires LoopKeeps(w0, w, faults0, faults, cache, job, systemUser, rows, n, s, actions)
    requires RowDone(w, w', job, systemUser, rows[n], t) && CacheSound(cache', w'.users)
    requires Follows(faults', faults) && (t.outcome == Outcome.Failed ==> !Succeeded(faults, faults'))
    requires Succeeded(faults, faults') ==> (w', cache') == CachedRow(w, cache, job, systemUser, rows[n])
    ensures LoopKeeps(w0, w', faults0, faults', cache', job, systemUser, rows, n', s', actions')
  {
    actions' := ProgressStep(w0, w, w', job, systemUser, rows, n, s, t, actions);
    FailuresShowStep(w0, w, w', faults0, faults, faults', cache, cache', job, rows, n, s, t.outcome);
  }

  lemma LoopEnd(w0: World, w: World, faults0: seq<Fault>, faults: seq<Fault>, cache: Cache, job: Job,
                systemUser: UserId, rows: seq<Row>, n: nat, s: Summary, actions: seq<Action>)
    requires LoopKeeps(w0, w, faults0, faults, cache, job, systemUser, rows, n, s, actions) && n == |rows|
    ensures ImportDone(w0, w, job, rows, s)
    ensures Follows(faults, faults0) && s.failed + Failures(faults) <= Failures(faults0)
    ensures Succeeded(faults0, faults) ==> s.failed == 0 && w == MigrateCached(w0, job, rows).0
  {
    ProgressEnd(w0, w, job, rows, s, actions);
    if Succeeded(faults0, faults) {
      AsCachedEnd(w0, w, cache, job, rows);
    }
  }

  /** runMigration. */
  method RunMigration(store: Store, job: Job, rows: seq<Row>) returns (r: Result<Summary, StoreError>)
    requires Inv(store.world)
    modifies store`world, store`faults
    // Without a system user nothing is imported.
    ensures r.Err? ==> store.world == old(store.world) || store.world == Known(old(store.world), job.systemEmail)
    ensures r.Ok? ==> ImportDone(old(store.world), store.world, job, rows, r.value)
    // No more rows fail than calls do: a failing row holds up no other.
    ensures Follows(store.faults, old(store.faults)) && (r.Err? ==> !Succeeded(old(store.faults), store.faults))
    ensures r.Ok? ==> r.value.failed + Failures(store.faults) <= Failures(old(store.faults))
    // When no call fails, neither does the import, and it is the one with the cached lookups.
    ensures Succeeded(old(store.faults), store.faults) ==>
              r.Ok? && r.value.failed == 0 && store.world == MigrateCached(old(store.world), job, rows).0
  {
    ghost var w0, faults0 := store.world, store.faults;
    var found := store.FindOrCreateUser(job.systemEmail);
    if found.Err? {
      return Err(found.error);
    }
    var systemUser := found.value;
    assert systemUser == SystemUser(w0, job);
    LoopStart(w0, faults0, store.faults, job, rows);
    ghost var actions := [AddUser(job.systemEmail)];
    var cache: Cache := map[NormalizeEmail(job.systemEmail) := systemUser];
    var s := Summary(0, 0, 0);
    var i := 0;
    while i < |rows|
      invariant i <= |rows|
      invariant LoopKeeps(w0, store.world, faults0, store.faults, cache, job, systemUser, rows, i, s, actions)
    {
      LoopReady(w0, store.world, faults0, store.faults, cache, job, systemUser, rows, i, s, actions);
      ghost var w, faults, cache0, s0, i0 := store.world, store.faults, cache, s, i;
      var outcome;
      ghost var t;
      outcome, cache, t := MigrateNext(store, job, systemUser, rows[i], cache);
      s := Tally(s, outcome);
      i := i + 1;
      actions := LoopStep(w0, w, store.world, faults0, faults, store.faults, cache0, cache, job, systemUser, rows, i0, i,
                          s0, s, t, actions);
    }
    LoopEnd(w0, store.world, faults0, store.faults, cache, job, systemUser, rows, i, s, actions);
    return Ok(s);
  }

  // ----- Importing twice -----

  /** Once every keyword is in use or reserved, an import changes nothing but users, whatever fails in it. */
  method ImportSettled(store: Store, job: Job, rows: seq<Row>) returns (r: Result<Summary, StoreError>)
    requires Inv(store.world) && CodesSettled(store.world, job, rows)
    modifies store`world, store`faults
    ensures store.world == old(store.world).(users := store.world.users)
    ensures r.Ok? ==> r.value.migrated == 0 && r.value.skipped + r.value.failed == |rows|
    ensures NoneFails(old(store.faults)) ==> r == Ok(Summary(0, |rows|, 0))
  {
    ghost var w0 := store.world;
    r := RunMigration(store, job, rows);
    if NoneFails(old(store.faults)) {
      NoneFailsMeansSuccess(old(store.faults), store.faults);
    }
    if r.Ok? {
      SettledImport(w0, store.world, job, rows, r.value);
    }
  }

  /** Import, let the services run, and import the same rows again with any later settings for the domain. If no
      row failed the first time, whatever call did, the second import changes no URL, grant or count, whatever fails
      in it, and without a failure it counts every row as skipped. */
  method ImportTwice(store: Store, job: Job, rows: seq<Row>, services: seq<Action>, later: Job, laterFaults: seq<Fault>)
    returns (first: Result<Summary, StoreError>, second: Result<Summary, StoreError>, ghost imported: World)
    requires Inv(store.world) && later.domain == job.domain
    modifies store`world, store`faults
    ensures first.Ok? ==> ImportDone(old(store.world), imported, job, rows, first.value)
    ensures first.Ok? && first.value.failed == 0 ==>
              && store.world == Run(imported, services).(users := store.world.users)
              && (second.Ok? ==> second.value.migrated == 0 && second.value.skipped + second.value.failed == |rows|)
              && (NoneFails(laterFaults) ==> second == Ok(Summary(0, |rows|, 0)))
  {
    ghost var w0 := store.world;
    first := RunMigration(store, job, rows);
    imported := store.world;
    store.world := Run(store.world, services);
    store.faults := laterFaults;
    if first.Err? || first.value.failed > 0 {
      second := Err(NotFound);
      return;
    }
    BetweenImports(w0, imported, job, rows, first.value, services, later);
    second := ImportSettled(store, later, rows);
  }

  lemma BetweenImports(w0: World, w: World, job: Job, rows: seq<Row>, s: Summary, services: seq<Action>, later: Job)
    requires Inv(w0) && ImportDone(w0, w, job, rows, s) && later.domain == job.domain
    ensures Inv(Run(w, services)) && (s.failed == 0 ==> CodesSettled(Run(w, services), later, rows))
  {
    ImportKeepsInv(w0, w, job, rows, s);
    InvRun(w, services);
    if s.failed == 0 {
      CodesSettledForever(w, services, job, rows);
      SameDomainSettled(Run(w, services), job, later, rows);
    }
  }

  lemma SettledImport(w0: World, w: World, job: Job, rows: seq<Row>, s: Summary)
    requires ImportDone(w0, w, job, rows, s) && CodesSettled(w0, job, rows)
    ensures w == w0.(users := w.users) && s.migrated == 0 && s.skipped + s.failed == |rows|
  {
  }

  lemma ImportKeepsInv(w0: World, w: World, job: Job, rows: seq<Row>, s: Summary)
    requires Inv(w0) && ImportDone(w0, w, job, rows, s)
    ensures Inv(w)
  {
    var actions :| w == Run(w0, actions);
    InvRun(w0, actions);
  }

  lemma SameDomainSettled(w: World, job: Job, later: Job, rows: seq<Row>)
    requires CodesSettled(w, job, rows) && later.domain == job.domain
    ensures CodesSettled(w, later, rows)
  {
    forall row | row in rows ensures !Eligible(w, later, row) {
      assert !Eligible(w, job, row);
    }
  }

  /** A row left without its owner, then the services, then another import of it: the URL is still nobody's, and
      the row is counted as skipped. */
  method ReimportWithoutOwner(store: Store, job: Job, systemUser: UserId, owner: UserId, row: Row,
                              services: seq<Action>, later: Job)
    returns (outcome: Outcome, second: Result<Summary, StoreError>, ghost imported: World)
    requires Inv(store.world) && systemUser < |store.world.users| && later.domain == job.domain
    requires Eligible(store.world, job, row)
    requires var insert, grant := NextFault(store.faults), NextFault(LaterFaults(store.faults));
      insert == FailedAfter || (insert == NoFault && grant == FailedBefore)
    modifies store`world, store`faults
    ensures outcome == Outcome.Failed && second == Ok(Summary(0, 1, 0))
    ensures imported == Imported(old(store.world), ImportedUrl(job, systemUser, row), None, None)
    ensures store.world == Run(imported, services).(users := store.world.users)
    ensures |old(store.world.urls)| < |store.world.urls| && OwnersOf(store.world, |old(store.world.urls)|) == {}
  {
    ghost var w := store.world;
    ghost var granted, total;
    outcome, granted, total := ImportRow(store, job, systemUser, owner, row);
    imported := store.world;
    OwnerlessForever(w, job, systemUser, row, total, services);
    RunKeepsRows(store.world, services);
    store.world := Run(store.world, services);
    store.faults := [];
    ghost var between := store.world;
    OneRowSettled(between, job, later, row);
    second := ImportSettled(store, later, [row]);
    assert OwnersOf(store.world, |w.urls|) == OwnersOf(between, |w.urls|);
  }

  lemma OneRowSettled(w: World, job: Job, later: Job, row: Row)
    requires !Eligible(w, job, row) && later.domain == job.domain
    ensures CodesSettled(w, later, [row])
  {
  }
}
