/** The short-link service: suffix allocation against the creation filter,
    creation (single and batch), update with the in-group and group-move
    paths, and the redirect with its cache, filter, tombstone and lock, which
    hands a visit record to the stats producer.

    The stores the service talks to (link table, goto table, stats tables,
    redirect cache, tombstones, creation filter, uv/uip sets, producer) are
    fields of the class; `Stores` is a snapshot of them, and each operation is
    specified by a function from the snapshot before to the result and the
    snapshot after. The collaborators the service cannot see (hashing,
    favicon fetch, cache-lifetime rule, domain extraction) are fixed at
    construction. */
module ShortLinkProject {
  import opened Common
  import opened LinkTable
  import opened LinkStats
  import opened LinkPolicy

  /** Lifetime of a redirect tombstone: 30 minutes, in milliseconds. */
  const TombstoneTtlMillis: int := 30 * 60 * 1000

  /** Where a miss is redirected. */
  const NotFoundPage: string := "/page/notfound"

  /** A cache value with the lifetime it was written with, in milliseconds. */
  datatype CacheEntry = CacheEntry(value: string, ttlMillis: int)

  /** The tombstone: "-" for 30 minutes. */
  const Tombstone: CacheEntry := CacheEntry("-", TombstoneTtlMillis)

  /** Outcome of the favicon fetch: an icon URL, no icon (null), or an exception. */
  datatype Favicon = Icon(href: string) | NoIcon | FetchError

  function FaviconValue(f: Favicon): Option<string>
  {
    if f.Icon? then Some(f.href) else None
  }

  /** The distributed locks, by name. */
  datatype LockName = GotoLock(url: string) | GidUpdateLock(url: string)

  /** Configuration and collaborators: the default domain, the whitelist, and
      the functions standing for `HashUtil.hashToBase62`, `getFavicon`,
      `LinkUtil.getLinkCacheValidTime` and the domain extraction. */
  datatype Env = Env(defaultDomain: string, whitelist: WhitelistConfig, hashToBase62: string -> string,
                     fetchFavicon: string -> Favicon, cacheValidTime: Option<int> -> int,
                     extractDomain: string -> Option<string>)

  /** A snapshot of every store the service writes. */
  datatype Stores = Stores(links: seq<Link>, gotos: map<string, string>, stats: seq<StatsRow>,
                           cache: map<string, CacheEntry>, tombstones: map<string, CacheEntry>,
                           filter: set<string>, uvSets: map<string, set<string>>,
                           uipSets: map<string, set<string>>, outbox: seq<StatsMessage>)

  /** What an operation returns and the stores it leaves. */
  datatype Step<+R> = Step(result: R, after: Stores)

  datatype CreateRequest = CreateRequest(originUrl: string, gid: string, createdType: int,
                                         validDateType: int, validDate: Option<int>, describe: string)

  datatype CreateResponse = CreateResponse(fullShortUrl: string, originUrl: string, gid: string)

  datatype BatchRequest = BatchRequest(originUrls: seq<string>, describes: seq<string>, gid: string,
                                       createdType: int, validDateType: int, validDate: Option<int>)

  datatype BaseInfo = BaseInfo(fullShortUrl: string, originUrl: string, describe: string)

  datatype BatchResponse = BatchResponse(total: int, baseLinkInfos: seq<BaseInfo>)

  datatype UpdateRequest = UpdateRequest(fullShortUrl: string, originGid: string, gid: string,
                                         originUrl: string, describe: string, validDateType: int,
                                         validDate: Option<int>)

  /** The HTTP answer of a redirect: the location, and the uv cookie added to
      the response when one was minted. */
  datatype Redirect = Redirect(location: string, uvCookie: Option<string>)

  // ---------------------------------------------------------------------
  // Suffix allocation

  /** The suffix allocation from attempt `k` on: the first attempt whose full
      short URL the filter does not contain, or `SuffixExhausted` once
      attempts 0 to 10 all collided. */
  function SuffixFrom(env: Env, filter: set<string>, originUrl: string, uuid: nat -> string, k: nat)
    : (r: Result<string, LinkError>)
    requires k <= 11
    ensures r.Success? ==> ShortUrl(env.defaultDomain, r.value) !in filter
    ensures r.Failure? ==> r.error == SuffixExhausted
    ensures r.Failure? <==> forall j :: k <= j <= 10 ==>
      ShortUrl(env.defaultDomain, Candidate(env.hashToBase62, originUrl, uuid, j)) in filter
    decreases 11 - k
  {
    if k > 10 then Failure(SuffixExhausted)
    else if ShortUrl(env.defaultDomain, Candidate(env.hashToBase62, originUrl, uuid, k)) !in filter then
      Success(Candidate(env.hashToBase62, originUrl, uuid, k))
    else SuffixFrom(env, filter, originUrl, uuid, k + 1)
  }

  // ---------------------------------------------------------------------
  // Creation

  /** The row a successful creation inserts: live under the requested group
      at `domain/suffix`, with `delTime = 0`, zero counters, and the request's
      origin URL, description, created type and validity. */
  function NewLinkRow(domain: string, suffix: string, req: CreateRequest, favicon: Option<string>): (row: Link)
    ensures IsLive(row, ShortUrl(domain, suffix), req.gid) && row.delTime == 0
    ensures row.domain == domain && row.shortUri == suffix && row.favicon == favicon
    ensures row.totalPv == 0 && row.totalUv == 0 && row.totalUip == 0
    ensures row.originUrl == req.originUrl && row.describe == req.describe && row.createdType == req.createdType
    ensures row.validDateType == req.validDateType && row.validDate == req.validDate
  {
    Link(domain, suffix, ShortUrl(domain, suffix), req.originUrl, req.gid, req.createdType,
         req.validDateType, req.validDate, req.describe, favicon, 0, 0, 0, 0, 0, 0)
  }

  /** `createShortLink`. Allocate a suffix, insert the link row and the goto
      row, warm the redirect cache, add the URL to the filter. The whitelist is
      not consulted. A unique-key clash on either insert propagates (the catch
      names an exception type the store never throws); every failure rolls the
      transaction back, so a failed creation leaves the stores as they were. */
  function Create(env: Env, s: Stores, req: CreateRequest, uuid: nat -> string): (c: Step<Result<CreateResponse, LinkError>>)
    ensures c.result.Failure? ==> c.after == s
    ensures c.result.Failure? ==> c.result.error in {SuffixExhausted, FaviconFetchFailed, DuplicateKey}
    ensures c.after.stats == s.stats && c.after.tombstones == s.tombstones && c.after.outbox == s.outbox
    ensures c.after.uvSets == s.uvSets && c.after.uipSets == s.uipSets
    ensures c.result.Success? ==>
      && |c.after.links| == |s.links| + 1 && c.after.links[..|s.links|] == s.links
      && var row := c.after.links[|s.links|];
         && row.fullShortUrl == ShortUrl(env.defaultDomain, row.shortUri)
         && row.fullShortUrl !in s.filter && row.fullShortUrl !in s.gotos && !KeyTaken(s.links, row.fullShortUrl, 0)
         && row == NewLinkRow(env.defaultDomain, row.shortUri, req, FaviconValue(env.fetchFavicon(req.originUrl)))
         && c.result.value == CreateResponse("http://" + row.fullShortUrl, req.originUrl, req.gid)
         && c.after.filter == s.filter + {row.fullShortUrl}
         && c.after.gotos == s.gotos[row.fullShortUrl := req.gid]
         && c.after.cache == s.cache[row.fullShortUrl := CacheEntry(req.originUrl, env.cacheValidTime(req.validDate))]
  {
    var suffix := SuffixFrom(env, s.filter, req.originUrl, uuid, 0);
    if suffix.Failure? then Step(Failure(suffix.error), s)
    else
      var url := ShortUrl(env.defaultDomain, suffix.value);
      var favicon := env.fetchFavicon(req.originUrl);
      if favicon.FetchError? then Step(Failure(FaviconFetchFailed), s)
      else if KeyTaken(s.links, url, 0) || url in s.gotos then Step(Failure(DuplicateKey), s)
      else
        Step(Success(CreateResponse("http://" + url, req.originUrl, req.gid)),
             s.(links := s.links + [NewLinkRow(env.defaultDomain, suffix.value, req, FaviconValue(favicon))],
                gotos := s.gotos[url := req.gid],
                cache := s.cache[url := CacheEntry(req.originUrl, env.cacheValidTime(req.validDate))],
                filter := s.filter + {url}))
  }

  // ---------------------------------------------------------------------
  // Update

  /** The row an in-group update leaves: key, domain, suffix, favicon,
      created type, status and counters kept; origin URL, description and
      validity type from the request; the date is cleared for PERMANENT, taken
      from the request when it carries one and kept otherwise. */
  function InGroupEdit(has: Link, req: UpdateRequest): (row: Link)
    ensures row == has.(originUrl := req.originUrl, describe := req.describe, validDateType := req.validDateType,
                        validDate := row.validDate)
    ensures req.validDateType == PERMANENT ==> row.validDate == None
    ensures req.validDateType != PERMANENT ==>
              row.validDate == if req.validDate.Some? then req.validDate else has.validDate
  {
    has.(originUrl := req.originUrl, describe := req.describe, validDateType := req.validDateType,
         validDate := InGroupValidDate(has.validDate, req.validDateType, req.validDate))
  }

  /** The row a group move inserts under the new group: default domain, fresh
      favicon and the request's fields; suffix, created type, enable status and
      counters carried over. */
  function MovedRow(has: Link, req: UpdateRequest, domain: string, favicon: Option<string>): (row: Link)
    ensures row.fullShortUrl == has.fullShortUrl && row.shortUri == has.shortUri && row.gid == req.gid
    ensures row.delFlag == 0 && row.delTime == 0 && row.enableStatus == has.enableStatus
    ensures row.createdType == has.createdType && row.domain == domain && row.favicon == favicon
    ensures row.totalPv == has.totalPv && row.totalUv == has.totalUv && row.totalUip == has.totalUip
    ensures row.originUrl == req.originUrl && row.describe == req.describe
    ensures row.validDateType == req.validDateType && row.validDate == req.validDate
  {
    Link(domain, has.shortUri, has.fullShortUrl, req.originUrl, req.gid, has.createdType,
         req.validDateType, req.validDate, req.describe, favicon, has.enableStatus,
         has.totalPv, has.totalUv, has.totalUip, 0, 0)
  }

  /** The store writes of a group move, made while holding the write lock:
      soft-delete the old row (its new key may clash), insert the moved row
      (the favicon is fetched while it is built), re-key every stats row, then
      re-key the goto row, which is dereferenced without a null check. Any
      failure rolls back; the caches, filter, sets and producer are not
      touched. */
  function Move(env: Env, s: Stores, has: Link, req: UpdateRequest, now: int): (m: Step<Outcome<LinkError>>)
    ensures m.result.Fail? ==> m.after == s && m.result.error in {DuplicateKey, FaviconFetchFailed, NullGotoRow}
    ensures SoftDeleteClash(s.links, req.fullShortUrl, has.gid, now) ==> m.result == Fail(DuplicateKey)
    ensures m.after.cache == s.cache && m.after.tombstones == s.tombstones && m.after.filter == s.filter
    ensures m.after.outbox == s.outbox && m.after.uvSets == s.uvSets && m.after.uipSets == s.uipSets
  {
    var url := req.fullShortUrl;
    var deleted := SoftDelete(s.links, url, has.gid, now);
    var favicon := env.fetchFavicon(req.originUrl);
    if SoftDeleteClash(s.links, url, has.gid, now) then Step(Fail(DuplicateKey), s)
    else if favicon.FetchError? then Step(Fail(FaviconFetchFailed), s)
    else if KeyTaken(deleted, url, 0) then Step(Fail(DuplicateKey), s)
    else if !(url in s.gotos && s.gotos[url] == has.gid) then Step(Fail(NullGotoRow), s)
    else
      Step(Pass, s.(links := deleted + [MovedRow(has, req, env.defaultDomain, FaviconValue(favicon))],
                    gotos := s.gotos[url := req.gid],
                    stats := Rekey(s.stats, url, has.gid, req.gid)))
  }

  /** The cache step at the end of an update, given the stores before the
      update and the stores its writes left. */
  function Invalidate(before: Stores, written: Stores, has: Link, req: UpdateRequest, now: int)
    : (i: Step<Outcome<LinkError>>)
    ensures i.result.Fail? ==> i.result == Fail(NullValidDate)
    ensures i.result.Fail? ==> i.after == before.(cache := written.cache - {req.fullShortUrl})
    ensures i.result.Pass? ==> i.after.links == written.links && i.after.gotos == written.gotos
                               && i.after.stats == written.stats && i.after.filter == written.filter
                               && i.after.outbox == written.outbox && i.after.uvSets == written.uvSets
                               && i.after.uipSets == written.uipSets
    ensures i.result.Pass? ==>
              i.after.cache == if has.validDateType != req.validDateType || has.validDate != req.validDate
                               then written.cache - {req.fullShortUrl} else written.cache
    ensures i.result.Pass? ==>
              i.after.tombstones
              == if CacheActionFor(has.validDateType, has.validDate, req.validDateType, req.validDate, now).dropTombstone
                 then written.tombstones - {req.fullShortUrl} else written.tombstones
  {
    var url := req.fullShortUrl;
    var a := CacheActionFor(has.validDateType, has.validDate, req.validDateType, req.validDate, now);
    var cache := if a.dropRedirect then written.cache - {url} else written.cache;
    if a.nullDate then Step(Fail(NullValidDate), before.(cache := cache))
    else
      Step(Pass, written.(cache := cache,
                          tombstones := if a.dropTombstone then written.tombstones - {url} else written.tombstones))
  }

  /** `updateShortLink`. The whitelist check, then the one live row under the
      original group. Without a group change it is updated in place; with one,
      the write lock is tried (`tryLock`) and the group move made. Then the
      cache step: the redirect entry is dropped if the validity changed, and
      the tombstone too if the link was expired and is now permanent or valid
      into the future; a custom validity without a date on an expired link
      raises there, which rolls the store writes back but not the cache entry
      already dropped. */
  function Update(env: Env, s: Stores, req: UpdateRequest, tryLock: bool, now: int): (u: Step<Outcome<LinkError>>)
    ensures u.after.filter == s.filter && u.after.outbox == s.outbox
    ensures u.after.uvSets == s.uvSets && u.after.uipSets == s.uipSets
  {
    var verdict := VerificationWhitelist(env.whitelist, env.extractDomain(req.originUrl));
    if verdict.Fail? then Step(verdict, s)
    else
      match SelectLive(s.links, req.fullShortUrl, req.originGid)
      case NoRow => Step(Fail(LinkNotFound), s)
      case TooMany => Step(Fail(TooManyResults), s)
      case One(has) =>
        if has.gid == req.gid then
          Invalidate(s, s.(links := ReplaceLive(s.links, req.fullShortUrl, req.gid, InGroupEdit(has, req))), has, req, now)
        else if !tryLock then Step(Fail(LinkBusy), s)
        else
          var moved := Move(env, s, has, req, now);
          if moved.result.Fail? then moved else Invalidate(s, moved.after, has, req, now)
  }

  // ---------------------------------------------------------------------
  // Redirect

  /** The members of a per-link set (empty when none was written yet). */
  function SetOf(sets: map<string, set<string>>, url: string): set<string>
  {
    if url in sets then sets[url] else {}
  }

  /** A usable redirect cache entry: present and not blank. */
  function Cached(cache: map<string, CacheEntry>, url: string): Option<string>
  {
    if url in cache && !IsBlank(cache[url].value) then Some(cache[url].value) else None
  }

  /** A tombstone that stops the redirect: present and not blank. */
  predicate Tombstoned(tombstones: map<string, CacheEntry>, url: string)
  {
    url in tombstones && !IsBlank(tombstones[url].value)
  }

  /** The visit a request makes on `url` given the link's uv and uip sets. */
  function VisitIn(s: Stores, url: string, client: Client, minted: string): Visit
  {
    VisitOf(url, client, minted, SetOf(s.uvSets, url), SetOf(s.uipSets, url))
  }

  /** A redirect to `location` that records the visit and hands it to the
      stats producer. */
  function Hit(s: Stores, url: string, gid: Option<string>, location: string, client: Client, minted: string)
    : (st: Step<Result<Redirect, LinkError>>)
    ensures st.after.links == s.links && st.after.gotos == s.gotos && st.after.stats == s.stats
    ensures st.after.filter == s.filter && st.after.cache == s.cache && st.after.tombstones == s.tombstones
    ensures st.result == Success(Redirect(location, VisitIn(s, url, client, minted).newCookie))
    ensures st.after.outbox == s.outbox + [StatsMessage(url, gid, VisitIn(s, url, client, minted).record)]
    ensures st.after.uvSets == s.uvSets[url := VisitIn(s, url, client, minted).uvSet]
    ensures st.after.uipSets == s.uipSets[url := VisitIn(s, url, client, minted).uipSet]
  {
    var v := VisitIn(s, url, client, minted);
    Step(Success(Redirect(location, v.newCookie)),
         s.(uvSets := s.uvSets[url := v.uvSet], uipSets := s.uipSets[url := v.uipSet],
            outbox := s.outbox + [StatsMessage(url, gid, v.record)]))
  }

  /** A redirect to the not-found page. */
  function Miss(s: Stores): Step<Result<Redirect, LinkError>>
  {
    Step(Success(Redirect(NotFoundPage, None)), s)
  }

  /** The part of `restoreUrl` run while holding the per-URL lock. */
  function RestoreLocked(env: Env, s: Stores, url: string, client: Client, minted: string, now: int)
    : (st: Step<Result<Redirect, LinkError>>)
    ensures st.after.links == s.links && st.after.gotos == s.gotos && st.after.stats == s.stats
    ensures st.after.filter == s.filter
  {
    if Cached(s.cache, url).Some? then Hit(s, url, None, Cached(s.cache, url).value, client, minted)
    else if url !in s.gotos then Miss(s.(tombstones := s.tombstones[url := Tombstone]))
    else
      match SelectLive(s.links, url, s.gotos[url])
      case TooMany => Step(Failure(TooManyResults), s)
      case NoRow => Miss(s.(tombstones := s.tombstones[url := Tombstone]))
      case One(link) =>
        if Expired(link.validDate, now) then Miss(s.(tombstones := s.tombstones[url := Tombstone]))
        else
          Hit(s.(cache := s.cache[url := CacheEntry(link.originUrl, env.cacheValidTime(link.validDate))]),
              url, Some(link.gid), link.originUrl, client, minted)
  }

  /** `restoreUrl`: cache, filter, tombstone, then under the per-URL lock a
      second cache look-up, the goto row and the live row. `filledWhileWaiting`
      is what an earlier holder of the lock may have written to the cache for
      this URL while the request waited. The redirect never writes the link,
      goto or stats tables, nor the filter. */
  function Restore(env: Env, s: Stores, serverName: string, port: int, shortUri: string, client: Client,
                   minted: string, filledWhileWaiting: Option<CacheEntry>, now: int)
    : (st: Step<Result<Redirect, LinkError>>)
    ensures st.after.links == s.links && st.after.gotos == s.gotos && st.after.stats == s.stats
    ensures st.after.filter == s.filter
  {
    var url := FullShortUrlOf(serverName, port, shortUri);
    if Cached(s.cache, url).Some? then Hit(s, url, None, Cached(s.cache, url).value, client, minted)
    else if url !in s.filter then Miss(s)
    else if Tombstoned(s.tombstones, url) then Miss(s)
    else
      var waited := if filledWhileWaiting.Some? then s.cache[url := filledWhileWaiting.value] else s.cache;
      RestoreLocked(env, s.(cache := waited), url, client, minted, now)
  }

  // ---------------------------------------------------------------------
  // The stores' invariant and what the operations promise together

  /** The goto table routes every link that is not soft-deleted: such a row
      has `delTime = 0`, its URL has a goto row naming its group, no other such
      row has the same URL, and every goto row's URL is in the filter. */
  ghost predicate Routed(s: Stores)
  {
    && (forall u :: u in s.gotos ==> u in s.filter)
    && (forall i :: 0 <= i < |s.links| && s.links[i].delFlag == 0 ==>
          && s.links[i].delTime == 0
          && s.links[i].fullShortUrl in s.gotos
          && s.gotos[s.links[i].fullShortUrl] == s.links[i].gid)
    && (forall i, j ::
          0 <= i < |s.links| && 0 <= j < |s.links| && i != j && s.links[i].delFlag == 0 && s.links[j].delFlag == 0
          ==> s.links[i].fullShortUrl != s.links[j].fullShortUrl)
  }

  /** Creation keeps every live link routed. */
  lemma CreateKeepsRouted(env: Env, s: Stores, req: CreateRequest, uuid: nat -> string)
    requires Routed(s)
    ensures Routed(Create(env, s, req, uuid).after)
  {
    var c := Create(env, s, req, uuid);
    if c.result.Success? {
      var suffix := SuffixFrom(env, s.filter, req.originUrl, uuid, 0).value;
      var url := ShortUrl(env.defaultDomain, suffix);
      forall i | 0 <= i < |s.links| && s.links[i].delFlag == 0
        ensures s.links[i].fullShortUrl != url
      {
        assert s.links[i] in s.links;
      }
    }
  }

  /** In a routed snapshot, the one live row under a link's group is its only
      row that is not soft-deleted, and it carries `delTime = 0`. */
  lemma RoutedLiveRowIsOnly(s: Stores, url: string, gid: string, k: nat)
    requires Routed(s)
    requires k < |s.links| && IsLive(s.links[k], url, gid)
    ensures s.links[k].delTime == 0 && url in s.gotos && s.gotos[url] == gid
    ensures forall i :: 0 <= i < |s.links| && i != k && s.links[i].delFlag == 0 ==> s.links[i].fullShortUrl != url
  {
  }

  /** A group move keeps every live link routed. */
  lemma MoveKeepsRouted(env: Env, s: Stores, has: Link, req: UpdateRequest, now: int)
    requires Routed(s)
    requires SelectLive(s.links, req.fullShortUrl, req.originGid) == One(has)
    requires has.gid != req.gid
    ensures Routed(Move(env, s, has, req, now).after)
  {
    var m := Move(env, s, has, req, now);
    if m.result.Pass? {
      var url := req.fullShortUrl;
      var k :| 0 <= k < |s.links| && s.links[k] == has;
      RoutedLiveRowIsOnly(s, url, req.originGid, k);
      var moved := MovedRow(has, req, env.defaultDomain, FaviconValue(env.fetchFavicon(req.originUrl)));
      assert m.after == s.(links := SoftDelete(s.links, url, has.gid, now) + [moved], gotos := s.gotos[url := req.gid],
                           stats := Rekey(s.stats, url, has.gid, req.gid));
      RoutedAfterMove(s, url, has.gid, req.gid, now, moved, Rekey(s.stats, url, has.gid, req.gid));
    }
  }

  /** The routing of a snapshot whose live row of `url` under `from` was
      soft-deleted and whose moved row was appended under `to`. */
  lemma RoutedAfterMove(s: Stores, url: string, from: string, to: string, now: int, moved: Link,
                        stats: seq<StatsRow>)
    requires Routed(s)
    requires forall i :: 0 <= i < |s.links| && s.links[i].delFlag == 0 && s.links[i].fullShortUrl == url
                         ==> IsSoftDeleteTarget(s.links[i], url, from)
    requires moved.fullShortUrl == url && moved.gid == to && moved.delTime == 0
    requires url in s.gotos
    ensures Routed(s.(links := SoftDelete(s.links, url, from, now) + [moved], gotos := s.gotos[url := to],
                      stats := stats))
  {
    var deleted := SoftDelete(s.links, url, from, now);
    forall i | 0 <= i < |deleted| && deleted[i].delFlag == 0
      ensures deleted[i] == s.links[i] && deleted[i].fullShortUrl != url
    {
    }
  }

  /** An in-place edit of the one live row keeps every live link routed. */
  lemma InGroupKeepsRouted(s: Stores, req: UpdateRequest, has: Link, k: nat)
    requires Routed(s)
    requires k < |s.links| && s.links[k] == has && IsLive(has, req.fullShortUrl, req.gid)
    ensures Routed(s.(links := ReplaceLive(s.links, req.fullShortUrl, req.gid, InGroupEdit(has, req))))
  {
    RoutedLiveRowIsOnly(s, req.fullShortUrl, req.gid, k);
    var edited := ReplaceLive(s.links, req.fullShortUrl, req.gid, InGroupEdit(has, req));
    assert forall i :: 0 <= i < |edited| ==>
      edited[i].delFlag == s.links[i].delFlag && edited[i].fullShortUrl == s.links[i].fullShortUrl
      && edited[i].gid == s.links[i].gid && edited[i].delTime == s.links[i].delTime;
  }

  /** The cache step keeps the routing of the stores it starts from. */
  lemma InvalidateKeepsRouted(before: Stores, written: Stores, has: Link, req: UpdateRequest, now: int)
    requires Routed(before) && Routed(written)
    ensures Routed(Invalidate(before, written, has, req, now).after)
  {
    var a := CacheActionFor(has.validDateType, has.validDate, req.validDateType, req.validDate, now);
    var after := Invalidate(before, written, has, req, now).after;
    if a.nullDate {
      assert after.links == before.links && after.gotos == before.gotos && after.filter == before.filter;
    } else {
      assert after.links == written.links && after.gotos == written.gotos && after.filter == written.filter;
    }
  }

  /** An update keeps every live link routed. */
  lemma UpdateKeepsRouted(env: Env, s: Stores, req: UpdateRequest, tryLock: bool, now: int)
    requires Routed(s)
    ensures Routed(Update(env, s, req, tryLock, now).after)
  {
    var verdict := VerificationWhitelist(env.whitelist, env.extractDomain(req.originUrl));
    var sel := SelectLive(s.links, req.fullShortUrl, req.originGid);
    if verdict.Pass? && sel.One? {
      var has := sel.row;
      var k :| 0 <= k < |s.links| && s.links[k] == has;
      if has.gid == req.gid {
        var written := s.(links := ReplaceLive(s.links, req.fullShortUrl, req.gid, InGroupEdit(has, req)));
        InGroupKeepsRouted(s, req, has, k);
        InvalidateKeepsRouted(s, written, has, req, now);
        assert Update(env, s, req, tryLock, now) == Invalidate(s, written, has, req, now);
      } else if tryLock {
        var moved := Move(env, s, has, req, now);
        MoveKeepsRouted(env, s, has, req, now);
        if moved.result.Pass? {
          InvalidateKeepsRouted(s, moved.after, has, req, now);
        }
      }
    }
  }

  /** What a failed update leaves: every failure but the null-date one
      leaves the stores as they were; the null-date one leaves only the
      redirect entry dropped. */
  lemma UpdateFailuresRollBack(env: Env, s: Stores, req: UpdateRequest, tryLock: bool, now: int)
    ensures var u := Update(env, s, req, tryLock, now);
            && (u.result.Fail? && u.result.error != NullValidDate ==> u.after == s)
            && (u.result == Fail(NullValidDate) ==> u.after == s.(cache := s.cache - {req.fullShortUrl}))
  {
    var verdict := VerificationWhitelist(env.whitelist, env.extractDomain(req.originUrl));
    var sel := SelectLive(s.links, req.fullShortUrl, req.originGid);
    if verdict.Pass? && sel.One? {
      var has := sel.row;
      if has.gid == req.gid {
        var written := s.(links := ReplaceLive(s.links, req.fullShortUrl, req.gid, InGroupEdit(has, req)));
        assert Update(env, s, req, tryLock, now) == Invalidate(s, written, has, req, now);
      } else if tryLock {
        var moved := Move(env, s, has, req, now);
        if moved.result.Pass? {
          assert moved.after.cache == s.cache;
          assert Update(env, s, req, tryLock, now) == Invalidate(s, moved.after, has, req, now);
        }
      }
    }
  }

  /** An update reports a missing link exactly when the whitelist lets it
      through and no live row is under the original group, and a busy link
      exactly when it would move the link to another group and the write
      lock was not acquired. */
  lemma UpdateErrorCases(env: Env, s: Stores, req: UpdateRequest, tryLock: bool, now: int)
    ensures var u := Update(env, s, req, tryLock, now);
            var verdict := VerificationWhitelist(env.whitelist, env.extractDomain(req.originUrl));
            var sel := SelectLive(s.links, req.fullShortUrl, req.originGid);
            && (u.result == Fail(LinkNotFound) <==> verdict.Pass? && sel.NoRow?)
            && (u.result == Fail(LinkBusy) <==> verdict.Pass? && sel.One? && sel.row.gid != req.gid && !tryLock)
  {
    var verdict := VerificationWhitelist(env.whitelist, env.extractDomain(req.originUrl));
    var sel := SelectLive(s.links, req.fullShortUrl, req.originGid);
    if verdict.Pass? && sel.One? {
      var has := sel.row;
      if has.gid == req.gid {
        var written := s.(links := ReplaceLive(s.links, req.fullShortUrl, req.gid, InGroupEdit(has, req)));
        assert Update(env, s, req, tryLock, now) == Invalidate(s, written, has, req, now);
      } else if tryLock {
        var moved := Move(env, s, has, req, now);
        if moved.result.Pass? {
          assert Update(env, s, req, tryLock, now) == Invalidate(s, moved.after, has, req, now);
        }
      }
    }
  }

  /** The whitelist is checked first: when it refuses the origin URL, that
      refusal is the update's result and nothing is written; no later step
      raises a whitelist error. */
  lemma UpdateChecksWhitelistFirst(env: Env, s: Stores, req: UpdateRequest, tryLock: bool, now: int)
    ensures var verdict := VerificationWhitelist(env.whitelist, env.extractDomain(req.originUrl));
            var u := Update(env, s, req, tryLock, now);
            && (verdict.Fail? ==> u == Step(verdict, s))
            && (u.result.Fail? && u.result.error in {BlankGotoDomain, DomainNotWhitelisted} ==> verdict.Fail?)
  {
    var verdict := VerificationWhitelist(env.whitelist, env.extractDomain(req.originUrl));
    var sel := SelectLive(s.links, req.fullShortUrl, req.originGid);
    if verdict.Pass? && sel.One? {
      var has := sel.row;
      if has.gid == req.gid {
        var written := s.(links := ReplaceLive(s.links, req.fullShortUrl, req.gid, InGroupEdit(has, req)));
        assert Update(env, s, req, tryLock, now) == Invalidate(s, written, has, req, now);
      } else if tryLock {
        var moved := Move(env, s, has, req, now);
        if moved.result.Pass? {
          assert Update(env, s, req, tryLock, now) == Invalidate(s, moved.after, has, req, now);
        }
      }
    }
  }

  /** A successful update without a group change overwrites the live row in
      place with the edited row (the date cleared for PERMANENT), which
      `selectOne` then finds; the goto and stats tables are untouched. */
  lemma UpdateInGroupWrites(env: Env, s: Stores, req: UpdateRequest, tryLock: bool, now: int)
    requires req.gid == req.originGid
    requires Update(env, s, req, tryLock, now).result.Pass?
    ensures SelectLive(s.links, req.fullShortUrl, req.originGid).One?
    ensures var has := SelectLive(s.links, req.fullShortUrl, req.originGid).row;
            var after := Update(env, s, req, tryLock, now).after;
            && after.links == ReplaceLive(s.links, req.fullShortUrl, req.gid, InGroupEdit(has, req))
            && after.gotos == s.gotos && after.stats == s.stats
            && SelectLive(after.links, req.fullShortUrl, req.gid) == One(InGroupEdit(has, req))
            && (req.validDateType == PERMANENT ==> InGroupEdit(has, req).validDate == None)
  {
    var has := SelectLive(s.links, req.fullShortUrl, req.originGid).row;
    var written := s.(links := ReplaceLive(s.links, req.fullShortUrl, req.gid, InGroupEdit(has, req)));
    assert Update(env, s, req, tryLock, now) == Invalidate(s, written, has, req, now);
    InGroupEditKeepsSelection(s.links, req.fullShortUrl, req.gid, InGroupEdit(has, req));
  }

  /** A successful group move: the write lock was acquired and the soft
      delete did not clash; the old row is kept with `delFlag = 1` and
      `delTime = now`; the moved row is appended; the goto row names the new
      group; and every stats row of the link is re-keyed. */
  lemma UpdateGroupMoveWrites(env: Env, s: Stores, req: UpdateRequest, tryLock: bool, now: int)
    requires req.gid != req.originGid
    requires Update(env, s, req, tryLock, now).result.Pass?
    ensures SelectLive(s.links, req.fullShortUrl, req.originGid).One? && tryLock
    ensures !SoftDeleteClash(s.links, req.fullShortUrl, req.originGid, now)
    ensures var has := SelectLive(s.links, req.fullShortUrl, req.originGid).row;
            var after := Update(env, s, req, tryLock, now).after;
            && after.links == SoftDelete(s.links, req.fullShortUrl, req.originGid, now)
                              + [MovedRow(has, req, env.defaultDomain, FaviconValue(env.fetchFavicon(req.originUrl)))]
            && after.gotos == s.gotos[req.fullShortUrl := req.gid]
            && after.stats == Rekey(s.stats, req.fullShortUrl, req.originGid, req.gid)
            && forall k :: 0 <= k < |s.links| && s.links[k] == has && has.delTime == 0 ==>
                 after.links[k] == has.(delFlag := 1, delTime := now)
  {
    var has := SelectLive(s.links, req.fullShortUrl, req.originGid).row;
    var m := Move(env, s, has, req, now);
    assert Update(env, s, req, tryLock, now) == Invalidate(s, m.after, has, req, now);
  }

  /** After a successful group move no stats row of the link is left under
      the old group, and the new group holds the old group's rows as well as
      its own, table by table. */
  lemma UpdateMovesStats(env: Env, s: Stores, req: UpdateRequest, tryLock: bool, now: int, table: StatsTable)
    requires req.gid != req.originGid
    requires Update(env, s, req, tryLock, now).result.Pass?
    ensures var after := Update(env, s, req, tryLock, now).after;
            && CountFollowing(after.stats, table, req.fullShortUrl, req.originGid) == 0
            && CountFollowing(after.stats, table, req.fullShortUrl, req.gid)
               == CountFollowing(s.stats, table, req.fullShortUrl, req.originGid)
                  + CountFollowing(s.stats, table, req.fullShortUrl, req.gid)
  {
    UpdateGroupMoveWrites(env, s, req, tryLock, now);
    RekeyMovesEveryRow(s.stats, table, req.fullShortUrl, req.originGid, req.gid);
  }

  /** After a successful update the redirect entry is gone exactly when the
      validity changed, and the tombstone exactly when the link was expired
      and is now permanent or valid into the future; nothing else in either
      cache changes. */
  lemma UpdateInvalidatesCache(env: Env, s: Stores, req: UpdateRequest, tryLock: bool, now: int)
    requires Update(env, s, req, tryLock, now).result.Pass?
    ensures SelectLive(s.links, req.fullShortUrl, req.originGid).One?
    ensures var has := SelectLive(s.links, req.fullShortUrl, req.originGid).row;
            var after := Update(env, s, req, tryLock, now).after;
            && after.cache == (if has.validDateType != req.validDateType || has.validDate != req.validDate
                               then s.cache - {req.fullShortUrl} else s.cache)
            && after.tombstones
               == (if CacheActionFor(has.validDateType, has.validDate, req.validDateType, req.validDate, now).dropTombstone
                   then s.tombstones - {req.fullShortUrl} else s.tombstones)
  {
    var has := SelectLive(s.links, req.fullShortUrl, req.originGid).row;
    if has.gid == req.gid {
      var written := s.(links := ReplaceLive(s.links, req.fullShortUrl, req.gid, InGroupEdit(has, req)));
      assert Update(env, s, req, tryLock, now) == Invalidate(s, written, has, req, now);
    } else {
      var m := Move(env, s, has, req, now);
      assert Update(env, s, req, tryLock, now) == Invalidate(s, m.after, has, req, now);
    }
  }

  /** A redirect leaves the routing as it was. */
  lemma RestoreKeepsRouted(env: Env, s: Stores, serverName: string, port: int, shortUri: string,
                           client: Client, minted: string, filledWhileWaiting: Option<CacheEntry>, now: int)
    requires Routed(s)
    ensures Routed(Restore(env, s, serverName, port, shortUri, client, minted, filledWhileWaiting, now).after)
  {
  }

  /** Right after a creation, a request for the new short URL on the default
      domain and port 80 is answered from the warmed cache with the origin URL
      (when the origin URL is not blank). */
  lemma CreatedLinkRedirects(env: Env, s: Stores, req: CreateRequest, uuid: nat -> string,
                             client: Client, minted: string, filledWhileWaiting: Option<CacheEntry>, now: int)
    requires Create(env, s, req, uuid).result.Success?
    requires !IsBlank(req.originUrl)
    ensures var c := Create(env, s, req, uuid);
            var r := Restore(env, c.after, env.defaultDomain, 80, c.after.links[|s.links|].shortUri,
                             client, minted, filledWhileWaiting, now).result;
            r.Success? && r.value.location == req.originUrl
  {
    var c := Create(env, s, req, uuid);
    var row := c.after.links[|s.links|];
    assert FullShortUrlOf(env.defaultDomain, 80, row.shortUri) == row.fullShortUrl;
    CacheHitRedirects(env, c.after, env.defaultDomain, 80, row.shortUri, client, minted, filledWhileWaiting, now);
  }

  /** After a successful group move, in a routed snapshot, the goto row
      names the new group and `selectOne` under it finds exactly the moved
      row, which carries the requested origin URL and validity. */
  lemma MoveRoutesToNewGroup(env: Env, s: Stores, req: UpdateRequest, tryLock: bool, now: int)
    requires Routed(s)
    requires req.gid != req.originGid
    requires Update(env, s, req, tryLock, now).result.Pass?
    ensures var after := Update(env, s, req, tryLock, now).after;
            && req.fullShortUrl in after.gotos && after.gotos[req.fullShortUrl] == req.gid
            && SelectLive(after.links, req.fullShortUrl, req.gid).One?
            && SelectLive(after.links, req.fullShortUrl, req.gid).row.originUrl == req.originUrl
            && SelectLive(after.links, req.fullShortUrl, req.gid).row.validDate == req.validDate
  {
    var url := req.fullShortUrl;
    UpdateGroupMoveWrites(env, s, req, tryLock, now);
    var has := SelectLive(s.links, url, req.originGid).row;
    var k :| 0 <= k < |s.links| && s.links[k] == has;
    RoutedLiveRowIsOnly(s, url, req.originGid, k);
    var moved := MovedRow(has, req, env.defaultDomain, FaviconValue(env.fetchFavicon(req.originUrl)));
    forall r | r in s.links ensures !IsLive(r, url, req.gid) {
      var i :| 0 <= i < |s.links| && s.links[i] == r;
    }
    GroupMoveRelocates(s.links, url, req.originGid, req.gid, now, moved);
  }

  /** After a successful group move, in a routed snapshot, a request that
      reaches the store finds the moved row under the new group and redirects
      to the requested origin URL. */
  lemma MovedLinkRedirects(env: Env, s: Stores, req: UpdateRequest, tryLock: bool, now: int,
                           serverName: string, port: int, shortUri: string, client: Client, minted: string)
    requires Routed(s)
    requires req.gid != req.originGid
    requires Update(env, s, req, tryLock, now).result.Pass?
    requires FullShortUrlOf(serverName, port, shortUri) == req.fullShortUrl
    requires Cached(Update(env, s, req, tryLock, now).after.cache, req.fullShortUrl).None?
    requires !Tombstoned(Update(env, s, req, tryLock, now).after.tombstones, req.fullShortUrl)
    requires !Expired(req.validDate, now)
    ensures var r := Restore(env, Update(env, s, req, tryLock, now).after, serverName, port, shortUri,
                             client, minted, None, now).result;
            r.Success? && r.value.location == req.originUrl
  {
    var after := Update(env, s, req, tryLock, now).after;
    MoveRoutesToNewGroup(env, s, req, tryLock, now);
    UpdateKeepsRouted(env, s, req, tryLock, now);
    RestoreReachesLock(env, after, serverName, port, shortUri, client, minted, now);
  }

  /** A group move to PERMANENT that carries a date already past, of a link
      that had expired: the update drops the tombstone and the cached
      redirect, yet the moved row keeps that past date, so the next request
      that reaches the store still finds the link expired, goes to the
      not-found page and writes the tombstone again. */
  lemma PermanentPastDateMoveStaysDead(env: Env, s: Stores, req: UpdateRequest, tryLock: bool, now: int,
                                       serverName: string, port: int, shortUri: string, client: Client,
                                       minted: string)
    requires Routed(s)
    requires req.gid != req.originGid
    requires Update(env, s, req, tryLock, now).result.Pass?
    requires req.validDateType == PERMANENT && Expired(req.validDate, now)
    requires SelectLive(s.links, req.fullShortUrl, req.originGid).One?
    requires SelectLive(s.links, req.fullShortUrl, req.originGid).row.validDateType != PERMANENT
    requires Expired(SelectLive(s.links, req.fullShortUrl, req.originGid).row.validDate, now)
    requires FullShortUrlOf(serverName, port, shortUri) == req.fullShortUrl
    ensures var after := Update(env, s, req, tryLock, now).after;
            && req.fullShortUrl !in after.tombstones && req.fullShortUrl !in after.cache
            && SelectLive(after.links, req.fullShortUrl, req.gid).One?
            && Expired(SelectLive(after.links, req.fullShortUrl, req.gid).row.validDate, now)
            && Restore(env, after, serverName, port, shortUri, client, minted, None, now)
               == Step(Success(Redirect(NotFoundPage, None)),
                       after.(tombstones := after.tombstones[req.fullShortUrl := Tombstone]))
  {
    var url := req.fullShortUrl;
    var after := Update(env, s, req, tryLock, now).after;
    UpdateInvalidatesCache(env, s, req, tryLock, now);
    MoveRoutesToNewGroup(env, s, req, tryLock, now);
    UpdateKeepsRouted(env, s, req, tryLock, now);
    assert url in after.filter;
    RestoreReachesLock(env, after, serverName, port, shortUri, client, minted, now);
    StoreMissWritesTombstone(env, after, url, client, minted, now);
  }

  /** The redirect is stable: a second request for the same URL at the same
      time, with nothing written in between, goes where the first went (or
      fails as it failed), whoever sends it. */
  lemma RedirectIsStable(env: Env, s: Stores, serverName: string, port: int, shortUri: string,
                         client: Client, minted: string, filledWhileWaiting: Option<CacheEntry>, now: int,
                         client2: Client, minted2: string)
    ensures var first := Restore(env, s, serverName, port, shortUri, client, minted, filledWhileWaiting, now);
            var second := Restore(env, first.after, serverName, port, shortUri, client2, minted2, None, now);
            && (second.result.Success? <==> first.result.Success?)
            && (first.result.Success? ==> second.result.value.location == first.result.value.location)
  {
    var url := FullShortUrlOf(serverName, port, shortUri);
    if Cached(s.cache, url).None? && url in s.filter && !Tombstoned(s.tombstones, url) {
      var waited := if filledWhileWaiting.Some? then s.cache[url := filledWhileWaiting.value] else s.cache;
      LockedRedirectIsStable(env, s.(cache := waited), serverName, port, shortUri, client, minted, now,
                             client2, minted2);
    }
  }

  /** A request that finds no cache entry and no tombstone for a URL in the
      filter, with nothing written while it waits, goes to the locked part. */
  lemma RestoreReachesLock(env: Env, s: Stores, serverName: string, port: int, shortUri: string,
                           client: Client, minted: string, now: int)
    requires Cached(s.cache, FullShortUrlOf(serverName, port, shortUri)).None?
    requires FullShortUrlOf(serverName, port, shortUri) in s.filter
    requires !Tombstoned(s.tombstones, FullShortUrlOf(serverName, port, shortUri))
    ensures Restore(env, s, serverName, port, shortUri, client, minted, None, now)
            == RestoreLocked(env, s, FullShortUrlOf(serverName, port, shortUri), client, minted, now)
  {
    assert s.(cache := s.cache) == s;
  }

  /** A request whose URL has a usable cache entry is answered with it; the
      visit is recorded and handed to the producer without a group. */
  lemma CacheHitRedirects(env: Env, s: Stores, serverName: string, port: int, shortUri: string,
                          client: Client, minted: string, filledWhileWaiting: Option<CacheEntry>, now: int)
    requires Cached(s.cache, FullShortUrlOf(serverName, port, shortUri)).Some?
    ensures var url := FullShortUrlOf(serverName, port, shortUri);
            var st := Restore(env, s, serverName, port, shortUri, client, minted, filledWhileWaiting, now);
            && st.result.Success? && Some(st.result.value.location) == Cached(s.cache, url)
            && st.after.outbox == s.outbox + [StatsMessage(url, None, VisitIn(s, url, client, minted).record)]
            && st.after.cache == s.cache && st.after.tombstones == s.tombstones
  {
  }

  /** A request for a URL that is neither cached nor in the filter goes to
      the not-found page and writes nothing, not even a tombstone. */
  lemma FilterMissWritesNothing(env: Env, s: Stores, serverName: string, port: int, shortUri: string,
                                client: Client, minted: string, filledWhileWaiting: Option<CacheEntry>, now: int)
    requires Cached(s.cache, FullShortUrlOf(serverName, port, shortUri)).None?
    requires FullShortUrlOf(serverName, port, shortUri) !in s.filter
    ensures Restore(env, s, serverName, port, shortUri, client, minted, filledWhileWaiting, now)
            == Step(Success(Redirect(NotFoundPage, None)), s)
  {
  }

  /** A request that waited on the lock while an earlier holder filled the
      cache is answered from that entry, without a group for the producer. */
  lemma WaitedCacheHitRedirects(env: Env, s: Stores, serverName: string, port: int, shortUri: string,
                                client: Client, minted: string, filled: CacheEntry, now: int)
    requires Cached(s.cache, FullShortUrlOf(serverName, port, shortUri)).None?
    requires FullShortUrlOf(serverName, port, shortUri) in s.filter
    requires !Tombstoned(s.tombstones, FullShortUrlOf(serverName, port, shortUri))
    requires !IsBlank(filled.value)
    ensures var url := FullShortUrlOf(serverName, port, shortUri);
            var st := Restore(env, s, serverName, port, shortUri, client, minted, Some(filled), now);
            && st.result.Success? && st.result.value.location == filled.value
            && st.after.cache == s.cache[url := filled] && st.after.tombstones == s.tombstones
            && st.after.outbox == s.outbox + [StatsMessage(url, None, VisitIn(s, url, client, minted).record)]
  {
    var url := FullShortUrlOf(serverName, port, shortUri);
    assert VisitIn(s.(cache := s.cache[url := filled]), url, client, minted) == VisitIn(s, url, client, minted);
  }

  /** Under the lock, with no cache entry: a URL with no goto row, no live
      row, or only an expired one, writes the 30-minute tombstone and goes to
      the not-found page, recording no visit. */
  lemma StoreMissWritesTombstone(env: Env, s: Stores, url: string, client: Client, minted: string, now: int)
    requires Cached(s.cache, url).None?
    requires || url !in s.gotos
             || SelectLive(s.links, url, s.gotos[url]).NoRow?
             || (SelectLive(s.links, url, s.gotos[url]).One? && Expired(SelectLive(s.links, url, s.gotos[url]).row.validDate, now))
    ensures RestoreLocked(env, s, url, client, minted, now)
            == Step(Success(Redirect(NotFoundPage, None)), s.(tombstones := s.tombstones[url := CacheEntry("-", 30 * 60 * 1000)]))
  {
  }

  /** Under the lock, with no cache entry: a live row that has not expired
      fills the cache with its origin URL for `cacheValidTime`, redirects
      there, and hands the visit to the producer with the row's group. */
  lemma StoreHitFillsCache(env: Env, s: Stores, url: string, client: Client, minted: string, now: int, link: Link)
    requires Cached(s.cache, url).None?
    requires url in s.gotos && SelectLive(s.links, url, s.gotos[url]) == One(link)
    requires !Expired(link.validDate, now)
    ensures var st := RestoreLocked(env, s, url, client, minted, now);
            var v := VisitIn(s, url, client, minted);
            && st.result == Success(Redirect(link.originUrl, v.newCookie))
            && st.after.cache == s.cache[url := CacheEntry(link.originUrl, env.cacheValidTime(link.validDate))]
            && st.after.tombstones == s.tombstones
            && st.after.outbox == s.outbox + [StatsMessage(url, Some(link.gid), v.record)]
            && st.after.uvSets == s.uvSets[url := v.uvSet] && st.after.uipSets == s.uipSets[url := v.uipSet]
  {
    var filled := s.(cache := s.cache[url := CacheEntry(link.originUrl, env.cacheValidTime(link.validDate))]);
    assert VisitIn(filled, url, client, minted) == VisitIn(s, url, client, minted);
  }

  /** A request for a tombstoned URL that is not cached goes to the
      not-found page and writes nothing. */
  lemma TombstoneMisses(env: Env, s: Stores, serverName: string, port: int, shortUri: string,
                        client: Client, minted: string, now: int)
    requires Cached(s.cache, FullShortUrlOf(serverName, port, shortUri)).None?
    requires FullShortUrlOf(serverName, port, shortUri) in s.tombstones
    requires s.tombstones[FullShortUrlOf(serverName, port, shortUri)] == Tombstone
    ensures Restore(env, s, serverName, port, shortUri, client, minted, None, now) == Miss(s)
  {
    assert !IsBlankChar(Tombstone.value[0]);
  }

  /** `RedirectIsStable` once the first request went past the filter and the
      tombstone. */
  lemma LockedRedirectIsStable(env: Env, s: Stores, serverName: string, port: int, shortUri: string,
                               client: Client, minted: string, now: int, client2: Client, minted2: string)
    requires FullShortUrlOf(serverName, port, shortUri) in s.filter
    requires !Tombstoned(s.tombstones, FullShortUrlOf(serverName, port, shortUri))
    ensures var first := RestoreLocked(env, s, FullShortUrlOf(serverName, port, shortUri), client, minted, now);
            var second := Restore(env, first.after, serverName, port, shortUri, client2, minted2, None, now);
            && (second.result.Success? <==> first.result.Success?)
            && (first.result.Success? ==> second.result.value.location == first.result.value.location)
  {
    var url := FullShortUrlOf(serverName, port, shortUri);
    var first := RestoreLocked(env, s, url, client, minted, now);
    if Cached(s.cache, url).Some? {
      assert first == Hit(s, url, None, Cached(s.cache, url).value, client, minted);
      CacheHitRedirects(env, first.after, serverName, port, shortUri, client2, minted2, None, now);
    } else if url !in s.gotos {
      TombstoneMisses(env, first.after, serverName, port, shortUri, client2, minted2, now);
    } else {
      StoreRedirectIsStable(env, s, serverName, port, shortUri, client, minted, now, client2, minted2);
    }
  }

  /** The case of `LockedRedirectIsStable` where the first request read the
      link table. */
  lemma StoreRedirectIsStable(env: Env, s: Stores, serverName: string, port: int, shortUri: string,
                              client: Client, minted: string, now: int, client2: Client, minted2: string)
    requires FullShortUrlOf(serverName, port, shortUri) in s.filter
    requires !Tombstoned(s.tombstones, FullShortUrlOf(serverName, port, shortUri))
    requires Cached(s.cache, FullShortUrlOf(serverName, port, shortUri)).None?
    requires FullShortUrlOf(serverName, port, shortUri) in s.gotos
    ensures var first := RestoreLocked(env, s, FullShortUrlOf(serverName, port, shortUri), client, minted, now);
            var second := Restore(env, first.after, serverName, port, shortUri, client2, minted2, None, now);
            && (second.result.Success? <==> first.result.Success?)
            && (first.result.Success? ==> second.result.value.location == first.result.value.location)
  {
    var url := FullShortUrlOf(serverName, port, shortUri);
    var first := RestoreLocked(env, s, url, client, minted, now);
    match SelectLive(s.links, url, s.gotos[url])
    case TooMany =>
      RestoreReachesLock(env, s, serverName, port, shortUri, client2, minted2, now);
    case NoRow =>
      TombstoneMisses(env, first.after, serverName, port, shortUri, client2, minted2, now);
    case One(link) =>
      if Expired(link.validDate, now) {
        TombstoneMisses(env, first.after, serverName, port, shortUri, client2, minted2, now);
      } else {
        FilledRedirectIsStable(env, s, serverName, port, shortUri, client, minted, now, client2, minted2, link);
      }
  }

  /** The case of `LockedRedirectIsStable` where the first request filled the
      cache from the live row `link`. */
  lemma FilledRedirectIsStable(env: Env, s: Stores, serverName: string, port: int, shortUri: string,
                               client: Client, minted: string, now: int, client2: Client, minted2: string,
                               link: Link)
    requires FullShortUrlOf(serverName, port, shortUri) in s.filter
    requires !Tombstoned(s.tombstones, FullShortUrlOf(serverName, port, shortUri))
    requires Cached(s.cache, FullShortUrlOf(serverName, port, shortUri)).None?
    requires FullShortUrlOf(serverName, port, shortUri) in s.gotos
    requires SelectLive(s.links, FullShortUrlOf(serverName, port, shortUri),
                        s.gotos[FullShortUrlOf(serverName, port, shortUri)]) == One(link)
    requires !Expired(link.validDate, now)
    ensures var first := RestoreLocked(env, s, FullShortUrlOf(serverName, port, shortUri), client, minted, now);
            var second := Restore(env, first.after, serverName, port, shortUri, client2, minted2, None, now);
            && first.result.Success? && first.result.value.location == link.originUrl
            && second.result.Success? && second.result.value.location == link.originUrl
  {
    var url := FullShortUrlOf(serverName, port, shortUri);
    var filled := s.(cache := s.cache[url := CacheEntry(link.originUrl, env.cacheValidTime(link.validDate))]);
    var first := Hit(filled, url, Some(link.gid), link.originUrl, client, minted);
    assert RestoreLocked(env, s, url, client, minted, now) == first;
    if IsBlank(link.originUrl) {
      RestoreReachesLock(env, first.after, serverName, port, shortUri, client2, minted2, now);
    }
  }

  /** An in-group update that changes the origin URL but not the validity
      keeps the cached redirect, so the next request still goes to the old
      origin URL until that entry expires. */
  lemma StaleRedirectAfterOriginEdit(env: Env, s: Stores, req: UpdateRequest, tryLock: bool, now: int,
                                     serverName: string, port: int, shortUri: string, client: Client,
                                     minted: string, filledWhileWaiting: Option<CacheEntry>, cachedUrl: string)
    requires req.gid == req.originGid
    requires Update(env, s, req, tryLock, now).result.Pass?
    requires var has := SelectLive(s.links, req.fullShortUrl, req.originGid).row;
             has.validDateType == req.validDateType && has.validDate == req.validDate
    requires FullShortUrlOf(serverName, port, shortUri) == req.fullShortUrl
    requires Cached(s.cache, req.fullShortUrl) == Some(cachedUrl)
    ensures var r := Restore(env, Update(env, s, req, tryLock, now).after, serverName, port, shortUri,
                             client, minted, filledWhileWaiting, now).result;
            r.Success? && r.value.location == cachedUrl
  {
  }

  // ---------------------------------------------------------------------
  // Batch creation

  /** The creation request of item `i`: the batch's group, types and
      validity with the `i`-th origin URL and description. */
  function BatchItem(req: BatchRequest, i: nat): CreateRequest
    requires i < |req.originUrls| && i < |req.describes|
  {
    CreateRequest(req.originUrls[i], req.gid, req.createdType, req.validDateType, req.validDate, req.describes[i])
  }

  /** `batchCreateShortLink` from item `i` on: create item `i`, report it if
      the creation succeeded and skip it if it failed, then go on with the
      next item; a missing description aborts with the items before it
      created. `uuid(i)` salts item `i`. */
  function BatchFrom(env: Env, s: Stores, req: BatchRequest, uuid: nat -> nat -> string, i: nat)
    : Step<Result<seq<BaseInfo>, LinkError>>
    decreases |req.originUrls| - i
  {
    if i >= |req.originUrls| then Step(Success([]), s)
    else if i >= |req.describes| then Step(Failure(IndexOutOfBounds), s)
    else
      var c := Create(env, s, BatchItem(req, i), uuid(i));
      var rest := BatchFrom(env, c.after, req, uuid, i + 1);
      if c.result.Failure? || rest.result.Failure? then rest
      else Step(Success([BaseInfo(c.result.value.fullShortUrl, req.originUrls[i], req.describes[i])] + rest.result.value),
                rest.after)
  }

  /** `batchCreateShortLink`: the items from the first on, and their count. */
  function Batch(env: Env, s: Stores, req: BatchRequest, uuid: nat -> nat -> string): Step<Result<BatchResponse, LinkError>>
  {
    var b := Combine([], BatchFrom(env, s, req, uuid, 0));
    if b.result.Failure? then Step(Failure(b.result.error), b.after)
    else Step(Success(BatchResponse(|b.result.value|, b.result.value)), b.after)
  }

  /** A batch fails exactly when some item has no description, and then
      with the index error. */
  lemma {:induction false} BatchFromFails(env: Env, s: Stores, req: BatchRequest, uuid: nat -> nat -> string, i: nat)
    ensures var b := BatchFrom(env, s, req, uuid, i);
            && (b.result.Failure? <==> i < |req.originUrls| && |req.describes| < |req.originUrls|)
            && (b.result.Failure? ==> b.result.error == IndexOutOfBounds)
    decreases |req.originUrls| - i
  {
    if i < |req.originUrls| && i < |req.describes| {
      var c := Create(env, s, BatchItem(req, i), uuid(i));
      BatchFromFails(env, c.after, req, uuid, i + 1);
    }
  }

  /** The reports of the items before the current one, put in front of what
      the rest of the batch reports. */
  function Combine(reported: seq<BaseInfo>, rest: Step<Result<seq<BaseInfo>, LinkError>>)
    : Step<Result<seq<BaseInfo>, LinkError>>
  {
    if rest.result.Failure? then rest else Step(Success(reported + rest.result.value), rest.after)
  }

  /** One item of the batch: what the run from item `i` reports after
      `reported` is what the run from item `i + 1` reports after `reported`
      and item `i`'s own report, if its creation succeeded. */
  lemma BatchFromStep(env: Env, s: Stores, req: BatchRequest, uuid: nat -> nat -> string, i: nat,
                      reported: seq<BaseInfo>)
    requires i < |req.originUrls| && i < |req.describes|
    ensures var c := Create(env, s, BatchItem(req, i), uuid(i));
            var own := if c.result.Success? then [BaseInfo(c.result.value.fullShortUrl, req.originUrls[i], req.describes[i])]
                       else [];
            Combine(reported, BatchFrom(env, s, req, uuid, i))
            == Combine(reported + own, BatchFrom(env, c.after, req, uuid, i + 1))
  {
    var c := Create(env, s, BatchItem(req, i), uuid(i));
    var rest := BatchFrom(env, c.after, req, uuid, i + 1);
    if c.result.Success? && rest.result.Success? {
      var own := [BaseInfo(c.result.value.fullShortUrl, req.originUrls[i], req.describes[i])];
      assert reported + (own + rest.result.value) == (reported + own) + rest.result.value;
    } else if rest.result.Success? {
      assert reported + [] == reported;
    }
  }

  /** A batch past its last item reports nothing more. */
  lemma BatchDone(env: Env, s: Stores, req: BatchRequest, uuid: nat -> nat -> string, i: nat)
    requires i >= |req.originUrls|
    ensures BatchFrom(env, s, req, uuid, i) == Step(Success([]), s)
  {
  }

  /** A batch at an item with no description stops with the index error. */
  lemma BatchAborts(env: Env, s: Stores, req: BatchRequest, uuid: nat -> nat -> string, i: nat)
    requires |req.describes| <= i < |req.originUrls|
    ensures BatchFrom(env, s, req, uuid, i) == Step(Failure(IndexOutOfBounds), s)
  {
  }

  /** A batch from item `i` reports at most one entry per remaining item. */
  lemma {:induction false} BatchFromBound(env: Env, s: Stores, req: BatchRequest, uuid: nat -> nat -> string, i: nat)
    requires i <= |req.originUrls|
    ensures var b := BatchFrom(env, s, req, uuid, i);
            b.result.Success? ==> |b.result.value| <= |req.originUrls| - i
    decreases |req.originUrls| - i
  {
    if i < |req.originUrls| && i < |req.describes| {
      var c := Create(env, s, BatchItem(req, i), uuid(i));
      BatchFromBound(env, c.after, req, uuid, i + 1);
    }
  }

  /** `total` is the number of entries reported, and never more than the
      number of origin URLs. */
  lemma BatchTotalBound(env: Env, s: Stores, req: BatchRequest, uuid: nat -> nat -> string)
    ensures var b := Batch(env, s, req, uuid);
            b.result.Success? ==> b.result.value.total == |b.result.value.baseLinkInfos| <= |req.originUrls|
  {
    BatchFromBound(env, s, req, uuid, 0);
  }

  /** What a batch writes: rows are only appended, the filter only grows,
      and the stats, tombstones, sets and producer are untouched. */
  lemma {:induction false} BatchFromAppends(env: Env, s: Stores, req: BatchRequest, uuid: nat -> nat -> string, i: nat)
    ensures var b := BatchFrom(env, s, req, uuid, i);
            && |s.links| <= |b.after.links| && b.after.links[..|s.links|] == s.links && s.filter <= b.after.filter
            && b.after.stats == s.stats && b.after.tombstones == s.tombstones && b.after.outbox == s.outbox
            && b.after.uvSets == s.uvSets && b.after.uipSets == s.uipSets
    decreases |req.originUrls| - i
  {
    if i < |req.originUrls| && i < |req.describes| {
      var c := Create(env, s, BatchItem(req, i), uuid(i));
      var rest := BatchFrom(env, c.after, req, uuid, i + 1);
      BatchFromAppends(env, c.after, req, uuid, i + 1);
      assert rest.after.links[..|s.links|] == rest.after.links[..|c.after.links|][..|s.links|];
    }
  }

  /** What a batch reports for the rows it inserted, in order. */
  function ReportOf(rows: seq<Link>): (infos: seq<BaseInfo>)
    ensures |infos| == |rows|
    decreases |rows|
  {
    if rows == [] then []
    else [BaseInfo("http://" + rows[0].fullShortUrl, rows[0].originUrl, rows[0].describe)] + ReportOf(rows[1..])
  }

  /** The report of rows `pre + [row] + tail` past `pre` is the report of
      `row` followed by that of `tail`. */
  lemma ReportOfStep(pre: seq<Link>, mid: seq<Link>, all: seq<Link>)
    requires |mid| == |pre| + 1 && mid[..|pre|] == pre
    requires |mid| <= |all| && all[..|mid|] == mid
    ensures ReportOf(all[|pre|..])
            == [BaseInfo("http://" + mid[|pre|].fullShortUrl, mid[|pre|].originUrl, mid[|pre|].describe)]
               + ReportOf(all[|mid|..])
  {
    assert all[|pre|..][0] == all[..|mid|][|pre|];
    assert all[|pre|..][1..] == all[|mid|..];
  }

  /** On success the batch reports exactly the rows it inserted, in order,
      so `total` is the number of rows inserted: one per item whose creation
      succeeded. */
  lemma {:induction false} BatchFromReportsInserted(env: Env, s: Stores, req: BatchRequest,
                                                    uuid: nat -> nat -> string, i: nat)
    ensures var b := BatchFrom(env, s, req, uuid, i);
            b.result.Success? ==> |s.links| <= |b.after.links| && b.result.value == ReportOf(b.after.links[|s.links|..])
    decreases |req.originUrls| - i
  {
    if i < |req.originUrls| && i < |req.describes| {
      var c := Create(env, s, BatchItem(req, i), uuid(i));
      var rest := BatchFrom(env, c.after, req, uuid, i + 1);
      BatchFromReportsInserted(env, c.after, req, uuid, i + 1);
      if c.result.Success? && rest.result.Success? {
        BatchFromAppends(env, c.after, req, uuid, i + 1);
        ReportOfStep(s.links, c.after.links, rest.after.links);
      }
    } else {
      assert s.links[|s.links|..] == [];
    }
  }

  /** Every row a batch inserts is in the batch's group. */
  lemma {:induction false} BatchFromKeepsGroup(env: Env, s: Stores, req: BatchRequest,
                                               uuid: nat -> nat -> string, i: nat)
    ensures var b := BatchFrom(env, s, req, uuid, i);
            |s.links| <= |b.after.links| && forall r :: r in b.after.links[|s.links|..] ==> r.gid == req.gid
    decreases |req.originUrls| - i
  {
    if i < |req.originUrls| && i < |req.describes| {
      var c := Create(env, s, BatchItem(req, i), uuid(i));
      var rest := BatchFrom(env, c.after, req, uuid, i + 1);
      BatchFromKeepsGroup(env, c.after, req, uuid, i + 1);
      BatchFromAppends(env, c.after, req, uuid, i + 1);
      forall r | r in rest.after.links[|s.links|..] ensures r.gid == req.gid {
        var j :| 0 <= j < |rest.after.links[|s.links|..]| && rest.after.links[|s.links|..][j] == r;
        if j + |s.links| >= |c.after.links| {
          assert r == rest.after.links[|c.after.links|..][j + |s.links| - |c.after.links|];
        } else {
          assert r == rest.after.links[..|c.after.links|][j + |s.links|];
        }
      }
    }
  }

  /** A batch keeps every live link routed. */
  lemma {:induction false} BatchFromKeepsRouted(env: Env, s: Stores, req: BatchRequest, uuid: nat -> nat -> string, i: nat)
    requires Routed(s)
    ensures Routed(BatchFrom(env, s, req, uuid, i).after)
    decreases |req.originUrls| - i
  {
    if i < |req.originUrls| && i < |req.describes| {
      var c := Create(env, s, BatchItem(req, i), uuid(i));
      CreateKeepsRouted(env, s, BatchItem(req, i), uuid(i));
      BatchFromKeepsRouted(env, c.after, req, uuid, i + 1);
    }
  }

  class ShortLinkService {
    const env: Env

    var links: seq<Link>
    var gotos: map<string, string>
    var stats: seq<StatsRow>
    var cache: map<string, CacheEntry>
    var tombstones: map<string, CacheEntry>
    var filter: set<string>
    var uvSets: map<string, set<string>>
    var uipSets: map<string, set<string>>
    var outbox: seq<StatsMessage>
    var locks: multiset<LockName>

    /** The stores as they stand. */
    function Snapshot(): Stores
      reads this
    {
      Stores(links, gotos, stats, cache, tombstones, filter, uvSets, uipSets, outbox)
    }

    constructor (env: Env)
      ensures this.env == env
      ensures Snapshot() == Stores([], map[], [], map[], map[], {}, map[], map[], [])
      ensures locks == multiset{}
    {
      this.env := env;
      links, gotos, stats, cache, tombstones := [], map[], [], map[], map[];
      filter, uvSets, uipSets, outbox, locks := {}, map[], map[], [], multiset{};
    }

    /** `generateSuffix`: try the salted hashes of attempts 0, 1, ... and keep
        the first whose full short URL the filter does not contain; give up
        once more than ten attempts collided. `uuid(k)` is the salt of attempt
        `k`; `checks` is the number of filter look-ups made. */
    method GenerateSuffix(originUrl: string, uuid: nat -> string) returns (r: Result<string, LinkError>, checks: nat)
      ensures r == SuffixFrom(env, filter, originUrl, uuid, 0)
      ensures 1 <= checks <= 11
      ensures r.Success? ==> r.value == Candidate(env.hashToBase62, originUrl, uuid, checks - 1)
      ensures forall k :: 0 <= k < checks - 1 ==>
        ShortUrl(env.defaultDomain, Candidate(env.hashToBase62, originUrl, uuid, k)) in filter
      ensures r.Failure? ==> checks == 11
    {
      var count := 0;
      while true
        invariant 0 <= count <= 11
        invariant forall k :: 0 <= k < count ==>
          ShortUrl(env.defaultDomain, Candidate(env.hashToBase62, originUrl, uuid, k)) in filter
        invariant SuffixFrom(env, filter, originUrl, uuid, 0) == SuffixFrom(env, filter, originUrl, uuid, count)
        decreases 11 - count
      {
        if count > 10 {
          return Failure(SuffixExhausted), 11;
        }
        var suffix := env.hashToBase62(originUrl + uuid(count));
        if env.defaultDomain + "/" + suffix !in filter {
          return Success(suffix), count + 1;
        }
        count := count + 1;
      }
    }

    /** `createShortLink`. */
    method CreateShortLink(req: CreateRequest, uuid: nat -> string) returns (r: Result<CreateResponse, LinkError>)
      modifies this
      ensures var c := Create(env, old(Snapshot()), req, uuid); r == c.result && Snapshot() == c.after
      ensures locks == old(locks)
    {
      var suffix, _ := GenerateSuffix(req.originUrl, uuid);
      if suffix.Failure? {
        return Failure(suffix.error);
      }
      var fullShortUrl := env.defaultDomain + "/" + suffix.value;
      var favicon := env.fetchFavicon(req.originUrl);
      if favicon.FetchError? {
        return Failure(FaviconFetchFailed);
      }
      var row := NewLinkRow(env.defaultDomain, suffix.value, req, FaviconValue(favicon));
      if KeyTaken(links, fullShortUrl, 0) || fullShortUrl in gotos {
        return Failure(DuplicateKey);
      }
      links := links + [row];
      gotos := gotos[fullShortUrl := req.gid];
      cache := cache[fullShortUrl := CacheEntry(req.originUrl, env.cacheValidTime(req.validDate))];
      filter := filter + {fullShortUrl};
      return Success(CreateResponse("http://" + fullShortUrl, req.originUrl, req.gid));
    }

    /** One item of `batchCreateShortLink`: the create call for the `i`-th
        origin URL and description; the exception of a failed create is
        swallowed and the item reported as absent. */
    method CreateBatchItem(req: BatchRequest, i: nat, uuid: nat -> string) returns (info: Option<BaseInfo>)
      requires i < |req.originUrls| && i < |req.describes|
      modifies this
      ensures var c := Create(env, old(Snapshot()), BatchItem(req, i), uuid);
              && Snapshot() == c.after
              && (info.Some? <==> c.result.Success?)
              && (info.Some? ==> info.value == BaseInfo(c.result.value.fullShortUrl, req.originUrls[i], req.describes[i]))
      ensures locks == old(locks)
    {
      var created := CreateShortLink(BatchItem(req, i), uuid);
      if created.Failure? {
        return None;
      }
      return Some(BaseInfo(created.value.fullShortUrl, created.value.originUrl, req.describes[i]));
    }

    /** `batchCreateShortLink`: create one link per origin URL, in order, with
        the description at the same index; a failed creation is skipped and the
        next item tried. A `describes` list shorter than `originUrls` aborts
        the batch at the first missing index, after the earlier items were
        created. `uuid(i)` salts item `i`. */
    method BatchCreateShortLink(req: BatchRequest, uuid: nat -> nat -> string) returns (r: Result<BatchResponse, LinkError>)
      modifies this
      ensures var b := Batch(env, old(Snapshot()), req, uuid); r == b.result && Snapshot() == b.after
      ensures locks == old(locks)
    {
      var result: seq<BaseInfo> := [];
      var i := 0;
      ghost var whole := Combine([], BatchFrom(env, Snapshot(), req, uuid, 0));
      while i < |req.originUrls|
        invariant 0 <= i <= |req.originUrls|
        invariant locks == old(locks)
        invariant whole == Batched(req, uuid, i, result)
      {
        if i >= |req.describes| {
          BatchAborts(env, Snapshot(), req, uuid, i);
          return Failure(IndexOutOfBounds);
        }
        result := BatchItemStep(req, uuid, i, result);
        i := i + 1;
      }
      BatchDone(env, Snapshot(), req, uuid, i);
      assert result + [] == result;
      return Success(BatchResponse(|result|, result));
    }

    /** What the whole batch reports, given the reports of items before `i`
        and the stores as they stand. */
    ghost function Batched(req: BatchRequest, uuid: nat -> nat -> string, i: nat, reported: seq<BaseInfo>)
      : Step<Result<seq<BaseInfo>, LinkError>>
      reads this
    {
      Combine(reported, BatchFrom(env, Snapshot(), req, uuid, i))
    }

    /** The loop body of `batchCreateShortLink`: item `i`, its report added
        after `reported` when it was created. */
    method BatchItemStep(req: BatchRequest, uuid: nat -> nat -> string, i: nat, reported: seq<BaseInfo>)
      returns (reported': seq<BaseInfo>)
      requires i < |req.originUrls| && i < |req.describes|
      modifies this
      ensures old(Batched(req, uuid, i, reported)) == Batched(req, uuid, i + 1, reported')
      ensures locks == old(locks)
    {
      BatchFromStep(env, Snapshot(), req, uuid, i, reported);
      var info := CreateBatchItem(req, i, uuid(i));
      if info.Some? {
        reported' := reported + [info.value];
      } else {
        reported' := reported;
        assert reported + [] == reported;
      }
    }

    /** `updateShortLink`; `tryLock` is the outcome of trying the group-move
        write lock, which is held only around the move's store writes. */
    method UpdateShortLink(req: UpdateRequest, tryLock: bool, now: int) returns (r: Outcome<LinkError>)
      modifies this
      ensures var u := Update(env, old(Snapshot()), req, tryLock, now); r == u.result && Snapshot() == u.after
      ensures locks == old(locks)
    {
      var verdict := VerificationWhitelist(env.whitelist, env.extractDomain(req.originUrl));
      if verdict.Fail? {
        return verdict;
      }
      var sel := SelectLive(links, req.fullShortUrl, req.originGid);
      if sel.NoRow? {
        return Fail(LinkNotFound);
      }
      if sel.TooMany? {
        return Fail(TooManyResults);
      }
      var has := sel.row;
      // What the transaction rolls back to.
      var linksBefore, gotosBefore, statsBefore := links, gotos, stats;
      ghost var s0 := Snapshot();
      if has.gid == req.gid {
        links := ReplaceLive(links, req.fullShortUrl, req.gid, InGroupEdit(has, req));
        assert Update(env, s0, req, tryLock, now) == Invalidate(s0, Snapshot(), has, req, now);
      } else {
        if !tryLock {
          return Fail(LinkBusy);
        }
        var lock := GidUpdateLock(req.fullShortUrl);
        locks := locks + multiset{lock};
        r := MoveGroup(has, req, now);
        locks := locks - multiset{lock};
        if r.Fail? {
          return;
        }
        assert Update(env, s0, req, tryLock, now) == Invalidate(s0, Snapshot(), has, req, now);
      }
      r := InvalidateCaches(has, req, now, linksBefore, gotosBefore, statsBefore);
    }

    /** The cache step at the end of `updateShortLink`; the null-date
        exception rolls the tables back to `linksBefore`, `gotosBefore` and
        `statsBefore`. */
    method InvalidateCaches(has: Link, req: UpdateRequest, now: int, linksBefore: seq<Link>,
                            gotosBefore: map<string, string>, statsBefore: seq<StatsRow>)
      returns (r: Outcome<LinkError>)
      modifies this`links, this`gotos, this`stats, this`cache, this`tombstones
      ensures var i := Invalidate(old(Snapshot()).(links := linksBefore, gotos := gotosBefore, stats := statsBefore),
                                  old(Snapshot()), has, req, now);
              r == i.result && Snapshot() == i.after
    {
      var url := req.fullShortUrl;
      var action := CacheActionFor(has.validDateType, has.validDate, req.validDateType, req.validDate, now);
      if action.dropRedirect {
        cache := cache - {url};
      }
      if action.nullDate {
        links, gotos, stats := linksBefore, gotosBefore, statsBefore;
        return Fail(NullValidDate);
      }
      if action.dropTombstone {
        tombstones := tombstones - {url};
      }
      return Pass;
    }

    /** The store writes of a group move. */
    method MoveGroup(has: Link, req: UpdateRequest, now: int) returns (r: Outcome<LinkError>)
      modifies this`links, this`gotos, this`stats
      ensures var m := Move(env, old(Snapshot()), has, req, now); r == m.result && Snapshot() == m.after
    {
      var url := req.fullShortUrl;
      if SoftDeleteClash(links, url, has.gid, now) {
        return Fail(DuplicateKey);
      }
      var deleted := SoftDelete(links, url, has.gid, now);
      var favicon := env.fetchFavicon(req.originUrl);
      if favicon.FetchError? {
        return Fail(FaviconFetchFailed);
      }
      var moved := MovedRow(has, req, env.defaultDomain, FaviconValue(favicon));
      if KeyTaken(deleted, url, 0) {
        return Fail(DuplicateKey);
      }
      if !(url in gotos && gotos[url] == has.gid) {
        return Fail(NullGotoRow);
      }
      links := deleted + [moved];
      stats := Rekey(stats, url, has.gid, req.gid);
      gotos := gotos[url := req.gid];
      return Pass;
    }

    /** `buildLinkStatsRecordAndSetUser`: read or mint the uv cookie, add it
        and the client address to the link's uv and uip sets, and build the
        visit record whose first-visit flags are those insertions' results. */
    method BuildLinkStatsRecordAndSetUser(url: string, client: Client, minted: string)
      returns (record: StatsRecord, uvCookie: Option<string>)
      modifies this`uvSets, this`uipSets
      ensures var v := VisitIn(old(Snapshot()), url, client, minted);
              && record == v.record && uvCookie == v.newCookie
              && uvSets == old(uvSets)[url := v.uvSet] && uipSets == old(uipSets)[url := v.uipSet]
    {
      var v := VisitOf(url, client, minted, SetOf(uvSets, url), SetOf(uipSets, url));
      uvSets := uvSets[url := v.uvSet];
      uipSets := uipSets[url := v.uipSet];
      record, uvCookie := v.record, v.newCookie;
    }

    /** `shortLinkStats`: hand the record to the stats producer. */
    method ShortLinkStats(url: string, gid: Option<string>, record: StatsRecord)
      modifies this`outbox
      ensures outbox == old(outbox) + [StatsMessage(url, gid, record)]
    {
      outbox := outbox + [StatsMessage(url, gid, record)];
    }

    /** The three steps of every successful redirect: build the visit record,
        hand it to the stats producer, answer with the location. */
    method RedirectTo(url: string, gid: Option<string>, location: string, client: Client, minted: string)
      returns (r: Result<Redirect, LinkError>)
      modifies this`uvSets, this`uipSets, this`outbox
      ensures var st := Hit(old(Snapshot()), url, gid, location, client, minted);
              r == st.result && Snapshot() == st.after
    {
      var record, cookie := BuildLinkStatsRecordAndSetUser(url, client, minted);
      ShortLinkStats(url, gid, record);
      return Success(Redirect(location, cookie));
    }

    /** `restoreUrl`; the per-URL lock is held from the second cache look-up
        to the end. */
    method RestoreUrl(shortUri: string, serverName: string, serverPort: int, client: Client,
                      minted: string, filledWhileWaiting: Option<CacheEntry>, now: int)
      returns (r: Result<Redirect, LinkError>)
      modifies this
      ensures var st := Restore(env, old(Snapshot()), serverName, serverPort, shortUri, client, minted,
                                filledWhileWaiting, now);
              r == st.result && Snapshot() == st.after
      ensures locks == old(locks)
    {
      ghost var s0 := Snapshot();
      var url := serverName + PortSuffix(serverPort) + "/" + shortUri;
      assert url == FullShortUrlOf(serverName, serverPort, shortUri);
      var cached := Cached(cache, url);
      if cached.Some? {
        r := RedirectTo(url, None, cached.value, client, minted);
        return;
      }
      if url !in filter {
        return Success(Redirect(NotFoundPage, None));
      }
      if Tombstoned(tombstones, url) {
        return Success(Redirect(NotFoundPage, None));
      }
      var lock := GotoLock(url);
      if filledWhileWaiting.Some? {
        cache := cache[url := filledWhileWaiting.value];
      }
      ghost var s1 := Snapshot();
      assert Restore(env, s0, serverName, serverPort, shortUri, client, minted, filledWhileWaiting, now)
          == RestoreLocked(env, s1, url, client, minted, now);
      locks := locks + multiset{lock};
      r := RedirectUnderLock(url, client, minted, now);
      locks := locks - multiset{lock};
    }

    /** The part of `restoreUrl` run while holding the per-URL lock. */
    method RedirectUnderLock(url: string, client: Client, minted: string, now: int)
      returns (r: Result<Redirect, LinkError>)
      modifies this`cache, this`tombstones, this`uvSets, this`uipSets, this`outbox
      ensures var st := RestoreLocked(env, old(Snapshot()), url, client, minted, now);
              r == st.result && Snapshot() == st.after
    {
      ghost var s0 := Snapshot();
      var cached := Cached(cache, url);
      if cached.Some? {
        r := RedirectTo(url, None, cached.value, client, minted);
        return;
      }
      if url !in gotos {
        tombstones := tombstones[url := Tombstone];
        return Success(Redirect(NotFoundPage, None));
      }
      var sel := SelectLive(links, url, gotos[url]);
      if sel.TooMany? {
        return Failure(TooManyResults);
      }
      if sel.NoRow? || Expired(sel.row.validDate, now) {
        tombstones := tombstones[url := Tombstone];
        return Success(Redirect(NotFoundPage, None));
      }
      var link := sel.row;
      cache := cache[url := CacheEntry(link.originUrl, env.cacheValidTime(link.validDate))];
      ghost var s1 := Snapshot();
      assert RestoreLocked(env, s0, url, client, minted, now) == Hit(s1, url, Some(link.gid), link.originUrl, client, minted);
      r := RedirectTo(url, Some(link.gid), link.originUrl, client, minted);
    }

    /** `listGroupShortLinkCount` over the link table: a requested group is
        listed exactly when it has an enabled row, deleted or not. */
    function ListGroupShortLinkCount(gids: seq<string>): (counts: map<string, nat>)
      reads this
      ensures forall g :: g in counts ==> g in gids && counts[g] == CountInGroup(links, g) > 0
      ensures forall g :: g in gids ==> (g in counts <==> exists r :: r in links && r.gid == g && r.enableStatus == 0)
    {
      GroupShortLinkCount(links, gids)
    }
  }
}
