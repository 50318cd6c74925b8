/** The decisions of the link service that are pure: the goto-domain
    whitelist, the full short URL a redirect request names, the suffix
    attempts of the allocator, and which cache entries an update invalidates. */
module LinkPolicy {
  import opened Common
  import opened LinkTable

  /** The goto-domain whitelist configuration: the nullable `enable` switch
      and the accepted domains. */
  datatype WhitelistConfig = WhitelistConfig(enable: Option<bool>, details: seq<string>)

  /** `verificationWhitelist`, given the domain extracted from the origin URL
      (null when none can be extracted). */
  function VerificationWhitelist(config: WhitelistConfig, domain: Option<string>): (r: Outcome<LinkError>)
    ensures r.Pass? <==> config.enable != Some(true) || (!IsBlankOrNull(domain) && domain.value in config.details)
    ensures r == Fail(BlankGotoDomain) <==> config.enable == Some(true) && IsBlankOrNull(domain)
    ensures r.Fail? ==> r.error == BlankGotoDomain || r.error == DomainNotWhitelisted
  {
    if config.enable != Some(true) then Pass
    else if IsBlankOrNull(domain) then Fail(BlankGotoDomain)
    else if domain.value !in config.details then Fail(DomainNotWhitelisted)
    else Pass
  }

  /** The port part of a redirect URL: empty for port 80, `":" + port` otherwise. */
  function PortSuffix(port: int): (p: string)
    ensures p == "" <==> port == 80
    ensures port != 80 ==> p[0] == ':' && p[1..] == IntToString(port)
  {
    if port == 80 then "" else ":" + IntToString(port)
  }

  /** Different ports give different port parts. */
  lemma PortSuffixInjective(a: int, b: int)
    requires PortSuffix(a) == PortSuffix(b)
    ensures a == b
  {
    if a != 80 && b != 80 {
      IntToStringInjective(a, b);
    }
  }

  /** The full short URL a redirect request names: server name, port part,
      "/" and the suffix. Exactly for port 80 it is the form creation writes
      (domain + "/" + suffix). */
  function FullShortUrlOf(serverName: string, port: int, shortUri: string): (url: string)
    ensures port == 80 <==> url == serverName + "/" + shortUri
    ensures |url| > |serverName| && url[..|serverName|] == serverName
    ensures port != 80 ==> url[|serverName|] == ':'
  {
    var url := serverName + PortSuffix(port) + "/" + shortUri;
    assert port != 80 ==> url[|serverName|] == ':';
    url
  }

  /** The suffix of attempt `k`: the hash of the origin URL salted with the
      `k`-th UUID. */
  function Candidate(hash: string -> string, originUrl: string, uuid: nat -> string, k: nat): string
  {
    hash(originUrl + uuid(k))
  }

  /** The full short URL a suffix would make under `domain`. */
  function ShortUrl(domain: string, suffix: string): string
  {
    domain + "/" + suffix
  }

  /** What an update does to the two redirect cache entries: drop the
      positive entry, drop the tombstone, or raise a NullPointerException
      (custom validity without a date, on an expired link) after dropping the
      positive entry. */
  datatype CacheAction = CacheAction(dropRedirect: bool, dropTombstone: bool, nullDate: bool)

  /** The invalidation at the end of `updateShortLink`, from the link's old
      validity, the requested validity and the current time. */
  function CacheActionFor(oldType: int, oldDate: Option<int>, newType: int, newDate: Option<int>, now: int): (a: CacheAction)
    ensures a.dropRedirect <==> oldType != newType || oldDate != newDate
    ensures a.dropTombstone ==> a.dropRedirect && Expired(oldDate, now)
    ensures a.dropTombstone ==> newType == PERMANENT || (newDate.Some? && !Expired(newDate, now) && newDate.value != now)
    ensures a.nullDate <==> a.dropRedirect && Expired(oldDate, now) && newType != PERMANENT && newDate.None?
    ensures !(a.dropTombstone && a.nullDate)
  {
    var changed := oldType != newType || oldDate != newDate;
    var revive := changed && Expired(oldDate, now);
    CacheAction(
      changed,
      revive && (newType == PERMANENT || (newDate.Some? && newDate.value > now)),
      revive && newType != PERMANENT && newDate.None?)
  }

  /** The validity date an in-group update leaves on the row: null for
      PERMANENT (the explicit `set`), else the requested date, or the old one
      when the request carries none (null fields are not written). */
  function InGroupValidDate(oldDate: Option<int>, newType: int, newDate: Option<int>): Option<int>
  {
    if newType == PERMANENT then None else if newDate.Some? then newDate else oldDate
  }

  /** In-group path: the tombstone is cleared exactly when the link was expired
      (and its validity changed) and the row as updated is no longer expired;
      a custom type with no date on an expired link raises instead. */
  lemma InGroupTombstoneClearedIffRevived(oldType: int, oldDate: Option<int>, newType: int,
                                          newDate: Option<int>, now: int)
    requires oldType != newType || oldDate != newDate
    requires Expired(oldDate, now)
    ensures var a := CacheActionFor(oldType, oldDate, newType, newDate, now);
            var stored := InGroupValidDate(oldDate, newType, newDate);
            a.dropTombstone <==> !a.nullDate && !Expired(stored, now) && stored != Some(now)
  {
  }
}
