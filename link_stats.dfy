/** The statistics side of a link: the eight tables whose rows a group move
    re-keys, the visit record handed to the stats producer with the "first
    visit" flags derived from the per-link uv and uip sets, and the message
    that carries it. */
module LinkStats {
  import opened Common

  /** The access, locale, OS, browser, device and network stats tables, the
      access log and the today roll-up. */
  datatype StatsTable =
    | AccessStats | LocaleStats | OsStats | BrowserStats | DeviceStats | NetworkStats
    | AccessLogs | StatsToday

  /** One row of a stats table; `detail` stands for the table's own columns. */
  datatype StatsRow = StatsRow(table: StatsTable, id: int, fullShortUrl: string, gid: string,
                               delFlag: int, detail: string)

  /** The selector of every re-keying update: `fullShortUrl`, `gid`, `delFlag = 0`. */
  predicate Follows(r: StatsRow, url: string, gid: string)
  {
    r.fullShortUrl == url && r.gid == gid && r.delFlag == 0
  }

  /** The eight re-keying updates of a group move, one per table, all with the
      same selector: every selected row gets `gid := to`. */
  function Rekey(rows: seq<StatsRow>, url: string, from: string, to: string): (out: seq<StatsRow>)
    ensures |out| == |rows|
    ensures forall i :: 0 <= i < |out| ==> out[i] == rows[i].(gid := out[i].gid)
    ensures forall i :: 0 <= i < |out| ==> out[i].gid == (if Follows(rows[i], url, from) then to else rows[i].gid)
  {
    seq(|rows|, i requires 0 <= i < |rows| => if Follows(rows[i], url, from) then rows[i].(gid := to) else rows[i])
  }

  /** Rows of `table` that follow (`url`, `gid`). */
  function CountFollowing(rows: seq<StatsRow>, table: StatsTable, url: string, gid: string): nat
    decreases |rows|
  {
    if rows == [] then 0
    else (if rows[0].table == table && Follows(rows[0], url, gid) then 1 else 0)
         + CountFollowing(rows[1..], table, url, gid)
  }

  /** A group move leaves no row of any table under the old group and brings
      every one of them to the new group: per table, the new group's count is
      the old group's plus what the new group already had. */
  lemma {:induction false} RekeyMovesEveryRow(rows: seq<StatsRow>, table: StatsTable, url: string,
                                              from: string, to: string)
    requires from != to
    ensures CountFollowing(Rekey(rows, url, from, to), table, url, from) == 0
    ensures CountFollowing(Rekey(rows, url, from, to), table, url, to)
            == CountFollowing(rows, table, url, from) + CountFollowing(rows, table, url, to)
    decreases |rows|
  {
    if rows != [] {
      assert Rekey(rows, url, from, to)[1..] == Rekey(rows[1..], url, from, to);
      RekeyMovesEveryRow(rows[1..], table, url, from, to);
    }
  }

  /** A request cookie. */
  datatype Cookie = Cookie(name: string, value: string)

  /** Index of the first cookie named "uv", or `|cookies|` when there is none. */
  function FirstUvIndex(cookies: seq<Cookie>): (k: nat)
    ensures k <= |cookies|
    ensures forall j :: 0 <= j < k ==> cookies[j].name != "uv"
    ensures k < |cookies| ==> cookies[k].name == "uv"
    decreases |cookies|
  {
    if cookies == [] then 0
    else if cookies[0].name == "uv" then 0
    else 1 + FirstUvIndex(cookies[1..])
  }

  /** What the request tells about the visitor: cookies and the classified
      client signals (address, OS, browser, device, network). */
  datatype Client = Client(cookies: seq<Cookie>, actualIp: string, os: string, browser: string,
                           device: string, network: string)

  /** The visit record (`ShortLinkStatsRecordDTO`). */
  datatype StatsRecord = StatsRecord(fullShortUrl: string, uv: string, uvFirstFlag: bool,
                                     uipFirstFlag: bool, remoteAddr: string, os: string,
                                     browser: string, device: string, network: string)

  /** The producer message: exactly the keys `fullShortUrl`, `gid` and `statsRecord`. */
  datatype StatsMessage = StatsMessage(fullShortUrl: string, gid: Option<string>, statsRecord: StatsRecord)

  /** What one visit does: the record, the link's new uv and uip sets, and the
      uv cookie set on the response when one is minted. */
  datatype Visit = Visit(record: StatsRecord, uvSet: set<string>, uipSet: set<string>, newCookie: Option<string>)

  /** A visit to `url` by `client`, given the link's uv and uip sets; `minted`
      is the fresh UUID used when the request carries no "uv" cookie. */
  function VisitOf(url: string, client: Client, minted: string, uvSet: set<string>, uipSet: set<string>): (v: Visit)
    ensures var k := FirstUvIndex(client.cookies);
            && (k == |client.cookies| ==> v.newCookie == Some(minted) && v.record.uv == minted)
            && (k < |client.cookies| ==> v.newCookie == None && v.record.uv == client.cookies[k].value)
    ensures v.uvSet == uvSet + {v.record.uv}
    ensures v.uipSet == uipSet + {client.actualIp}
    ensures v.record.uvFirstFlag <==> v.newCookie.Some? || |v.uvSet| == |uvSet| + 1
    ensures v.record.uipFirstFlag <==> |v.uipSet| == |uipSet| + 1
    ensures v.record.fullShortUrl == url && v.record.remoteAddr == client.actualIp
  {
    var k := FirstUvIndex(client.cookies);
    var uv := if k < |client.cookies| then client.cookies[k].value else minted;
    var uvFirst := k == |client.cookies| || uv !in uvSet;
    var uipFirst := client.actualIp !in uipSet;
    Visit(StatsRecord(url, uv, uvFirst, uipFirst, client.actualIp, client.os, client.browser,
                      client.device, client.network),
          uvSet + {uv}, uipSet + {client.actualIp},
          if k < |client.cookies| then None else Some(minted))
  }
}
