/** The short-link table (t_link) as a sequence of rows, the error kinds the
    link service raises, and the query and update shapes the service uses:
    `selectOne` over live rows, the soft-delete update of a group move, the
    in-place update of an in-group edit, and the per-group count. */
module LinkTable {
  import opened Common

  /** Code of the PERMANENT validity type (`VailDateTypeEnum.PERMANENT`),
      taken to be 0. */
  const PERMANENT: int := 0

  /** One row of the link table. `validDate` and `favicon` are nullable;
      `delFlag` 1 and a non-zero `delTime` mark a soft-deleted row. */
  datatype Link = Link(
    domain: string,
    shortUri: string,
    fullShortUrl: string,
    originUrl: string,
    gid: string,
    createdType: int,
    validDateType: int,
    validDate: Option<int>,
    describe: string,
    favicon: Option<string>,
    enableStatus: int,
    totalPv: int,
    totalUv: int,
    totalUip: int,
    delFlag: int,
    delTime: int)

  /** The exceptions raised out of the link service. */
  datatype LinkError =
    | SuffixExhausted        // ServiceException: more than ten suffix collisions
    | FaviconFetchFailed     // exception thrown out of the favicon fetch
    | DuplicateKey           // the store's unique-key violation, not caught
    | BlankGotoDomain        // ClientException: whitelist on, origin URL has no domain
    | DomainNotWhitelisted   // ClientException: whitelist on, domain not listed
    | LinkNotFound           // ClientException: no live row to update
    | LinkBusy               // ServiceException: group-move write lock not acquired
    | TooManyResults         // selectOne matched more than one row
    | NullGotoRow            // NullPointerException: no goto row under the old group
    | NullValidDate          // NullPointerException: custom validity without a date
    | IndexOutOfBounds       // describes shorter than originUrls in a batch

  /** A validity date in the past: `validDate != null && validDate.before(now)`. */
  predicate Expired(validDate: Option<int>, now: int)
  {
    validDate.Some? && validDate.value < now
  }

  /** The condition `fullShortUrl = url, gid = gid, delFlag = 0, enableStatus = 0`. */
  predicate IsLive(r: Link, url: string, gid: string)
  {
    r.fullShortUrl == url && r.gid == gid && r.delFlag == 0 && r.enableStatus == 0
  }

  /** The rows matching `IsLive`, in table order. */
  function LiveRows(rows: seq<Link>, url: string, gid: string): (m: seq<Link>)
    ensures |m| <= |rows|
    ensures forall r :: r in m <==> r in rows && IsLive(r, url, gid)
    decreases |rows|
  {
    if rows == [] then []
    else if IsLive(rows[0], url, gid) then [rows[0]] + LiveRows(rows[1..], url, gid)
    else LiveRows(rows[1..], url, gid)
  }

  lemma {:induction false} LiveRowsAppend(a: seq<Link>, b: seq<Link>, url: string, gid: string)
    ensures LiveRows(a + b, url, gid) == LiveRows(a, url, gid) + LiveRows(b, url, gid)
    decreases |a|
  {
    if a == [] {
      assert a + b == b;
    } else {
      assert (a + b)[1..] == a[1..] + b;
      LiveRowsAppend(a[1..], b, url, gid);
    }
  }

  /** What MyBatis' `selectOne` returns: null, the one row, or an exception
      when more than one row matches. */
  datatype Selection = NoRow | One(row: Link) | TooMany

  /** `selectOne` with the live-row condition. */
  function SelectLive(rows: seq<Link>, url: string, gid: string): (s: Selection)
    ensures s.NoRow? <==> forall r :: r in rows ==> !IsLive(r, url, gid)
    ensures s.One? ==> s.row in rows && IsLive(s.row, url, gid)
    ensures s.One? ==> forall i :: 0 <= i < |rows| && IsLive(rows[i], url, gid) ==> rows[i] == s.row
    ensures s.TooMany? <==> |LiveRows(rows, url, gid)| >= 2
  {
    var m := LiveRows(rows, url, gid);
    if |m| == 0 then NoRow
    else if |m| == 1 then (assert m[0] in m; One(m[0]))
    else TooMany
  }

  /** Is some row keyed by (`url`, `delTime`)? The unique index of the link
      table is taken to be (fullShortUrl, delTime), so an insert of such a
      key is refused. */
  predicate KeyTaken(rows: seq<Link>, url: string, delTime: int)
  {
    exists r :: r in rows && r.fullShortUrl == url && r.delTime == delTime
  }

  /** Rows the group-move soft delete targets: live and `delTime = 0`. */
  predicate IsSoftDeleteTarget(r: Link, url: string, gid: string)
  {
    IsLive(r, url, gid) && r.delTime == 0
  }

  /** Would the soft-delete update clash on the unique key? It gives its
      targets the key (`url`, `now`), which some other row may already hold. */
  predicate SoftDeleteClash(rows: seq<Link>, url: string, gid: string, now: int)
  {
    exists r :: r in rows && !IsSoftDeleteTarget(r, url, gid) && r.fullShortUrl == url && r.delTime == now
  }

  /** The soft-delete update: every target row gets `delFlag = 1` and
      `delTime = now`. No target is left, no row changes its URL, group or
      enable status, and every other row is left as it was. */
  function SoftDelete(rows: seq<Link>, url: string, gid: string, now: int): (out: seq<Link>)
    ensures |out| == |rows|
    ensures forall i :: 0 <= i < |out| ==> !IsSoftDeleteTarget(out[i], url, gid)
    ensures forall i :: 0 <= i < |out| ==>
      out[i].fullShortUrl == rows[i].fullShortUrl && out[i].gid == rows[i].gid
      && out[i].enableStatus == rows[i].enableStatus
    ensures forall i :: 0 <= i < |out| && !IsSoftDeleteTarget(rows[i], url, gid) ==> out[i] == rows[i]
    ensures forall i :: 0 <= i < |out| && IsSoftDeleteTarget(rows[i], url, gid) ==>
      out[i].delFlag == 1 && out[i].delTime == now
  {
    seq(|rows|, i requires 0 <= i < |rows| =>
      if IsSoftDeleteTarget(rows[i], url, gid) then rows[i].(delFlag := 1, delTime := now) else rows[i])
  }

  /** The in-group update: every live row of (`url`, `gid`) is overwritten
      with `edited`. When `edited` is itself live there, the live positions
      stay the same and every other row is left as it was. */
  function ReplaceLive(rows: seq<Link>, url: string, gid: string, edited: Link): (out: seq<Link>)
    ensures |out| == |rows|
    ensures forall i :: 0 <= i < |out| && !IsLive(rows[i], url, gid) ==> out[i] == rows[i]
    ensures forall i :: 0 <= i < |out| && IsLive(rows[i], url, gid) ==> out[i] == edited
    ensures IsLive(edited, url, gid) ==>
      forall i :: 0 <= i < |out| ==> (IsLive(out[i], url, gid) <==> IsLive(rows[i], url, gid))
  {
    seq(|rows|, i requires 0 <= i < |rows| => if IsLive(rows[i], url, gid) then edited else rows[i])
  }

  /** After an in-group edit that keeps the row's key and live status, the
      edited row is the one live row `selectOne` finds, where before it found
      the old one. */
  lemma {:induction false} InGroupEditKeepsSelection(rows: seq<Link>, url: string, gid: string, edited: Link)
    requires SelectLive(rows, url, gid).One?
    requires IsLive(edited, url, gid)
    ensures SelectLive(ReplaceLive(rows, url, gid, edited), url, gid) == One(edited)
  {
    var out := ReplaceLive(rows, url, gid, edited);
    var m' := LiveRows(out, url, gid);
    LiveCountOnIndices(rows, url, gid, edited);
    assert m'[0] in m';
    var i :| 0 <= i < |out| && out[i] == m'[0];
    assert IsLive(rows[i], url, gid);
  }

  /** The live rows of (`url`, `gid`) are the same in number before and after
      `ReplaceLive`, since live rows map to live rows and other rows stay. */
  lemma {:induction false} LiveCountOnIndices(rows: seq<Link>, url: string, gid: string, edited: Link)
    requires IsLive(edited, url, gid)
    ensures |LiveRows(ReplaceLive(rows, url, gid, edited), url, gid)| == |LiveRows(rows, url, gid)|
    decreases |rows|
  {
    var out := ReplaceLive(rows, url, gid, edited);
    if rows != [] {
      assert out[1..] == ReplaceLive(rows[1..], url, gid, edited);
      LiveCountOnIndices(rows[1..], url, gid, edited);
      assert IsLive(out[0], url, gid) <==> IsLive(rows[0], url, gid);
    }
  }

  /** A group move relocates the link: once the one live row under the old
      group (with `delTime = 0`) is soft-deleted and the
      re-keyed row is appended, `selectOne` finds nothing under the old group
      and exactly the new row under the new one. */
  lemma {:induction false} GroupMoveRelocates(rows: seq<Link>, url: string, oldGid: string, newGid: string,
                                              now: int, moved: Link)
    requires oldGid != newGid
    requires SelectLive(rows, url, oldGid).One? && SelectLive(rows, url, oldGid).row.delTime == 0
    requires SelectLive(rows, url, newGid).NoRow?
    requires IsLive(moved, url, newGid)
    ensures SelectLive(SoftDelete(rows, url, oldGid, now) + [moved], url, oldGid).NoRow?
    ensures SelectLive(SoftDelete(rows, url, oldGid, now) + [moved], url, newGid) == One(moved)
  {
    var del := SoftDelete(rows, url, oldGid, now);
    var out := del + [moved];
    forall r | r in out ensures !IsLive(r, url, oldGid) {
      if r != moved {
        var i :| 0 <= i < |del| && del[i] == r;
        assert !IsLive(del[i], url, oldGid);
      }
    }
    LiveRowsAppend(del, [moved], url, newGid);
    assert LiveRows([moved], url, newGid) == [moved];
    forall r | r in del ensures !IsLive(r, url, newGid) {
      var i :| 0 <= i < |del| && del[i] == r;
      assert rows[i] in rows;
    }
    assert SelectLive(del, url, newGid).NoRow?;
    assert LiveRows(out, url, newGid) == [moved];
  }

  /** Rows of group `gid` with `enableStatus = 0`, soft-deleted ones included
      (the count query does not filter on `delFlag`). */
  function CountInGroup(rows: seq<Link>, gid: string): nat
    decreases |rows|
  {
    if rows == [] then 0
    else (if rows[0].gid == gid && rows[0].enableStatus == 0 then 1 else 0) + CountInGroup(rows[1..], gid)
  }

  lemma {:induction false} CountInGroupAppend(a: seq<Link>, b: seq<Link>, gid: string)
    ensures CountInGroup(a + b, gid) == CountInGroup(a, gid) + CountInGroup(b, gid)
    decreases |a|
  {
    if a == [] {
      assert a + b == b;
    } else {
      assert (a + b)[1..] == a[1..] + b;
      CountInGroupAppend(a[1..], b, gid);
    }
  }

  lemma {:induction false} CountInGroupSoftDelete(rows: seq<Link>, url: string, from: string, now: int, gid: string)
    ensures CountInGroup(SoftDelete(rows, url, from, now), gid) == CountInGroup(rows, gid)
    decreases |rows|
  {
    if rows != [] {
      assert SoftDelete(rows, url, from, now)[1..] == SoftDelete(rows[1..], url, from, now);
      CountInGroupSoftDelete(rows[1..], url, from, now, gid);
    }
  }

  /** A group has a positive count exactly when some row of it is enabled. */
  lemma {:induction false} CountPositiveIffMember(rows: seq<Link>, gid: string)
    ensures CountInGroup(rows, gid) > 0 <==> exists r :: r in rows && r.gid == gid && r.enableStatus == 0
    decreases |rows|
  {
    if rows != [] {
      CountPositiveIffMember(rows[1..], gid);
      if CountInGroup(rows[1..], gid) > 0 {
        var r :| r in rows[1..] && r.gid == gid && r.enableStatus == 0;
        assert r in rows;
      }
      forall r | r in rows && r.gid == gid && r.enableStatus == 0 && r != rows[0]
        ensures r in rows[1..]
      {
        var i :| 0 <= i < |rows| && rows[i] == r;
        assert rows[1..][i - 1] == r;
      }
    }
  }

  /** `listGroupShortLinkCount`: a requested group is listed exactly when
      some enabled row, deleted or not, is in it, with its number of such rows. */
  function GroupShortLinkCount(rows: seq<Link>, gids: seq<string>): (counts: map<string, nat>)
    ensures forall g :: g in gids ==>
      (g in counts <==> exists r :: r in rows && r.gid == g && r.enableStatus == 0)
    ensures forall g :: g in counts ==> g in gids && counts[g] == CountInGroup(rows, g) > 0
  {
    forall g | g in gids
      ensures CountInGroup(rows, g) > 0 <==> exists r :: r in rows && r.gid == g && r.enableStatus == 0
    {
      CountPositiveIffMember(rows, g);
    }
    map g | g in gids && CountInGroup(rows, g) > 0 :: CountInGroup(rows, g)
  }

  /** Since soft-deleted rows stay counted, a group move leaves the old
      group's count as it was and adds one to the new group's. */
  lemma GroupMoveCounts(rows: seq<Link>, url: string, oldGid: string, newGid: string, now: int,
                        moved: Link, gids: seq<string>)
    requires oldGid != newGid
    requires moved.gid == newGid && moved.enableStatus == 0
    requires oldGid in gids && newGid in gids
    ensures var before := GroupShortLinkCount(rows, gids);
            var after := GroupShortLinkCount(SoftDelete(rows, url, oldGid, now) + [moved], gids);
            && (oldGid in after <==> oldGid in before)
            && (oldGid in before ==> after[oldGid] == before[oldGid])
            && newGid in after
            && after[newGid] == CountInGroup(rows, newGid) + 1
  {
    var del := SoftDelete(rows, url, oldGid, now);
    CountInGroupAppend(del, [moved], oldGid);
    CountInGroupAppend(del, [moved], newGid);
    CountInGroupSoftDelete(rows, url, oldGid, now, oldGid);
    CountInGroupSoftDelete(rows, url, oldGid, now, newGid);
    assert CountInGroup([moved], oldGid) == 0;
    assert CountInGroup([moved], newGid) == 1;
  }
}
