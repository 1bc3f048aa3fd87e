/** The rules of `services/AssetService.js` that decide something: changing the listing
    status of an asset, and selecting the assets of an index strategy from the assets
    ranked by their average market share. The queries themselves are inputs. */
module AssetService {
  import opened Wrappers
  import opened Domain

  /** INSTRUMENT_STATUS_CHANGES. */
  datatype ListingStatus = Whitelisting | Blacklisting | Graylisting

  /** One row of the asset's status history. */
  datatype StatusChange = StatusChange(timestamp: int, comment: string, status: ListingStatus, assetId: nat, userId: Option<int>)

  datatype Asset = Asset(id: nat, symbol: string)

  /** The status an asset has: that of its latest history row. An asset without history,
      or whose history could not be read (the read error is not checked), counts as
      whitelisted. */
  function CurrentStatus(latest: Result<Option<StatusChange>, string>): ListingStatus {
    if latest.Ok? && latest.value.Some? then latest.value.value.status else Whitelisting
  }

  /** `changeStatus`. `comment` is `None` when the given comment is not a string; `asset`
      is the result of looking the asset up, `latest` that of reading its latest status
      change, and `createError` the error saving the new row, if any. */
  function ChangeStatus(status: Coded<ListingStatus>, comment: Option<string>, userId: Option<int>,
                        asset: Result<Option<Asset>, string>, latest: Result<Option<StatusChange>, string>,
                        createError: Option<string>, now: int): (r: Result<StatusChange, string>)
    ensures r.Err? <==>
      || status.Unknown? || comment.None? || asset.Err? || asset.value.None?
      || CurrentStatus(latest) == status.value || createError.Some?
    ensures r.Ok? ==>
      && r.value.status == status.value && r.value.status != CurrentStatus(latest)
      && r.value.comment == comment.value && r.value.assetId == asset.value.value.id
      && r.value.userId == userId && r.value.timestamp == now
  {
    if status.Unknown? then Err("Provided bad asset status")
    else if comment.None? then Err("Must provide a valid comment/reason")
    else
      var found :- asset;
      if found.None? then Err("Asset not found")
      else if CurrentStatus(latest) == status.value then Err("Cannot set the same status as the current status of the asset")
      else if createError.Some? then Err(createError.value)
      else Ok(StatusChange(now, comment.value, status.value, found.value.id, userId))
  }

  /** Once saved, the new row is the latest one, so repeating the change is rejected. */
  lemma NoRepeatedStatus(status: Coded<ListingStatus>, comment: Option<string>, userId: Option<int>,
                         asset: Result<Option<Asset>, string>, latest: Result<Option<StatusChange>, string>, now: int,
                         otherComment: Option<string>, otherUser: Option<int>, later: int)
    requires ChangeStatus(status, comment, userId, asset, latest, None, now).Ok?
    ensures var saved := ChangeStatus(status, comment, userId, asset, latest, None, now).value;
      ChangeStatus(status, otherComment, otherUser, asset, Ok(Some(saved)), None, later).Err?
  {
  }

  /** An asset without history is whitelisted: whitelisting it is rejected, and any other
      status is accepted. */
  lemma FirstChangeLeavesWhitelist(status: ListingStatus, comment: string, userId: Option<int>, a: Asset, now: int)
    ensures ChangeStatus(Known(status), Some(comment), userId, Ok(Some(a)), Ok(None), None, now).Err?
            <==> status == Whitelisting
  {
  }

  // ---------------------------------------------------------------------------
  // Strategy assets

  /** An asset ranked by the query: its average market share over the last week. */
  datatype StrategyAsset = StrategyAsset(id: nat, symbol: string, isBase: bool, avgShare: real)

  /** The index settings: MARKETCAP_LIMIT_PERCENT, INDEX_LCI_CAP and INDEX_MCI_CAP. */
  datatype IndexSettings = IndexSettings(marketcapLimitPercent: real, lciCap: nat, mciCap: nat)

  function TotalShare(rows: seq<StrategyAsset>): real {
    if |rows| == 0 then 0.0 else TotalShare(rows[..|rows| - 1]) + rows[|rows| - 1].avgShare
  }

  /** The running total of the shares up to and including position `i`. */
  function RunningShare(rows: seq<StrategyAsset>, i: nat): real
    requires i < |rows|
  {
    TotalShare(rows[..i + 1])
  }

  /** Dropping the last row keeps the running totals before it; the last running total
      is the total. */
  lemma RunningShareInit(rows: seq<StrategyAsset>)
    requires |rows| > 0
    ensures forall i :: 0 <= i < |rows| - 1 ==> RunningShare(rows[..|rows| - 1], i) == RunningShare(rows, i)
    ensures RunningShare(rows, |rows| - 1) == TotalShare(rows)
  {
    forall i | 0 <= i < |rows| - 1 ensures RunningShare(rows[..|rows| - 1], i) == RunningShare(rows, i) {
      assert rows[..|rows| - 1][..i + 1] == rows[..i + 1];
    }
    assert rows[..|rows|] == rows;
  }

  /** The rows at which the running total of the shares is still within the limit, in
      input order. */
  function BeforeLimit(rows: seq<StrategyAsset>, limit: real): (r: seq<StrategyAsset>)
    ensures |r| <= |rows|
  {
    if |rows| == 0 then []
    else
      var rest := BeforeLimit(rows[..|rows| - 1], limit);
      if TotalShare(rows) <= limit then rest + [rows[|rows| - 1]] else rest
  }

  /** A row is kept exactly when the running total up to it is within the limit. */
  lemma BeforeLimitMembers(rows: seq<StrategyAsset>, limit: real)
    ensures forall x :: x in BeforeLimit(rows, limit) ==>
      exists i :: 0 <= i < |rows| && rows[i] == x && RunningShare(rows, i) <= limit
    ensures forall i :: 0 <= i < |rows| && RunningShare(rows, i) <= limit ==> rows[i] in BeforeLimit(rows, limit)
  {
    BeforeLimitSound(rows, limit);
    BeforeLimitComplete(rows, limit);
  }

  /** Every kept row sits at a position whose running total is within the limit. */
  lemma {:induction false} BeforeLimitSound(rows: seq<StrategyAsset>, limit: real)
    ensures forall x :: x in BeforeLimit(rows, limit) ==>
      exists i :: 0 <= i < |rows| && rows[i] == x && RunningShare(rows, i) <= limit
  {
    if |rows| > 0 {
      var init := rows[..|rows| - 1];
      BeforeLimitSound(init, limit);
      RunningShareInit(rows);
      var r := BeforeLimit(rows, limit);
      forall x | x in r
        ensures exists i :: 0 <= i < |rows| && rows[i] == x && RunningShare(rows, i) <= limit
      {
        if x in BeforeLimit(init, limit) {
          var i :| 0 <= i < |init| && init[i] == x && RunningShare(init, i) <= limit;
          assert rows[i] == x && RunningShare(rows, i) <= limit;
        } else {
          assert rows[|rows| - 1] == x && RunningShare(rows, |rows| - 1) <= limit;
        }
      }
    }
  }

  /** Every row at a position whose running total is within the limit is kept. */
  lemma {:induction false} BeforeLimitComplete(rows: seq<StrategyAsset>, limit: real)
    ensures forall i :: 0 <= i < |rows| && RunningShare(rows, i) <= limit ==> rows[i] in BeforeLimit(rows, limit)
  {
    if |rows| > 0 {
      var init := rows[..|rows| - 1];
      BeforeLimitComplete(init, limit);
      RunningShareInit(rows);
      var r := BeforeLimit(rows, limit);
      assert BeforeLimit(init, limit) <= r;
      forall i | 0 <= i < |rows| && RunningShare(rows, i) <= limit
        ensures rows[i] in r
      {
        if i < |init| {
          assert RunningShare(init, i) <= limit && init[i] == rows[i];
          assert rows[i] in BeforeLimit(init, limit);
        }
      }
    }
  }

  /** With non-negative shares the running total only grows. */
  lemma {:induction false} RunningShareMonotone(rows: seq<StrategyAsset>, i: nat, j: nat)
    requires i <= j < |rows|
    requires forall k :: 0 <= k < |rows| ==> rows[k].avgShare >= 0.0
    ensures RunningShare(rows, i) <= RunningShare(rows, j)
    decreases j - i
  {
    if i < j {
      RunningShareMonotone(rows, i, j - 1);
      assert rows[..j + 1][..j] == rows[..j];
    }
  }

  /** With non-negative shares the rows within the limit are a prefix of the ranking. */
  lemma {:induction false} BeforeLimitIsPrefix(rows: seq<StrategyAsset>, limit: real)
    requires forall k :: 0 <= k < |rows| ==> rows[k].avgShare >= 0.0
    ensures BeforeLimit(rows, limit) == rows[..|BeforeLimit(rows, limit)|]
    ensures forall i :: |BeforeLimit(rows, limit)| <= i < |rows| ==> RunningShare(rows, i) > limit
  {
    if |rows| > 0 {
      var init := rows[..|rows| - 1];
      BeforeLimitIsPrefix(init, limit);
      var rest := BeforeLimit(init, limit);
      RunningShareInit(rows);
      if TotalShare(rows) <= limit {
        assert |rest| == |init| by {
          if |rest| < |init| {
            RunningShareMonotone(rows, |rest|, |rows| - 1);
          }
        }
        assert rest + [rows[|rows| - 1]] == rows;
      } else {
        assert BeforeLimit(rows, limit) == rest;
      }
    }
  }

  /** The LCI index: the first `lciCap` rows within the market-cap limit. */
  function LciIndex(ranked: seq<StrategyAsset>, settings: IndexSettings): (r: seq<StrategyAsset>)
    ensures |r| <= settings.lciCap && |r| <= |ranked|
    ensures var kept := BeforeLimit(ranked, settings.marketcapLimitPercent);
      r <= kept && (|r| == settings.lciCap || r == kept)
  {
    var kept := BeforeLimit(ranked, settings.marketcapLimitPercent);
    kept[..if |kept| < settings.lciCap then |kept| else settings.lciCap]
  }

  /** `getStrategyAssets` after its query: LCI is the first `lciCap` rows within the
      market-cap limit; MCI is the slice of the whole ranking that follows the LCI's
      length, at most `mciCap` long. */
  function StrategyAssets(strategy: Coded<StrategyType>, rows: Result<seq<StrategyAsset>, string>, settings: IndexSettings): (r: Result<seq<StrategyAsset>, string>)
    ensures r.Err? <==> strategy.Unknown? || rows.Err?
    ensures r.Ok? && strategy.value == Lci ==>
      var kept := BeforeLimit(rows.value, settings.marketcapLimitPercent);
      r.value == kept[..if |kept| < settings.lciCap then |kept| else settings.lciCap]
    ensures r.Ok? && strategy.value == Mci ==>
      var lci := LciIndex(rows.value, settings);
      && |r.value| <= settings.mciCap && |lci| + |r.value| <= |rows.value|
      && r.value == rows.value[|lci|..|lci| + |r.value|]
      && (|r.value| < settings.mciCap ==> |lci| + |r.value| == |rows.value|)
  {
    if strategy.Unknown? then Err("Unknown strategy type")
    else
      var ranked :- rows;
      var lci := LciIndex(ranked, settings);
      if strategy.value == Lci then Ok(lci)
      else
        var from := |lci|;
        var to := if from + settings.mciCap < |ranked| then from + settings.mciCap else |ranked|;
        Ok(ranked[from..to])
  }

  /** With non-negative shares the two indexes are consecutive, disjoint slices of the
      ranking: the LCI is its head and the MCI follows directly. */
  lemma IndexesAreConsecutive(rows: seq<StrategyAsset>, settings: IndexSettings)
    requires forall k :: 0 <= k < |rows| ==> rows[k].avgShare >= 0.0
    ensures var lci := StrategyAssets(Known(Lci), Ok(rows), settings).value;
      var mci := StrategyAssets(Known(Mci), Ok(rows), settings).value;
      && |lci| <= settings.lciCap
      && lci + mci == rows[..|lci| + |mci|]
  {
    BeforeLimitIsPrefix(rows, settings.marketcapLimitPercent);
  }
}
