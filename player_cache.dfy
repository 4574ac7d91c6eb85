/** The player metadata cache: a table from player UUID to the player's
    settlement and nation membership and role tags, filled when players log in,
    emptied when they quit, and kept in step with the player database's change
    stream. Database lookups (the stored player record, the role tag of a player)
    are parameters. */
module NationsPlayerCache {
  import opened Wrappers

  type Uuid = nat

  /** A player's database id; it wraps the player's UUID. */
  datatype SLPlayerId = SLPlayerId(uuid: Uuid)

  /** A database object id (of a settlement or a nation). */
  datatype Oid = Oid(hex: string)

  /** The stored player record, as far as the cache uses it. */
  datatype SLPlayer = SLPlayer(id: SLPlayerId, settlement: Option<Oid>, nation: Option<Oid>)

  /** One field of a change-stream update: absent from the update, or set to a
      (possibly null) value. */
  datatype FieldChange = Untouched | SetTo(value: Option<Oid>)

  /** An update or deletion of a settlement or nation role. */
  datatype RoleEvent = RoleUpdated(membersChanged: bool) | RoleDeleted

  datatype CacheError =
    | NotCached(uuid: Uuid)      // data wasn't cached for this player
    | MissingRecord(uuid: Uuid)  // no stored record for a player logging in

  /** The value of a cached entry. */
  datatype Entry = Entry(id: SLPlayerId, settlementOid: Option<Oid>, nationOid: Option<Oid>,
                         settlementTag: Option<string>, nationTag: Option<string>)

  /** A player outside a settlement has no settlement tag, and one outside a
      nation has no nation tag. */
  predicate TagsFollowOids(e: Entry) {
    && (e.settlementOid.None? ==> e.settlementTag.None?)
    && (e.nationOid.None? ==> e.nationTag.None?)
  }

  /** The entry cached for a stored record under a given id: the record's
      memberships, with a role tag looked up only for a membership it has. */
  function NewEntry(id: SLPlayerId, record: SLPlayer,
                    settlementTagOf: SLPlayerId -> Option<string>,
                    nationTagOf: SLPlayerId -> Option<string>): (e: Entry)
    ensures e.id == id && e.settlementOid == record.settlement && e.nationOid == record.nation
    ensures TagsFollowOids(e)
    ensures record.settlement.Some? ==> e.settlementTag == settlementTagOf(id)
    ensures record.nation.Some? ==> e.nationTag == nationTagOf(id)
  {
    Entry(id, record.settlement, record.nation,
          if record.settlement.None? then None else settlementTagOf(id),
          if record.nation.None? then None else nationTagOf(id))
  }

  /** An entry after a settlement change: the new settlement, and no settlement role. */
  function WithSettlement(e: Entry, settlement: Option<Oid>): (r: Entry)
    ensures r.settlementOid == settlement && r.settlementTag.None?
    ensures r.id == e.id && r.nationOid == e.nationOid && r.nationTag == e.nationTag
    ensures TagsFollowOids(e) ==> TagsFollowOids(r)
  {
    e.(settlementOid := settlement, settlementTag := None)
  }

  /** An entry after a nation change: the new nation, and no nation role. */
  function WithNation(e: Entry, nation: Option<Oid>): (r: Entry)
    ensures r.nationOid == nation && r.nationTag.None?
    ensures r.id == e.id && r.settlementOid == e.settlementOid && r.settlementTag == e.settlementTag
    ensures TagsFollowOids(e) ==> TagsFollowOids(r)
  {
    e.(nationOid := nation, nationTag := None)
  }

  /** An entry with its tags looked up afresh for each membership it has. */
  function Retagged(e: Entry, settlementTagOf: SLPlayerId -> Option<string>,
                    nationTagOf: SLPlayerId -> Option<string>): (r: Entry)
    ensures r.id == e.id && r.settlementOid == e.settlementOid && r.nationOid == e.nationOid
    ensures r.settlementTag == (if e.settlementOid.Some? then settlementTagOf(e.id) else e.settlementTag)
    ensures r.nationTag == (if e.nationOid.Some? then nationTagOf(e.id) else e.nationTag)
    ensures TagsFollowOids(e) ==> TagsFollowOids(r)
  {
    var r := if e.settlementOid.Some? then e.(settlementTag := settlementTagOf(e.id)) else e;
    if e.nationOid.Some? then r.(nationTag := nationTagOf(e.id)) else r
  }

  /** The whole table after a tag recalculation. */
  function RetaggedAll(m: map<Uuid, Entry>, settlementTagOf: SLPlayerId -> Option<string>,
                       nationTagOf: SLPlayerId -> Option<string>): (r: map<Uuid, Entry>)
    ensures r.Keys == m.Keys
    ensures forall u :: u in m ==> r[u] == Retagged(m[u], settlementTagOf, nationTagOf)
  {
    map u | u in m :: Retagged(m[u], settlementTagOf, nationTagOf)
  }

  /** The table that caching the given records one after another, starting from
      an empty table, produces. */
  function CachedRecords(records: seq<SLPlayer>, settlementTagOf: SLPlayerId -> Option<string>,
                         nationTagOf: SLPlayerId -> Option<string>): map<Uuid, Entry>
  {
    if |records| == 0 then map[]
    else
      var last := records[|records| - 1];
      CachedRecords(records[..|records| - 1], settlementTagOf, nationTagOf)
        [last.id.uuid := NewEntry(last.id, last, settlementTagOf, nationTagOf)]
  }

  /** Loading the records caches exactly the players they belong to, each under
      its own UUID, with tags consistent with memberships. */
  lemma {:induction false} CachedRecordsKeys(records: seq<SLPlayer>, settlementTagOf: SLPlayerId -> Option<string>,
                                             nationTagOf: SLPlayerId -> Option<string>)
    ensures CachedRecords(records, settlementTagOf, nationTagOf).Keys
            == set i | 0 <= i < |records| :: records[i].id.uuid
    ensures forall u :: u in CachedRecords(records, settlementTagOf, nationTagOf) ==>
              CachedRecords(records, settlementTagOf, nationTagOf)[u].id.uuid == u
              && TagsFollowOids(CachedRecords(records, settlementTagOf, nationTagOf)[u])
  {
    if |records| > 0 {
      var init := records[..|records| - 1];
      CachedRecordsKeys(init, settlementTagOf, nationTagOf);
      assert forall i :: 0 <= i < |init| ==> init[i] == records[i];
      assert (set i | 0 <= i < |records| :: records[i].id.uuid)
             == (set i | 0 <= i < |init| :: init[i].id.uuid) + {records[|records| - 1].id.uuid};
    }
  }

  /** The last record of a player decides that player's cached entry. */
  lemma {:induction false} CachedRecordsLastWins(records: seq<SLPlayer>, k: nat,
                                                 settlementTagOf: SLPlayerId -> Option<string>,
                                                 nationTagOf: SLPlayerId -> Option<string>)
    requires k < |records|
    requires forall j :: k < j < |records| ==> records[j].id.uuid != records[k].id.uuid
    ensures records[k].id.uuid in CachedRecords(records, settlementTagOf, nationTagOf)
    ensures CachedRecords(records, settlementTagOf, nationTagOf)[records[k].id.uuid]
            == NewEntry(records[k].id, records[k], settlementTagOf, nationTagOf)
  {
    if k < |records| - 1 {
      var init := records[..|records| - 1];
      assert forall j :: 0 <= j < |init| ==> init[j] == records[j];
      CachedRecordsLastWins(init, k, settlementTagOf, nationTagOf);
    }
  }

  /** A cached player's data; its membership and tag fields are updated in place. */
  class PlayerData {
    const id: SLPlayerId
    var settlementOid: Option<Oid>
    var nationOid: Option<Oid>
    var settlementTag: Option<string>
    var nationTag: Option<string>

    constructor (e: Entry)
      ensures Value() == e
    {
      id := e.id;
      settlementOid := e.settlementOid;
      nationOid := e.nationOid;
      settlementTag := e.settlementTag;
      nationTag := e.nationTag;
    }

    function Value(): Entry
      reads this
    {
      Entry(id, settlementOid, nationOid, settlementTag, nationTag)
    }

    /** Looks up the tag of each membership this player has, under the id the
        table knows the player by. */
    method Retag(playerId: SLPlayerId,
                 settlementTagOf: SLPlayerId -> Option<string>, nationTagOf: SLPlayerId -> Option<string>)
      requires playerId == id
      modifies this
      ensures Value() == Retagged(old(Value()), settlementTagOf, nationTagOf)
    {
      if settlementOid.Some? {
        settlementTag := settlementTagOf(playerId);
      }
      if nationOid.Some? {
        nationTag := nationTagOf(playerId);
      }
    }
  }

  class PlayerCache {
    var playerData: map<Uuid, PlayerData>

    /** Every entry sits under its own player's UUID (so distinct keys hold
        distinct objects), and its tags follow its memberships. */
    ghost predicate Valid()
      reads this, playerData.Values
    {
      forall u :: u in playerData ==>
        playerData[u].id.uuid == u && TagsFollowOids(playerData[u].Value())
    }

    /** The table's contents as values. */
    ghost function Contents(): map<Uuid, Entry>
      reads this, playerData.Values
    {
      map u | u in playerData :: playerData[u].Value()
    }

    constructor ()
      ensures Valid() && Contents() == map[]
    {
      playerData := map[];
    }

    /** Caches a stored record under `id`, replacing any entry for that player. */
    method Cache(id: SLPlayerId, record: SLPlayer,
                 settlementTagOf: SLPlayerId -> Option<string>, nationTagOf: SLPlayerId -> Option<string>)
      requires Valid()
      modifies this
      ensures Valid()
      ensures id.uuid in playerData && fresh(playerData[id.uuid])
      ensures Contents() == old(Contents())[id.uuid := NewEntry(id, record, settlementTagOf, nationTagOf)]
      ensures forall u :: u in playerData && u != id.uuid ==> u in old(playerData) && playerData[u] == old(playerData[u])
    {
      var data := new PlayerData(NewEntry(id, record, settlementTagOf, nationTagOf));
      playerData := playerData[id.uuid := data];
      assert Contents() == old(Contents())[id.uuid := data.Value()] by {
        forall u | u in playerData && u != id.uuid
          ensures playerData[u].Value() == old(playerData[u].Value())
        {
        }
      }
    }

    /** Login before the join: cache the player's stored record, which must exist. */
    method CallOnPreLogin(uuid: Uuid, record: Option<SLPlayer>,
                          settlementTagOf: SLPlayerId -> Option<string>, nationTagOf: SLPlayerId -> Option<string>)
      returns (r: Outcome<CacheError>)
      requires Valid()
      modifies this
      ensures Valid()
      ensures r.Fail? <==> record.None?
      ensures r.Fail? ==> r.error == MissingRecord(uuid) && Contents() == old(Contents())
      ensures record.Some? ==>
                Contents() == old(Contents())[uuid := NewEntry(SLPlayerId(uuid), record.value, settlementTagOf, nationTagOf)]
    {
      if record.None? {
        return Fail(MissingRecord(uuid));
      }
      Cache(SLPlayerId(uuid), record.value, settlementTagOf, nationTagOf);
      r := Pass;
    }

    /** Whether a joining player must be kicked: exactly when no data was cached. */
    method CallOnLoginLow(uuid: Uuid) returns (kick: bool)
      ensures kick <==> uuid !in playerData
    {
      kick := uuid !in playerData;
    }

    /** A quitting player's entry is dropped. */
    method CallOnQuit(uuid: Uuid)
      requires Valid()
      modifies this
      ensures Valid()
      ensures playerData == old(playerData) - {uuid}
      ensures Contents() == old(Contents()) - {uuid}
    {
      playerData := playerData - {uuid};
    }

    /** The cached data of a player, or an error when none was cached. */
    function Get(uuid: Uuid): (r: Result<PlayerData, CacheError>)
      reads this
      ensures r.Success? <==> uuid in playerData
      ensures r.Success? ==> r.value == playerData[uuid]
      ensures r.Failure? ==> r.error == NotCached(uuid)
    {
      if uuid in playerData then Success(playerData[uuid]) else Failure(NotCached(uuid))
    }

    /** Looking a player up by database id is looking up the id's UUID. */
    function GetById(id: SLPlayerId): (r: Result<PlayerData, CacheError>)
      reads this
      ensures r == Get(id.uuid)
      ensures r.Success? ==> r.value == playerData[id.uuid]
    {
      if id.uuid in playerData then Success(playerData[id.uuid]) else Failure(NotCached(id.uuid))
    }

    /** A settlement change for a cached player: new settlement, no settlement role. */
    method OnSettlementChange(id: SLPlayerId, settlement: Option<Oid>)
      requires Valid()
      modifies playerData.Values
      ensures Valid() && playerData == old(playerData)
      ensures id.uuid in old(Contents()) ==>
                Contents() == old(Contents())[id.uuid := WithSettlement(old(Contents())[id.uuid], settlement)]
      ensures id.uuid !in old(Contents()) ==> Contents() == old(Contents())
    {
      if id.uuid !in playerData {
        return;
      }
      var data := playerData[id.uuid];
      data.settlementOid := settlement;
      data.settlementTag := None;
      assert Contents() == old(Contents())[id.uuid := WithSettlement(old(Contents())[id.uuid], settlement)] by {
        forall u | u in playerData && u != id.uuid
          ensures playerData[u].Value() == old(playerData[u].Value())
        {
          assert playerData[u] != data;
        }
      }
    }

    /** A nation change for a cached player: new nation, no nation role. */
    method OnNationChange(id: SLPlayerId, nation: Option<Oid>)
      requires Valid()
      modifies playerData.Values
      ensures Valid() && playerData == old(playerData)
      ensures id.uuid in old(Contents()) ==>
                Contents() == old(Contents())[id.uuid := WithNation(old(Contents())[id.uuid], nation)]
      ensures id.uuid !in old(Contents()) ==> Contents() == old(Contents())
    {
      if id.uuid !in playerData {
        return;
      }
      var data := playerData[id.uuid];
      data.nationOid := nation;
      data.nationTag := None;
      assert Contents() == old(Contents())[id.uuid := WithNation(old(Contents())[id.uuid], nation)] by {
        forall u | u in playerData && u != id.uuid
          ensures playerData[u].Value() == old(playerData[u].Value())
        {
          assert playerData[u] != data;
        }
      }
    }

    /** One update from the player change stream: apply the settlement field, then
        the nation field, each only when the update carries it. */
    method OnPlayerUpdate(id: SLPlayerId, settlement: FieldChange, nation: FieldChange)
      requires Valid()
      modifies playerData.Values
      ensures Valid() && playerData == old(playerData)
      ensures id.uuid !in old(Contents()) ==> Contents() == old(Contents())
      ensures id.uuid in old(Contents()) ==>
                var e := old(Contents())[id.uuid];
                var e1 := if settlement.SetTo? then WithSettlement(e, settlement.value) else e;
                var e2 := if nation.SetTo? then WithNation(e1, nation.value) else e1;
                Contents() == old(Contents())[id.uuid := e2]
    {
      if settlement.SetTo? {
        OnSettlementChange(id, settlement.value);
      }
      if nation.SetTo? {
        OnNationChange(id, nation.value);
      }
    }

    /** Refreshes, for every cached player, the tag of each membership they have. */
    method RecalculateTags(settlementTagOf: SLPlayerId -> Option<string>, nationTagOf: SLPlayerId -> Option<string>)
      requires Valid()
      modifies playerData.Values
      ensures Valid() && playerData == old(playerData)
      ensures Contents() == RetaggedAll(old(Contents()), settlementTagOf, nationTagOf)
    {
      ghost var before := Contents();
      var pending := playerData.Keys;
      while pending != {}
        invariant pending <= playerData.Keys
        invariant playerData == old(playerData)
        invariant forall u :: u in playerData ==>
                    playerData[u].Value()
                    == if u in pending then before[u] else Retagged(before[u], settlementTagOf, nationTagOf)
        decreases pending
      {
        var uuid :| uuid in pending;
        var data := playerData[uuid];
        data.Retag(SLPlayerId(uuid), settlementTagOf, nationTagOf);
        pending := pending - {uuid};
      }
    }

    /** A role update that touches members, or a role deletion, triggers a tag
        recalculation; other role updates change nothing. */
    method OnRoleEvent(event: RoleEvent,
                       settlementTagOf: SLPlayerId -> Option<string>, nationTagOf: SLPlayerId -> Option<string>)
      requires Valid()
      modifies playerData.Values
      ensures Valid() && playerData == old(playerData)
      ensures Contents() == if event.RoleUpdated? && !event.membersChanged then old(Contents())
                            else RetaggedAll(old(Contents()), settlementTagOf, nationTagOf)
    {
      if event.RoleDeleted? || event.membersChanged {
        RecalculateTags(settlementTagOf, nationTagOf);
      }
    }

    /** Empties the table and caches the stored records of the online players. */
    method Load(records: seq<SLPlayer>,
                settlementTagOf: SLPlayerId -> Option<string>, nationTagOf: SLPlayerId -> Option<string>)
      modifies this
      ensures Valid()
      ensures Contents() == CachedRecords(records, settlementTagOf, nationTagOf)
      ensures playerData.Keys == set i | 0 <= i < |records| :: records[i].id.uuid
    {
      playerData := map[];
      for i := 0 to |records|
        invariant Valid()
        invariant Contents() == CachedRecords(records[..i], settlementTagOf, nationTagOf)
      {
        Cache(records[i].id, records[i], settlementTagOf, nationTagOf);
        assert records[..i + 1][..i] == records[..i];
      }
      assert records[..|records|] == records;
      CachedRecordsKeys(records, settlementTagOf, nationTagOf);
    }
  }
}
