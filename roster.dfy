/** mlb/baseball/roster.py: a team roster, a dict from player id to player
    that keeps insertion order, with lookups by primary-position type. */
module Roster {
  import opened Common

  /** `Position`, restricted to what the roster reads. */
  datatype Position = Position(code: string, name: string, positionType: string, abbreviation: string)

  /** `Player`, restricted to what the roster reads. */
  datatype Player = Player(mlbId: int, fullName: string, primaryPosition: Position)

  /** A Python `dict[int, Player]` as a value: its keys in insertion order and its entries. */
  datatype PlayerDict = PlayerDict(order: seq<int>, entries: map<int, Player>)

  predicate Distinct(s: seq<int>) {
    forall i, j :: 0 <= i < j < |s| ==> s[i] != s[j]
  }

  /** What every Python dict satisfies: each key once, in order. */
  ghost predicate WellFormedDict(d: PlayerDict) {
    Distinct(d.order) && forall k :: k in d.entries <==> k in d.order
  }

  /** The ids, in `order`, of the players whose position type equals `t` ignoring case. */
  function IdsOfType(order: seq<int>, players: map<int, Player>, t: string): (r: seq<int>)
    requires forall k :: k in order ==> k in players
    ensures |r| <= |order|
    ensures forall i :: 0 <= i < |r| ==> exists k :: k in order && players[k].mlbId == r[i]
                                          && Lower(players[k].primaryPosition.positionType) == Lower(t)
    ensures forall k :: k in order && Lower(players[k].primaryPosition.positionType) == Lower(t)
                        ==> players[k].mlbId in r
  {
    if order == [] then []
    else
      var k := order[0];
      var rest := IdsOfType(order[1..], players, t);
      assert forall k' :: k' in order <==> k' == k || k' in order[1..];
      forall i | 0 <= i < |rest|
        ensures exists k' :: k' in order && players[k'].mlbId == rest[i]
                             && Lower(players[k'].primaryPosition.positionType) == Lower(t)
      {
        var k' :| k' in order[1..] && players[k'].mlbId == rest[i]
                  && Lower(players[k'].primaryPosition.positionType) == Lower(t);
        assert k' in order;
      }
      if Lower(players[k].primaryPosition.positionType) == Lower(t) then [players[k].mlbId] + rest
      else rest
  }
  /** The ids keep roster order: the ids of two runs of the order are those of each run, in turn. */
  lemma {:induction false} IdsOfTypeAppend(o1: seq<int>, o2: seq<int>, players: map<int, Player>, t: string)
    requires forall k :: k in o1 + o2 ==> k in players
    ensures IdsOfType(o1 + o2, players, t) == IdsOfType(o1, players, t) + IdsOfType(o2, players, t)
  {
    if o1 == [] {
      assert o1 + o2 == o2;
    } else {
      assert (o1 + o2)[0] == o1[0] && (o1 + o2)[1..] == o1[1..] + o2;
      IdsOfTypeAppend(o1[1..], o2, players, t);
    }
  }


  /** `{players[p].mlb_id: players[p] for p in ids}`; a missing id is a `KeyError`. */
  function DictFromIds(players: map<int, Player>, ids: seq<int>): (r: Result<map<int, Player>>)
    ensures r.Err? <==> exists i :: 0 <= i < |ids| && ids[i] !in players
    ensures r.Err? ==> r.error == KeyError
    ensures r.Ok? ==> r.value.Keys == set i | 0 <= i < |ids| :: players[ids[i]].mlbId
    ensures r.Ok? ==> forall id :: id in r.value ==> r.value[id].mlbId == id
    ensures r.Ok? ==> forall id :: id in r.value ==>
              exists i :: 0 <= i < |ids| && ids[i] in players && r.value[id] == players[ids[i]]
  {
    if ids == [] then Ok(map[])
    else if ids[|ids| - 1] !in players then Err(KeyError)
    else
      var init := ids[..|ids| - 1];
      assert forall i :: 0 <= i < |init| ==> init[i] == ids[i];
      match DictFromIds(players, init)
      case Err(e) => Err(e)
      case Ok(m) =>
        var p := players[ids[|ids| - 1]];
        assert (set i | 0 <= i < |ids| :: players[ids[i]].mlbId)
            == (set i | 0 <= i < |init| :: players[init[i]].mlbId) + {p.mlbId};
        Ok(m[p.mlbId := p])
  }

  /** When every key is its player's id, the dict built from ids is keyed
      by exactly those ids, each mapped to the roster's own entry. */
  lemma DictFromIdsOfIdKeys(players: map<int, Player>, ids: seq<int>)
    ensures var r := DictFromIds(players, ids);
            (forall k :: k in players ==> players[k].mlbId == k) && r.Ok? ==>
              r.value.Keys == (set i | 0 <= i < |ids| :: ids[i])
              && forall id :: id in r.value ==> id in players && r.value[id] == players[id]
  {
    var r := DictFromIds(players, ids);
    if (forall k :: k in players ==> players[k].mlbId == k) && r.Ok? {
      assert (set i | 0 <= i < |ids| :: players[ids[i]].mlbId) == set i | 0 <= i < |ids| :: ids[i];
    }
  }

  /** The position types the roster has accessors for. */
  datatype PositionKind = Pitcher | Catcher | Infielder | Outfielder | DesignatedHitter | TwoWayPlayer

  function KindName(k: PositionKind): string {
    match k
    case Pitcher => "Pitcher"
    case Catcher => "Catcher"
    case Infielder => "Infielder"
    case Outfielder => "Outfielder"
    case DesignatedHitter => "Designated Hitter"
    case TwoWayPlayer => "Two-Way Player"
  }

  /** The elements at the indices of a sequence are its elements. */
  lemma IndexSetIsElementSet(ids: seq<int>)
    ensures (set i | 0 <= i < |ids| :: ids[i]) == set id | id in ids
  {
    assert forall id :: id in ids ==> exists i :: 0 <= i < |ids| && ids[i] == id;
  }

  class Roster {
    var players: map<int, Player>
    /** The keys of `players` in insertion order. */
    var order: seq<int>

    ghost predicate Valid()
      reads this
    {
      WellFormedDict(PlayerDict(order, players))
    }

    /** Every key is its player's own id, as `add_player` stores them. */
    ghost predicate KeysAreIds()
      reads this
    {
      forall k :: k in players ==> players[k].mlbId == k
    }

    /** `Roster(players)`: a missing or empty dict gives an empty roster. */
    constructor (initial: Option<PlayerDict>)
      requires initial.Some? ==> WellFormedDict(initial.value)
      ensures Valid()
      ensures initial.None? || initial.value.entries == map[] ==> players == map[] && order == []
      ensures initial.Some? && initial.value.entries != map[] ==>
                players == initial.value.entries && order == initial.value.order
    {
      if initial.None? || initial.value.entries == map[] {
        players := map[];
        order := [];
      } else {
        players := initial.value.entries;
        order := initial.value.order;
      }
    }

    /** `add_player`: the player is stored under its id; a new id goes to the end. */
    method AddPlayer(p: Player)
      requires Valid()
      modifies this
      ensures Valid()
      ensures players == old(players)[p.mlbId := p]
      ensures order == if p.mlbId in old(players) then old(order) else old(order) + [p.mlbId]
      ensures old(KeysAreIds()) ==> KeysAreIds()
    {
      if p.mlbId !in players {
        order := order + [p.mlbId];
      }
      players := players[p.mlbId := p];
    }

    /** `_player_id_list_by_postion_type`. */
    function IdsByPositionType(t: string): (ids: seq<int>)
      requires Valid()
      reads this
      ensures KeysAreIds() ==> forall id :: id in ids <==>
                id in players && Lower(players[id].primaryPosition.positionType) == Lower(t)
    {
      IdsOfType(order, players, t)
    }

    /** `_player_dict_from_ids`. */
    function PlayerDictFromIds(ids: seq<int>): (r: Result<map<int, Player>>)
      reads this
      ensures r.Err? <==> exists i :: 0 <= i < |ids| && ids[i] !in players
      ensures KeysAreIds() && r.Ok? ==> r.value.Keys == set i | 0 <= i < |ids| :: ids[i]
      ensures KeysAreIds() && r.Ok? ==> forall id :: id in r.value ==> r.value[id] == players[id]
    {
      DictFromIdsOfIdKeys(players, ids);
      DictFromIds(players, ids)
    }

    /** `pitcher_ids`, `catcher_ids`, ... `two_way_player_ids`. */
    function PositionIds(k: PositionKind): (ids: seq<int>)
      requires Valid()
      reads this
      ensures KeysAreIds() ==> forall id :: id in ids <==>
                id in players && Lower(players[id].primaryPosition.positionType) == Lower(KindName(k))
    {
      IdsByPositionType(KindName(k))
    }

    /** `pitchers`, `catchers`, ... `two_way_players`. */
    function PositionPlayers(k: PositionKind): (r: Result<map<int, Player>>)
      requires Valid()
      reads this
      ensures KeysAreIds() ==> r.Ok? && r.value.Keys == set id | id in PositionIds(k)
    {
      var ids := PositionIds(k);
      IndexSetIsElementSet(ids);
      PlayerDictFromIds(ids)
    }
  }

  /** Each position accessor's dict holds exactly the roster's players of
      that position type, ignoring case, under their own ids. */
  lemma PositionPlayersOfType(r: Roster, k: PositionKind)
    requires r.Valid() && r.KeysAreIds()
    ensures r.PositionPlayers(k).Ok?
    ensures forall id :: id in r.PositionPlayers(k).value <==>
              id in r.players && Lower(r.players[id].primaryPosition.positionType) == Lower(KindName(k))
    ensures forall id :: id in r.PositionPlayers(k).value ==> r.PositionPlayers(k).value[id] == r.players[id]
  {
  }
}
