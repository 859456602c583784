/** The tiles of client/vsx-game-state.c: objects found both through an array indexed by tile number and through a list
    in the order of their last update. */
module TileIndex {

  datatype TileEvent = TileEvent(num: nat, player: nat, x: int, y: int, letter: nat, synced: bool)

  /** What is kept of an event: the `synced` flag is cleared. */
  function Kept(e: TileEvent): TileEvent {
    e.(synced := false)
  }

  // ---------- what the list should hold ----------

  predicate Mentions(log: seq<TileEvent>, num: nat) {
    exists i :: 0 <= i < |log| && log[i].num == num
  }

  /** Only the last event of each tile, in the order of the log. */
  function LastOnly(log: seq<TileEvent>): seq<TileEvent> {
    if log == [] then []
    else (if Mentions(log[1..], log[0].num) then [] else [Kept(log[0])]) + LastOnly(log[1..])
  }

  /** One more than the highest tile number seen. */
  function Seen(log: seq<TileEvent>): nat {
    if log == [] then 0
    else
      var before, num := Seen(log[..|log| - 1]), log[|log| - 1].num;
      if num + 1 > before then num + 1 else before
  }

  /** The list without the event of one tile. */
  function Without(events: seq<TileEvent>, num: nat): seq<TileEvent> {
    if events == [] then []
    else (if events[0].num == num then [] else [events[0]]) + Without(events[1..], num)
  }

  lemma {:induction false} WithoutConcat(a: seq<TileEvent>, b: seq<TileEvent>, num: nat)
    ensures Without(a + b, num) == Without(a, num) + Without(b, num)
  {
    if a == [] {
      assert a + b == b;
    } else {
      assert (a + b)[1..] == a[1..] + b;
      WithoutConcat(a[1..], b, num);
    }
  }

  lemma {:induction false} WithoutNone(events: seq<TileEvent>, num: nat)
    requires forall i :: 0 <= i < |events| ==> events[i].num != num
    ensures Without(events, num) == events
  {
    if events != [] { WithoutNone(events[1..], num); }
  }

  /** A new event takes its tile out of the list and puts it at the end. */
  lemma {:induction false} LastOnlyAppend(log: seq<TileEvent>, e: TileEvent)
    ensures LastOnly(log + [e]) == Without(LastOnly(log), e.num) + [Kept(e)]
    decreases |log|
  {
    if log == [] {
      assert [e][1..] == [] && [] + [e] == [e];
    } else {
      var all, rest := log + [e], log[1..];
      assert all[1..] == rest + [e];
      LastOnlyAppend(rest, e);
      MentionsAppend(rest, e, log[0].num);
      WithoutConcat(if Mentions(rest, log[0].num) then [] else [Kept(log[0])], LastOnly(rest), e.num);
    }
  }

  lemma MentionsAppend(log: seq<TileEvent>, e: TileEvent, num: nat)
    ensures Mentions(log + [e], num) <==> Mentions(log, num) || e.num == num
  {
    var all := log + [e];
    if Mentions(log, num) {
      var i :| 0 <= i < |log| && log[i].num == num;
      assert all[i].num == num;
    }
    if e.num == num { assert all[|log|].num == num; }
  }

  lemma SeenAppend(log: seq<TileEvent>, e: TileEvent)
    ensures Seen(log + [e]) == if e.num + 1 > Seen(log) then e.num + 1 else Seen(log)
  {
    assert (log + [e])[..|log|] == log;
  }

  /** The highest number is really the highest, and it was seen. */
  lemma {:induction false} SeenIsHighest(log: seq<TileEvent>)
    ensures forall i :: 0 <= i < |log| ==> log[i].num < Seen(log)
    ensures log != [] ==> Mentions(log, Seen(log) - 1)
  {
    if log != [] {
      var m := |log| - 1;
      SeenIsHighest(log[..m]);
      if log[m].num + 1 > Seen(log[..m]) {
        assert log[m].num == Seen(log) - 1;
      } else {
        var i :| 0 <= i < m && log[..m][i].num == Seen(log[..m]) - 1;
        assert log[i].num == Seen(log) - 1;
      }
    }
  }

  /** Each tile number appears once in the list. */
  lemma {:induction false} LastOnlyDistinct(log: seq<TileEvent>)
    ensures forall i, j :: 0 <= i < j < |LastOnly(log)| ==> LastOnly(log)[i].num != LastOnly(log)[j].num
    ensures forall i :: 0 <= i < |LastOnly(log)| ==> Mentions(log, LastOnly(log)[i].num) && !LastOnly(log)[i].synced
  {
    if log != [] {
      var rest := log[1..];
      LastOnlyDistinct(rest);
      forall i | 0 <= i < |LastOnly(rest)|
        ensures Mentions(log, LastOnly(rest)[i].num)
      {
        var k :| 0 <= k < |rest| && rest[k].num == LastOnly(rest)[i].num;
        assert log[k + 1].num == LastOnly(rest)[i].num;
      }
      assert log[0].num == log[0].num;
      assert Mentions(log, log[0].num);
    }
  }

  /** The two events say the same of the same tile. */
  predicate SamePlace(a: TileEvent, b: TileEvent) {
    a.num == b.num && a.player == b.player && a.x == b.x && a.y == b.y && a.letter == b.letter
  }

  /** The event at position k of the log is the last one of its tile. */
  ghost predicate IsLast(log: seq<TileEvent>, k: nat) {
    k < |log| && forall m :: k < m < |log| ==> log[m].num != log[k].num
  }

  /** Event i of the list is an event of the log, the last one of its tile. */
  ghost predicate FromLog(log: seq<TileEvent>, entry: TileEvent) {
    exists k: nat :: IsLast(log, k) && SamePlace(entry, log[k])
  }

  ghost predicate Listed(list: seq<TileEvent>, num: nat) {
    exists i :: 0 <= i < |list| && list[i].num == num
  }

  /** The list holds what was last said of each tile, and of every tile that was mentioned. */
  lemma {:induction false} LastOnlyFaithful(log: seq<TileEvent>)
    ensures forall i :: 0 <= i < |LastOnly(log)| ==> FromLog(log, LastOnly(log)[i])
    ensures forall num: nat :: Mentions(log, num) ==> Listed(LastOnly(log), num)
  {
    hide LastOnly;
    LastOnlyStep(log);
    if log != [] {
      var rest := log[1..];
      LastOnlyFaithful(rest);
      var kept := Mentions(rest, log[0].num);
      forall i | 0 <= i < |LastOnly(log)|
        ensures FromLog(log, LastOnly(log)[i])
      {
        if i == 0 && !kept {
          FirstIsLast(log);
          assert SamePlace(LastOnly(log)[0], log[0]);
        } else {
          LaterEntry(log, LastOnly(rest)[if kept then i else i - 1]);
        }
      }
      forall num: nat | Mentions(log, num)
        ensures Listed(LastOnly(log), num)
      {
        if num == log[0].num && !kept {
          assert LastOnly(log)[0].num == num;
        } else {
          MentionedLater(log, num);
          var i :| 0 <= i < |LastOnly(rest)| && LastOnly(rest)[i].num == num;
          assert LastOnly(log)[if kept then i else i + 1].num == num;
        }
      }
    }
  }

  lemma LastOnlyStep(log: seq<TileEvent>)
    ensures log == [] ==> LastOnly(log) == []
    ensures log != [] ==>
              LastOnly(log) == (if Mentions(log[1..], log[0].num) then [] else [Kept(log[0])]) + LastOnly(log[1..])
  {
  }

  lemma FirstIsLast(log: seq<TileEvent>)
    requires log != [] && !Mentions(log[1..], log[0].num)
    ensures IsLast(log, 0)
  {
    forall m | 0 < m < |log|
      ensures log[m].num != log[0].num
    {
      assert log[m] == log[1..][m - 1];
    }
  }

  lemma LaterEntry(log: seq<TileEvent>, entry: TileEvent)
    requires log != [] && FromLog(log[1..], entry)
    ensures FromLog(log, entry)
  {
    var rest := log[1..];
    var k: nat :| IsLast(rest, k) && SamePlace(entry, rest[k]);
    assert forall m :: k + 1 < m < |log| ==> log[m] == rest[m - 1];
    assert IsLast(log, k + 1) && SamePlace(entry, log[k + 1]);
  }

  lemma MentionedLater(log: seq<TileEvent>, num: nat)
    requires log != [] && Mentions(log, num) && (num != log[0].num || Mentions(log[1..], num))
    ensures Mentions(log[1..], num)
  {
    if num != log[0].num {
      var i :| 0 <= i < |log| && log[i].num == num;
      assert log[1..][i - 1].num == num;
    }
  }

  // ---------- the objects ----------

  class Tile {
    var event: TileEvent

    constructor (e: TileEvent)
      ensures event == e
    {
      event := e;
    }
  }

  /** The events of some tiles. */
  ghost function EventsOf(list: seq<Tile>): (r: seq<TileEvent>)
    reads list
    ensures |r| == |list|
  {
    seq(|list|, i requires 0 <= i < |list| reads list => list[i].event)
  }

  class Tiles {
    /** tiles_by_index. */
    var byIndex: seq<Tile?>
    /** tile_list. */
    var list: seq<Tile>
    var nTiles: int
    /** The tile events since the last reset. */
    ghost var history: seq<TileEvent>

    ghost predicate Valid()
      reads this, list
    {
      && Indexed() && EventsOf(list) == LastOnly(history) && |byIndex| == Seen(history)
    }

    /** The two ways to find a tile agree, entry by entry. */
    ghost predicate Indexed()
      reads this`byIndex, this`list, list
    {
      && (forall i, j :: 0 <= i < j < |list| ==> list[i] != list[j])
      && (forall n :: 0 <= n < |byIndex| && byIndex[n] != null ==> byIndex[n] in list && byIndex[n].event.num == n)
      && (forall i :: 0 <= i < |list| ==> list[i].event.num < |byIndex| && byIndex[list[i].event.num] == list[i])
    }

    constructor ()
      ensures Valid() && history == [] && list == [] && nTiles == 0
    {
      byIndex, list, nTiles, history := [], [], 0, [];
    }

    method EnsureNTiles(n: nat)
      modifies this`byIndex
      ensures |byIndex| == if n > |old(byIndex)| then n else |old(byIndex)|
      ensures forall i :: 0 <= i < |byIndex| ==> byIndex[i] == if i < |old(byIndex)| then old(byIndex)[i] else null
    {
      if n > |byIndex| {
        byIndex := byIndex + seq(n - |byIndex|, _ => null);
      }
    }

    /** Finds the tile, or makes one, at the end of the list; its event is still to be stored. */
    method GetTileByIndex(num: nat) returns (tile: Tile)
      requires Indexed()
      modifies this`byIndex, this`list
      ensures |byIndex| == if num + 1 > |old(byIndex)| then num + 1 else |old(byIndex)|
      ensures forall i :: 0 <= i < |byIndex| && i != num ==>
                byIndex[i] == if i < |old(byIndex)| then old(byIndex)[i] else null
      ensures byIndex[num] == tile
      ensures if num < |old(byIndex)| && old(byIndex)[num] != null then tile == old(byIndex)[num] && list == old(list)
              else fresh(tile) && tile.event.num == num && list == old(list) + [tile]
    {
      EnsureNTiles(num + 1);
      var found := byIndex[num];
      if found == null {
        tile := new Tile(TileEvent(num, 0, 0, 0, 0, false));
        byIndex := byIndex[num := tile];
        list := list + [tile];
      } else {
        tile := found;
      }
    }

    /** Takes the tile out of the list and puts it at the end. */
    method MoveToEnd(tile: Tile)
      requires tile in list
      modifies this`list
      ensures list == Taken(old(list), tile) + [tile]
    {
      var i := 0;
      while list[i] != tile
        invariant 0 <= i < |list| && list == old(list) && forall j :: 0 <= j < i ==> list[j] != tile
        decreases |list| - i
      {
        i := i + 1;
      }
      TakenAt(list, tile, i);
      list := list[..i] + list[i + 1..] + [tile];
    }

    /** Stores the event in its tile and makes the tile the one updated last. */
    method Touch(tile: Tile, e: TileEvent)
      requires tile in list && Only(list, tile, e.num)
      modifies this`list, tile
      ensures EventsOf(list) == Without(old(EventsOf(list)), e.num) + [Kept(e)] && tile.event == Kept(e)
      ensures |list| > 0 && list[|list| - 1] == tile
      ensures Members(list) == old(Members(list))
      ensures forall i, j :: 0 <= i < j < |list| ==> list[i] != list[j]
    {
      hide Without, Taken;
      TakenEvents(list, tile, e.num);
      TakenMembers(list, tile);
      ghost var rest := Taken(list, tile);
      ghost var kept := EventsOf(rest);
      tile.event := Kept(e);
      assert EventsOf(rest) == kept;
      MoveToEnd(tile);
      assert EventsOf(list) == kept + [Kept(e)];
      assert Members(list) == Members(rest) + {tile};
    }

    /** handle_tile_changed.  The number of remaining tiles is announced when it has changed. */
    method HandleTileChanged(e: TileEvent) returns (announced: bool)
      requires Valid()
      modifies this`byIndex, this`list, this`history, list
      ensures Valid() && history == old(history) + [e]
      ensures announced <==> Seen(history) > Seen(old(history))
      ensures e.num < |byIndex| && byIndex[e.num] != null && |list| > 0 && list[|list| - 1] == byIndex[e.num]
      ensures var kept := byIndex[e.num].event;
              && kept.num == e.num && kept.player == e.player && kept.x == e.x && kept.y == e.y
              && kept.letter == e.letter && !kept.synced
    {
      hide LastOnly, Seen, Without, Taken;
      ghost var before, tiles, index := LastOnly(history), list, byIndex;
      var oldLength := |byIndex|;
      LastOnlyAppend(history, e);
      SeenAppend(history, e);
      var tile := GetTileByIndex(e.num);
      FoundOrMade(tiles, list, tile, e.num, before);
      assert Members(list) == Members(tiles) + {tile};
      Touch(tile, e);
      assert forall i :: 0 <= i < |tiles| && tiles[i] != tile ==> tiles[i].event == old(tiles[i].event);
      Reindexed(index, tiles, tile, e.num);
      history := history + [e];
      announced := oldLength < |byIndex|;
    }

    /** The index agrees with the list again after one tile has been found or made, changed and moved to the end. */
    lemma Reindexed(index: seq<Tile?>, tiles: seq<Tile>, tile: Tile, num: nat)
      requires |byIndex| == if num + 1 > |index| then num + 1 else |index|
      requires forall i :: 0 <= i < |byIndex| && i != num ==> byIndex[i] == if i < |index| then index[i] else null
      requires byIndex[num] == tile && tile.event.num == num
      requires forall i, j :: 0 <= i < j < |list| ==> list[i] != list[j]
      requires Members(list) == Members(tiles) + {tile}
      requires forall n :: 0 <= n < |index| && n != num && index[n] != null ==>
                 index[n] in tiles && index[n] != tile && index[n].event.num == n
      requires forall i :: 0 <= i < |tiles| && tiles[i] != tile ==>
                 tiles[i].event.num != num && tiles[i].event.num < |index| && index[tiles[i].event.num] == tiles[i]
      ensures Indexed()
    {
      forall i | 0 <= i < |list|
        ensures list[i].event.num < |byIndex| && byIndex[list[i].event.num] == list[i]
      {
        assert list[i] in Members(list);
      }
      forall n | 0 <= n < |byIndex| && byIndex[n] != null
        ensures byIndex[n] in list && byIndex[n].event.num == n
      {
        assert byIndex[n] in Members(list);
      }
    }

    /** vsx_game_state_get_remaining_tiles. */
    method Remaining() returns (n: int)
      requires Valid()
      ensures n == nTiles - Seen(history)
    {
      n := nTiles - |byIndex|;
    }

    /** handle_n_tiles_changed. */
    method HandleNTilesChanged(n: int) returns (announced: bool)
      requires Valid()
      modifies this`nTiles
      ensures Valid() && nTiles == n && (announced <==> n != old(nTiles))
    {
      announced := nTiles != n;
      nTiles := n;
    }

    /** reset_tiles. */
    method ResetTiles() returns (announced: bool)
      requires Valid()
      modifies this`byIndex, this`list, this`history
      ensures Valid() && history == [] && list == [] && (announced <==> old(Seen(history)) > 0)
    {
      announced := |byIndex| > 0;
      byIndex, list, history := [], [], [];
    }
  }

  ghost function Members(list: seq<Tile>): set<Tile> {
    set t | t in list
  }

  function Taken(list: seq<Tile>, tile: Tile): seq<Tile> {
    if list == [] then [] else if list[0] == tile then list[1..] else [list[0]] + Taken(list[1..], tile)
  }

  lemma {:induction false} TakenAt(list: seq<Tile>, tile: Tile, i: nat)
    requires i < |list| && list[i] == tile && forall j :: 0 <= j < i ==> list[j] != tile
    ensures Taken(list, tile) == list[..i] + list[i + 1..]
    decreases i
  {
    if i > 0 {
      TakenAt(list[1..], tile, i - 1);
      assert list[..i] == [list[0]] + list[1..][..i - 1];
      assert list[i + 1..] == list[1..][i..];
    }
  }

  /** Each tile once, and this tile is the one of its number. */
  ghost predicate Only(list: seq<Tile>, tile: Tile, num: nat)
    reads list, tile
  {
    && (forall i, j :: 0 <= i < j < |list| ==> list[i] != list[j])
    && tile.event.num == num && forall i :: 0 <= i < |list| && list[i] != tile ==> list[i].event.num != num
  }

  lemma {:induction false} TakenMembers(list: seq<Tile>, tile: Tile)
    requires tile in list && forall i, j :: 0 <= i < j < |list| ==> list[i] != list[j]
    ensures tile !in Taken(list, tile)
    ensures Members(list) == Members(Taken(list, tile)) + {tile}
    ensures var rest := Taken(list, tile); forall i, j :: 0 <= i < j < |rest| ==> rest[i] != rest[j]
  {
    var rest := list[1..];
    assert list == [list[0]] + rest;
    if list[0] != tile {
      TakenMembers(rest, tile);
      var less := Taken(rest, tile);
      assert Taken(list, tile) == [list[0]] + less;
      forall k | 0 <= k < |less|
        ensures less[k] != list[0]
      {
        assert less[k] in Members(less) && less[k] in Members(rest);
      }
    }
  }

  lemma {:induction false} TakenEvents(list: seq<Tile>, tile: Tile, num: nat)
    requires tile in list && Only(list, tile, num)
    ensures EventsOf(Taken(list, tile)) == Without(EventsOf(list), num)
  {
    var rest := list[1..];
    assert list == [list[0]] + rest;
    assert EventsOf(list)[1..] == EventsOf(rest) && EventsOf(list)[0] == list[0].event;
    if list[0] == tile {
      WithoutNone(EventsOf(rest), num);
    } else {
      TakenEvents(rest, tile, num);
      assert Taken(list, tile) == [list[0]] + Taken(rest, tile);
      assert EventsOf(Taken(list, tile)) == [list[0].event] + EventsOf(Taken(rest, tile));
    }
  }

  /** The tile was in the list already, or it is new and the last of it. */
  lemma FoundOrMade(tiles: seq<Tile>, all: seq<Tile>, tile: Tile, num: nat, before: seq<TileEvent>)
    requires all == tiles || all == tiles + [tile]
    requires tile.event.num == num && EventsOf(tiles) == before
    ensures Without(EventsOf(all), num) == Without(before, num)
  {
    if all != tiles {
      assert EventsOf(all) == before + [tile.event];
      WithoutConcat(before, [tile.event], num);
      assert [tile.event][1..] == [];
    }
  }
}
