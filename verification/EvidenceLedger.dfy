/** The evidence ledger: packets by claim id, deduplicated by source and quote, with contradiction groups merged
    as contradictions arrive. Group ids are UUIDs, represented by their 128-bit number: canonical UUID text sorts
    as the number does. */
module EvidenceLedger {
  import opened Json

  type ClaimId = string
  type GroupId = nat

  datatype Packet = Packet(claimId: ClaimId, sourceId: string, quote: string, group: Option<GroupId>)

  datatype Ledger = Ledger(packets: map<ClaimId, Packet>, dedup: map<(string, string), ClaimId>)

  datatype AddResult = Stored(packet: Packet) | Duplicate(packet: Packet) | UnknownClaim(claimId: ClaimId)

  // ----- what `add` does to a ledger

  function GroupsOf(l: Ledger, contradicts: seq<ClaimId>): set<GroupId>
    requires forall c | c in contradicts :: c in l.packets
  {
    set c | c in contradicts && l.packets[c].group.Some? :: l.packets[c].group.value
  }

  function Least(gs: set<GroupId>): (g: GroupId)
    requires gs != {}
    ensures g in gs && forall x | x in gs :: g <= x
    decreases |gs|
  {
    LeastExists(gs);
    var g :| g in gs && forall x | x in gs :: g <= x;
    g
  }

  lemma {:induction false} LeastExists(gs: set<GroupId>)
    requires gs != {}
    ensures exists g :: g in gs && forall x | x in gs :: g <= x
    decreases |gs|
  {
    var g :| g in gs;
    var rest := gs - {g};
    if rest == {} {
      assert forall x | x in gs :: x == g || x in rest;
    } else {
      LeastExists(rest);
      var m :| m in rest && forall x | x in rest :: m <= x;
      LeastOfTwo(gs, g, m);
    }
  }

  lemma LeastOfTwo(gs: set<GroupId>, g: GroupId, m: GroupId)
    requires g in gs && m in gs && forall x | x in gs - {g} :: m <= x
    ensures exists l :: l in gs && forall x | x in gs :: l <= x
  {
    var l := if g <= m then g else m;
    forall x | x in gs ensures l <= x { assert x == g || x in gs - {g}; }
  }

  /** The group the new packet and everything it contradicts will share. */
  function TargetGroup(l: Ledger, contradicts: seq<ClaimId>, newId: GroupId): GroupId
    requires forall c | c in contradicts :: c in l.packets
  {
    if GroupsOf(l, contradicts) == {} then newId else Least(GroupsOf(l, contradicts))
  }

  /** A stored claim's group once the new packet is in. */
  function Regrouped(l: Ledger, contradicts: seq<ClaimId>, newId: GroupId, id: ClaimId): Option<GroupId>
    requires forall c | c in contradicts :: c in l.packets
    requires id in l.packets
  {
    var g := l.packets[id].group;
    if id in contradicts || (g.Some? && g.value in GroupsOf(l, contradicts))
    then Some(TargetGroup(l, contradicts, newId)) else g
  }

  function Added(l: Ledger, p: Packet, contradicts: seq<ClaimId>, newId: GroupId): Ledger
    requires forall c | c in contradicts :: c in l.packets
  {
    var packets := map id | id in l.packets :: l.packets[id].(group := Regrouped(l, contradicts, newId, id));
    var p' := if contradicts == [] then p else p.(group := Some(TargetGroup(l, contradicts, newId)));
    Ledger(packets[p.claimId := p'], l.dedup[(p.sourceId, p.quote) := p.claimId])
  }

  predicate Accepts(l: Ledger, p: Packet, contradicts: seq<ClaimId>) {
    (p.sourceId, p.quote) !in l.dedup && forall c | c in contradicts :: c in l.packets
  }

  /** The ledger after one `add`: a duplicate, or an unknown claim, changes nothing. */
  function Step(l: Ledger, p: Packet, contradicts: seq<ClaimId>, newId: GroupId): Ledger {
    if Accepts(l, p, contradicts) then Added(l, p, contradicts, newId) else l
  }

  /** Every quote the index knows leads to a stored packet. */
  predicate Indexed(l: Ledger) {
    forall k | k in l.dedup :: l.dedup[k] in l.packets
  }

  /** The first claim of a list that is not stored. */
  function FirstMissing(l: Ledger, claims: seq<ClaimId>): (r: Option<ClaimId>)
    ensures r.None? <==> forall c | c in claims :: c in l.packets
    ensures r.Some? ==> exists i :: 0 <= i < |claims| && claims[i] == r.value && claims[i] !in l.packets
                                    && forall c | c in claims[..i] :: c in l.packets
  {
    if claims == [] then None
    else if claims[0] !in l.packets then
      assert claims[..0] == [];
      Some(claims[0])
    else
      var rest := FirstMissing(l, claims[1..]);
      assert claims == [claims[0]] + claims[1..];
      assert forall i | 0 <= i < |claims| - 1 :: claims[1..][i] == claims[i + 1] && claims[..i + 1] == [claims[0]] + claims[1..][..i];
      rest
  }

  /** What one `add` reports: the packet already stored for this quote, the first claim it does not know, or the
      packet as it is now stored. */
  function Answer(l: Ledger, p: Packet, contradicts: seq<ClaimId>, newId: GroupId): AddResult
    requires Indexed(l)
  {
    if (p.sourceId, p.quote) in l.dedup then Duplicate(l.packets[l.dedup[(p.sourceId, p.quote)]])
    else
      var missing := FirstMissing(l, contradicts);
      if missing.Some? then UnknownClaim(missing.value)
      else Stored(Added(l, p, contradicts, newId).packets[p.claimId])
  }

  // ----- the program

  class Store {
    var packets: map<ClaimId, Packet>
    var dedup: map<(string, string), ClaimId>

    function Value(): Ledger
      reads this
    {
      Ledger(packets, dedup)
    }

    constructor ()
      ensures Value() == Ledger(map[], map[])
    {
      packets, dedup := map[], map[];
    }

    /** `newId` is the UUID drawn if a new group is needed. */
    method Add(p: Packet, contradicts: seq<ClaimId>, newId: GroupId) returns (r: AddResult)
      requires Indexed(Value())
      modifies this
      ensures Value() == Step(old(Value()), p, contradicts, newId)
      ensures Indexed(Value())
      ensures r == Answer(old(Value()), p, contradicts, newId)
    {
      var key := (p.sourceId, p.quote);
      if key in dedup {
        return Duplicate(packets[dedup[key]]);
      }
      ghost var before := Value();
      var packet := p;
      if contradicts != [] {
        var unknown := FirstUnknown(contradicts);
        if unknown.Some? {
          return UnknownClaim(unknown.value);
        }
        var groupId := ResolveOrCreateGroup(contradicts, newId);
        packet := packet.(group := Some(groupId));
        JoinGroup(contradicts, groupId);
      }
      assert packets == map id | id in before.packets ::
                          before.packets[id].(group := Regrouped(before, contradicts, newId, id));
      packets := packets[p.claimId := packet];
      dedup := dedup[key := p.claimId];
      r := Stored(packet);
    }

    method JoinGroup(contradicts: seq<ClaimId>, groupId: GroupId)
      requires forall c | c in contradicts :: c in packets
      modifies this`packets
      ensures packets.Keys == old(packets).Keys
      ensures forall id | id in packets ::
                packets[id] == if id in contradicts then old(packets)[id].(group := Some(groupId)) else old(packets)[id]
    {
      for i := 0 to |contradicts|
        invariant packets.Keys == old(packets).Keys
        invariant forall id | id in packets ::
                    packets[id] == if id in contradicts[..i] then old(packets)[id].(group := Some(groupId))
                                   else old(packets)[id]
      {
        packets := packets[contradicts[i] := packets[contradicts[i]].(group := Some(groupId))];
        assert contradicts[..i + 1] == contradicts[..i] + [contradicts[i]];
      }
      assert contradicts[..|contradicts|] == contradicts;
    }

    method FirstUnknown(contradicts: seq<ClaimId>) returns (r: Option<ClaimId>)
      ensures r == FirstMissing(Value(), contradicts)
    {
      for i := 0 to |contradicts|
        invariant FirstMissing(Value(), contradicts) == FirstMissing(Value(), contradicts[i..])
      {
        if contradicts[i] !in packets {
          return Some(contradicts[i]);
        }
        assert contradicts[i..][1..] == contradicts[i + 1..];
      }
      return None;
    }

    /** Picks the group to join, first merging the groups the named claims already belong to. */
    method ResolveOrCreateGroup(contradicts: seq<ClaimId>, newId: GroupId) returns (groupId: GroupId)
      requires forall c | c in contradicts :: c in packets
      modifies this`packets
      ensures groupId == TargetGroup(old(Value()), contradicts, newId)
      ensures packets.Keys == old(packets).Keys
      ensures forall id | id in packets ::
                packets[id] == if old(packets)[id].group.Some?
                                  && old(packets)[id].group.value in GroupsOf(old(Value()), contradicts)
                               then old(packets)[id].(group := Some(groupId)) else old(packets)[id]
    {
      var existing := GroupsOf(Value(), contradicts);
      if existing == {} {
        return newId;
      }
      groupId := Least(existing);
      if |existing| > 1 {
        var left := packets.Keys;
        ghost var was := packets;
        while left != {}
          invariant left <= was.Keys == packets.Keys
          invariant forall id | id in packets ::
                      packets[id] == if id !in left && was[id].group.Some? && was[id].group.value in existing
                                     then was[id].(group := Some(groupId)) else was[id]
          decreases |left|
        {
          var id :| id in left;
          if packets[id].group.Some? && packets[id].group.value in existing {
            packets := packets[id := packets[id].(group := Some(groupId))];
          }
          left := left - {id};
        }
      } else {
        OneGroup(existing, groupId);
      }
    }
  }

  lemma OneGroup(gs: set<GroupId>, g: GroupId)
    requires g in gs && |gs| <= 1
    ensures gs == {g}
  {
    assert |gs - {g}| == |gs| - 1;
  }
}
