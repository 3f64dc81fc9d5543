/** The fixed registry of the five forces and the naming of their stacked series keys. */
module ForcesMeta {

  /** One registry entry: identifier, display name, display colour, and whether the
      force's value is a placeholder estimate rather than derived from real data. */
  datatype ForceMeta = ForceMeta(id: string, name: string, color: string, mockup: bool)

  /** The registry, in display order. */
  const FORCES_META: seq<ForceMeta> := [
    ForceMeta("market_pressure", "Market Pressure", "#00E5A0", false),
    ForceMeta("emission_pressure", "Emission Pressure", "#FF5C5C", false),
    ForceMeta("utility_demand", "Utility Demand", "#A78BFA", true),
    ForceMeta("mm_activity", "MM Activity", "#38BDF8", true),
    ForceMeta("narrative", "Narrative", "#FBBF24", true)
  ]

  /** The identifiers of a registry, in order. */
  function Ids(metas: seq<ForceMeta>): (ids: seq<string>)
    ensures |ids| == |metas|
    ensures forall i :: 0 <= i < |metas| ==> ids[i] == metas[i].id
  {
    if |metas| == 0 then [] else [metas[0].id] + Ids(metas[1..])
  }

  /** Key of the upward-stacked series of force `id`. */
  function PosKey(id: string): string {
    "pos_" + id
  }

  /** Key of the downward-stacked series of force `id`. */
  function NegKey(id: string): string {
    "neg_" + id
  }

  /** The positive series keys of `ids`, in order. */
  function PosKeys(ids: seq<string>): (keys: seq<string>)
    ensures |keys| == |ids|
    ensures forall i :: 0 <= i < |ids| ==> keys[i] == PosKey(ids[i])
  {
    if |ids| == 0 then [] else [PosKey(ids[0])] + PosKeys(ids[1..])
  }

  /** The negative series keys of `ids`, in order. */
  function NegKeys(ids: seq<string>): (keys: seq<string>)
    ensures |keys| == |ids|
    ensures forall i :: 0 <= i < |ids| ==> keys[i] == NegKey(ids[i])
  {
    if |ids| == 0 then [] else [NegKey(ids[0])] + NegKeys(ids[1..])
  }

  const POS_KEYS: seq<string> := PosKeys(Ids(FORCES_META))
  const NEG_KEYS: seq<string> := NegKeys(Ids(FORCES_META))

  predicate Distinct(s: seq<string>) {
    forall i, j :: 0 <= i < j < |s| ==> s[i] != s[j]
  }

  /** The registry lists five forces with pairwise distinct identifiers, so every
      force owns its own `_raw` entry and its own pair of series. */
  lemma RegistryIdsDistinct()
    ensures |FORCES_META| == 5
    ensures Distinct(Ids(FORCES_META))
  {
    var ids := Ids(FORCES_META);
    assert ids == ["market_pressure", "emission_pressure", "utility_demand", "mm_activity", "narrative"];
    assert ids[0][0] == 'm' && ids[1][0] == 'e' && ids[2][0] == 'u' && ids[3][0] == 'm' && ids[4][0] == 'n';
    assert ids[0][1] == 'a' && ids[3][1] == 'm';
  }

  /** Series keys never collide: a positive and a negative key always differ, each is
      produced by exactly one force identifier, and none of them can overwrite the
      row's own `date`, `_raw` or `_net` fields. */
  lemma SeriesKeysDistinct(a: string, b: string)
    ensures PosKey(a) == PosKey(b) <==> a == b
    ensures NegKey(a) == NegKey(b) <==> a == b
    ensures PosKey(a) != NegKey(b)
    ensures PosKey(a) != "date" && PosKey(a) != "_raw" && PosKey(a) != "_net"
    ensures NegKey(a) != "date" && NegKey(a) != "_raw" && NegKey(a) != "_net"
  {
    if PosKey(a) == PosKey(b) {
      assert a == PosKey(a)[4..] && b == PosKey(b)[4..];
    }
    if NegKey(a) == NegKey(b) {
      assert a == NegKey(a)[4..] && b == NegKey(b)[4..];
    }
    assert PosKey(a)[0] == 'p' && NegKey(b)[0] == 'n';
  }

  /** Membership in a key list is membership of the identifier in the id list. */
  lemma {:induction false} InPosKeys(id: string, ids: seq<string>)
    ensures PosKey(id) in PosKeys(ids) <==> id in ids
    ensures PosKey(id) !in NegKeys(ids)
  {
    if PosKey(id) in PosKeys(ids) {
      var i :| 0 <= i < |ids| && PosKeys(ids)[i] == PosKey(id);
      SeriesKeysDistinct(id, ids[i]);
    }
    if id in ids {
      var i :| 0 <= i < |ids| && ids[i] == id;
      assert PosKeys(ids)[i] == PosKey(id);
    }
    if PosKey(id) in NegKeys(ids) {
      var i :| 0 <= i < |ids| && NegKeys(ids)[i] == PosKey(id);
      SeriesKeysDistinct(id, ids[i]);
    }
  }

  /** Mirror of `InPosKeys` for the negative keys. */
  lemma {:induction false} InNegKeys(id: string, ids: seq<string>)
    ensures NegKey(id) in NegKeys(ids) <==> id in ids
    ensures NegKey(id) !in PosKeys(ids)
  {
    if NegKey(id) in NegKeys(ids) {
      var i :| 0 <= i < |ids| && NegKeys(ids)[i] == NegKey(id);
      SeriesKeysDistinct(id, ids[i]);
    }
    if id in ids {
      var i :| 0 <= i < |ids| && ids[i] == id;
      assert NegKeys(ids)[i] == NegKey(id);
    }
    if NegKey(id) in PosKeys(ids) {
      var i :| 0 <= i < |ids| && PosKeys(ids)[i] == NegKey(id);
      SeriesKeysDistinct(ids[i], id);
    }
  }
}
