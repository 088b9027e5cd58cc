/** Decoding raw presence payloads: the value level of `_transform_state`. */
module PresenceTransform {
  import opened PyDict
  import opened PresenceSpec

  type Fields = map<string, string>

  /** The renamed record: `presence_ref` first, then the remaining fields, which win on a clash. */
  function Renamed(meta: Fields): (m: Fields)
    requires "phx_ref" in meta
    ensures "presence_ref" in m
  {
    map["presence_ref" := meta["phx_ref"]] + (meta - {"phx_ref", "phx_ref_prev"})
  }

  function FromFields(m: Fields): Presence
    requires "presence_ref" in m
  {
    Presence(m["presence_ref"], m - {"presence_ref"})
  }

  function Decoded(meta: Fields): Presence
    requires "phx_ref" in meta
  {
    FromFields(Renamed(meta))
  }

  /** Renaming a presence back. */
  function Encoded(p: Presence): Fields {
    p.fields["phx_ref" := p.ref]
  }

  predicate AllHaveRefs(metas: seq<Fields>) {
    forall i :: 0 <= i < |metas| ==> "phx_ref" in metas[i]
  }

  function DecodedList(metas: seq<Fields>): (r: seq<Presence>)
    requires AllHaveRefs(metas)
    ensures |r| == |metas|
    ensures forall i :: 0 <= i < |metas| ==> r[i] == Decoded(metas[i])
  {
    seq(|metas|, i requires 0 <= i < |metas| => Decoded(metas[i]))
  }

  predicate Decodable(raw: Dict<seq<Fields>>) {
    forall k :: k in raw.vals ==> AllHaveRefs(raw.vals[k])
  }

  function DecodedState(raw: Dict<seq<Fields>>): State
    requires Decodable(raw)
  {
    Dict(raw.keys, map k | k in raw.vals :: DecodedList(raw.vals[k]))
  }

  /** Renaming back recovers a meta without its `phx_ref_prev`, provided it had no `presence_ref` of its own. */
  lemma RoundTrip(meta: Fields)
    requires "phx_ref" in meta && "presence_ref" !in meta
    ensures Encoded(Decoded(meta)) == meta - {"phx_ref_prev"}
  {
    var rest := meta - {"phx_ref", "phx_ref_prev"};
    assert Renamed(meta) - {"presence_ref"} == rest;
    assert rest["phx_ref" := meta["phx_ref"]] == meta - {"phx_ref_prev"};
  }

  /** A meta that carries its own `presence_ref` keeps the right ref exactly when the two agree. */
  lemma RefKeptIff(meta: Fields)
    requires "phx_ref" in meta
    ensures Decoded(meta).ref == meta["phx_ref"]
      <==> ("presence_ref" in meta ==> meta["presence_ref"] == meta["phx_ref"])
  {
  }

  /** Keys, list lengths and order are preserved, and every meta comes back. */
  lemma StateRoundTrip(raw: Dict<seq<Fields>>, k: string, i: nat)
    requires raw.Wf() && Decodable(raw) && k in raw.vals && i < |raw.vals[k]|
    requires "presence_ref" !in raw.vals[k][i]
    ensures var r := DecodedState(raw);
      && r.Wf() && r.keys == raw.keys && |r.vals[k]| == |raw.vals[k]|
      && Encoded(r.vals[k][i]) == raw.vals[k][i] - {"phx_ref_prev"}
  {
    RoundTrip(raw.vals[k][i]);
  }
}
