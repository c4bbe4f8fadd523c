/** A domino tile (src/models/Domino.ts). */
module Dominoes {

  /** A tile: its identity, its two pip values and whether it is still available.
      In the source `id`, `topIndex` and `bottomIndex` are readonly and only
      `available` may be written; a datatype value never changes, and the one
      write the source performs is modelled by `MarkUnavailable`. */
  datatype Domino = Domino(id: int, topIndex: int, bottomIndex: int, available: bool)

  /** The plain record `toJSON` produces and `fromJSON` consumes. */
  datatype DominoData = DominoData(id: int, topIndex: int, bottomIndex: int, available: bool)

  /** The constructor; `available` defaults to true when it is not given. */
  function NewDomino(id: int, topIndex: int, bottomIndex: int, available: bool := true): (d: Domino)
    ensures d.id == id && d.topIndex == topIndex && d.bottomIndex == bottomIndex
    ensures d.available == available
  {
    Domino(id, topIndex, bottomIndex, available)
  }

  /** A double carries the same pip value on both ends, so it matches one value only. */
  predicate IsDouble(d: Domino)
    ensures IsDouble(d) <==> forall n :: Touches(d, n) ==> n == d.topIndex
  {
    assert Touches(d, d.bottomIndex);
    d.topIndex == d.bottomIndex
  }

  /** True when one of the tile's ends shows pip value `n`. */
  predicate Touches(d: Domino, n: int) {
    d.topIndex == n || d.bottomIndex == n
  }

  /** The only field write the source performs on a tile (`available = false`
      once it is placed): every readonly field keeps its value. */
  function MarkUnavailable(d: Domino): (r: Domino)
    ensures r.id == d.id && r.topIndex == d.topIndex && r.bottomIndex == d.bottomIndex
    ensures !r.available
  {
    d.(available := false)
  }

  function ToJson(d: Domino): (data: DominoData)
    ensures data.id == d.id && data.topIndex == d.topIndex
    ensures data.bottomIndex == d.bottomIndex && data.available == d.available
  {
    DominoData(d.id, d.topIndex, d.bottomIndex, d.available)
  }

  function FromJson(data: DominoData): (d: Domino)
    ensures d.id == data.id && d.topIndex == data.topIndex
    ensures d.bottomIndex == data.bottomIndex && d.available == data.available
  {
    NewDomino(data.id, data.topIndex, data.bottomIndex, data.available)
  }

  lemma JsonRoundTrip(d: Domino)
    ensures FromJson(ToJson(d)) == d
  {
  }

  lemma JsonRoundTripData(data: DominoData)
    ensures ToJson(FromJson(data)) == data
  {
  }

  /** Conversion of whole tile lists, as `tiles.map(t => t.toJSON())` does. */
  function ToJsonAll(ds: seq<Domino>): (r: seq<DominoData>)
    ensures |r| == |ds|
    ensures forall i :: 0 <= i < |ds| ==> r[i] == ToJson(ds[i])
  {
    if ds == [] then [] else [ToJson(ds[0])] + ToJsonAll(ds[1..])
  }

  function FromJsonAll(data: seq<DominoData>): (r: seq<Domino>)
    ensures |r| == |data|
    ensures forall i :: 0 <= i < |data| ==> r[i] == FromJson(data[i])
  {
    if data == [] then [] else [FromJson(data[0])] + FromJsonAll(data[1..])
  }

  lemma JsonAllRoundTrip(ds: seq<Domino>)
    ensures FromJsonAll(ToJsonAll(ds)) == ds
  {
    var r := FromJsonAll(ToJsonAll(ds));
    assert forall i :: 0 <= i < |ds| ==> r[i] == ds[i] by {
      forall i | 0 <= i < |ds| ensures r[i] == ds[i] { JsonRoundTrip(ds[i]); }
    }
  }

  lemma JsonAllRoundTripData(data: seq<DominoData>)
    ensures ToJsonAll(FromJsonAll(data)) == data
  {
    var r := ToJsonAll(FromJsonAll(data));
    assert forall i :: 0 <= i < |data| ==> r[i] == data[i] by {
      forall i | 0 <= i < |data| ensures r[i] == data[i] { JsonRoundTripData(data[i]); }
    }
  }
}
