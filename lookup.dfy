/**
 * The directional filter repository of hrtfs_code_bind.py: measured source
 * positions (azimuth, elevation, radius) with one left/right impulse-response
 * pair each, and the nearest-direction lookup over them.
 */
module Lookup {

  /** One row of SourcePosition: azimuth and elevation in degrees, and radius. */
  datatype Position = Position(az: real, el: real, r: real)

  /** The left- and right-ear impulse responses of one measurement. */
  datatype IrPair = IrPair(left: seq<real>, right: seq<real>)

  /**
   * The database as loaded: `sourcePos` (Mpos rows) and `irAll` (Mpos x 2 x Nir),
   * every impulse response `nir` samples long.
   */
  datatype Database = Database(sourcePos: seq<Position>, irAll: seq<IrPair>, nir: nat)
  {
    /**
     * What the startup code relies on before rendering: at least one position
     * (argmin fails on none), one IR pair per position, and a common IR length
     * of at least one sample (the input tail holds M_ir - 1 samples, and a
     * buffer of negative length cannot be allocated).
     */
    predicate Valid()
    {
      && 0 < |sourcePos| == |irAll|
      && 1 <= nir
      && forall i :: 0 <= i < |irAll| ==> |irAll[i].left| == nir && |irAll[i].right| == nir
    }
  }

  function Product(a: real, b: real): real { a * b }

  lemma ProductPositive(a: real, b: real)
    requires (a > 0.0 && b > 0.0) || (a < 0.0 && b < 0.0)
    ensures Product(a, b) > 0.0
  {
  }

  function Square(a: real): real { Product(a, a) }

  /** A real square is non-negative, and zero only for zero. */
  lemma SquareSign(a: real)
    ensures Square(a) >= 0.0
    ensures a != 0.0 ==> Square(a) > 0.0
  {
    if a != 0.0 {
      ProductPositive(a, a);
    } else {
      assert Product(a, a) == 0.0;
    }
  }

  /**
   * (az_i - az)^2 + (el_i - el)^2: the radius column plays no part; zero
   * exactly when the stored direction is the queried one.
   */
  function SquaredDistance(p: Position, az: real, el: real): (d: real)
    ensures d >= 0.0
    ensures d == 0.0 <==> p.az == az && p.el == el
  {
    SquareSign(p.az - az);
    SquareSign(p.el - el);
    Square(p.az - az) + Square(p.el - el)
  }

  /** argmin of the distance over the first k positions; the first minimum wins. */
  function ArgminPrefix(pos: seq<Position>, az: real, el: real, k: nat): (i: nat)
    requires 1 <= k <= |pos|
    ensures i < k
    ensures forall j :: 0 <= j < k ==> SquaredDistance(pos[i], az, el) <= SquaredDistance(pos[j], az, el)
    ensures forall j :: 0 <= j < i ==> SquaredDistance(pos[i], az, el) < SquaredDistance(pos[j], az, el)
  {
    if k == 1 then 0
    else
      var best := ArgminPrefix(pos, az, el, k - 1);
      if SquaredDistance(pos[k - 1], az, el) < SquaredDistance(pos[best], az, el) then k - 1 else best
  }

  /**
   * get_index_nearest(az, el): the index of the stored position nearest to
   * (az, el); among equally near positions the first one.
   */
  function GetIndexNearest(pos: seq<Position>, az: real, el: real): (i: nat)
    requires 0 < |pos|
    ensures i < |pos|
    ensures forall j :: 0 <= j < |pos| ==> SquaredDistance(pos[i], az, el) <= SquaredDistance(pos[j], az, el)
    ensures forall j :: 0 <= j < i ==> SquaredDistance(pos[i], az, el) < SquaredDistance(pos[j], az, el)
  {
    ArgminPrefix(pos, az, el, |pos|)
  }

  /**
   * A query that exactly matches a stored direction returns a position with
   * that direction, and no later than the first such entry.
   */
  lemma ExactMatchIsFound(pos: seq<Position>, az: real, el: real, j: nat)
    requires j < |pos|
    requires pos[j].az == az && pos[j].el == el
    ensures var i := GetIndexNearest(pos, az, el);
      pos[i].az == az && pos[i].el == el && i <= j
  {
    var i := GetIndexNearest(pos, az, el);
    assert SquaredDistance(pos[j], az, el) == 0.0;
    assert SquaredDistance(pos[i], az, el) == 0.0;
  }

  lemma SameDirectionSameDistance(p: Position, q: Position, az: real, el: real)
    requires p.az == q.az && p.el == q.el
    ensures SquaredDistance(p, az, el) == SquaredDistance(q, az, el)
  {
  }

  /** Radii are ignored: positions that differ only in radius give the same prefix argmin. */
  lemma {:induction false} ArgminIgnoresRadius(pos: seq<Position>, pos': seq<Position>, az: real, el: real, k: nat)
    requires |pos| == |pos'| && 1 <= k <= |pos|
    requires forall j :: 0 <= j < |pos| ==> pos[j].az == pos'[j].az && pos[j].el == pos'[j].el
    ensures ArgminPrefix(pos, az, el, k) == ArgminPrefix(pos', az, el, k)
  {
    if k > 1 {
      ArgminIgnoresRadius(pos, pos', az, el, k - 1);
      var best := ArgminPrefix(pos, az, el, k - 1);
      SameDirectionSameDistance(pos[k - 1], pos'[k - 1], az, el);
      SameDirectionSameDistance(pos[best], pos'[best], az, el);
    }
  }

  /** The lookup does not depend on the radius column. */
  lemma NearestIgnoresRadius(pos: seq<Position>, pos': seq<Position>, az: real, el: real)
    requires 0 < |pos| == |pos'|
    requires forall j :: 0 <= j < |pos| ==> pos[j].az == pos'[j].az && pos[j].el == pos'[j].el
    ensures GetIndexNearest(pos, az, el) == GetIndexNearest(pos', az, el)
  {
    ArgminIgnoresRadius(pos, pos', az, el, |pos|);
  }

  /** get_ir_pair(ind): the left and right impulse responses of entry `ind`. */
  function GetIrPair(db: Database, ind: nat): (p: IrPair)
    requires db.Valid() && ind < |db.irAll|
    ensures |p.left| == db.nir && |p.right| == db.nir
  {
    db.irAll[ind]
  }

  /** The result of load_hrtf_for: the IR pair, its index and the position it was measured at. */
  datatype Loaded = Loaded(pair: IrPair, idx: nat, usedPos: Position)

  /**
   * load_hrtf_for(az, el): the filters of the stored direction nearest to
   * (az, el), with that entry's index and position.
   */
  function LoadHrtfFor(db: Database, az: real, el: real): (r: Loaded)
    requires db.Valid()
    ensures r.idx < |db.irAll|
    ensures r.pair == db.irAll[r.idx] && r.usedPos == db.sourcePos[r.idx]
    ensures |r.pair.left| == db.nir && |r.pair.right| == db.nir
    ensures forall j :: 0 <= j < |db.sourcePos| ==>
      SquaredDistance(r.usedPos, az, el) <= SquaredDistance(db.sourcePos[j], az, el)
    ensures forall j :: 0 <= j < r.idx ==>
      SquaredDistance(r.usedPos, az, el) < SquaredDistance(db.sourcePos[j], az, el)
  {
    var idx := GetIndexNearest(db.sourcePos, az, el);
    Loaded(GetIrPair(db, idx), idx, db.sourcePos[idx])
  }
}
