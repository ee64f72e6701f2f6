/**
 * `GetBand`: the E-UTRA operating band whose downlink EARFCN range (Table
 * 5.7.3-1 in section 5.7.3 of 3GPP TS 36.101) holds a given downlink EARFCN,
 * or an error when no band of the table does.
 */
module LteBands {
  /** Go's `int32`. */
  type int32 = x: int | -0x8000_0000 <= x < 0x8000_0000

  /** A band of the table: its ID and its downlink EARFCN range, `startEarfcnDl` and the `countEarfcn` after it. */
  datatype LteBand = LteBand(id: int32, startEarfcnDl: int32, countEarfcn: int32)
  {
    /** Whether the band's downlink range holds the EARFCN. */
    predicate Holds(earfcnDl: int) {
      startEarfcnDl <= earfcnDl < startEarfcnDl + countEarfcn
    }
  }

  /** The outcome of a lookup: a band and no error, or an error and no band. */
  datatype BandResult = Band(band: LteBand) | NoMatchingBand

  /** The bands the lookup table holds, in table order, with their ranges from TS 36.101. */
  function Bands(): seq<LteBand> {
    [ LteBand(1, 0, 600),
      LteBand(2, 600, 600),
      LteBand(40, 38650, 1000),
      LteBand(43, 43590, 2000) ]
  }

  /** The first band of the table whose range holds the EARFCN. */
  function Lookup(table: seq<LteBand>, earfcnDl: int): (r: BandResult)
    ensures r.Band? <==> exists k :: 0 <= k < |table| && table[k].Holds(earfcnDl)
    ensures r.Band? ==> exists k :: 0 <= k < |table| && table[k] == r.band && r.band.Holds(earfcnDl)
                                 && forall j :: 0 <= j < k ==> !table[j].Holds(earfcnDl)
  {
    if table == [] then NoMatchingBand
    else if table[0].Holds(earfcnDl) then Band(table[0])
    else
      var r := Lookup(table[1..], earfcnDl);
      if r.Band? then
        var k :| 0 <= k < |table[1..]| && table[1..][k] == r.band && r.band.Holds(earfcnDl)
                 && forall j :: 0 <= j < k ==> !table[1..][j].Holds(earfcnDl);
        assert table[k + 1] == r.band;
        r
      else
        r
  }

  /** `GetBand(earfcndl)`: the band holding the downlink EARFCN, or the "no matching band" error. */
  function GetBand(earfcnDl: int32): (r: BandResult)
    ensures r.Band? <==> exists k :: 0 <= k < |Bands()| && Bands()[k].Holds(earfcnDl)
    ensures r.Band? ==> r.band in Bands() && r.band.Holds(earfcnDl)
  {
    Lookup(Bands(), earfcnDl)
  }

  /** The ranges of the table are ascending and do not overlap. */
  lemma BandsDisjoint(i: int, j: int)
    requires 0 <= i < j < |Bands()|
    ensures Bands()[i].startEarfcnDl + Bands()[i].countEarfcn <= Bands()[j].startEarfcnDl
  {
  }

  /** So the band found is the only one of the table that holds the EARFCN. */
  lemma GetBandUnique(earfcnDl: int32, band: LteBand)
    requires band in Bands() && band.Holds(earfcnDl)
    ensures GetBand(earfcnDl) == Band(band)
  {
    var r := GetBand(earfcnDl);
    var i :| 0 <= i < |Bands()| && Bands()[i] == band;
    var j :| 0 <= j < |Bands()| && Bands()[j] == r.band;
    if i < j {
      BandsDisjoint(i, j);
    } else if j < i {
      BandsDisjoint(j, i);
    }
  }

  /** The points `TestGetBand` pins: the edges of bands 1 and 43, and points of bands 2 and 40. */
  lemma GetBandTestPoints()
    ensures GetBand(0).Band? && GetBand(0).band.id == 1
    ensures GetBand(599).Band? && GetBand(599).band.id == 1
    ensures GetBand(600).Band? && GetBand(600).band.id == 2
    ensures GetBand(749).Band? && GetBand(749).band.id == 2
    ensures GetBand(38650).Band? && GetBand(38650).band.id == 40
    ensures GetBand(43590).Band? && GetBand(43590).band.id == 43
    ensures GetBand(45589).Band? && GetBand(45589).band.id == 43
  {
    GetBandUnique(0, Bands()[0]);
    GetBandUnique(599, Bands()[0]);
    GetBandUnique(600, Bands()[1]);
    GetBandUnique(749, Bands()[1]);
    GetBandUnique(38650, Bands()[2]);
    GetBandUnique(43590, Bands()[3]);
    GetBandUnique(45589, Bands()[3]);
  }

  /** No band holds a negative EARFCN. */
  lemma GetBandNegative(earfcnDl: int32)
    requires earfcnDl < 0
    ensures GetBand(earfcnDl) == NoMatchingBand
  {
  }

  /** The points `TestGetBandError` pins: -1, and the two EARFCNs just past band 43. */
  lemma GetBandErrorPoints()
    ensures GetBand(-1) == NoMatchingBand
    ensures GetBand(45590) == NoMatchingBand
    ensures GetBand(45591) == NoMatchingBand
  {
    GetBandNegative(-1);
  }
}
