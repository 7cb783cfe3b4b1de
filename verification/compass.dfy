/** Wind direction: `getWindDirection` (weather.php:384-422) turns the
    stored degree value into a Hungarian compass abbreviation through a
    chain of half-open ranges. The first test, `$tmp >= 349 && $tmp < 11`,
    can never hold, so degrees below 11 or from 349 on match no branch and
    the property keeps its numeric value. The model reproduces that. */
module Compass {
  import opened Wrappers

  /** The `windDirection` property: "" until the payload sets a degree
      value, then an integer, then (after `getWindDirection`) possibly a label. */
  datatype Wind = Unset | Degrees(deg: int) | Label(name: string)

  /** The label of the North branch, which the code never reaches. */
  const North: string := "É"

  /** Lower ends of the sixteen arcs, in the order of the `else if` chain;
      arc `i` (for `i < 15`) is `[ArcStarts[i], ArcStarts[i + 1])` and carries
      `ArcLabels[i]`. */
  const ArcStarts: seq<int> :=
    [11, 34, 56, 79, 101, 124, 146, 169, 191, 214, 236, 259, 281, 304, 326, 349]

  const ArcLabels: seq<string> :=
    ["ÉÉK", "ÉK", "KÉK", "K", "KDK", "DK", "DDK", "D",
     "DDNY", "DNY", "NYDNY", "NY", "NYÉNY", "ÉNY", "ÉÉNY"]

  /** The `if`/`else if` chain on an integer degree value, as written: `None`
      when no branch fires. A label is produced exactly on `[11, 349)`, it is
      the label of the one arc containing the value, and it is never North. */
  function CompassLabel(d: int): (r: Option<string>)
    ensures r.Some? <==> ArcStarts[0] <= d < ArcStarts[15]
    ensures forall i :: 0 <= i < |ArcLabels| && ArcStarts[i] <= d < ArcStarts[i + 1] ==>
              r == Some(ArcLabels[i])
    ensures r != Some(North)
  {
    if d >= 349 && d < 11 then Some(North)
    else if d >= 11 && d < 34 then Some("ÉÉK")
    else if d >= 34 && d < 56 then Some("ÉK")
    else if d >= 56 && d < 79 then Some("KÉK")
    else if d >= 79 && d < 101 then Some("K")
    else if d >= 101 && d < 124 then Some("KDK")
    else if d >= 124 && d < 146 then Some("DK")
    else if d >= 146 && d < 169 then Some("DDK")
    else if d >= 169 && d < 191 then Some("D")
    else if d >= 191 && d < 214 then Some("DDNY")
    else if d >= 214 && d < 236 then Some("DNY")
    else if d >= 236 && d < 259 then Some("NYDNY")
    else if d >= 259 && d < 281 then Some("NY")
    else if d >= 281 && d < 304 then Some("NYÉNY")
    else if d >= 304 && d < 326 then Some("ÉNY")
    else if d >= 326 && d < 349 then Some("ÉÉNY")
    else None
  }

  /** `getWindDirection` on the property: a degree value inside one of the
      reachable arcs becomes that arc's label; everything else (no value yet,
      a label already, or a degree in the North range or outside [0, 360))
      is left exactly as it was. */
  function ApplyCompass(w: Wind): (r: Wind)
    ensures w.Degrees? && ArcStarts[0] <= w.deg < ArcStarts[15] ==>
              r.Label? && CompassLabel(w.deg) == Some(r.name)
    ensures !(w.Degrees? && ArcStarts[0] <= w.deg < ArcStarts[15]) ==> r == w
    ensures !(r.Degrees? && ArcStarts[0] <= r.deg < ArcStarts[15])
  {
    match w
    case Degrees(d) =>
      (match CompassLabel(d)
       case Some(name) => Label(name)
       case None => w)
    case _ => w
  }

  /** Applying `getWindDirection` a second time changes nothing. */
  lemma ApplyCompassIdempotent(w: Wind)
    ensures ApplyCompass(ApplyCompass(w)) == ApplyCompass(w)
  {
  }

  /** The same decision made from the sorted boundary table instead of the
      branch chain: scan the arcs in order and stop at the first containing
      `d`. It agrees with the chain on every integer. */
  method LookupArc(d: int) returns (r: Option<string>)
    ensures r == CompassLabel(d)
  {
    var i := 0;
    while i < |ArcLabels|
      invariant 0 <= i <= |ArcLabels|
      invariant forall j :: 0 <= j < i ==> !(ArcStarts[j] <= d < ArcStarts[j + 1])
      invariant i > 0 ==> ArcStarts[i] <= d || d < ArcStarts[0]
    {
      if ArcStarts[i] <= d < ArcStarts[i + 1] {
        return Some(ArcLabels[i]);
      }
      i := i + 1;
    }
    return None;
  }

  // ------------------------------------------------- the intended rose

  /** All sixteen labels clockwise from North. */
  const RoseLabels: seq<string> := [North] + ArcLabels

  /** The intended rose, as an independent arithmetic definition: sixteen
      sectors of 22.5 degrees centred on the compass points, with boundaries
      rounded to the integers the chain uses, so that [349, 360) and [0, 11)
      together form North. The sector of `d` is the number of boundaries
      `(45 k + 23) / 2` at or below it, modulo 16. */
  function IntendedLabel(d: int): (r: string)
    ensures r in RoseLabels
  {
    var a := d % 360;
    RoseLabels[((2 * a + 23) / 45) % 16]
  }

  /** The chain's boundaries are exactly the rounded sector boundaries. */
  lemma ArcStartsAreSectorBoundaries()
    ensures forall k :: 0 <= k < |ArcStarts| ==> ArcStarts[k] == (45 * k + 23) / 2
  {
  }

  /** The sector arithmetic: on [0, 360) the sector number is 1..15 exactly
      on the chain's reachable range, where the value lies in arc `k - 1`,
      and 0 or 16 (both North) elsewhere. */
  lemma SectorOf(d: int) returns (k: int)
    requires 0 <= d < 360
    ensures k == (2 * d + 23) / 45
    ensures ArcStarts[0] <= d < ArcStarts[15] ==>
              1 <= k <= 15 && k % 16 == k && ArcStarts[k - 1] <= d < ArcStarts[k]
    ensures !(ArcStarts[0] <= d < ArcStarts[15]) ==> k % 16 == 0
  {
    k := (2 * d + 23) / 45;
    assert 45 * k <= 2 * d + 23 < 45 * k + 45;
    ArcStartsAreSectorBoundaries();
    if ArcStarts[0] <= d < ArcStarts[15] {
      assert 1 <= k <= 15;
      var i := k - 1;
      assert ArcStarts[i] == (45 * i + 23) / 2 && ArcStarts[i + 1] == (45 * i + 68) / 2;
    } else {
      assert k == 0 || k == 16;
    }
  }

  /** Where the code and the intent agree and where they part: on [11, 349)
      the chain yields the intended label; on the North range of [0, 360)
      the intended label is North while the chain yields nothing. */
  lemma CompassAgreesWithIntentOffNorth(d: int)
    requires 0 <= d < 360
    ensures ArcStarts[0] <= d < ArcStarts[15] ==> CompassLabel(d) == Some(IntendedLabel(d))
    ensures !(ArcStarts[0] <= d < ArcStarts[15]) ==>
              CompassLabel(d) == None && IntendedLabel(d) == North
  {
    var k := SectorOf(d);
    assert d % 360 == d;
    assert IntendedLabel(d) == RoseLabels[k % 16];
    if ArcStarts[0] <= d < ArcStarts[15] {
      var i := k - 1;
      assert RoseLabels[k] == ArcLabels[i];
      assert CompassLabel(d) == Some(ArcLabels[i]);
    } else {
      assert IntendedLabel(d) == RoseLabels[0];
    }
  }

  /** Boundary values of the chain, including the North range it misses. */
  lemma CompassExamples()
    ensures CompassLabel(11) == Some("ÉÉK")
    ensures CompassLabel(33) == Some("ÉÉK")
    ensures CompassLabel(34) == Some("ÉK")
    ensures CompassLabel(90) == Some("K")
    ensures CompassLabel(348) == Some("ÉÉNY")
    ensures CompassLabel(349) == None
    ensures CompassLabel(0) == None
    ensures CompassLabel(10) == None
    ensures CompassLabel(360) == None
    ensures CompassLabel(-5) == None
  {
  }
}
