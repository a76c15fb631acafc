/** The Earth view: the level of detail chosen from the camera distance in the
    frame callbacks, the texture down-scaling, the normalisation of backend
    asteroid records into the props of the asteroid component, and the
    selection highlight. */
module Earth {
  import opened Wrappers
  import opened Numerics
  import Asteroids
  import AsteroidSelector

  // ---------------------------------------------------------------- level of detail

  /** The sphere segment count for a camera distance: 96 close up, 64 at medium range, 32 far. */
  function SegmentsFor(distance: real): (s: nat)
    ensures s == 96 <==> distance < 2.0
    ensures s == 64 <==> 2.0 <= distance < 5.0
    ensures s == 32 <==> distance >= 5.0
  {
    if distance < 2.0 then 96
    else if distance < 5.0 then 64
    else 32
  }

  /** Moving the camera away never increases the detail. */
  lemma SegmentsMonotone(near: real, far: real)
    requires near <= far
    ensures SegmentsFor(far) <= SegmentsFor(near)
  {
  }

  /** The Earth mesh as the frame callbacks see it: `segmentsRef.current`, the segment count of
      the geometry in use, how many geometries have been built after the first, and the
      rotation about the y axis. */
  class EarthView {
    var segments: nat
    var geometrySegments: nat
    var rebuilds: nat
    var rotationY: real

    /** The geometry in use always has the stored segment count, one of the three levels. */
    predicate Valid()
      reads this
    {
      geometrySegments == segments && segments in {32, 64, 96}
    }

    /** The stored count starts at 64, and the first geometry is built with it. */
    constructor ()
      ensures Valid()
      ensures segments == 64 && rebuilds == 0 && rotationY == 0.0
    {
      segments, geometrySegments := 64, 64;
      rebuilds := 0;
      rotationY := 0.0;
    }

    /** One frame callback: rotate by `rotationSpeed·delta`, then build a new geometry only when
        the level for `distance` differs from the stored one. */
    method LodStep(rotationSpeed: real, delta: real, distance: real)
      requires Valid()
      modifies this
      ensures Valid()
      ensures rotationY == old(rotationY) + rotationSpeed * delta
      ensures segments == SegmentsFor(distance)
      ensures old(segments) != SegmentsFor(distance) ==> rebuilds == old(rebuilds) + 1
      ensures old(segments) == SegmentsFor(distance) ==> rebuilds == old(rebuilds)
    {
      rotationY := rotationY + rotationSpeed * delta;
      var newSegments := SegmentsFor(distance);
      if newSegments != segments {
        segments := newSegments;
        geometrySegments := newSegments;
        rebuilds := rebuilds + 1;
      }
    }

    /** A whole frame. Both registered callbacks run with the same camera distance: the second
        repeats the rotation, so the Earth turns twice as fast as `rotationSpeed`, and it never
        rebuilds, because the first has already stored the new level. */
    method Frame(rotationSpeed: real, delta: real, distance: real)
      requires Valid()
      modifies this
      ensures Valid()
      ensures rotationY == old(rotationY) + 2.0 * (rotationSpeed * delta)
      ensures segments == SegmentsFor(distance)
      ensures rebuilds == old(rebuilds) + (if old(segments) != SegmentsFor(distance) then 1 else 0)
    {
      LodStep(rotationSpeed, delta, distance);
      LodStep(rotationSpeed, delta, distance);
    }
  }

  // ---------------------------------------------------------------- texture size

  /** Dividing by an aspect ratio `w/h` is multiplying by `h/w`. */
  lemma DivideByAspect(x: real, w: real, h: real)
    requires w > 0.0 && h > 0.0
    ensures x / (w / h) == x * h / w
  {
  }

  /** A part `x` of `w` scales `h` down: `x·h/w <= h`. */
  lemma ScaledPartAtMost(x: real, w: real, h: real)
    requires 0.0 <= x <= w && w > 0.0 && h >= 0.0
    ensures 0.0 <= x * h / w <= h
  {
    MulMonotone(x, w, h);
    assert x * h / w <= w * h / w;
  }

  /** A factor `q` in [0, 1] shrinks a non-negative number. */
  lemma Shrink(x: real, q: real)
    requires x >= 0.0 && 0.0 <= q <= 1.0
    ensures 0.0 <= x * q <= x
  {
    MulMonotone(q, 1.0, x);
    MulMonotone(0.0, q, x);
  }

  /** When the first cut leaves the height above `limit`, the image is taller than wide and
      than `limit`, and the second cut keeps the width within both the image and `limit`. */
  lemma TallImage(x: real, w: real, h: real, limit: real)
    requires 0.0 < x <= w && x <= limit && h > 0.0
    requires limit < x * (h / w)
    ensures limit < h && w < h
    ensures 0.0 <= limit * (w / h) <= w && limit * (w / h) <= limit
  {
    var up, down := h / w, w / h;
    assert up * w == h;
    assert down * h == w;
    MulMonotone(x, w, up);
    assert limit < h;
    if h <= w {
      assert false;
    }
    if down >= 1.0 {
      MulMonotone(1.0, down, h);
    }
    Shrink(limit, down);
    MulMonotone(limit, h, down);
  }

  /** The first cut: the width becomes at most `maxSize`, and the floored height that follows
      the aspect ratio lies between 0 and the image height; an image that fits keeps its height. */
  lemma FirstCut(imgWidth: int, imgHeight: int, maxSize: int)
    requires imgWidth > 0 && imgHeight > 0 && maxSize > 0
    ensures var height := (MinInt(imgWidth, maxSize) as real / (imgWidth as real / imgHeight as real)).Floor;
            0 <= height <= imgHeight && (imgWidth <= maxSize ==> height == imgHeight)
  {
    var w, h := imgWidth as real, imgHeight as real;
    var x := MinInt(imgWidth, maxSize) as real;
    DivideByAspect(x, w, h);
    ScaledPartAtMost(x, w, h);
    if imgWidth <= maxSize {
      assert x * h / w == h;
    }
  }

  /** The second cut, taken when the first height exceeds `maxSize`: the image is taller than
      `maxSize`, and the floored width that follows the aspect ratio is within both the image
      and `maxSize`. */
  lemma SecondCut(imgWidth: int, imgHeight: int, maxSize: int)
    requires imgWidth > 0 && imgHeight > 0 && maxSize > 0
    requires (MinInt(imgWidth, maxSize) as real / (imgWidth as real / imgHeight as real)).Floor > maxSize
    ensures maxSize < imgHeight
    ensures var width := (maxSize as real * (imgWidth as real / imgHeight as real)).Floor;
            0 <= width <= maxSize && width <= imgWidth
  {
    var w, h, limit := imgWidth as real, imgHeight as real, maxSize as real;
    var x := MinInt(imgWidth, maxSize) as real;
    var y := x / (w / h);
    assert limit < y;
    TallAspect(x, w, h, limit);
    var z := limit * (w / h);
    assert 0.0 <= z && z <= limit && z <= w;
  }

  /** `TallImage` with the first height written as a division by the aspect ratio. */
  lemma TallAspect(x: real, w: real, h: real, limit: real)
    requires 0.0 < x <= w && x <= limit && h > 0.0
    requires limit < x / (w / h)
    ensures limit < h && w < h
    ensures 0.0 <= limit * (w / h) <= w && limit * (w / h) <= limit
  {
    DivideByAspect(x, w, h);
    assert x * h / w == x * (h / w);
    TallImage(x, w, h, limit);
  }

  /** The canvas size `optimizeTexture` draws an image of `imgWidth × imgHeight` pixels into:
      the width is cut to `maxSize`, the height follows the aspect ratio, and a height above
      `maxSize` is cut in turn, with the width following it. */
  method OptimizeTexture(imgWidth: int, imgHeight: int, maxSize: int) returns (width: int, height: int)
    requires imgWidth > 0 && imgHeight > 0 && maxSize > 0
    ensures 0 <= width <= maxSize && width <= imgWidth
    ensures 0 <= height <= maxSize && height <= imgHeight
    ensures imgWidth <= maxSize && imgHeight <= maxSize ==> width == imgWidth && height == imgHeight
  {
    var aspect := imgWidth as real / imgHeight as real;
    width := MinInt(imgWidth, maxSize);
    height := (width as real / aspect).Floor;
    FirstCut(imgWidth, imgHeight, maxSize);
    if height > maxSize {
      SecondCut(imgWidth, imgHeight, maxSize);
      height := maxSize;
      width := (height as real * aspect).Floor;
    }
  }

  // ---------------------------------------------------------------- normalisation

  /** An orbit record of the backend; every field may be missing (an absent `orbit` reads as
      the empty record `{}`). */
  datatype OrbitRecord = OrbitRecord(
    semiMajorAxis: Option<real>,
    eccentricity: Option<real>,
    inclination: Option<real>,
    ascendingNode: Option<real>,
    nodeLongitude: Option<real>,
    perihelionArgument: Option<real>,
    meanAnomaly: Option<real>)

  const EmptyOrbit: OrbitRecord := OrbitRecord(None, None, None, None, None, None, None)

  datatype BackendAsteroid = BackendAsteroid(name: Option<string>, orbit: Option<OrbitRecord>, diameter: Option<real>)

  /** One element of `exampleAsteroids`: the name and the props passed to the asteroid
      component. */
  datatype RenderAsteroid = RenderAsteroid(name: string, props: Asteroids.AsteroidProps)

  /** JavaScript truthiness of a number that may be missing. */
  predicate Truthy(x: Option<real>) {
    x.Some? && x.value != 0.0
  }

  /** `x || fallback`. */
  function Or(x: Option<real>, fallback: real): (r: real)
    ensures Truthy(x) ==> r == x.value
    ensures !Truthy(x) ==> r == fallback
  {
    if Truthy(x) then x.value else fallback
  }

  /** `degToRad`: undefined or null gives 0, a number `d` gives `d·π/180`. */
  function DegToRad(d: Option<real>): (r: real)
    ensures d.None? ==> r == 0.0
    ensures d.Some? ==> r == d.value * PI / 180.0
  {
    if d.None? then 0.0 else d.value * PI / 180.0
  }

  /** The displayed semi-major axis: 0.3 of a truthy value, otherwise 1. */
  function ScaledAxis(a: Option<real>): (r: real)
    ensures Truthy(a) ==> r == 0.3 * a.value
    ensures !Truthy(a) ==> r == 1.0
  {
    if Truthy(a) then a.value * 0.3 else 1.0
  }

  /** The displayed size: `max(0.02, d/300)` for a truthy diameter, otherwise 0.04. */
  function VisualSize(diameter: Option<real>): (r: real)
    ensures r >= 0.02
    ensures !Truthy(diameter) ==> r == 0.04
    ensures Truthy(diameter) && diameter.value >= 6.0 ==> r == diameter.value / 300.0
  {
    if Truthy(diameter) then Max(0.02, diameter.value / 300.0) else 0.04
  }

  /** The orbital speed `1/sqrt(a)` for a truthy axis, otherwise 0.5. A negative axis gives NaN,
      written 0 here: the component's `speed || 1` treats NaN and 0 alike. */
  function OrbitalSpeed(m: MathLib, a: Option<real>): (s: real)
    requires Valid(m)
    ensures !Truthy(a) ==> s == 0.5
    ensures Truthy(a) && a.value > 0.0 ==> s > 0.0 && s * m.sqrt(a.value) == 1.0
    ensures Asteroids.CurrentSpeed(s) > 0.0 || (Truthy(a) && a.value > 0.0 && s < 0.0) || s == 0.5
  {
    if !Truthy(a) then 0.5
    else if a.value > 0.0 then 1.0 / m.sqrt(a.value)
    else 0.0
  }

  /** The decimal digits of `n`, as the template literal writes them. */
  function NatToString(n: nat): (s: string)
    ensures |s| >= 1 && (n >= 10 ==> |s| >= 2)
    ensures forall k :: 0 <= k < |s| ==> '0' <= s[k] <= '9'
    decreases n
  {
    var digit := ['0' + (n % 10) as char];
    if n < 10 then digit else NatToString(n / 10) + digit
  }

  /** Different numbers are written differently. */
  lemma {:induction false} NatToStringInjective(a: nat, b: nat)
    requires NatToString(a) == NatToString(b)
    ensures a == b
    decreases a
  {
    var sa, sb := NatToString(a), NatToString(b);
    if a >= 10 && b >= 10 {
      assert sa[..|sa| - 1] == NatToString(a / 10);
      assert sb[..|sb| - 1] == NatToString(b / 10);
      NatToStringInjective(a / 10, b / 10);
      assert sa[|sa| - 1] == sb[|sb| - 1];
    } else if a < 10 && b < 10 {
      assert sa[0] == sb[0];
    }
  }

  /** The name of the `index`-th record: its own when truthy, otherwise `NEO-index`. */
  function DisplayName(name: Option<string>, index: nat): (r: string)
    ensures name.Some? && name.value != "" ==> r == name.value
    ensures name.None? || name.value == "" ==> r == "NEO-" + NatToString(index)
  {
    if name.Some? && name.value != "" then name.value else "NEO-" + NatToString(index)
  }

  /** The mapping of one backend record at position `index`, with the random colour `color`. */
  function NormalizeOne(m: MathLib, a: BackendAsteroid, index: nat, color: string): (r: RenderAsteroid)
    requires Valid(m)
  {
    var o := a.orbit.GetOr(EmptyOrbit);
    RenderAsteroid(
      DisplayName(a.name, index),
      Asteroids.AsteroidProps(
        ScaledAxis(o.semiMajorAxis),
        Or(o.eccentricity, 0.1),
        DegToRad(Some(Or(o.inclination, 0.0))),
        DegToRad(Some(if Truthy(o.ascendingNode) then o.ascendingNode.value else Or(o.nodeLongitude, 0.0))),
        DegToRad(Some(Or(o.perihelionArgument, 0.0))),
        if Truthy(o.meanAnomaly) then o.meanAnomaly.value else 0.0,
        VisualSize(a.diameter),
        color,
        OrbitalSpeed(m, o.semiMajorAxis)))
  }

  /** The single static record used when the backend list is empty. */
  function Fallback(color: string): RenderAsteroid {
    RenderAsteroid("NEO-Example", Asteroids.AsteroidProps(1.5, 0.2, 0.12, 0.5, 1.2, 0.0, 0.03, color, 0.5))
  }

  /** The random colour of the `k`-th record; randomness is a parameter of the model. */
  type Palette = nat -> string

  /** `exampleAsteroids`: one record per backend record, in order, or the fallback alone. */
  function Normalize(m: MathLib, records: seq<BackendAsteroid>, colorOf: Palette): (r: seq<RenderAsteroid>)
    requires Valid(m)
    ensures |records| == 0 ==> r == [Fallback(colorOf(0))]
    ensures |records| > 0 ==> |r| == |records|
    ensures |records| > 0 ==> forall k :: 0 <= k < |r| ==> r[k] == NormalizeOne(m, records[k], k, colorOf(k))
    decreases |records|
  {
    if |records| == 0 then [Fallback(colorOf(0))]
    else seq(|records|, k requires 0 <= k < |records| => NormalizeOne(m, records[k], k, colorOf(k)))
  }

  /** The list is never empty, every size is at least 0.02, every eccentricity is non-zero, and
      every name is non-empty. */
  lemma NormalizedRecordsUsable(m: MathLib, records: seq<BackendAsteroid>, colorOf: Palette)
    requires Valid(m)
    ensures var r := Normalize(m, records, colorOf);
            && |r| >= 1
            && forall k :: 0 <= k < |r| ==>
                 r[k].props.size >= 0.02 && r[k].props.eccentricity != 0.0 && r[k].name != ""
  {
  }

  /** A missing or zero eccentricity becomes 0.1, so a circular orbit is drawn as an ellipse. */
  lemma ZeroEccentricityReplaced(m: MathLib, a: BackendAsteroid, index: nat, color: string)
    requires Valid(m)
    requires a.orbit.None? || !Truthy(a.orbit.value.eccentricity)
    ensures NormalizeOne(m, a, index, color).props.eccentricity == 0.1
  {
  }

  /** Angles given in degrees are converted to radians, except the mean anomaly, which is copied
      as it is: the same value 0 < d gives `d·π/180` as inclination but `d` as mean anomaly. */
  lemma MeanAnomalyNotConverted(m: MathLib, d: real, color: string)
    requires Valid(m) && d != 0.0
    ensures var o := EmptyOrbit.(inclination := Some(d), meanAnomaly := Some(d));
            var r := NormalizeOne(m, BackendAsteroid(None, Some(o), None), 0, color);
            r.props.inclination == d * PI / 180.0 && r.props.meanAnomaly == d
  {
  }

  /** Two records without a name, at different positions, get different names. */
  lemma DefaultNamesDistinct(m: MathLib, records: seq<BackendAsteroid>, colorOf: Palette, j: nat, k: nat)
    requires Valid(m) && j < k < |records|
    requires records[j].name.None? && records[k].name.None?
    ensures Normalize(m, records, colorOf)[j].name != Normalize(m, records, colorOf)[k].name
  {
    var r := Normalize(m, records, colorOf);
    if r[j].name == r[k].name {
      var nj := NatToString(j);
      var nk := NatToString(k);
      assert "NEO-" + nj == "NEO-" + nk;
      assert nj == ("NEO-" + nj)[4..];
      NatToStringInjective(j, k);
    }
  }

  // ---------------------------------------------------------------- selection highlight

  /** `isSelected`: the selected asteroid's name equals the rendered one. */
  predicate IsSelected(selected: Option<AsteroidSelector.Asteroid>, r: RenderAsteroid) {
    selected.Some? && selected.value.name == r.name
  }

  /** With distinct rendered names, at most one asteroid is highlighted. */
  lemma AtMostOneSelected(selected: Option<AsteroidSelector.Asteroid>, rendered: seq<RenderAsteroid>, j: nat, k: nat)
    requires j < k < |rendered| && rendered[j].name != rendered[k].name
    ensures !(IsSelected(selected, rendered[j]) && IsSelected(selected, rendered[k]))
  {
  }

  /** A record that carries its own name is highlighted exactly when that name is selected. */
  lemma NamedRecordHighlighted(m: MathLib, records: seq<BackendAsteroid>, colorOf: Palette,
                               selected: AsteroidSelector.Asteroid, k: nat)
    requires Valid(m) && k < |records|
    requires records[k].name.Some? && records[k].name.value != ""
    ensures IsSelected(Some(selected), Normalize(m, records, colorOf)[k]) <==> selected.name == records[k].name.value
  {
  }
}
