/**
 * Display-density buckets. The plugin classifies the display's density scale
 * factor into one of six buckets by fixed thresholds and uses the bucket's
 * name as the key of the image URL in the manifest.
 */
module Density {

  datatype Bucket = Ldpi | Mdpi | Hdpi | Xhdpi | Xxhdpi | Xxxhdpi {

    /** The name used as the manifest key. */
    function Name(): string {
      match this
      case Ldpi => "ldpi"
      case Mdpi => "mdpi"
      case Hdpi => "hdpi"
      case Xhdpi => "xhdpi"
      case Xxhdpi => "xxhdpi"
      case Xxxhdpi => "xxxhdpi"
    }

    /** Position of the bucket from the lowest (0) to the highest (5) density. */
    function Rank(): nat {
      match this
      case Ldpi => 0
      case Mdpi => 1
      case Hdpi => 2
      case Xhdpi => 3
      case Xxhdpi => 4
      case Xxxhdpi => 5
    }
  }

  /** The bucket boundaries, lowest first: a density at or above `Thresholds[i]` is above bucket `i`. */
  const Thresholds: seq<real> := [1.0, 1.5, 2.0, 3.0, 4.0]

  /** The six manifest keys a bucket name can be. */
  const BucketNames: set<string> := {"ldpi", "mdpi", "hdpi", "xhdpi", "xxhdpi", "xxxhdpi"}

  /** The bucket of a display whose density scale factor is `density`, tested from the highest threshold down. */
  function DensityName(density: real): (b: Bucket)
    ensures b.Name() in BucketNames
    ensures b.Rank() == CountReached(Thresholds, density)
  {
    if density >= 4.0 then Xxxhdpi
    else if density >= 3.0 then Xxhdpi
    else if density >= 2.0 then Xhdpi
    else if density >= 1.5 then Hdpi
    else if density >= 1.0 then Mdpi
    else Ldpi
  }

  /** How many of the ascending thresholds `ts` the density reaches. */
  function CountReached(ts: seq<real>, density: real): nat
    decreases |ts|
  {
    if ts == [] then 0
    else (if density >= ts[0] then 1 else 0) + CountReached(ts[1..], density)
  }

  /** A higher density never reaches fewer thresholds. */
  lemma {:induction false} CountReachedMonotone(ts: seq<real>, d1: real, d2: real)
    requires d1 <= d2
    ensures CountReached(ts, d1) <= CountReached(ts, d2)
    decreases |ts|
  {
    if ts != [] {
      CountReachedMonotone(ts[1..], d1, d2);
    }
  }

  /** The classification is monotone: a denser display never gets a lower bucket. */
  lemma {:induction false} DensityNameMonotone(d1: real, d2: real)
    requires d1 <= d2
    ensures DensityName(d1).Rank() <= DensityName(d2).Rank()
  {
    CountReachedMonotone(Thresholds, d1, d2);
  }

  /** Buckets have distinct names, so a name identifies its bucket. */
  lemma NameInjective(a: Bucket, b: Bucket)
    requires a.Name() == b.Name()
    ensures a == b
  {
  }

  /** The buckets are contiguous: each one is exactly a half-open interval between two adjacent thresholds. */
  lemma DensityNameIntervals(density: real)
    ensures DensityName(density) == Xxxhdpi <==> 4.0 <= density
    ensures DensityName(density) == Xxhdpi <==> 3.0 <= density < 4.0
    ensures DensityName(density) == Xhdpi <==> 2.0 <= density < 3.0
    ensures DensityName(density) == Hdpi <==> 1.5 <= density < 2.0
    ensures DensityName(density) == Mdpi <==> 1.0 <= density < 1.5
    ensures DensityName(density) == Ldpi <==> density < 1.0
  {
  }

  /** The boundary itself belongs to the higher bucket: 2.0 is xhdpi, anything just below is hdpi. */
  lemma BoundaryExample()
    ensures DensityName(2.0).Name() == "xhdpi"
    ensures DensityName(1.999).Name() == "hdpi"
  {
  }
}
