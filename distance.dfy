/**
 * The distance filter of lib/distance.ts. The Haversine great-circle formula
 * (`calculateDistance`) is floating-point trigonometry and is not computed
 * here: it is a parameter `dist`, and the laws the filter's users may rely on
 * (non-negative, symmetric, zero between equal points) are a predicate that
 * lemmas take as a hypothesis.
 */
module Distance {
  import opened Wrappers
  import opened Seqs
  import opened Schema

  /** calculateDistance(lat1, lon1, lat2, lon2), in miles. */
  type DistanceFn = (real, real, real, real) -> real

  /** The laws of a distance on the sphere that the model relies on. */
  ghost predicate HaversineLaws(dist: DistanceFn)
  {
    (forall a, b, c, d :: dist(a, b, c, d) >= 0.0) &&
    (forall a, b, c, d :: dist(a, b, c, d) == dist(c, d, a, b)) &&
    (forall a, b :: dist(a, b, a, b) == 0.0)
  }

  /** JavaScript truthiness of a nullable number: present and not zero. */
  predicate Truthy(x: Option<real>)
  {
    x.Some? && x.value != 0.0
  }

  /** `post.latitude && post.longitude`: a position the filter is willing to measure. */
  predicate HasCoords(c: Coords)
  {
    Truthy(c.latitude) && Truthy(c.longitude)
  }

  /** The predicate passed to `posts.filter`. */
  function Near<T>(loc: T -> Coords, userLat: real, userLon: real, maxDistance: real, dist: DistanceFn): T -> bool
  {
    (x: T) =>
      HasCoords(loc(x)) &&
      dist(userLat, userLon, loc(x).latitude.value, loc(x).longitude.value) <= maxDistance
  }

  /**
   * filterPostsByDistance: keeps, in order, exactly the posts with truthy
   * coordinates whose distance from the user is at most `maxDistance`
   * (inclusive). `loc` reads a post's coordinates.
   */
  function FilterPostsByDistance<T(!new)>(posts: seq<T>, loc: T -> Coords, userLat: real, userLon: real,
                                          maxDistance: real, dist: DistanceFn): (r: seq<T>)
    ensures IsSubsequence(r, posts)
    ensures forall x :: x in r ==>
      HasCoords(loc(x)) && dist(userLat, userLon, loc(x).latitude.value, loc(x).longitude.value) <= maxDistance
    ensures forall x :: (x in posts && HasCoords(loc(x)) &&
      dist(userLat, userLon, loc(x).latitude.value, loc(x).longitude.value) <= maxDistance) ==> x in r
    ensures forall x :: x in posts && !HasCoords(loc(x)) ==> x !in r
  {
    Filter(posts, Near(loc, userLat, userLon, maxDistance, dist))
  }

  /** Filtering a second time with the same arguments removes nothing more. */
  lemma DistanceFilterIdempotent<T(!new)>(posts: seq<T>, loc: T -> Coords, userLat: real, userLon: real,
                                         maxDistance: real, dist: DistanceFn)
    ensures FilterPostsByDistance(FilterPostsByDistance(posts, loc, userLat, userLon, maxDistance, dist),
                                  loc, userLat, userLon, maxDistance, dist)
         == FilterPostsByDistance(posts, loc, userLat, userLon, maxDistance, dist)
  {
    FilterIdempotent(posts, Near(loc, userLat, userLon, maxDistance, dist));
  }

  /** A post at the user's own (truthy) position is kept for every radius that is not negative. */
  lemma SameSpotKept<T(!new)>(posts: seq<T>, loc: T -> Coords, userLat: real, userLon: real,
                              maxDistance: real, dist: DistanceFn, x: T)
    requires HaversineLaws(dist)
    requires x in posts && loc(x) == Coords(Some(userLat), Some(userLon))
    requires userLat != 0.0 && userLon != 0.0 && maxDistance >= 0.0
    ensures x in FilterPostsByDistance(posts, loc, userLat, userLon, maxDistance, dist)
  {
    assert dist(userLat, userLon, userLat, userLon) == 0.0;
  }

  /** A negative radius keeps nothing, since no distance is negative. */
  lemma NegativeRadiusKeepsNothing<T(!new)>(posts: seq<T>, loc: T -> Coords, userLat: real, userLon: real,
                                           maxDistance: real, dist: DistanceFn)
    requires HaversineLaws(dist) && maxDistance < 0.0
    ensures FilterPostsByDistance(posts, loc, userLat, userLon, maxDistance, dist) == []
  {
    var r := FilterPostsByDistance(posts, loc, userLat, userLon, maxDistance, dist);
    assert forall x :: x !in r;
  }

  /**
   * The radius is the only thing that matters about the comparison: the posts
   * kept within a smaller radius are kept, in the same order, within a larger one.
   */
  lemma {:induction false} RadiusMonotone<T(!new)>(posts: seq<T>, loc: T -> Coords, userLat: real, userLon: real,
                                                  small: real, large: real, dist: DistanceFn)
    requires small <= large
    ensures IsSubsequence(FilterPostsByDistance(posts, loc, userLat, userLon, small, dist),
                          FilterPostsByDistance(posts, loc, userLat, userLon, large, dist))
  {
    var p := Near(loc, userLat, userLon, small, dist);
    var q := Near(loc, userLat, userLon, large, dist);
    FilterFilter(posts, q, p, p);
  }
}
