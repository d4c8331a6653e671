/**
 * The feed endpoint GET /api/posts (app/api/posts/route.ts): the viewer's own
 * posts for `type=own`; otherwise the "smart" ranking of the 100 most recent
 * visible posts by an additive match score, optionally narrowed to posts by
 * connections and by distance, truncated to 50.
 *
 * The datastore queries are modelled as functions over in-memory tables; the
 * time is one `now` for the whole request.
 */
module PostsFeed {
  import opened Wrappers
  import opened Seqs
  import opened Sorting
  import opened Schema
  import opened Distance

  const CandidateLimit: nat := 100
  const FeedLimit: nat := 50

  /** A fetched post with its linked signals (in link order) and its reaction and comment counts. */
  datatype FeedPost = FeedPost(post: Post, signals: seq<Signal>, reactionCount: nat, commentCount: nat)

  /** A ranked post: the fetched row plus `match_score` and `match_reason`. */
  datatype ScoredPost = ScoredPost(item: FeedPost, matchScore: real, matchReason: string)

  /** The three feeds selected by the `type` query parameter. */
  datatype FeedType = Smart | FromConnections | Own

  /**
   * The `distance` query parameter: absent (or empty), a whole number as
   * parseInt(…, 10) reads it, or text parseInt reads as NaN.
   */
  datatype DistanceParam = NoDistance | Miles(miles: int) | NotANumber

  /** What the endpoint returns: own posts (no score) or a ranked list. */
  datatype FeedResponse = OwnPosts(posts: seq<FeedPost>) | Ranked(ranked: seq<ScoredPost>)

  /** Everything the scoring closure reads about the viewer. */
  datatype Viewer = Viewer(id: Id, activeSignalIds: seq<Id>, connectionUserIds: seq<Id>, now: int)

  /** `searchParams.get('type') || 'smart'`; an unknown value ranks like "smart". */
  function ParseFeedType(param: string): (r: FeedType)
    ensures r == Own <==> param == "own"
    ensures r == FromConnections <==> param == "connections"
  {
    if param == "own" then Own
    else if param == "connections" then FromConnections
    else Smart
  }

  // ---------------------------------------------------------------------------
  // The rows the queries select

  function ActiveFor(viewer: Id, now: int): UserSignal -> bool
  {
    (us: UserSignal) => us.userId == viewer && NotExpired(us.expiresAt, now)
  }

  function SignalIdOf(us: UserSignal): Id { us.signalId }

  /** `userSignalIds`: the signal ids of the viewer's rows that have not expired, in table order. */
  function ActiveSignalIds(rows: seq<UserSignal>, viewer: Id, now: int): (r: seq<Id>)
    ensures forall id :: id in r <==>
      exists us :: us in rows && us.userId == viewer && NotExpired(us.expiresAt, now) && us.signalId == id
  {
    var mine := Filter(rows, ActiveFor(viewer, now));
    var r := Map(mine, SignalIdOf);
    assert forall id :: id in r ==> exists us :: us in mine && us.signalId == id by {
      forall id | id in r ensures exists us :: us in mine && us.signalId == id {
        var i :| 0 <= i < |r| && r[i] == id;
        assert mine[i] in mine;
      }
    }
    assert forall us :: us in mine ==> us.signalId in r by {
      forall us | us in mine ensures us.signalId in r {
        var i :| 0 <= i < |mine| && mine[i] == us;
        assert r[i] == us.signalId;
      }
    }
    r
  }

  function AcceptedWith(viewer: Id): Connection -> bool
  {
    (c: Connection) => c.status == Accepted && Involves(c, viewer)
  }

  function OtherPartyOf(viewer: Id): Connection -> Id
  {
    (c: Connection) => OtherParty(c, viewer)
  }

  /** `connectionUserIds`: the other party of every accepted edge that involves the viewer. */
  function ConnectionUserIds(edges: seq<Connection>, viewer: Id): (r: seq<Id>)
    ensures forall u :: u in r <==>
      exists c :: c in edges && c.status == Accepted && Involves(c, viewer) && OtherParty(c, viewer) == u
  {
    var mine := Filter(edges, AcceptedWith(viewer));
    var r := Map(mine, OtherPartyOf(viewer));
    assert forall u :: u in r ==> exists c :: c in mine && OtherParty(c, viewer) == u by {
      forall u | u in r ensures exists c :: c in mine && OtherParty(c, viewer) == u {
        var i :| 0 <= i < |r| && r[i] == u;
        assert mine[i] in mine;
      }
    }
    assert forall c :: c in mine ==> OtherParty(c, viewer) in r by {
      forall c | c in mine ensures OtherParty(c, viewer) in r {
        var i :| 0 <= i < |mine| && mine[i] == c;
        assert r[i] == OtherParty(c, viewer);
      }
    }
    r
  }

  /**
   * The viewer counts as one of their own connections only through an
   * accepted edge from the viewer to the viewer: the connections feed shows
   * the viewer's posts in no other case.
   */
  lemma ViewerAmongConnections(edges: seq<Connection>, viewer: Id)
    ensures viewer in ConnectionUserIds(edges, viewer) <==>
      exists c :: c in edges && c.status == Accepted && c.requesterId == viewer && c.receiverId == viewer
  {
    if viewer in ConnectionUserIds(edges, viewer) {
      var c :| c in edges && c.status == Accepted && Involves(c, viewer) && OtherParty(c, viewer) == viewer;
      assert c.requesterId == viewer && c.receiverId == viewer;
    }
    if exists c :: c in edges && c.status == Accepted && c.requesterId == viewer && c.receiverId == viewer {
      var c :| c in edges && c.status == Accepted && c.requesterId == viewer && c.receiverId == viewer;
      assert Involves(c, viewer) && OtherParty(c, viewer) == viewer;
    }
  }

  function PostVisibleAt(now: int): FeedPost -> bool
  {
    (fp: FeedPost) => PostVisible(fp.post, now)
  }

  /** Newer first: `order('created_at', { ascending: false })`. */
  function CreatedAt(fp: FeedPost): real { fp.post.createdAt as real }

  /** The candidate query: visible posts, newest first, at most 100. */
  function Candidates(posts: seq<FeedPost>, now: int): (r: seq<FeedPost>)
    ensures |r| <= CandidateLimit
    ensures forall fp :: fp in r ==> fp in posts && PostVisible(fp.post, now)
    ensures NonIncreasing(r, CreatedAt)
    ensures |Filter(posts, PostVisibleAt(now))| <= CandidateLimit ==>
      multiset(r) == multiset(Filter(posts, PostVisibleAt(now)))
    ensures |r| == if |Filter(posts, PostVisibleAt(now))| <= CandidateLimit then |Filter(posts, PostVisibleAt(now))|
                   else CandidateLimit
    ensures forall fp, s :: fp in Filter(posts, PostVisibleAt(now)) && fp !in r && s in r ==>
      CreatedAt(s) >= CreatedAt(fp)
  {
    var visible := Filter(posts, PostVisibleAt(now));
    var sorted := SortDesc(visible, CreatedAt);
    var r := Take(sorted, CandidateLimit);
    TakeIsSubsequence(sorted, CandidateLimit);
    SubsequenceNonIncreasing(r, sorted, CreatedAt);
    SubsequenceMembers(r, sorted);
    SortDescMembers(visible, CreatedAt);
    TakeKeepsLargest(sorted, CandidateLimit, CreatedAt);
    r
  }

  // ---------------------------------------------------------------------------
  // Scoring: the additive score and the first-match reason

  function SignalId(s: Signal): Id { s.id }

  function IsIn(ids: seq<Id>): Id -> bool
  {
    (id: Id) => id in ids
  }

  /** `signalOverlap.length`: linked signal ids (with repetitions) found among the viewer's active ids. */
  function OverlapCount(item: FeedPost, v: Viewer): (n: nat)
    ensures n <= |item.signals|
  {
    |Filter(Map(item.signals, SignalId), IsIn(v.activeSignalIds))|
  }

  /** +50 for the viewer's own post less than a day old, +10 for an older one, 0 for others. */
  function AuthorBoost(p: Post, v: Viewer): real
  {
    if p.userId != v.id then 0.0
    else if v.now - p.createdAt < DayMs then 50.0
    else 10.0
  }

  /** `Math.max(0, 5 - ageInDays)` with the age as a fractional number of days. */
  function Recency(p: Post, v: Viewer): real
  {
    var ageInDays := (v.now - p.createdAt) as real / DayMs as real;
    if 5.0 - ageInDays > 0.0 then 5.0 - ageInDays else 0.0
  }

  /** The match score: the sum of the author, overlap, connection, help-request and recency terms. */
  function Score(item: FeedPost, v: Viewer): real
  {
    AuthorBoost(item.post, v)
    + 10.0 * OverlapCount(item, v) as real
    + (if item.post.userId in v.connectionUserIds then 5.0 else 0.0)
    + (if item.post.postType == "help_request" then 3.0 else 0.0)
    + Recency(item.post, v)
  }

  function MatchesReason(signalLabel: string): string
  {
    "Matches your \"" + signalLabel + "\" signal"
  }

  /**
   * The reason of the first boost that applies, in the order the closure tests
   * them. A signal match names the post's FIRST linked signal, which need not
   * be one of the matching ones.
   */
  function Reason(item: FeedPost, v: Viewer): string
  {
    if item.post.userId == v.id then "Your post"
    else if OverlapCount(item, v) > 0 then MatchesReason(item.signals[0].labelText)
    else if item.post.userId in v.connectionUserIds then "From your connections"
    else if item.post.postType == "help_request" then "Help request"
    else "Suggested for you"
  }

  function Rank(item: FeedPost, v: Viewer): ScoredPost
  {
    ScoredPost(item, Score(item, v), Reason(item, v))
  }

  function RankFor(v: Viewer): FeedPost -> ScoredPost
  {
    (item: FeedPost) => Rank(item, v)
  }

  /**
   * The scoring closure of `allPosts.map`, step by step: `score` and
   * `matchReason` start at 0 and "" and each test adds its boost and sets the
   * reason only while none is set. The result is the additive Score and the
   * first-match Reason.
   */
  method ScorePost(item: FeedPost, v: Viewer) returns (r: ScoredPost)
    ensures r == Rank(item, v)
  {
    var post := item.post;
    var score: real := 0.0;
    var matchReason: string := "";

    if post.userId == v.id {
      var ageInHours := (v.now - post.createdAt) as real / HourMs as real;
      if ageInHours < 24.0 {
        score := score + 50.0;
        matchReason := "Your post";
      } else {
        score := score + 10.0;
        matchReason := "Your post";
      }
    }
    assert score == AuthorBoost(post, v);

    var postSignalIds := Map(item.signals, SignalId);
    var signalOverlap := Filter(postSignalIds, IsIn(v.activeSignalIds));
    if |signalOverlap| > 0 {
      score := score + |signalOverlap| as real * 10.0;
      if matchReason == "" {
        matchReason := MatchesReason(item.signals[0].labelText);
      }
    }

    if post.userId in v.connectionUserIds {
      score := score + 5.0;
      if matchReason == "" {
        matchReason := "From your connections";
      }
    }

    if post.postType == "help_request" {
      score := score + 3.0;
      if matchReason == "" {
        matchReason := "Help request";
      }
    }

    var ageInDays := (v.now - post.createdAt) as real / DayMs as real;
    score := score + (if 0.0 > 5.0 - ageInDays then 0.0 else 5.0 - ageInDays);

    r := ScoredPost(item, score, if matchReason == "" then "Suggested for you" else matchReason);
  }

  /** No post scores below zero: every term is non-negative. */
  lemma ScoreNonNegative(item: FeedPost, v: Viewer)
    ensures Score(item, v) >= 0.0
  {
  }

  /**
   * Older never scores higher: two posts that differ only in creation time
   * score in the order of their age (the author term drops from 50 to 10 and
   * the recency term decreases).
   */
  lemma ScoreAgeMonotone(item: FeedPost, v: Viewer, createdEarlier: int)
    requires createdEarlier <= item.post.createdAt
    ensures Score(item.(post := item.post.(createdAt := createdEarlier)), v) <= Score(item, v)
  {
    var older := item.(post := item.post.(createdAt := createdEarlier));
    assert OverlapCount(older, v) == OverlapCount(item, v);
    var a := (v.now - createdEarlier) as real / DayMs as real;
    var b := (v.now - item.post.createdAt) as real / DayMs as real;
    assert a >= b;
  }

  /**
   * The viewer's own post less than a day old outscores every post by someone
   * else that matches no signal and is not from the future: at least 50
   * against at most 5 + 3 + 5.
   */
  lemma FreshOwnPostFirst(own: FeedPost, other: FeedPost, v: Viewer)
    requires own.post.userId == v.id && 0 <= v.now - own.post.createdAt < DayMs
    requires other.post.userId != v.id && OverlapCount(other, v) == 0
    requires other.post.createdAt <= v.now
    ensures Score(own, v) > Score(other, v)
  {
    var a := (v.now - other.post.createdAt) as real / DayMs as real;
    assert a >= 0.0;
  }

  // ---------------------------------------------------------------------------
  // Ranking and the filters applied after it

  function MatchScore(s: ScoredPost): real { s.matchScore }

  function ScoredCreatedAt(s: ScoredPost): real { s.item.post.createdAt as real }

  function ByConnection(ids: seq<Id>): ScoredPost -> bool
  {
    (s: ScoredPost) => s.item.post.userId in ids
  }

  function ScoredLocation(s: ScoredPost): Coords { s.item.post.location }

  /** `scoredPosts.sort(...)`: ranked by score, highest first, ties in candidate order. */
  function RankCandidates(candidates: seq<FeedPost>, v: Viewer): (r: seq<ScoredPost>)
    ensures |r| == |candidates|
    ensures NonIncreasing(r, MatchScore)
    ensures multiset(r) == multiset(Map(candidates, RankFor(v)))
    ensures forall s :: s in r ==> s.item in candidates
  {
    var scored := Map(candidates, RankFor(v));
    SortDescMembers(scored, MatchScore);
    assert forall s :: s in scored ==> s.item in candidates by {
      forall s | s in scored ensures s.item in candidates {
        var i :| 0 <= i < |candidates| && scored[i] == s;
        assert candidates[i] in candidates;
      }
    }
    SortDesc(scored, MatchScore)
  }

  /** `filteredPosts` after the feed-type filter. */
  function ConnectionFilter(sorted: seq<ScoredPost>, feedType: FeedType, v: Viewer): seq<ScoredPost>
  {
    if feedType == FromConnections then Filter(sorted, ByConnection(v.connectionUserIds)) else sorted
  }

  /** The distance filter applies only when a distance is given and both viewer coordinates are truthy. */
  predicate DistanceApplies(distance: DistanceParam, profile: Option<Coords>)
  {
    distance != NoDistance && profile.Some? && HasCoords(profile.value)
  }

  /**
   * `filteredPosts` after the distance filter. A NaN radius fails every
   * comparison, so it keeps nothing.
   */
  function DistanceStage(posts: seq<ScoredPost>, distance: DistanceParam, profile: Option<Coords>,
                         dist: DistanceFn): (r: seq<ScoredPost>)
    ensures IsSubsequence(r, posts)
    ensures !DistanceApplies(distance, profile) ==> r == posts
    ensures DistanceApplies(distance, profile) && distance.NotANumber? ==> r == []
    ensures DistanceApplies(distance, profile) && distance.Miles? ==> forall s :: s in r <==>
      (s in posts && HasCoords(s.item.post.location) &&
       dist(profile.value.latitude.value, profile.value.longitude.value,
            s.item.post.location.latitude.value, s.item.post.location.longitude.value) <= distance.miles as real)
  {
    SubsequenceReflexive(posts);
    if !DistanceApplies(distance, profile) then posts
    else if distance.NotANumber? then []
    else FilterPostsByDistance(posts, ScoredLocation, profile.value.latitude.value,
                               profile.value.longitude.value, distance.miles as real, dist)
  }

  /** The smart and connections feeds over a candidate list. */
  function RankedFeed(candidates: seq<FeedPost>, v: Viewer, feedType: FeedType, distance: DistanceParam,
                      profile: Option<Coords>, dist: DistanceFn): (r: seq<ScoredPost>)
    ensures |r| <= FeedLimit
    ensures IsSubsequence(r, RankCandidates(candidates, v))
    ensures NonIncreasing(r, MatchScore)
    ensures feedType == FromConnections ==> forall s :: s in r ==> s.item.post.userId in v.connectionUserIds
    ensures DistanceApplies(distance, profile) && distance.Miles? ==> forall s :: s in r ==>
      HasCoords(s.item.post.location) &&
      dist(profile.value.latitude.value, profile.value.longitude.value,
           s.item.post.location.latitude.value, s.item.post.location.longitude.value) <= distance.miles as real
    ensures DistanceApplies(distance, profile) && distance.NotANumber? ==> r == []
    ensures !DistanceApplies(distance, profile) ==> r == Take(ConnectionFilter(RankCandidates(candidates, v), feedType, v), FeedLimit)
    ensures DistanceApplies(distance, profile) ==>
      r == Take(DistanceStage(ConnectionFilter(RankCandidates(candidates, v), feedType, v), distance, profile, dist),
                FeedLimit)
    ensures DistanceApplies(distance, profile) && distance.Miles? && |r| < FeedLimit ==>
      forall s :: (s in ConnectionFilter(RankCandidates(candidates, v), feedType, v) &&
        HasCoords(s.item.post.location) &&
        dist(profile.value.latitude.value, profile.value.longitude.value,
             s.item.post.location.latitude.value, s.item.post.location.longitude.value) <= distance.miles as real) ==>
        s in r
  {
    var sorted := RankCandidates(candidates, v);
    var byType := ConnectionFilter(sorted, feedType, v);
    var near := DistanceStage(byType, distance, profile, dist);
    var r := Take(near, FeedLimit);
    assert IsSubsequence(byType, sorted) by {
      SubsequenceReflexive(sorted);
    }
    assert IsSubsequence(near, byType) by {
      SubsequenceReflexive(byType);
    }
    TakeIsSubsequence(near, FeedLimit);
    SubsequenceTransitive(r, near, byType);
    SubsequenceTransitive(r, byType, sorted);
    SubsequenceNonIncreasing(r, sorted, MatchScore);
    SubsequenceMembers(r, near);
    SubsequenceMembers(near, byType);
    r
  }

  function OwnVisible(viewer: Id, now: int): FeedPost -> bool
  {
    (fp: FeedPost) => fp.post.userId == viewer && PostVisible(fp.post, now)
  }

  /** The `type=own` query: every visible post of the viewer, newest first, with no limit and no score. */
  function OwnFeed(posts: seq<FeedPost>, viewer: Id, now: int): (r: seq<FeedPost>)
    ensures forall fp :: fp in r <==> fp in posts && fp.post.userId == viewer && PostVisible(fp.post, now)
    ensures NonIncreasing(r, CreatedAt)
    ensures multiset(r) == multiset(Filter(posts, OwnVisible(viewer, now)))
  {
    var mine := Filter(posts, OwnVisible(viewer, now));
    var r := SortDesc(mine, CreatedAt);
    SortDescMembers(mine, CreatedAt);
    r
  }

  /**
   * GET /api/posts over the tables. The own feed ignores the distance
   * parameter; the other feeds rank the candidates.
   */
  function Feed(feedType: FeedType, distance: DistanceParam, profile: Option<Coords>, viewer: Id, now: int,
                userSignals: seq<UserSignal>, edges: seq<Connection>, posts: seq<FeedPost>,
                dist: DistanceFn): (r: FeedResponse)
    ensures r.OwnPosts? <==> feedType == Own
    ensures r.OwnPosts? ==> forall fp :: fp in r.posts ==> fp.post.userId == viewer && PostVisible(fp.post, now)
    ensures r.OwnPosts? ==> forall fp :: fp in posts && fp.post.userId == viewer && PostVisible(fp.post, now) ==>
      fp in r.posts
    ensures r.OwnPosts? ==> NonIncreasing(r.posts, CreatedAt)
    ensures r.Ranked? ==> |r.ranked| <= FeedLimit && NonIncreasing(r.ranked, MatchScore)
    ensures r.Ranked? ==> forall s :: s in r.ranked ==> s.item in posts && PostVisible(s.item.post, now)
    ensures r.Ranked? ==>
      (r.ranked == RankedFeed(Candidates(posts, now),
                              Viewer(viewer, ActiveSignalIds(userSignals, viewer, now), ConnectionUserIds(edges, viewer), now),
                              feedType, distance, profile, dist))
  {
    if feedType == Own then OwnPosts(OwnFeed(posts, viewer, now))
    else
      var v := Viewer(viewer, ActiveSignalIds(userSignals, viewer, now), ConnectionUserIds(edges, viewer), now);
      var candidates := Candidates(posts, now);
      var r := RankedFeed(candidates, v, feedType, distance, profile, dist);
      SubsequenceMembers(r, RankCandidates(candidates, v));
      Ranked(r)
  }

  // ---------------------------------------------------------------------------
  // Properties of the ranking

  lemma {:induction false} MapRankKeepsOrder(candidates: seq<FeedPost>, v: Viewer)
    requires NonIncreasing(candidates, CreatedAt)
    ensures NonIncreasing(Map(candidates, RankFor(v)), ScoredCreatedAt)
  {
    var m := Map(candidates, RankFor(v));
    forall i, j | 0 <= i < j < |m| ensures ScoredCreatedAt(m[i]) >= ScoredCreatedAt(m[j]) {
      assert m[i].item == candidates[i] && m[j].item == candidates[j];
    }
  }

  /**
   * Stability of the ranking: for every score value, the posts having that
   * score appear in the ranked list exactly as in the candidate list, hence
   * newest first.
   */
  lemma RankingStable(candidates: seq<FeedPost>, v: Viewer, k: real)
    requires NonIncreasing(candidates, CreatedAt)
    ensures Filter(RankCandidates(candidates, v), KeyIs(MatchScore, k))
         == Filter(Map(candidates, RankFor(v)), KeyIs(MatchScore, k))
    ensures NonIncreasing(Filter(RankCandidates(candidates, v), KeyIs(MatchScore, k)), ScoredCreatedAt)
  {
    var m := Map(candidates, RankFor(v));
    SortDescStable(m, MatchScore, k);
    MapRankKeepsOrder(candidates, v);
    SubsequenceNonIncreasing(Filter(m, KeyIs(MatchScore, k)), m, ScoredCreatedAt);
  }

  /**
   * The connections feed ranks the connection posts as if they alone had been
   * ranked: filtering after the stable sort equals sorting after the filter.
   */
  lemma ConnectionsFeedIsRankingOfConnectionPosts(candidates: seq<FeedPost>, v: Viewer)
    ensures ConnectionFilter(RankCandidates(candidates, v), FromConnections, v)
         == SortDesc(Filter(Map(candidates, RankFor(v)), ByConnection(v.connectionUserIds)), MatchScore)
  {
    FilterSortCommute(Map(candidates, RankFor(v)), MatchScore, ByConnection(v.connectionUserIds));
  }
}
