/**
 * Post creation, POST /api/posts (app/api/posts/route.ts): validation, the
 * expiry rule, the profile location copied onto the post, and the links from
 * the post to the signals it is tagged with. The `posts` and `post_signals`
 * tables are sequences held by a store object.
 */
module PostsCreate {
  import opened Wrappers
  import opened Schema

  /** The JSON body. Absent strings are "", an absent day count is None. */
  datatype CreateRequest = CreateRequest(
    content: string,
    postType: string,
    visibility: string,
    signalIds: seq<Id>,
    expiresInDays: Option<int>)

  /** The author's profile columns read for the location. */
  datatype ProfileLocation = ProfileLocation(city: Option<string>, state: Option<string>,
                                             country: Option<string>, location: Coords)

  /** A row of `post_signals`. */
  datatype PostSignalLink = PostSignalLink(postId: Id, signalId: Id)

  /** The 400 for missing fields, and the 500s for a failed insert. */
  datatype CreateError = MissingFields | PostInsertFailed | LinkInsertFailed

  /** Which insert the datastore refuses, if any. */
  datatype StoreFailure = NoFailure | PostInsertFails | LinkInsertFails

  /** `expires_at`: now plus the given number of whole days, only for a positive count. */
  function ExpiryFor(expiresInDays: Option<int>, now: int): (r: Option<int>)
    ensures r.Some? <==> expiresInDays.Some? && expiresInDays.value > 0
    ensures r.Some? ==> r.value > now && r.value - now == expiresInDays.value * DayMs
  {
    if expiresInDays.Some? && expiresInDays.value > 0 then Some(now + expiresInDays.value * DayMs) else None
  }

  /** The row inserted into `posts`. */
  function NewPost(userId: Id, req: CreateRequest, profile: Option<ProfileLocation>, newId: Id, now: int): Post
  {
    Post(newId, userId, req.content, req.postType,
         if req.visibility == "" then "public" else req.visibility,
         ExpiryFor(req.expiresInDays, now),
         if profile.Some? then profile.value.city else None,
         if profile.Some? then profile.value.state else None,
         if profile.Some? then profile.value.country else None,
         if profile.Some? then profile.value.location else Coords(None, None),
         false, now)
  }

  /** The rows inserted into `post_signals`: one per given signal id, in order. */
  function LinksFor(postId: Id, signalIds: seq<Id>): (r: seq<PostSignalLink>)
    ensures |r| == |signalIds|
    ensures forall i :: 0 <= i < |r| ==> r[i] == PostSignalLink(postId, signalIds[i])
  {
    seq(|signalIds|, i requires 0 <= i < |signalIds| => PostSignalLink(postId, signalIds[i]))
  }

  /**
   * A new post is visible from the moment it is created: it is not archived,
   * and it stays visible exactly until its expiry, if it has one.
   */
  lemma NewPostVisible(userId: Id, req: CreateRequest, profile: Option<ProfileLocation>, newId: Id, now: int, t: int)
    requires now <= t
    ensures PostVisible(NewPost(userId, req, profile, newId, now), now)
    ensures PostVisible(NewPost(userId, req, profile, newId, now), t) <==>
      !(req.expiresInDays.Some? && req.expiresInDays.value > 0 && t >= now + req.expiresInDays.value * DayMs)
  {
  }

  class PostStore {
    var posts: seq<Post>
    var links: seq<PostSignalLink>

    constructor ()
      ensures posts == [] && links == []
    {
      posts := [];
      links := [];
    }

    /**
     * POST /api/posts for the authenticated `userId`. A missing content or
     * post type is refused before anything is written. The post is inserted
     * first; a failure of the link insert afterwards leaves the post in place
     * and reports the error.
     */
    method Create(userId: Id, req: CreateRequest, profile: Option<ProfileLocation>, newId: Id, now: int,
                  failure: StoreFailure) returns (r: Result<Post, CreateError>)
      modifies this
      ensures req.content == "" || req.postType == "" ==>
        r == Err(MissingFields) && posts == old(posts) && links == old(links)
      ensures req.content != "" && req.postType != "" && failure == PostInsertFails ==>
        r == Err(PostInsertFailed) && posts == old(posts) && links == old(links)
      ensures req.content != "" && req.postType != "" && failure != PostInsertFails ==>
        posts == old(posts) + [NewPost(userId, req, profile, newId, now)]
      ensures req.content != "" && req.postType != "" && failure == NoFailure ==>
        r == Ok(NewPost(userId, req, profile, newId, now)) &&
        links == old(links) + LinksFor(newId, req.signalIds)
      ensures req.content != "" && req.postType != "" && failure == LinkInsertFails ==>
        links == old(links) &&
        r == (if |req.signalIds| > 0 then Err(LinkInsertFailed) else Ok(NewPost(userId, req, profile, newId, now)))
    {
      if req.content == "" || req.postType == "" {
        return Err(MissingFields);
      }
      if failure == PostInsertFails {
        return Err(PostInsertFailed);
      }
      var post := NewPost(userId, req, profile, newId, now);
      posts := posts + [post];
      if |req.signalIds| > 0 {
        if failure == LinkInsertFails {
          return Err(LinkInsertFailed);
        }
        links := links + LinksFor(post.id, req.signalIds);
      }
      r := Ok(post);
    }
  }
}
