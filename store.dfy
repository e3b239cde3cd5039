/** The document store: the users and posts collections, keyed by ids
    handed out in creation order, and the append-only analytics log. */
module Store {
  import opened Wrappers
  import opened Models

  /** The documents of `m` whose ids are below `n`, in id order. */
  function InIdOrder<T>(m: map<nat, T>, n: nat): (r: seq<T>)
    ensures |r| <= n
    ensures forall x :: x in r ==> exists id :: id in m && id < n && m[id] == x
    ensures forall id :: id in m && id < n ==> m[id] in r
  {
    if n == 0 then []
    else
      var init := InIdOrder(m, n - 1);
      if n - 1 in m then init + [m[n - 1]] else init
  }

  class Database {
    var users: map<UserId, User>
    var nextUserId: nat
    var posts: map<PostId, Post>
    var nextPostId: nat
    var analytics: seq<AnalyticsEvent>

    /** Ids are below the next id to hand out and match the document's own
        id; no two users share an email address (the unique index); every
        stored document passed save-time validation. */
    ghost predicate Valid()
      reads this
    {
      && (forall id :: id in users ==> id < nextUserId && users[id].id == id && ValidUser(users[id]))
      && (forall id :: id in posts ==> id < nextPostId && posts[id].id == id && ValidPost(posts[id]))
      && (forall a, b :: a in users && b in users && a != b ==> users[a].email != users[b].email)
    }

    constructor ()
      ensures Valid()
      ensures users == map[] && posts == map[] && analytics == []
      ensures nextUserId == 0 && nextPostId == 0
    {
      users := map[];
      nextUserId := 0;
      posts := map[];
      nextPostId := 0;
      analytics := [];
    }

    /** `User.findOne({ email })`. */
    method FindUserByEmail(email: string) returns (r: Option<UserId>)
      requires Valid()
      ensures r.Some? ==> r.value in users && users[r.value].email == email
      ensures r.None? ==> forall id :: id in users ==> users[id].email != email
    {
      var i := 0;
      while i < nextUserId
        invariant 0 <= i <= nextUserId
        invariant forall id :: id in users && id < i ==> users[id].email != email
      {
        if i in users && users[i].email == email {
          return Some(i);
        }
        i := i + 1;
      }
      return None;
    }

    /** Saving a new user document under a fresh id. */
    method InsertUser(u: User) returns (id: UserId)
      requires Valid() && ValidUser(u)
      requires forall other :: other in users ==> users[other].email != u.email
      modifies this
      ensures Valid()
      ensures id == old(nextUserId) && id !in old(users)
      ensures users == old(users)[id := u.(id := id)] && nextUserId == old(nextUserId) + 1
      ensures posts == old(posts) && nextPostId == old(nextPostId) && analytics == old(analytics)
    {
      id := nextUserId;
      users := users[id := u.(id := id)];
      nextUserId := nextUserId + 1;
    }

    /** Saving a loaded user document back; its email is not changed. */
    method SaveUser(u: User)
      requires Valid() && ValidUser(u)
      requires u.id in users && u.email == users[u.id].email
      modifies this
      ensures Valid()
      ensures users == old(users)[u.id := u]
      ensures nextUserId == old(nextUserId) && posts == old(posts) && nextPostId == old(nextPostId) && analytics == old(analytics)
    {
      users := users[u.id := u];
    }

    /** Saving a new post document under a fresh id. */
    method InsertPost(p: Post) returns (id: PostId)
      requires Valid() && ValidPost(p)
      modifies this
      ensures Valid()
      ensures id == old(nextPostId) && id !in old(posts)
      ensures posts == old(posts)[id := p.(id := id)] && nextPostId == old(nextPostId) + 1
      ensures users == old(users) && nextUserId == old(nextUserId) && analytics == old(analytics)
    {
      id := nextPostId;
      posts := posts[id := p.(id := id)];
      nextPostId := nextPostId + 1;
    }

    /** Saving a loaded post document back. */
    method SavePost(p: Post)
      requires Valid() && ValidPost(p)
      requires p.id in posts
      modifies this
      ensures Valid()
      ensures posts == old(posts)[p.id := p]
      ensures users == old(users) && nextUserId == old(nextUserId) && nextPostId == old(nextPostId) && analytics == old(analytics)
    {
      posts := posts[p.id := p];
    }

    /** `Post.findByIdAndDelete`. */
    method DeletePost(id: PostId)
      requires Valid()
      modifies this
      ensures Valid()
      ensures posts == old(posts) - {id}
      ensures users == old(users) && nextUserId == old(nextUserId) && nextPostId == old(nextPostId) && analytics == old(analytics)
    {
      posts := posts - {id};
    }

    /** `Analytics.create`: the log only grows. */
    method Log(e: AnalyticsEvent)
      requires Valid()
      modifies this
      ensures Valid()
      ensures analytics == old(analytics) + [e]
      ensures users == old(users) && nextUserId == old(nextUserId) && posts == old(posts) && nextPostId == old(nextPostId)
    {
      analytics := analytics + [e];
    }
  }
}
