/** The current user (js/models.js, class User): its construction from the
    API's user record, signup and login, and the favorites it keeps in step
    with the server. Every HTTP exchange is an input: the reply the server
    sent is a parameter, and the request a method sends is a result. */
module Users {
  import opened Wrappers
  import opened Stories

  /** A user record as the API sends it (`data.user`). */
  datatype UserRecord = UserRecord(
    username: string,
    name: string,
    createdAt: string,
    favorites: Option<seq<StoryData>>,
    stories: Option<seq<StoryData>>)

  /** The object given to `new User(...)`; a list left `undefined` takes the
      destructuring default `[]`. */
  datatype UserData = UserData(
    username: string,
    name: string,
    createdAt: string,
    favorites: Option<seq<StoryData>>,
    ownStories: Option<seq<StoryData>>)

  /** What signup, login and session restore pass on: the record's
      `stories` become the user's `ownStories`. */
  function DataOf(user: UserRecord): UserData {
    UserData(user.username, user.name, user.createdAt, user.favorites, user.stories)
  }

  /** An HTTP reply: `resp.ok` and the parsed JSON body. */
  datatype Reply<T> = Reply(ok: bool, body: T)

  /** The body of a signup or login reply: `{user, token}`. */
  datatype AuthBody = AuthBody(user: UserRecord, token: string)

  datatype Verb = Post | Delete

  /** A request to `/users/{username}/favorites/{storyId}` with body `{token}`. */
  datatype FavoriteRequest = FavoriteRequest(verb: Verb, username: string, storyId: string, token: string)

  const FavoriteAdded: string := "Favorite Added!"
  const FavoriteRemoved: string := "Favorite Removed!"

  /** The reply body has a `message` and it is exactly `expected`. */
  predicate Confirms(message: Option<string>, expected: string) {
    message.Some? && message.value == expected
  }

  /** The favorites after `addFavorite(story)` whose reply carried `message`
      (the reply is not looked at when no request was sent). */
  function Favorited(favorites: seq<Story>, story: Story, message: Option<string>): seq<Story> {
    if story.storyId in Ids(favorites) then favorites
    else if Confirms(message, FavoriteAdded) then favorites + [story]
    else favorites
  }

  /** The favorites after `removeFavorite(story)` whose reply carried
      `message`. */
  function Unfavorited(favorites: seq<Story>, story: Story, message: Option<string>): seq<Story> {
    if story.storyId in Ids(favorites) && Confirms(message, FavoriteRemoved) then
      WithoutId(favorites, story.storyId)
    else favorites
  }

  /** The request `addFavorite` sends, or None when the story is already a
      favorite. */
  function AddFavoriteRequest(favorites: seq<Story>, username: string, story: Story, token: string): Option<FavoriteRequest> {
    if story.storyId in Ids(favorites) then None
    else Some(FavoriteRequest(Post, username, story.storyId, token))
  }

  /** The request `removeFavorite` sends, or None when the story is not a
      favorite. */
  function RemoveFavoriteRequest(favorites: seq<Story>, username: string, story: Story, token: string): Option<FavoriteRequest> {
    if story.storyId in Ids(favorites) then Some(FavoriteRequest(Delete, username, story.storyId, token))
    else None
  }

  class User {
    var username: string
    var name: string
    var createdAt: string
    var favorites: seq<Story>
    var ownStories: seq<Story>
    var loginToken: string

    /** The state `new User(data, token)` leaves. */
    ghost predicate BuiltFrom(data: UserData, token: string)
      reads this
    {
      && username == data.username
      && name == data.name
      && createdAt == data.createdAt
      && favorites == MapStories(data.favorites.GetOr([]))
      && ownStories == MapStories(data.ownStories.GetOr([]))
      && loginToken == token
    }

    constructor (data: UserData, token: string)
      ensures BuiltFrom(data, token)
      ensures data.favorites.None? ==> favorites == []
      ensures data.ownStories.None? ==> ownStories == []
    {
      username := data.username;
      name := data.name;
      createdAt := data.createdAt;
      favorites := MapStories(data.favorites.GetOr([]));
      ownStories := MapStories(data.ownStories.GetOr([]));
      loginToken := token;
    }

    /** `User.signup`: throws unless the reply is ok; otherwise a user built
        from the reply's record and token. */
    static method Signup(reply: Reply<AuthBody>) returns (result: Result<User>)
      ensures !reply.ok ==> result == Err("Signup failed")
      ensures reply.ok ==> result.Ok? && fresh(result.value)
                           && result.value.BuiltFrom(DataOf(reply.body.user), reply.body.token)
    {
      if !reply.ok {
        return Err("Signup failed");
      }
      var user := new User(DataOf(reply.body.user), reply.body.token);
      result := Ok(user);
    }

    /** `User.login`: as signup, with its own error message. */
    static method Login(reply: Reply<AuthBody>) returns (result: Result<User>)
      ensures !reply.ok ==> result == Err("Login failed")
      ensures reply.ok ==> result.Ok? && fresh(result.value)
                           && result.value.BuiltFrom(DataOf(reply.body.user), reply.body.token)
    {
      if !reply.ok {
        return Err("Login failed");
      }
      var user := new User(DataOf(reply.body.user), reply.body.token);
      result := Ok(user);
    }

    /** `User.loginViaStoredCredentials`: null (None) when the reply is not
        ok; otherwise a user holding the stored token, not one from the
        reply. */
    static method LoginViaStoredCredentials(token: string, reply: Reply<UserRecord>) returns (user: Option<User>)
      ensures !reply.ok ==> user == None
      ensures reply.ok ==> user.Some? && fresh(user.value)
                           && user.value.BuiltFrom(DataOf(reply.body), token)
    {
      if !reply.ok {
        return None;
      }
      var u := new User(DataOf(reply.body), token);
      user := Some(u);
    }

    /** `addFavorite(story)`: when the story's id is not yet among the
        favorites, sends a POST and appends the story only if the reply's
        message is exactly "Favorite Added!". */
    method AddFavorite(story: Story, message: Option<string>) returns (request: Option<FavoriteRequest>)
      modifies this`favorites
      ensures request == AddFavoriteRequest(old(favorites), username, story, loginToken)
      ensures favorites == Favorited(old(favorites), story, message)
      ensures UniqueIds(old(favorites)) ==> UniqueIds(favorites)
    {
      var favoritesIds := Ids(favorites);
      request := None;
      if story.storyId !in favoritesIds {
        request := Some(FavoriteRequest(Post, username, story.storyId, loginToken));
        if message.Some? {
          if message.value == FavoriteAdded {
            if UniqueIds(favorites) {
              FavoritedKeepsUnique(favorites, story, message);
            }
            favorites := favorites + [story];
          }
        }
      }
    }

    /** `removeFavorite(story)`: when the story's id is among the favorites,
        sends a DELETE and, only if the reply's message is exactly
        "Favorite Removed!", keeps the favorites with a different id. */
    method RemoveFavorite(story: Story, message: Option<string>) returns (request: Option<FavoriteRequest>)
      modifies this`favorites
      ensures request == RemoveFavoriteRequest(old(favorites), username, story, loginToken)
      ensures favorites == Unfavorited(old(favorites), story, message)
      ensures UniqueIds(old(favorites)) ==> UniqueIds(favorites)
    {
      var favoritesIds := Ids(favorites);
      request := None;
      if story.storyId in favoritesIds {
        request := Some(FavoriteRequest(Delete, username, story.storyId, loginToken));
        if message.Some? {
          if message.value == FavoriteRemoved {
            if UniqueIds(favorites) {
              WithoutIdKeepsUnique(favorites, story.storyId);
            }
            favorites := WithoutId(favorites, story.storyId);
          }
        }
      }
    }
  }

  /** Adding never creates a second entry for an id. */
  lemma FavoritedKeepsUnique(favorites: seq<Story>, story: Story, message: Option<string>)
    requires UniqueIds(favorites)
    ensures UniqueIds(Favorited(favorites, story, message))
  {
  }

  /** Once a confirmed add has happened the story is a favorite, and a
      further add, whatever its reply, changes nothing and sends nothing. */
  lemma AddFavoriteIdempotent(favorites: seq<Story>, username: string, story: Story, token: string, message: Option<string>)
    ensures story.storyId in Ids(Favorited(favorites, story, Some(FavoriteAdded)))
    ensures var once := Favorited(favorites, story, Some(FavoriteAdded));
            Favorited(once, story, message) == once
            && AddFavoriteRequest(once, username, story, token) == None
  {
    if story.storyId !in Ids(favorites) {
      IdsAppend(favorites, [story]);
    }
  }

  /** A reply without the exact confirmation leaves the favorites as they
      were, for both operations. */
  lemma UnconfirmedLeavesFavorites(favorites: seq<Story>, story: Story, message: Option<string>)
    ensures !Confirms(message, FavoriteAdded) ==> Favorited(favorites, story, message) == favorites
    ensures !Confirms(message, FavoriteRemoved) ==> Unfavorited(favorites, story, message) == favorites
  {
  }

  /** A confirmed add of a new story appends it at the end and keeps the
      rest in place. */
  lemma ConfirmedAddAppends(favorites: seq<Story>, story: Story)
    requires story.storyId !in Ids(favorites)
    ensures var after := Favorited(favorites, story, Some(FavoriteAdded));
            |after| == |favorites| + 1 && after[..|favorites|] == favorites && after[|favorites|] == story
  {
  }

  /** After a confirmed removal no entry has the story's id, every other
      entry is kept, and when ids were unique exactly one entry is gone. */
  lemma ConfirmedRemoveDrops(favorites: seq<Story>, story: Story)
    ensures var after := Unfavorited(favorites, story, Some(FavoriteRemoved));
            story.storyId !in Ids(after)
            && forall s :: s in favorites && s.storyId != story.storyId ==> s in after
    ensures UniqueIds(favorites) && story.storyId in Ids(favorites) ==>
              |Unfavorited(favorites, story, Some(FavoriteRemoved))| == |favorites| - 1
  {
    if UniqueIds(favorites) && story.storyId in Ids(favorites) {
      WithoutPresentIdDropsOne(favorites, story.storyId);
    }
  }

  /** A confirmed add of a new story followed by a confirmed removal of it
      gives back the favorites as they were, order included. */
  lemma AddThenRemoveRestores(favorites: seq<Story>, story: Story)
    requires story.storyId !in Ids(favorites)
    ensures Unfavorited(Favorited(favorites, story, Some(FavoriteAdded)), story, Some(FavoriteRemoved)) == favorites
  {
    var once := favorites + [story];
    IdsAppend(favorites, [story]);
    WithoutIdAppend(favorites, [story], story.storyId);
    WithoutIdSingle(story, story.storyId);
    WithoutAbsentId(favorites, story.storyId);
  }
}
